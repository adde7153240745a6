# A verified model of the nest-realtor-api core

This project models the core of a NestJS real-estate listing backend in Dafny. Realtors create and manage
home listings. Buyers browse them with filters and send inquiries. A product key gates self-registration
as a REALTOR or ADMIN.

The model covers four parts:

- **Search filter** (`home.controller.ts`, `HomeRoutes`): optional query strings become a
  `{city?, price?{gte?, lte?}, propertyType?}` filter. `Homes.Matches` spells out what the store's
  `where: filter` selects.
- **Home service** (`home.service.ts`, `Homes`): search, lookup by id, owner lookup and a home's
  messages are functions over the tables. Create, partial update, the manual cascade delete and
  inquiries are methods of `HomeService` that change an in-memory `Store.Database`.
- **Ownership gate** (`home.controller.ts`, `HomeRoutes`): update, delete and the message list look up
  the home's realtor and refuse a caller who is not that realtor. The per-route role lists are modelled too.
- **Credentials** (`auth.service.ts` and `auth.controller.ts`, `Auth` and `AuthRoutes`): signup refuses a
  taken email. Signin gives one error for an unknown email and for a wrong password. A non-BUYER signup
  needs a product key, and a generated key opens the gate for its own email and role only.

Stand-ins for the collaborators:

- **Store.** `Store.Database` holds `users` and `homes` (maps from id to row), `images` (a sequence of
  `{url, homeId}`), `messages` (a sequence of `{realtorId, buyerId, homeId, message}`) and two id
  counters. `Valid()` says that ids are positive keys below the counters, that emails are unique, and
  that every home's realtor, every image's home and every message's buyer and realtor exist.
- **bcrypt.** A `Bcrypt.Digest` remembers its plaintext and salt. `Compare(s, d)` holds iff `d` was
  produced from `s`, which `Bcrypt.CompareIffHashed` proves. The random salt is a parameter.
- **Tokens.** A token is its claims record `{name, id}`.
- **Secrets.** `PRODUCT_SECRET_KEY` is a constant field of `AuthService`.
- **parseFloat** is a function parameter of the filter builder.

Files: `wrappers.dfy`, `bcrypt.dfy`, `store.dfy`, `home_service.dfy`, `home_controller.dfy`,
`auth_service.dfy`, `auth_controller.dfy`.

## Model

| member | source | states |
|---|---|---|
| `Bcrypt.Hash` | src/user/auth/auth.service.ts:55 | a fresh hash verifies its own plaintext and no other |
| `Bcrypt.CompareIffHashed` | src/user/auth/auth.controller.ts:30-33 | `Compare(s, d)` holds iff `d` is the hash of `s` under some salt |
| `Store.Database.constructor` | src/home/home.service.ts:47-49 | an empty store satisfies the table invariant |
| `Homes.UrlsOf` | src/home/home.service.ts:84-88 | a home's image urls in stored order; the list is empty iff no image names that home |
| `Homes.UrlsOfAppend` | src/home/home.service.ts:134 | urls of appended image rows are the old urls followed by the new ones |
| `Homes.ImageRows` | src/home/home.service.ts:130-132 | one image row per supplied url, every row naming the new home |
| `Homes.UrlsOfImageRows` | src/home/home.service.ts:130-134 | the rows written for a home give back exactly its urls, in order |
| `Homes.Without` | src/home/home.service.ts:153-155 | deleting a home's images leaves no image of that home and every other home's urls in the same order |
| `Homes.Matches` | src/home/home.service.ts:52-66 | what `where: filter` selects: the empty filter selects every home, a city query selects only that city, and a price range with `gte` above `lte` selects nothing |
| `Homes.MatchingHomes` | src/home/home.service.ts:52-67 | exactly the stored homes that match the filter, each once, in ascending id order |
| `Homes.MatchingHomesCover` | src/home/home.service.ts:52-71 | the search is empty iff no stored home matches; a found home lacks images iff some matching home does |
| `Homes.Summaries` | src/home/home.service.ts:73-77 | one row per found home, in the same order, each with that home's id and the url of its first image |
| `Homes.GetHomes` | src/home/home.service.ts:51-78 | NotFound iff no stored home matches; a 500 iff some matching home has no image; otherwise rows in ascending id order |
| `Homes.GetHomesRows` | src/home/home.service.ts:58-77 | a successful search gives one summary per matching home and nothing else, with that home's first image url as `image` |
| `Homes.GetHomeById` | src/home/home.service.ts:79-103 | NotFound iff the id is absent; otherwise the stored home's id and selected columns, all its image urls, and the realtor's name, email and phone only |
| `Homes.GetRealtorByHome` | src/home/home.service.ts:161-177 | NotFound iff the home is absent; otherwise the owner's id, name, email and phone |
| `Homes.MessagesOf` | src/home/home.service.ts:193-194 | exactly the stored messages whose home is the given one |
| `Homes.MessagesOfAppend` | src/home/home.service.ts:182-189 | an appended message joins its own home's list at the end and no other list |
| `Homes.GetMessagesByHome` | src/home/home.service.ts:192-202 | the home's messages with their buyers' contact fields; an empty list, never an error, when there are none |
| `Homes.InquiryIsListedLast` | src/home/home.service.ts:179-202 | after an inquiry, the home's message list is the old list plus the new message |
| `Homes.CreatedHomeReadsBack` | src/home/home.service.ts:118-134 | a home created with N urls reads back by id with exactly those N urls and its realtor's contact |
| `Homes.DeletedHomeIsGone` | src/home/home.service.ts:152-159 | a deleted home is NotFound afterwards; every other home reads back as before |
| `Homes.ApplyUpdate` | src/home/home.service.ts:145-148 | the id and the owner never change; an update with no fields changes nothing |
| `Homes.UpdateChangesOnlySuppliedFields` | src/home/home.service.ts:139-150 | each supplied field takes its new value and each absent field keeps its old one |
| `Homes.ApplyUpdateIdempotent` | src/home/home.service.ts:145-148 | applying the same partial update twice equals applying it once |
| `Homes.UpdateAsWritten` | src/home/home.service.ts:139-150 | as written, the update succeeds iff it supplies none of landSize, numberOfBedrooms, numberOfBathrooms |
| `Homes.UpdateAsWrittenRejectsBedrooms` | src/home/home.service.ts:145-148 | changing only the bedroom count of a stored home fails as written, though the corrected update applies it |
| `Homes.HomeService.constructor` | src/home/home.service.ts:49 | the service works on the given store |
| `Homes.HomeService.CreateHome` | src/home/home.service.ts:105-137 | one new home owned by the caller plus one image row per url; existing homes, users and messages unchanged; an unknown user writes nothing |
| `Homes.HomeService.UpdateHomeById` | src/home/home.service.ts:139-150 | NotFound with the store unchanged for an absent id; otherwise only that home's supplied fields change |
| `Homes.HomeService.DeleteHomeById` | src/home/home.service.ts:152-159 | removes the home's images, then the home; other images, users and all messages untouched |
| `Homes.HomeService.Inquire` | src/home/home.service.ts:179-190 | NotFound and nothing written for an absent home; otherwise exactly one message to the home's owner |
| `HomeRoutes.BuildFilter` | src/home/home.controller.ts:37-51 | `city` present iff non-empty; `price` iff a bound is non-empty; `gte` and `lte` each iff their own query is non-empty; `propertyType` iff supplied |
| `HomeRoutes.BuiltFilterSelects` | src/home/home.controller.ts:37-51 | a home passes the built filter iff it meets each non-empty query, inclusive on price bounds |
| `HomeRoutes.EmptyQueryMatchesAll` | src/home/home.controller.ts:45-51 | with no query parameters the filter is empty and every home matches |
| `HomeRoutes.DeclaredRoles` | src/home/home.controller.ts:59-106 | search and lookup declare no roles; every other route declares a non-empty list |
| `HomeRoutes.Admits` | src/home/home.controller.ts:59-106 | a route without `@Roles` admits anyone; a route with one refuses a caller with no identity |
| `HomeRoutes.RoleAllowLists` | src/home/home.controller.ts:59-106 | create, update, delete: REALTOR or ADMIN; inquire: BUYER; messages: REALTOR only; search and lookup: public |
| `HomeRoutes.OwnerGate` | src/home/home.controller.ts:72-76 | the owner lookup's NotFound passes through first; a realtor other than the caller is Unauthorized; it passes iff the caller owns the home |
| `HomeRoutes.Admission` | src/home/home.controller.ts:65-119 | the role check comes first and refuses with 403; a listed role on a route without an owner check is admitted; the only other refusals are NotFound and the ownership 401 |
| `HomeRoutes.OwnerOnlyAdmission` | src/home/home.controller.ts:65-118 | update, delete and messages are admitted iff the role is listed and the caller owns the home; an ADMIN non-owner is refused |
| `HomeRoutes.HomeController.constructor` | src/home/home.controller.ts:28 | the controller works on the given service |
| `HomeRoutes.HomeController.UpdateHome` | src/home/home.controller.ts:65-79 | NotFound for an absent home; Unauthorized with the store unchanged for a non-owner; otherwise the owner's partial update |
| `HomeRoutes.HomeController.DeleteHome` | src/home/home.controller.ts:81-94 | NotFound for an absent home; Unauthorized with the store unchanged for a non-owner; otherwise the cascade delete |
| `HomeRoutes.HomeController.GetHomeMessages` | src/home/home.controller.ts:106-119 | succeeds iff the caller owns the home, and then gives that home's messages |
| `Auth.ProductKeyPlaintext` | src/user/auth/auth.service.ts:37 | `email-ROLE-secret`: the email is a prefix and the secret a suffix, each followed or preceded by a dash |
| `Auth.GenerateProductKey` | src/user/auth/auth.service.ts:36-40 | the key verifies against `email-ROLE-secret` |
| `Auth.SplitEqual` | src/user/auth/auth.service.ts:37 | two equal concatenations with equal-length tails split alike |
| `Auth.PlaintextInjective` | src/user/auth/auth.service.ts:37 | under one secret, the product-key plaintext determines the email and the role |
| `Auth.FindUserByEmail` | src/user/auth/auth.service.ts:46-50 | finds a user with that email exactly when one exists |
| `Auth.Signin` | src/user/auth/auth.service.ts:69-83 | succeeds iff a user has the email and the password verifies, returning that user's name and id; otherwise the same 400 and message |
| `Auth.NewUser` | src/user/auth/auth.service.ts:55-64 | the stored password is a hash of the plaintext, never the plaintext; the role is the given one |
| `Auth.InsertKeepsEmailsUnique` | src/user/auth/auth.service.ts:46-64 | inserting a user with an unused email keeps emails unique |
| `Auth.SigninAfterSignup` | src/user/auth/auth.service.ts:55-82 | signing in with the signup password returns the new user's claims |
| `Auth.WrongPasswordAfterSignup` | src/user/auth/auth.service.ts:73-80 | any other password gets the undifferentiated 400 |
| `Auth.AuthService.constructor` | src/user/auth/auth.service.ts:21 | the service works on the given store and secret |
| `Auth.AuthService.Signup` | src/user/auth/auth.service.ts:42-67 | Conflict and nothing written for a taken email; otherwise exactly one new user with the hashed password and role, and its claims |
| `AuthRoutes.ParseUserType` | src/user/auth/auth.controller.ts:22 | accepts exactly BUYER, REALTOR and ADMIN |
| `AuthRoutes.ProductKeyGate` | src/user/auth/auth.controller.ts:24-37 | BUYER passes; another role with no key, or a key that does not verify `email-ROLE-secret`, is Unauthorized |
| `AuthRoutes.GeneratedKeyPasses` | src/user/auth/auth.controller.ts:29-33 | a key generated for an email and role opens the gate for them |
| `AuthRoutes.GeneratedKeyIsBound` | src/user/auth/auth.controller.ts:29-33 | a generated key opens a privileged gate only for the email and role it was generated for |
| `AuthRoutes.AuthController.constructor` | src/user/auth/auth.controller.ts:17 | the controller works on the given auth service |
| `AuthRoutes.AuthController.Signup` | src/user/auth/auth.controller.ts:19-40 | a 400 for an unknown user type, then Unauthorized for a failed key gate, then Conflict for a taken email, each with no user created; otherwise the service's signup: exactly one new user, homes, images and messages unchanged |

## Findings

| source | as written | input that shows it | evidently intended | confidence | as-written member | corrected member |
|---|---|---|---|---|---|---|
| src/home/home.service.ts:145-148 | `updateHomeById` passes the camelCase `data` object straight to `home.update`. `landSize`, `numberOfBedrooms` and `numberOfBathrooms` are not column names, because createHome writes `land_size`, `number_of_bedrooms` and `number_of_bathrooms`. The store therefore rejects the whole update. | PUT /home/:id by the owner with body `{numberOfBedrooms: 3}` | map the three fields to their columns, as createHome does, so that only the supplied fields change | medium, not executed; rests on the column names createHome writes (src/home/home.service.ts:122-127) and the select at lines 43-44, since the Prisma schema is not modelled | `Homes.UpdateAsWrittenRejectsBedrooms` | `Homes.ApplyUpdate` |

`HomeService.UpdateHomeById` and `HomeController.UpdateHome` use the corrected `ApplyUpdate`.

## Left out

- Prisma itself is replaced by the in-memory `Store.Database`: transactions, connection failures and query engine errors are not modelled.
- Foreign keys: the model writes nothing and returns a 500 when a home or a message names a user the store does not hold. This is the store's constraint, not code in the source.
- `Homes.HomeService.DeleteHomeById`: the home's messages survive its deletion, still naming the deleted home. The message relation's delete rule is in the store schema, which is not part of this model. If that rule restricts deletes, the source's `home.delete` would fail after the images were already gone.
- `HomeRoutes.HomeController.DeleteHome`: inherits the same gap. A deleted home's messages stay in the store.
- `deleteHomeById` on an absent id: Prisma's own error from `home.delete` is not modelled. The model leaves the store unchanged. The controller never gets there, because the owner lookup fails first.
- Result order: `findMany` has no `orderBy`, so the model fixes ascending id order. It also takes "first image" and message order to be insertion order.
- bcrypt hashing, salting, cost factor and constant-time compare are reduced to `Bcrypt.Hash` and `Bcrypt.Compare`. A presented key that is not a bcrypt digest is `Text(..)`, and it never verifies.
- `Bcrypt.Hash`: real bcryptjs reads only the first 72 bytes of its input; the model compares whole strings, so its "no other plaintext verifies" holds only for the idealised hash.
- `AuthRoutes.GeneratedKeyIsBound`: holds only for the idealised hash. With bcrypt's 72-byte limit, an email of 71 bytes or more makes the REALTOR and ADMIN plaintexts share their first 72 bytes, so a REALTOR key would also open the ADMIN gate.
- `Auth.WrongPasswordAfterSignup`: holds only for the idealised hash. With bcrypt's 72-byte limit, a password longer than 72 bytes is accepted with any attempt that shares its first 72 bytes.
- Token signing, the `iat`/`exp` claims, the 30-day expiry and `jwt.decode` are not modelled. src/user/interceptors/user.interceptor.ts and src/user/decorator/user.decorator.ts are not part of this model. A caller is given as its claims.
- The role guard (src/guards/auth.guard.ts) is not part of this model. `HomeRoutes.Admits` models only the declared `@Roles` lists. The caller's role is an input there, and a refusal is a 403.
- `parseFloat` is a function parameter. NaN, floating-point prices, and the fractional bathroom counts the test data shows are not modelled: every number is an integer.
- `propertyType` queries are taken as already-valid enum values. The model's enum has RESIDENTIAL and CONDO; other members are not modelled. A repeated query key, which arrives as an array, is not modelled.
- `HomeResponseDto` and `ClassSerializerInterceptor` reshaping is not modelled; results are the selected columns.
- Delegating handlers are not modelled separately: `HomeController.getHomes`, `getHomeById`, `createHome`, `inquire`, `AuthController.signin`, `generateProductKey` and `getMe` only forward their inputs. They are covered by `BuildFilter` plus `Homes.GetHomes`, and by the service members.
- async/await and the race between the ownership check and the mutation are not modelled: every operation runs atomically.
- src/home/home.module.ts, src/user/user.module.ts and src/home/home.service.spec.ts are wiring and mocks only.
