/**
 * The auth routes: POST /auth/signup/:userType with its enum check and its
 * product-key gate in front of the auth service's signup.
 */
module AuthRoutes {
  import opened Wrappers
  import opened Bcrypt
  import opened Store
  import opened Auth

  const EnumExpected := "Validation failed (enum string is expected)"
  const UnauthorizedDefault := "Unauthorized"

  /** The signup body; `productKey` is optional and, when present, any text or a digest. */
  datatype SignupBody = SignupBody(name: string, phone: string, email: string, password: string,
                                   productKey: Option<Digest>)

  /** ParseEnumPipe(UserType): the role whose enum value is exactly the path segment. */
  function ParseUserType(s: string): (r: Option<Role>)
    ensures r.Some? ==> RoleName(r.value) == s
    ensures r.None? ==> forall role: Role :: RoleName(role) != s
  {
    if s == "BUYER" then Some(Buyer)
    else if s == "REALTOR" then Some(Realtor)
    else if s == "ADMIN" then Some(Admin)
    else None
  }

  /** `!body.productKey`: the key is absent or the empty string. */
  predicate MissingKey(key: Option<Digest>) {
    key.None? || key.value == Text("")
  }

  /**
   * The gate before signup: BUYER passes untouched; any other role needs a
   * key, and the key must verify against `${email}-${userType}-${secret}`.
   */
  function ProductKeyGate(email: string, role: Role, key: Option<Digest>, secret: string): (r: Result<()>)
    ensures r.Failure? ==> r.error == Unauthorized(UnauthorizedDefault)
    ensures role == Buyer ==> r.Success?
    ensures role != Buyer && MissingKey(key) ==> r.Failure?
    ensures r.Success? <==> role == Buyer || (key.Some? && Compare(ProductKeyPlaintext(email, role, secret), key.value))
  {
    if role != Buyer then
      if MissingKey(key) then Failure(Unauthorized(UnauthorizedDefault))
      else if !Compare(ProductKeyPlaintext(email, role, secret), key.value) then Failure(Unauthorized(UnauthorizedDefault))
      else Success(())
    else Success(())
  }

  /** A key generated for an email and a role opens the gate for that email and role. */
  lemma GeneratedKeyPasses(email: string, role: Role, secret: string, salt: nat)
    ensures ProductKeyGate(email, role, Some(GenerateProductKey(email, role, secret, salt)), secret).Success?
  {
  }

  /**
   * ... and, for a privileged role, for no other: a generated key that
   * opens the gate was generated for exactly that email and role.
   */
  lemma GeneratedKeyIsBound(email: string, role: Role, otherEmail: string, otherRole: Role, secret: string, salt: nat)
    requires otherRole != Buyer
    requires ProductKeyGate(otherEmail, otherRole, Some(GenerateProductKey(email, role, secret, salt)), secret).Success?
    ensures otherEmail == email && otherRole == role
  {
    PlaintextInjective(otherEmail, otherRole, email, role, secret);
  }

  class AuthController {
    const auth: AuthService

    constructor (auth: AuthService)
      ensures this.auth == auth
    {
      this.auth := auth;
    }

    /**
     * POST /auth/signup/:userType: an unknown userType is a 400 before
     * anything else; then the product-key gate; then the service's signup.
     * Every refusal leaves the user table as it was.
     */
    method Signup(body: SignupBody, userType: string, salt: nat) returns (r: Result<Claims>)
      requires auth.db.Valid()
      modifies auth.db
      ensures auth.db.Valid()
      ensures ParseUserType(userType).None? ==> r == Failure(BadRequest(EnumExpected)) && unchanged(auth.db)
      ensures ParseUserType(userType).Some? &&
              ProductKeyGate(body.email, ParseUserType(userType).value, body.productKey, auth.productSecret).Failure? ==>
                r == Failure(Unauthorized(UnauthorizedDefault)) && unchanged(auth.db)
      ensures r.Success? ==>
                && ParseUserType(userType).Some?
                && ProductKeyGate(body.email, ParseUserType(userType).value, body.productKey, auth.productSecret).Success?
                && r.value.id !in old(auth.db.users)
                && auth.db.users == old(auth.db.users)[r.value.id :=
                     NewUser(SignupParams(body.name, body.phone, body.email, body.password), r.value.id,
                             ParseUserType(userType).value, salt)]
                && auth.db.homes == old(auth.db.homes) && auth.db.images == old(auth.db.images)
                && auth.db.messages == old(auth.db.messages)
      ensures ParseUserType(userType).Some? &&
              ProductKeyGate(body.email, ParseUserType(userType).value, body.productKey, auth.productSecret).Success? &&
              (exists id :: id in old(auth.db.users) && old(auth.db.users)[id].email == body.email) ==>
                r == Failure(Conflict(EmailExists))
      ensures ParseUserType(userType).Some? &&
              ProductKeyGate(body.email, ParseUserType(userType).value, body.productKey, auth.productSecret).Success? &&
              (forall id :: id in old(auth.db.users) ==> old(auth.db.users)[id].email != body.email) ==>
                r.Success? && r.value == Claims(body.name, r.value.id)
      ensures r.Failure? ==> unchanged(auth.db)
    {
      var role := ParseUserType(userType);
      if role.None? {
        return Failure(BadRequest(EnumExpected));
      }
      var gate := ProductKeyGate(body.email, role.value, body.productKey, auth.productSecret);
      if gate.Failure? {
        return Failure(gate.error);
      }
      r := auth.Signup(SignupParams(body.name, body.phone, body.email, body.password), role.value, salt);
    }
  }
}
