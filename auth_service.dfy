/**
 * The auth service: session claims, product-key generation, signup and
 * signin over the user table. Hashing is the Bcrypt stand-in; a token is the
 * claims it carries.
 */
module Auth {
  import opened Wrappers
  import opened Bcrypt
  import opened Store

  const EmailExists := "Email already exist"
  const SigninRefused := "User not found or incorrect information!"

  datatype SignupParams = SignupParams(name: string, phone: string, email: string, password: string)

  /** generateJwtToken: the claims {name, id} (the signature and the 30-day expiry are not modelled). */
  function GenerateJwtToken(name: string, id: int): Claims {
    Claims(name, id)
  }

  /** The plaintext behind a product key: `${email}-${userType}-${secret}`. */
  function ProductKeyPlaintext(email: string, role: Role, secret: string): (plain: string)
    ensures |plain| == |email| + |RoleName(role)| + |secret| + 2
    ensures plain[..|email|] == email && plain[|email|] == '-'
    ensures plain[|plain| - |secret|..] == secret && plain[|plain| - |secret| - 1] == '-'
  {
    email + "-" + RoleName(role) + "-" + secret
  }

  /** generateProductKey: the hash of the product-key plaintext. */
  function GenerateProductKey(email: string, role: Role, secret: string, salt: nat): (key: Digest)
    ensures Compare(ProductKeyPlaintext(email, role, secret), key)
  {
    Hash(ProductKeyPlaintext(email, role, secret), salt)
  }

  /** x1 + y1 == x2 + y2 with |y1| == |y2| splits the same way on both sides. */
  lemma SplitEqual(x1: string, y1: string, x2: string, y2: string)
    requires x1 + y1 == x2 + y2 && |y1| == |y2|
    ensures x1 == x2 && y1 == y2
  {
    assert x1 == (x1 + y1)[..|x1|];
    assert x2 == (x2 + y2)[..|x2|];
    assert y1 == (x1 + y1)[|x1|..];
    assert y2 == (x2 + y2)[|x2|..];
  }

  /**
   * Under one secret, the plaintext determines the email and the role: the
   * three role names differ in their next-to-last letter, so the boundary
   * between email and role cannot shift.
   */
  lemma {:induction false} PlaintextInjective(e1: string, r1: Role, e2: string, r2: Role, secret: string)
    requires ProductKeyPlaintext(e1, r1, secret) == ProductKeyPlaintext(e2, r2, secret)
    ensures e1 == e2 && r1 == r2
  {
    var n1, n2 := RoleName(r1), RoleName(r2);
    var x1, x2 := e1 + "-" + n1, e2 + "-" + n2;
    assert ProductKeyPlaintext(e1, r1, secret) == x1 + ("-" + secret);
    assert ProductKeyPlaintext(e2, r2, secret) == x2 + ("-" + secret);
    SplitEqual(x1, "-" + secret, x2, "-" + secret);
    assert x1[|x1| - 2] == n1[|n1| - 2];
    assert x2[|x2| - 2] == n2[|n2| - 2];
    assert r1 == r2;
    SplitEqual(e1 + "-", n1, e2 + "-", n2);
    SplitEqual(e1, "-", e2, "-");
  }

  /** user.findUnique({where: {email}}): the id in [1, n) of the user with that email, if any. */
  function FindUserByEmail(users: map<int, User>, email: string, n: int): (found: Option<int>)
    ensures found.Some? ==> found.value in users && users[found.value].email == email && found.value < n
    ensures found.None? ==> forall id :: id in users && 0 < id < n ==> users[id].email != email
    decreases n
  {
    if n <= 1 then None
    else if n - 1 in users && users[n - 1].email == email then Some(n - 1)
    else FindUserByEmail(users, email, n - 1)
  }

  /**
   * signin: the stored user's claims when the email is known and the
   * password verifies against the stored hash; the same 400 and the same
   * message when the email is unknown or the password is wrong.
   */
  function Signin(users: map<int, User>, nextId: int, email: string, password: string): (r: Result<Claims>)
    requires UsersWellFormed(users, nextId)
    ensures r.Failure? ==> r.error == BadRequest(SigninRefused)
    ensures r.Success? <==> exists id :: id in users && users[id].email == email && Compare(password, users[id].password)
    ensures r.Success? ==> r.value.id in users && r.value == Claims(users[r.value.id].name, r.value.id)
                           && users[r.value.id].email == email
  {
    var found := FindUserByEmail(users, email, nextId);
    if found.None? then Failure(BadRequest(SigninRefused))
    else
      var user := users[found.value];
      if !Compare(password, user.password) then Failure(BadRequest(SigninRefused))
      else Success(GenerateJwtToken(user.name, user.id))
  }

  /** The row signup inserts: the password is stored only as its hash. */
  function NewUser(p: SignupParams, id: int, role: Role, salt: nat): (u: User)
    ensures u.id == id && u.email == p.email && u.userType == role
    ensures Compare(p.password, u.password) && u.password != Text(p.password)
  {
    User(id, p.name, p.email, p.phone, Hash(p.password, salt), role)
  }

  /** Inserting a user under a fresh id with an email nobody has keeps the table well formed. */
  lemma InsertKeepsEmailsUnique(users: map<int, User>, nextId: int, p: SignupParams, role: Role, salt: nat)
    requires UsersWellFormed(users, nextId) && 0 < nextId
    requires FindUserByEmail(users, p.email, nextId).None?
    ensures UsersWellFormed(users[nextId := NewUser(p, nextId, role, salt)], nextId + 1)
  {
  }

  /** Signing in right after signing up, with the same password, yields the new user's claims. */
  lemma SigninAfterSignup(users: map<int, User>, nextId: int, p: SignupParams, role: Role, salt: nat)
    requires UsersWellFormed(users, nextId) && 0 < nextId
    requires FindUserByEmail(users, p.email, nextId).None?
    ensures Signin(users[nextId := NewUser(p, nextId, role, salt)], nextId + 1, p.email, p.password)
              == Success(Claims(p.name, nextId))
  {
  }

  /** Any password other than the one signed up with is refused, with the undifferentiated error. */
  lemma WrongPasswordAfterSignup(users: map<int, User>, nextId: int, p: SignupParams, role: Role, salt: nat,
                                 attempt: string)
    requires UsersWellFormed(users, nextId) && 0 < nextId
    requires FindUserByEmail(users, p.email, nextId).None?
    requires attempt != p.password
    ensures Signin(users[nextId := NewUser(p, nextId, role, salt)], nextId + 1, p.email, attempt)
              == Failure(BadRequest(SigninRefused))
  {
  }

  class AuthService {
    const db: Database
    /** PRODUCT_SECRET_KEY, read once from the environment. */
    const productSecret: string

    constructor (db: Database, productSecret: string)
      ensures this.db == db && this.productSecret == productSecret
    {
      this.db := db;
      this.productSecret := productSecret;
    }

    /**
     * signup: Conflict when the email is taken, nothing written; otherwise
     * exactly one new user, holding the password's hash and the given role,
     * and the new user's claims.
     */
    method Signup(p: SignupParams, userType: Role, salt: nat) returns (r: Result<Claims>)
      requires db.Valid()
      modifies db
      ensures db.Valid()
      ensures (exists id :: id in old(db.users) && old(db.users)[id].email == p.email) ==>
                r == Failure(Conflict(EmailExists)) && unchanged(db)
      ensures (forall id :: id in old(db.users) ==> old(db.users)[id].email != p.email) ==>
                && r.Success?
                && r.value == Claims(p.name, r.value.id)
                && r.value.id !in old(db.users)
                && db.users == old(db.users)[r.value.id := NewUser(p, r.value.id, userType, salt)]
                && db.homes == old(db.homes) && db.images == old(db.images) && db.messages == old(db.messages)
    {
      var existing := FindUserByEmail(db.users, p.email, db.nextUserId);
      if existing.Some? {
        return Failure(Conflict(EmailExists));
      }
      var id := db.nextUserId;
      var user := NewUser(p, id, userType, salt);
      InsertKeepsEmailsUnique(db.users, id, p, userType, salt);
      db.users := db.users[id := user];
      db.nextUserId := id + 1;
      r := Success(GenerateJwtToken(user.name, user.id));
    }
  }
}
