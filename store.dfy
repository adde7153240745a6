/**
 * The rows of the relational store (users, homes, images, messages) and an
 * in-memory Database that replaces the Prisma client. Ids are assigned by
 * counters, as the store's autoincrement keys are.
 */
module Store {
  import opened Bcrypt

  datatype Role = Buyer | Realtor | Admin

  /** The enum value's text, as `${userType}` prints it. */
  function RoleName(r: Role): string {
    match r
    case Buyer => "BUYER"
    case Realtor => "REALTOR"
    case Admin => "ADMIN"
  }

  datatype PropertyType = Residential | Condo

  datatype User = User(id: int, name: string, email: string, phone: string, password: Digest, userType: Role)

  datatype Home = Home(
    id: int,
    address: string,
    city: string,
    price: int,
    landSize: int,
    propertyType: PropertyType,
    numberOfBedrooms: int,
    numberOfBathrooms: int,
    realtorId: int)

  datatype Image = Image(url: string, homeId: int)

  datatype Message = Message(realtorId: int, buyerId: int, homeId: int, message: string)

  /** The identity a bearer token carries: the claims {name, id}. */
  datatype Claims = Claims(name: string, id: int)

  /** Every user is stored under its own positive id, below the next id, and emails are unique. */
  predicate UsersWellFormed(users: map<int, User>, nextId: int) {
    && (forall id :: id in users ==> 0 < id < nextId && users[id].id == id)
    && (forall a, b :: a in users && b in users && users[a].email == users[b].email ==> a == b)
  }

  /** Every home is stored under its own positive id, below the next id. */
  predicate HomeIdsBelow(homes: map<int, Home>, nextId: int) {
    forall id :: id in homes ==> 0 < id < nextId && homes[id].id == id
  }

  /** ... and its realtor is a stored user (the required `realtor` relation). */
  predicate HomesWellFormed(homes: map<int, Home>, users: map<int, User>, nextId: int) {
    HomeIdsBelow(homes, nextId) && forall id :: id in homes ==> homes[id].realtorId in users
  }

  /** Every image belongs to a stored home. */
  predicate ImagesWellFormed(images: seq<Image>, homes: map<int, Home>) {
    forall i :: 0 <= i < |images| ==> images[i].homeId in homes
  }

  /** Every message names a stored buyer and a stored realtor (its home may since have been deleted). */
  predicate MessagesWellFormed(messages: seq<Message>, users: map<int, User>) {
    forall i :: 0 <= i < |messages| ==> messages[i].buyerId in users && messages[i].realtorId in users
  }

  class Database {
    var users: map<int, User>
    var homes: map<int, Home>
    var images: seq<Image>
    var messages: seq<Message>
    var nextUserId: int
    var nextHomeId: int

    ghost predicate Valid()
      reads this
    {
      && 0 < nextUserId && 0 < nextHomeId
      && UsersWellFormed(users, nextUserId)
      && HomesWellFormed(homes, users, nextHomeId)
      && ImagesWellFormed(images, homes)
      && MessagesWellFormed(messages, users)
    }

    constructor ()
      ensures Valid()
      ensures users == map[] && homes == map[] && images == [] && messages == []
    {
      users, homes, images, messages := map[], map[], [], [];
      nextUserId, nextHomeId := 1, 1;
    }
  }
}
