/**
 * The home service: search with a filter, lookup by id, create, partial
 * update, manual cascade delete, the owner lookup, inquiries and a home's
 * messages. Queries are functions over the tables; the operations that write
 * are methods of HomeService on the Database.
 */
module Homes {
  import opened Wrappers
  import opened Store

  const NoHomeMatch := "No home match your filter!"
  const NoHomeWithId := "No home found with that id!"
  /** The TypeError thrown by `home.images[0].url` when a home has no image. */
  const NoImageUrl := "Cannot read properties of undefined (reading 'url')"
  /** The store's refusal of a row that names a user it does not hold. */
  const ForeignKeyFailed := "Foreign key constraint failed"
  /** The store's refusal of an update whose data names a field that is not a column. */
  const UnknownArgument := "Unknown argument"

  // ---------------------------------------------------------------- filter

  datatype PriceRange = PriceRange(gte: Option<int>, lte: Option<int>)

  /** GetHomeParams: every field may be absent. */
  datatype Filter = Filter(city: Option<string>, price: Option<PriceRange>, propertyType: Option<PropertyType>)

  /** Prisma's {gte, lte}: each bound present is inclusive. */
  predicate InRange(price: int, range: PriceRange) {
    && (range.gte.Some? ==> price >= range.gte.value)
    && (range.lte.Some? ==> price <= range.lte.value)
  }

  /** What `where: filter` selects: each present field constrains, an absent one does not. */
  predicate Matches(h: Home, f: Filter): (ok: bool)
    ensures f == Filter(None, None, None) ==> ok
    ensures f.city.Some? && h.city != f.city.value ==> !ok
    ensures (f.price.Some? && f.price.value.gte.Some? && f.price.value.lte.Some? &&
             f.price.value.gte.value > f.price.value.lte.value) ==> !ok
  {
    && (f.city.Some? ==> h.city == f.city.value)
    && (f.price.Some? ==> InRange(h.price, f.price.value))
    && (f.propertyType.Some? ==> h.propertyType == f.propertyType.value)
  }

  // ---------------------------------------------------------------- response shapes

  /** A getHomes row: the selected columns, with the first image's url in place of `images`. */
  datatype HomeSummary = HomeSummary(
    id: int, address: string, city: string, price: int, propertyType: PropertyType,
    numberOfBedrooms: int, numberOfBathrooms: int, image: string)

  datatype Contact = Contact(name: string, email: string, phone: string)

  /** A getHomeById row: the selected columns, every image url and the realtor's contact fields. */
  datatype HomeDetail = HomeDetail(
    id: int, address: string, city: string, price: int, propertyType: PropertyType,
    numberOfBedrooms: int, numberOfBathrooms: int, images: seq<string>, realtor: Contact)

  /** What getRealtorByHome selects of the owner. */
  datatype RealtorInfo = RealtorInfo(id: int, name: string, email: string, phone: string)

  /** A getMessagesByHome row: the text and the sending buyer's contact fields. */
  datatype BuyerMessage = BuyerMessage(message: string, buyer: Contact)

  datatype CreateHomeParams = CreateHomeParams(
    address: string, city: string, price: int, landSize: int, images: seq<string>,
    propertyType: PropertyType, numberOfBedrooms: int, numberOfBathrooms: int)

  datatype UpdateHomeParams = UpdateHomeParams(
    address: Option<string>, city: Option<string>, price: Option<int>, landSize: Option<int>,
    propertyType: Option<PropertyType>, numberOfBedrooms: Option<int>, numberOfBathrooms: Option<int>)

  function ContactOf(u: User): Contact {
    Contact(u.name, u.email, u.phone)
  }

  function Summarize(h: Home, image: string): HomeSummary {
    HomeSummary(h.id, h.address, h.city, h.price, h.propertyType, h.numberOfBedrooms, h.numberOfBathrooms, image)
  }

  // ---------------------------------------------------------------- images

  /** The urls of one home's images, in the order the images were stored. */
  function UrlsOf(images: seq<Image>, homeId: int): (urls: seq<string>)
    ensures |urls| <= |images|
    ensures urls == [] <==> forall i :: 0 <= i < |images| ==> images[i].homeId != homeId
  {
    if images == [] then []
    else (if images[0].homeId == homeId then [images[0].url] else []) + UrlsOf(images[1..], homeId)
  }

  lemma {:induction false} UrlsOfAppend(a: seq<Image>, b: seq<Image>, homeId: int)
    ensures UrlsOf(a + b, homeId) == UrlsOf(a, homeId) + UrlsOf(b, homeId)
  {
    if a != [] {
      assert (a + b)[0] == a[0] && (a + b)[1..] == a[1..] + b;
      UrlsOfAppend(a[1..], b, homeId);
    } else {
      assert a + b == b;
    }
  }

  /** The image rows createHome writes: one per url, all naming the new home. */
  function ImageRows(urls: seq<string>, homeId: int): (rows: seq<Image>)
    ensures |rows| == |urls|
    ensures forall r :: r in rows ==> r.homeId == homeId
  {
    seq(|urls|, i requires 0 <= i < |urls| => Image(urls[i], homeId))
  }

  /** The rows written for a home give back exactly its urls, in order. */
  lemma {:induction false} UrlsOfImageRows(urls: seq<string>, homeId: int)
    ensures UrlsOf(ImageRows(urls, homeId), homeId) == urls
  {
    if urls != [] {
      assert ImageRows(urls, homeId)[1..] == ImageRows(urls[1..], homeId);
      UrlsOfImageRows(urls[1..], homeId);
    }
  }

  /** image.deleteMany({where: {home_id}}): every other image stays, in order. */
  function Without(images: seq<Image>, homeId: int): (rest: seq<Image>)
    ensures forall i :: 0 <= i < |rest| ==> rest[i].homeId != homeId && rest[i] in images
    ensures forall k :: k != homeId ==> UrlsOf(rest, k) == UrlsOf(images, k)
  {
    if images == [] then []
    else
      var tail := Without(images[1..], homeId);
      if images[0].homeId == homeId then tail
      else
        assert ([images[0]] + tail)[1..] == tail;
        [images[0]] + tail
  }

  // ---------------------------------------------------------------- search

  /** The stored homes with an id in [1, n) that match, in ascending id order. */
  function MatchingHomes(homes: map<int, Home>, f: Filter, n: int): (found: seq<Home>)
    requires HomeIdsBelow(homes, n)
    ensures forall i :: 0 <= i < |found| ==> found[i].id in homes && homes[found[i].id] == found[i] && Matches(found[i], f)
    ensures forall i, j :: 0 <= i < j < |found| ==> found[i].id < found[j].id
    ensures forall id :: id in homes && Matches(homes[id], f) ==> homes[id] in found
    decreases n
  {
    if n <= 1 then []
    else
      var below := homes - {n - 1};
      var prev := MatchingHomes(below, f, n - 1);
      assert forall i :: 0 <= i < |prev| ==> prev[i].id in below;
      assert forall id :: id in below ==> below[id] == homes[id];
      if n - 1 in homes && Matches(homes[n - 1], f) then prev + [homes[n - 1]] else prev
  }

  /** What the search finds, restated in terms of the stored homes. */
  lemma MatchingHomesCover(homes: map<int, Home>, images: seq<Image>, f: Filter, n: int)
    requires HomeIdsBelow(homes, n)
    ensures var found := MatchingHomes(homes, f, n);
            && (found == [] <==> forall id :: id in homes ==> !Matches(homes[id], f))
            && (!AllHaveImages(found, images) <==>
                (exists id :: id in homes && Matches(homes[id], f) && UrlsOf(images, id) == []))
            && (forall id :: id in homes && Matches(homes[id], f) ==> exists i :: 0 <= i < |found| && found[i].id == id)
  {
    var found := MatchingHomes(homes, f, n);
    forall id | id in homes && Matches(homes[id], f)
      ensures exists i :: 0 <= i < |found| && found[i].id == id
    {
      var i :| 0 <= i < |found| && found[i] == homes[id];
    }
    if found != [] {
      assert found[0].id in homes && Matches(homes[found[0].id], f);
    }
  }

  predicate AllHaveImages(found: seq<Home>, images: seq<Image>) {
    forall i :: 0 <= i < |found| ==> UrlsOf(images, found[i].id) != []
  }

  /** `homes.map(...)`: each home with the url of its first image as `image`. */
  function Summaries(found: seq<Home>, images: seq<Image>): (rows: seq<HomeSummary>)
    requires AllHaveImages(found, images)
    ensures |rows| == |found|
    ensures forall i :: 0 <= i < |rows| ==> rows[i].id == found[i].id && rows[i].image == UrlsOf(images, found[i].id)[0]
  {
    seq(|found|, i requires 0 <= i < |found| => Summarize(found[i], UrlsOf(images, found[i].id)[0]))
  }

  /**
   * getHomes: the matching homes, each with its first image flattened into
   * `image`. No match is NotFound; a matching home with no image makes
   * `images[0].url` throw.
   */
  function GetHomes(homes: map<int, Home>, images: seq<Image>, filter: Filter, nextId: int): (r: Result<seq<HomeSummary>>)
    requires HomeIdsBelow(homes, nextId)
    ensures r.Failure? ==> r.error == NotFound(NoHomeMatch) || r.error == ServerError(NoImageUrl)
    ensures r == Failure(NotFound(NoHomeMatch)) <==> forall id :: id in homes ==> !Matches(homes[id], filter)
    ensures r == Failure(ServerError(NoImageUrl)) <==>
              exists id :: id in homes && Matches(homes[id], filter) && UrlsOf(images, id) == []
    ensures r.Success? ==> forall i, j :: 0 <= i < j < |r.value| ==> r.value[i].id < r.value[j].id
  {
    var found := MatchingHomes(homes, filter, nextId);
    MatchingHomesCover(homes, images, filter, nextId);
    if |found| == 0 then
      Failure(NotFound(NoHomeMatch))
    else if !AllHaveImages(found, images) then
      Failure(ServerError(NoImageUrl))
    else
      Success(Summaries(found, images))
  }

  /**
   * A successful getHomes gives one summary per matching home and nothing
   * else: each row is a matching home with the url of its first image.
   */
  lemma GetHomesRows(homes: map<int, Home>, images: seq<Image>, filter: Filter, nextId: int)
    requires HomeIdsBelow(homes, nextId)
    ensures var r := GetHomes(homes, images, filter, nextId);
            r.Success? ==>
              && (forall i :: 0 <= i < |r.value| ==>
                    && r.value[i].id in homes
                    && Matches(homes[r.value[i].id], filter)
                    && UrlsOf(images, r.value[i].id) != []
                    && r.value[i] == Summarize(homes[r.value[i].id], UrlsOf(images, r.value[i].id)[0]))
              && (forall id :: id in homes && Matches(homes[id], filter) ==>
                    exists i :: 0 <= i < |r.value| && r.value[i].id == id)
  {
  }

  // ---------------------------------------------------------------- lookups

  /** getHomeById: the home's columns, all its image urls and its realtor's name, email and phone. */
  function GetHomeById(homes: map<int, Home>, images: seq<Image>, users: map<int, User>, id: int): (r: Result<HomeDetail>)
    requires forall k :: k in homes ==> homes[k].realtorId in users
    ensures r.Failure? <==> id !in homes
    ensures r.Failure? ==> r.error == NotFound(NoHomeWithId)
    ensures r.Success? ==> r.value.id == homes[id].id && r.value.address == homes[id].address
                           && r.value.city == homes[id].city && r.value.price == homes[id].price
                           && r.value.propertyType == homes[id].propertyType
                           && r.value.numberOfBedrooms == homes[id].numberOfBedrooms
                           && r.value.numberOfBathrooms == homes[id].numberOfBathrooms
    ensures r.Success? ==> r.value.images == UrlsOf(images, id)
    ensures r.Success? ==> r.value.realtor == ContactOf(users[homes[id].realtorId])
  {
    if id !in homes then Failure(NotFound(NoHomeWithId))
    else
      var h := homes[id];
      Success(HomeDetail(h.id, h.address, h.city, h.price, h.propertyType, h.numberOfBedrooms,
                         h.numberOfBathrooms, UrlsOf(images, id), ContactOf(users[h.realtorId])))
  }

  /** getRealtorByHome: the owner of a stored home. */
  function GetRealtorByHome(homes: map<int, Home>, users: map<int, User>, id: int): (r: Result<RealtorInfo>)
    requires forall k :: k in homes ==> homes[k].realtorId in users
    ensures r.Failure? <==> id !in homes
    ensures r.Failure? ==> r.error == NotFound(NoHomeWithId)
    ensures r.Success? ==> r.value == RealtorInfo(homes[id].realtorId, users[homes[id].realtorId].name,
                                                  users[homes[id].realtorId].email, users[homes[id].realtorId].phone)
  {
    if id !in homes then Failure(NotFound(NoHomeWithId))
    else
      var u := users[homes[id].realtorId];
      Success(RealtorInfo(homes[id].realtorId, u.name, u.email, u.phone))
  }

  // ---------------------------------------------------------------- messages

  /** message.findMany({where: {home_id}}): one home's messages, in the order they were stored. */
  function MessagesOf(messages: seq<Message>, homeId: int): (ms: seq<Message>)
    ensures forall m :: m in ms <==> m in messages && m.homeId == homeId
  {
    if messages == [] then []
    else (if messages[0].homeId == homeId then [messages[0]] else []) + MessagesOf(messages[1..], homeId)
  }

  lemma {:induction false} MessagesOfAppend(messages: seq<Message>, m: Message, homeId: int)
    ensures MessagesOf(messages + [m], homeId) == MessagesOf(messages, homeId) + (if m.homeId == homeId then [m] else [])
  {
    if messages != [] {
      assert (messages + [m])[1..] == messages[1..] + [m];
      MessagesOfAppend(messages[1..], m, homeId);
    }
  }

  function View(m: Message, users: map<int, User>): BuyerMessage
    requires m.buyerId in users
  {
    BuyerMessage(m.message, ContactOf(users[m.buyerId]))
  }

  /** getMessagesByHome: no existence check, so an unknown home gives the empty list, never an error. */
  function GetMessagesByHome(messages: seq<Message>, users: map<int, User>, homeId: int): (r: seq<BuyerMessage>)
    requires MessagesWellFormed(messages, users)
    ensures r == [] <==> forall i :: 0 <= i < |messages| ==> messages[i].homeId != homeId
    ensures |r| == |MessagesOf(messages, homeId)|
    ensures forall i :: 0 <= i < |r| ==> r[i] == View(MessagesOf(messages, homeId)[i], users)
  {
    var ms := MessagesOf(messages, homeId);
    assert forall i :: 0 <= i < |ms| ==> ms[i] in messages;
    assert forall i :: 0 <= i < |messages| && messages[i].homeId == homeId ==> messages[i] in ms;
    assert ms != [] ==> ms[0] in messages && ms[0].homeId == homeId;
    seq(|ms|, i requires 0 <= i < |ms| => View(ms[i], users))
  }

  /** An inquiry appended to the messages shows up last in its home's list, and nowhere else. */
  lemma InquiryIsListedLast(messages: seq<Message>, users: map<int, User>, m: Message, homeId: int)
    requires MessagesWellFormed(messages, users)
    requires m.buyerId in users && m.realtorId in users
    ensures MessagesWellFormed(messages + [m], users)
    ensures GetMessagesByHome(messages + [m], users, homeId) ==
              GetMessagesByHome(messages, users, homeId) + (if m.homeId == homeId then [View(m, users)] else [])
  {
    MessagesOfAppend(messages, m, homeId);
  }

  // ---------------------------------------------------------------- create / update / delete

  function NewHome(p: CreateHomeParams, id: int, realtorId: int): Home {
    Home(id, p.address, p.city, p.price, p.landSize, p.propertyType, p.numberOfBedrooms, p.numberOfBathrooms, realtorId)
  }

  /** A home created with N image urls reads back with exactly those N urls, in order. */
  lemma CreatedHomeReadsBack(homes: map<int, Home>, images: seq<Image>, users: map<int, User>,
                             p: CreateHomeParams, id: int, realtorId: int)
    requires forall k :: k in homes ==> homes[k].realtorId in users
    requires ImagesWellFormed(images, homes) && id !in homes && realtorId in users
    ensures var r := GetHomeById(homes[id := NewHome(p, id, realtorId)], images + ImageRows(p.images, id), users, id);
            r.Success? && r.value.images == p.images && r.value.realtor == ContactOf(users[realtorId])
  {
    UrlsOfAppend(images, ImageRows(p.images, id), id);
    UrlsOfImageRows(p.images, id);
  }

  /** A deleted home is NotFound afterwards; every other home reads back as before. */
  lemma DeletedHomeIsGone(homes: map<int, Home>, images: seq<Image>, users: map<int, User>, id: int, other: int)
    requires forall k :: k in homes ==> homes[k].realtorId in users
    requires other != id
    ensures GetHomeById(homes - {id}, Without(images, id), users, id) == Failure(NotFound(NoHomeWithId))
    ensures GetHomeById(homes - {id}, Without(images, id), users, other) == GetHomeById(homes, images, users, other)
  {
  }

  /** The corrected update: each supplied field replaces its column, the rest stay. */
  function ApplyUpdate(h: Home, d: UpdateHomeParams): (u: Home)
    ensures u.id == h.id && u.realtorId == h.realtorId
    ensures d == UpdateHomeParams(None, None, None, None, None, None, None) ==> u == h
  {
    Home(h.id,
         if d.address.Some? then d.address.value else h.address,
         if d.city.Some? then d.city.value else h.city,
         if d.price.Some? then d.price.value else h.price,
         if d.landSize.Some? then d.landSize.value else h.landSize,
         if d.propertyType.Some? then d.propertyType.value else h.propertyType,
         if d.numberOfBedrooms.Some? then d.numberOfBedrooms.value else h.numberOfBedrooms,
         if d.numberOfBathrooms.Some? then d.numberOfBathrooms.value else h.numberOfBathrooms,
         h.realtorId)
  }

  /** Each supplied field takes its new value; each absent one keeps the old. */
  lemma UpdateChangesOnlySuppliedFields(h: Home, d: UpdateHomeParams)
    ensures var u := ApplyUpdate(h, d);
            && u.address == (if d.address.Some? then d.address.value else h.address)
            && u.city == (if d.city.Some? then d.city.value else h.city)
            && u.price == (if d.price.Some? then d.price.value else h.price)
            && u.landSize == (if d.landSize.Some? then d.landSize.value else h.landSize)
            && u.propertyType == (if d.propertyType.Some? then d.propertyType.value else h.propertyType)
            && u.numberOfBedrooms == (if d.numberOfBedrooms.Some? then d.numberOfBedrooms.value else h.numberOfBedrooms)
            && u.numberOfBathrooms == (if d.numberOfBathrooms.Some? then d.numberOfBathrooms.value else h.numberOfBathrooms)
  {
  }

  /** Applying the same partial update twice changes nothing more. */
  lemma ApplyUpdateIdempotent(h: Home, d: UpdateHomeParams)
    ensures ApplyUpdate(ApplyUpdate(h, d), d) == ApplyUpdate(h, d)
  {
  }

  /**
   * updateHomeById as written: `data` reaches `home.update` with its
   * camelCase keys. address, city, price and propertyType are columns of
   * that name; landSize, numberOfBedrooms and numberOfBathrooms are not (the
   * columns are land_size, number_of_bedrooms and number_of_bathrooms, as
   * createHome writes them), and the store rejects the whole update.
   */
  function UpdateAsWritten(h: Home, d: UpdateHomeParams): (r: Result<Home>)
    ensures r.Success? <==> d.landSize.None? && d.numberOfBedrooms.None? && d.numberOfBathrooms.None?
    ensures r.Success? ==> r.value == ApplyUpdate(h, d)
  {
    if d.landSize.Some? || d.numberOfBedrooms.Some? || d.numberOfBathrooms.Some? then
      Failure(ServerError(UnknownArgument))
    else
      Success(ApplyUpdate(h, d))
  }

  /** The input that shows it: changing only the bedroom count of an existing home fails. */
  lemma UpdateAsWrittenRejectsBedrooms(h: Home)
    ensures UpdateAsWritten(h, UpdateHomeParams(None, None, None, None, None, Some(h.numberOfBedrooms + 1), None)).Failure?
    ensures ApplyUpdate(h, UpdateHomeParams(None, None, None, None, None, Some(h.numberOfBedrooms + 1), None)).numberOfBedrooms
              == h.numberOfBedrooms + 1
  {
  }

  // ---------------------------------------------------------------- the service

  class HomeService {
    const db: Database

    constructor (db: Database)
      ensures this.db == db
    {
      this.db := db;
    }

    /** createHome: insert the home owned by userId, then one image row per url. */
    method CreateHome(p: CreateHomeParams, userId: int) returns (r: Result<Home>)
      requires db.Valid()
      modifies db
      ensures db.Valid()
      ensures userId !in old(db.users) ==> r == Failure(ServerError(ForeignKeyFailed)) && unchanged(db)
      ensures userId in old(db.users) ==>
                && r.Success?
                && r.value.id !in old(db.homes)
                && r.value == NewHome(p, r.value.id, userId)
                && db.homes == old(db.homes)[r.value.id := r.value]
                && db.images == old(db.images) + ImageRows(p.images, r.value.id)
                && db.users == old(db.users) && db.messages == old(db.messages)
    {
      if userId !in db.users {
        return Failure(ServerError(ForeignKeyFailed));
      }
      var home := NewHome(p, db.nextHomeId, userId);
      db.homes := db.homes[home.id := home];
      db.nextHomeId := db.nextHomeId + 1;
      db.images := db.images + ImageRows(p.images, home.id);
      r := Success(home);
    }

    /** updateHomeById: NotFound for an absent id; otherwise only the supplied fields of that home change. */
    method UpdateHomeById(id: int, data: UpdateHomeParams) returns (r: Result<Home>)
      requires db.Valid()
      modifies db
      ensures db.Valid()
      ensures id !in old(db.homes) ==> r == Failure(NotFound(NoHomeWithId)) && unchanged(db)
      ensures id in old(db.homes) ==>
                && r == Success(ApplyUpdate(old(db.homes)[id], data))
                && db.homes == old(db.homes)[id := r.value]
                && db.users == old(db.users) && db.images == old(db.images) && db.messages == old(db.messages)
    {
      if id !in db.homes {
        return Failure(NotFound(NoHomeWithId));
      }
      var updated := ApplyUpdate(db.homes[id], data);
      db.homes := db.homes[id := updated];
      r := Success(updated);
    }

    /** deleteHomeById: delete the home's images, then the home; other images and all messages stay. */
    method DeleteHomeById(id: int)
      requires db.Valid()
      modifies db
      ensures db.Valid()
      ensures db.images == Without(old(db.images), id)
      ensures db.homes == old(db.homes) - {id}
      ensures db.users == old(db.users) && db.messages == old(db.messages)
    {
      db.images := Without(db.images, id);
      db.homes := db.homes - {id};
    }

    /** inquire: look up the home's realtor, then record the buyer's message to them. */
    method Inquire(buyer: Claims, homeId: int, message: string) returns (r: Result<()>)
      requires db.Valid()
      modifies db
      ensures db.Valid()
      ensures homeId !in old(db.homes) ==> r == Failure(NotFound(NoHomeWithId)) && unchanged(db)
      ensures homeId in old(db.homes) && buyer.id !in old(db.users) ==>
                r == Failure(ServerError(ForeignKeyFailed)) && unchanged(db)
      ensures homeId in old(db.homes) && buyer.id in old(db.users) ==>
                && r == Success(())
                && db.messages == old(db.messages) + [Message(old(db.homes)[homeId].realtorId, buyer.id, homeId, message)]
                && db.users == old(db.users) && db.homes == old(db.homes) && db.images == old(db.images)
    {
      var realtor := GetRealtorByHome(db.homes, db.users, homeId);
      if realtor.Failure? {
        return Failure(realtor.error);
      }
      if buyer.id !in db.users {
        return Failure(ServerError(ForeignKeyFailed));
      }
      db.messages := db.messages + [Message(realtor.value.id, buyer.id, homeId, message)];
      r := Success(());
    }
  }
}
