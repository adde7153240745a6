/**
 * The home routes: the query-to-filter builder of GET /home, the role
 * allow-list each route declares, and the ownership gate in front of
 * update, delete and the message list.
 */
module HomeRoutes {
  import opened Wrappers
  import opened Store
  import opened Homes

  const NoPermission := "You don't have permission to this action!"
  const RoleRefused := "Forbidden resource"

  // ---------------------------------------------------------------- GET /home

  /** A query string is truthy when it is supplied and not empty. */
  predicate Truthy(q: Option<string>) {
    q.Some? && q.value != ""
  }

  /**
   * The filter GET /home builds from its query strings. `parsePrice` stands
   * for parseFloat.
   */
  function BuildFilter(city: Option<string>, minPrice: Option<string>, maxPrice: Option<string>,
                       propertyType: Option<PropertyType>, parsePrice: string -> int): (f: Filter)
    ensures f.city.Some? <==> Truthy(city)
    ensures f.price.Some? <==> Truthy(minPrice) || Truthy(maxPrice)
    ensures f.price.Some? ==> (f.price.value.gte.Some? <==> Truthy(minPrice))
    ensures f.price.Some? ==> (f.price.value.lte.Some? <==> Truthy(maxPrice))
    ensures f.propertyType == propertyType
  {
    var price :=
      if Truthy(minPrice) || Truthy(maxPrice) then
        Some(PriceRange(if Truthy(minPrice) then Some(parsePrice(minPrice.value)) else None,
                        if Truthy(maxPrice) then Some(parsePrice(maxPrice.value)) else None))
      else None;
    Filter(if Truthy(city) then city else None, price, propertyType)
  }

  /**
   * End to end: a home passes the built filter iff its city equals a
   * non-empty city query, its price lies within each non-empty bound, and its
   * property type equals the one supplied.
   */
  lemma BuiltFilterSelects(h: Home, city: Option<string>, minPrice: Option<string>, maxPrice: Option<string>,
                           propertyType: Option<PropertyType>, parsePrice: string -> int)
    ensures Matches(h, BuildFilter(city, minPrice, maxPrice, propertyType, parsePrice)) <==>
              && (Truthy(city) ==> h.city == city.value)
              && (Truthy(minPrice) ==> h.price >= parsePrice(minPrice.value))
              && (Truthy(maxPrice) ==> h.price <= parsePrice(maxPrice.value))
              && (propertyType.Some? ==> h.propertyType == propertyType.value)
  {
  }

  /** With no query parameters (or only empty ones) the filter is empty and every home matches. */
  lemma EmptyQueryMatchesAll(h: Home, city: Option<string>, minPrice: Option<string>, maxPrice: Option<string>,
                             parsePrice: string -> int)
    requires !Truthy(city) && !Truthy(minPrice) && !Truthy(maxPrice)
    ensures BuildFilter(city, minPrice, maxPrice, None, parsePrice) == Filter(None, None, None)
    ensures Matches(h, BuildFilter(city, minPrice, maxPrice, None, parsePrice))
  {
  }

  // ---------------------------------------------------------------- declared roles

  datatype Route = ListHomes | ShowHome | CreateHome | UpdateHome | DeleteHome | Inquire | HomeMessages

  /** The @Roles list of each route; None where the route declares none and is public. */
  function DeclaredRoles(route: Route): (roles: Option<set<Role>>)
    ensures roles.None? <==> route == ListHomes || route == ShowHome
    ensures roles.Some? ==> roles.value != {}
  {
    match route
    case ListHomes => None
    case ShowHome => None
    case CreateHome => Some({Realtor, Admin})
    case UpdateHome => Some({Realtor, Admin})
    case DeleteHome => Some({Realtor, Admin})
    case Inquire => Some({Buyer})
    case HomeMessages => Some({Realtor})
  }

  /** Whether a caller with this role (None: no identity) may reach the route's handler. */
  predicate Admits(route: Route, role: Option<Role>): (ok: bool)
    ensures DeclaredRoles(route).None? ==> ok
    ensures DeclaredRoles(route).Some? && role.None? ==> !ok
  {
    DeclaredRoles(route).None? || (role.Some? && role.value in DeclaredRoles(route).value)
  }

  /** What the allow-lists say, route by route. */
  lemma RoleAllowLists(role: Option<Role>)
    ensures Admits(ListHomes, role) && Admits(ShowHome, role)
    ensures Admits(CreateHome, role) <==> role == Some(Realtor) || role == Some(Admin)
    ensures Admits(UpdateHome, role) <==> role == Some(Realtor) || role == Some(Admin)
    ensures Admits(DeleteHome, role) <==> role == Some(Realtor) || role == Some(Admin)
    ensures Admits(Inquire, role) <==> role == Some(Buyer)
    ensures Admits(HomeMessages, role) <==> role == Some(Realtor)
  {
  }

  // ---------------------------------------------------------------- ownership

  /** The routes whose handler compares the home's realtor with the caller. */
  predicate OwnerOnly(route: Route) {
    route == UpdateHome || route == DeleteHome || route == HomeMessages
  }

  /**
   * The gate inside updateHome, deleteHome and getHomeMessages: the owner
   * lookup's NotFound passes through before any comparison; a realtor other
   * than the caller is Unauthorized. The caller's role plays no part.
   */
  function OwnerGate(owner: Result<RealtorInfo>, callerId: int): (r: Result<RealtorInfo>)
    ensures r.Success? <==> owner.Success? && owner.value.id == callerId
    ensures owner.Failure? ==> r == owner
    ensures owner.Success? && owner.value.id != callerId ==> r == Failure(Unauthorized(NoPermission))
  {
    if owner.Failure? then owner
    else if owner.value.id != callerId then Failure(Unauthorized(NoPermission))
    else owner
  }

  /** The whole admission of a request: the role guard, then, on owner-only routes, the ownership gate. */
  function Admission(route: Route, role: Option<Role>, homes: map<int, Home>, users: map<int, User>,
                     homeId: int, callerId: int): (r: Result<()>)
    requires forall k :: k in homes ==> homes[k].realtorId in users
    ensures !Admits(route, role) ==> r == Failure(Forbidden(RoleRefused))
    ensures Admits(route, role) && !OwnerOnly(route) ==> r.Success?
    ensures r.Failure? ==> r.error in {Forbidden(RoleRefused), NotFound(NoHomeWithId), Unauthorized(NoPermission)}
  {
    if !Admits(route, role) then Failure(Forbidden(RoleRefused))
    else if !OwnerOnly(route) then Success(())
    else
      var gate := OwnerGate(GetRealtorByHome(homes, users, homeId), callerId);
      if gate.Failure? then Failure(gate.error) else Success(())
  }

  /**
   * On update, delete and messages a request is admitted iff the role is
   * listed, the home exists and the caller is its realtor; an ADMIN who does
   * not own the home is refused like anyone else.
   */
  lemma OwnerOnlyAdmission(route: Route, role: Option<Role>, homes: map<int, Home>, users: map<int, User>,
                           homeId: int, callerId: int)
    requires forall k :: k in homes ==> homes[k].realtorId in users
    requires OwnerOnly(route)
    ensures Admission(route, role, homes, users, homeId, callerId).Success? <==>
              Admits(route, role) && homeId in homes && homes[homeId].realtorId == callerId
    ensures Admits(route, role) && homeId !in homes ==>
              Admission(route, role, homes, users, homeId, callerId) == Failure(NotFound(NoHomeWithId))
    ensures role == Some(Admin) && Admits(route, role) && homeId in homes && homes[homeId].realtorId != callerId ==>
              Admission(route, role, homes, users, homeId, callerId) == Failure(Unauthorized(NoPermission))
  {
  }

  // ---------------------------------------------------------------- the controller

  class HomeController {
    const service: HomeService

    constructor (service: HomeService)
      ensures this.service == service
    {
      this.service := service;
    }

    /** PUT /home/:id: the owner lookup, the ownership gate, then the update. */
    method UpdateHome(id: int, body: UpdateHomeParams, user: Claims) returns (r: Result<Home>)
      requires service.db.Valid()
      modifies service.db
      ensures service.db.Valid()
      ensures id !in old(service.db.homes) ==> r == Failure(NotFound(NoHomeWithId)) && unchanged(service.db)
      ensures id in old(service.db.homes) && old(service.db.homes)[id].realtorId != user.id ==>
                r == Failure(Unauthorized(NoPermission)) && unchanged(service.db)
      ensures id in old(service.db.homes) && old(service.db.homes)[id].realtorId == user.id ==>
                && r == Success(ApplyUpdate(old(service.db.homes)[id], body))
                && service.db.homes == old(service.db.homes)[id := r.value]
                && service.db.users == old(service.db.users)
                && service.db.images == old(service.db.images)
                && service.db.messages == old(service.db.messages)
    {
      var gate := OwnerGate(GetRealtorByHome(service.db.homes, service.db.users, id), user.id);
      if gate.Failure? {
        return Failure(gate.error);
      }
      r := service.UpdateHomeById(id, body);
    }

    /** DELETE /home/:id: the owner lookup, the ownership gate, then the cascade delete. */
    method DeleteHome(id: int, user: Claims) returns (r: Result<()>)
      requires service.db.Valid()
      modifies service.db
      ensures service.db.Valid()
      ensures id !in old(service.db.homes) ==> r == Failure(NotFound(NoHomeWithId)) && unchanged(service.db)
      ensures id in old(service.db.homes) && old(service.db.homes)[id].realtorId != user.id ==>
                r == Failure(Unauthorized(NoPermission)) && unchanged(service.db)
      ensures id in old(service.db.homes) && old(service.db.homes)[id].realtorId == user.id ==>
                && r == Success(())
                && service.db.homes == old(service.db.homes) - {id}
                && service.db.images == Without(old(service.db.images), id)
                && service.db.users == old(service.db.users)
                && service.db.messages == old(service.db.messages)
    {
      var gate := OwnerGate(GetRealtorByHome(service.db.homes, service.db.users, id), user.id);
      if gate.Failure? {
        return Failure(gate.error);
      }
      service.DeleteHomeById(id);
      r := Success(());
    }

    /** GET /home/:id/messages: the owner lookup, the ownership gate, then the home's messages. */
    method GetHomeMessages(id: int, user: Claims) returns (r: Result<seq<BuyerMessage>>)
      requires service.db.Valid()
      ensures id !in service.db.homes ==> r == Failure(NotFound(NoHomeWithId))
      ensures id in service.db.homes && service.db.homes[id].realtorId != user.id ==>
                r == Failure(Unauthorized(NoPermission))
      ensures r.Success? <==> id in service.db.homes && service.db.homes[id].realtorId == user.id
      ensures r.Success? ==> r.value == GetMessagesByHome(service.db.messages, service.db.users, id)
    {
      var gate := OwnerGate(GetRealtorByHome(service.db.homes, service.db.users, id), user.id);
      if gate.Failure? {
        return Failure(gate.error);
      }
      r := Success(GetMessagesByHome(service.db.messages, service.db.users, id));
    }
  }
}
