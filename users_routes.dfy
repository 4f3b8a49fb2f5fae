/** The signed-in user's own account (server/src/routes/users.routes.js):
    profile updates and the address book. */
module UsersRoutes {
  import opened Common
  import opened Seqs
  import opened UserModel
  import AuthMiddleware
  import Text

  const ValidationFailed: Error := Error(400, "Validation failed")

  /** The error `user.addresses` raises when the user vanished between
      authentication and the lookup; the error handler reports it as 500. */
  const NoSuchUser: Error := Error(500, "Cannot read properties of null (reading 'addresses')")

  // ---------------------------------------------------------------------------
  // PATCH `/me`

  /** The update schema: only these five fields can be sent, the payment
      method and theme from their enums. */
  datatype ProfileUpdate = ProfileUpdate(
    name: Option<string>,
    phone: Option<string>,
    dob: Option<Millis>,
    defaultPaymentMethod: Option<PaymentMethod>,
    theme: Option<Theme>)

  predicate ProfileUpdateValid(p: ProfileUpdate)
  {
    p.name.Some? ==> |p.name.value| >= 2
  }

  /** `$set: req.body`: each field present replaces the stored one, and
      nothing else about the user changes. The schema's `trim` setter runs on
      the update, so a name is stored trimmed (server/src/models/User.js:16). */
  function ApplyProfileUpdate(u: User, p: ProfileUpdate): (r: User)
    ensures r.name == (if p.name.Some? then Text.Trim(p.name.value) else u.name)
    ensures p.name.Some? ==> r.name == [] || (!Text.IsSpace(r.name[0]) && !Text.IsSpace(r.name[|r.name| - 1]))
    ensures r.phone == (if p.phone.Some? then p.phone.value else u.phone)
    ensures r.dob == (if p.dob.Some? then p.dob else u.dob)
    ensures r.defaultPaymentMethod == (if p.defaultPaymentMethod.Some? then p.defaultPaymentMethod.value else u.defaultPaymentMethod)
    ensures r.theme == (if p.theme.Some? then p.theme.value else u.theme)
    ensures r.(name := u.name, phone := u.phone, dob := u.dob, defaultPaymentMethod := u.defaultPaymentMethod,
               theme := u.theme) == u
  {
    u.(name := if p.name.Some? then Text.Trim(p.name.value) else u.name,
       phone := if p.phone.Some? then p.phone.value else u.phone,
       dob := if p.dob.Some? then p.dob else u.dob,
       defaultPaymentMethod := if p.defaultPaymentMethod.Some? then p.defaultPaymentMethod.value else u.defaultPaymentMethod,
       theme := if p.theme.Some? then p.theme.value else u.theme)
  }

  /** A second application of an update leaves the name it stored. */
  lemma ProfileUpdateNameStable(u: User, p: ProfileUpdate)
    ensures ApplyProfileUpdate(ApplyProfileUpdate(u, p), p).name == ApplyProfileUpdate(u, p).name
  {
    if p.name.Some? {
      Text.TrimIdempotent(p.name.value);
    }
  }

  /** An update applied twice is the same as once, and an empty update
      changes nothing. */
  lemma ProfileUpdateIdempotent(u: User, p: ProfileUpdate)
    ensures ApplyProfileUpdate(ApplyProfileUpdate(u, p), p) == ApplyProfileUpdate(u, p)
    ensures ApplyProfileUpdate(u, ProfileUpdate(None, None, None, None, None)) == u
  {
    var once := ApplyProfileUpdate(u, p);
    var twice := ApplyProfileUpdate(once, p);
    ProfileUpdateNameStable(u, p);
    assert twice == once by {
      assert twice.name == once.name;
      assert twice.phone == once.phone && twice.dob == once.dob && twice.theme == once.theme &&
             twice.defaultPaymentMethod == once.defaultPaymentMethod;
      assert twice.id == once.id && twice.role == once.role && twice.username == once.username &&
             twice.email == once.email && twice.passwordHash == once.passwordHash &&
             twice.addresses == once.addresses;
    }
  }

  /** PATCH `/me`: 400 on an invalid update; the updated user without its
      password hash, or null when the user no longer exists. */
  function PatchMe(users: map<UserId, User>, me: UserId, p: ProfileUpdate): (r: (map<UserId, User>, Result<Option<User>>))
    ensures !ProfileUpdateValid(p) ==> r == (users, Err(ValidationFailed))
    ensures ProfileUpdateValid(p) && me !in users ==> r == (users, Ok(None))
    ensures ProfileUpdateValid(p) && me in users ==>
      r.0 == users[me := ApplyProfileUpdate(users[me], p)] &&
      r.1 == Ok(Some(AuthMiddleware.WithoutHash(ApplyProfileUpdate(users[me], p))))
  {
    if !ProfileUpdateValid(p) then (users, Err(ValidationFailed))
    else if me !in users then (users, Ok(None))
    else
      var u := ApplyProfileUpdate(users[me], p);
      (users[me := u], Ok(Some(AuthMiddleware.WithoutHash(u))))
  }

  method PatchMeHandler(store: UserStore, me: UserId, p: ProfileUpdate) returns (res: Result<Option<User>>)
    requires store.Valid()
    modifies store
    ensures store.Valid() && store.nextId == old(store.nextId)
    ensures (store.users, res) == PatchMe(old(store.users), me, p)
  {
    if !ProfileUpdateValid(p) {
      return Err(ValidationFailed);
    }
    if me !in store.users {
      return Ok(None);
    }
    var u := ApplyProfileUpdate(store.users[me], p);
    store.users := store.users[me := u];
    res := Ok(Some(AuthMiddleware.WithoutHash(u)));
  }

  // ---------------------------------------------------------------------------
  // POST `/me/addresses`

  /** The address schema; `label`, `line2` and the coordinates may be
      absent. */
  datatype AddressBody = AddressBody(
    addressLabel: Option<string>,
    line1: string,
    line2: Option<string>,
    city: string,
    state: string,
    pincode: string,
    lat: Option<real>,
    lng: Option<real>)

  predicate AddressBodyValid(b: AddressBody)
  {
    |b.line1| >= 3 && |b.city| >= 2 && |b.state| >= 2 && |b.pincode| >= 4
  }

  /** The stored sub-document: label "Home", line2 "" and the default
      coordinates where the body has none. `id` is the generated `_id`. */
  function NewAddress(id: AddressId, b: AddressBody): (a: Address)
    ensures a.id == id && a.line1 == b.line1 && a.city == b.city && a.state == b.state && a.pincode == b.pincode
    ensures a.addressLabel == (if b.addressLabel.Some? then b.addressLabel.value else "Home")
    ensures a.line2 == (if b.line2.Some? then b.line2.value else "")
    ensures a.lat == (if b.lat.Some? then b.lat.value else DefaultLat)
    ensures a.lng == (if b.lng.Some? then b.lng.value else DefaultLng)
  {
    Address(id, if b.addressLabel.Some? then b.addressLabel.value else "Home", b.line1,
      if b.line2.Some? then b.line2.value else "", b.city, b.state, b.pincode,
      if b.lat.Some? then b.lat.value else DefaultLat,
      if b.lng.Some? then b.lng.value else DefaultLng)
  }

  /** POST `/me/addresses`: 400 on an invalid body; otherwise the address
      is appended to the user's list and the whole list answered. */
  function AddAddress(users: map<UserId, User>, me: UserId, b: AddressBody, id: AddressId)
    : (r: (map<UserId, User>, Result<seq<Address>>))
    ensures !AddressBodyValid(b) ==> r == (users, Err(ValidationFailed))
    ensures AddressBodyValid(b) && me !in users ==> r == (users, Err(NoSuchUser))
    ensures r.1.Ok? <==> AddressBodyValid(b) && me in users
    ensures r.1.Ok? ==>
      r.1.value == users[me].addresses + [NewAddress(id, b)] &&
      r.0 == users[me := users[me].(addresses := r.1.value)]
  {
    if !AddressBodyValid(b) then (users, Err(ValidationFailed))
    else if me !in users then (users, Err(NoSuchUser))
    else
      var addrs := users[me].addresses + [NewAddress(id, b)];
      (users[me := users[me].(addresses := addrs)], Ok(addrs))
  }

  method AddAddressHandler(store: UserStore, me: UserId, b: AddressBody, id: AddressId) returns (res: Result<seq<Address>>)
    requires store.Valid()
    modifies store
    ensures store.Valid() && store.nextId == old(store.nextId)
    ensures (store.users, res) == AddAddress(old(store.users), me, b, id)
  {
    if !AddressBodyValid(b) {
      return Err(ValidationFailed);
    }
    if me !in store.users {
      return Err(NoSuchUser);
    }
    var u := store.users[me];
    var addrs := u.addresses + [NewAddress(id, b)];
    store.users := store.users[me := u.(addresses := addrs)];
    res := Ok(addrs);
  }

  // ---------------------------------------------------------------------------
  // DELETE `/me/addresses/:addressId`

  /** The addresses whose id differs from `id`, in their order. */
  function RemoveAddress(addrs: seq<Address>, id: AddressId): (r: seq<Address>)
    ensures |r| <= |addrs|
    ensures forall a :: a in r <==> a in addrs && a.id != id
    decreases |addrs|
  {
    if addrs == [] then []
    else (if addrs[0].id != id then [addrs[0]] else []) + RemoveAddress(addrs[1..], id)
  }

  /** Removal keeps the remaining addresses in their order. */
  lemma {:induction false} RemoveAddressKeepsOrder(addrs: seq<Address>, id: AddressId)
    ensures IsSubsequence(RemoveAddress(addrs, id), addrs)
    decreases |addrs|
  {
    if addrs != [] {
      RemoveAddressKeepsOrder(addrs[1..], id);
      var rest := RemoveAddress(addrs[1..], id);
      if addrs[0].id != id {
        assert RemoveAddress(addrs, id) == [addrs[0]] + rest;
        assert ([addrs[0]] + rest)[1..] == rest;
      } else {
        assert RemoveAddress(addrs, id) == rest;
      }
    }
  }

  /** An id that no address has leaves the list unchanged. */
  lemma {:induction false} RemoveUnknownAddress(addrs: seq<Address>, id: AddressId)
    requires forall a :: a in addrs ==> a.id != id
    ensures RemoveAddress(addrs, id) == addrs
    decreases |addrs|
  {
    if addrs != [] {
      RemoveUnknownAddress(addrs[1..], id);
      assert addrs == [addrs[0]] + addrs[1..];
    }
  }

  /** Removing twice is the same as removing once. */
  lemma RemoveAddressIdempotent(addrs: seq<Address>, id: AddressId)
    ensures RemoveAddress(RemoveAddress(addrs, id), id) == RemoveAddress(addrs, id)
  {
    RemoveUnknownAddress(RemoveAddress(addrs, id), id);
  }

  /** Removal distributes over an append. */
  lemma {:induction false} RemoveAddressAppend(addrs: seq<Address>, a: Address, id: AddressId)
    ensures RemoveAddress(addrs + [a], id) == RemoveAddress(addrs, id) + (if a.id != id then [a] else [])
    decreases |addrs|
  {
    if addrs == [] {
      assert [a][1..] == [];
    } else {
      assert (addrs + [a])[1..] == addrs[1..] + [a];
      RemoveAddressAppend(addrs[1..], a, id);
    }
  }

  /** Deleting an address just added, under an id no other address has,
      gives back the list as it was before. */
  lemma AddThenRemoveAddress(addrs: seq<Address>, b: AddressBody, id: AddressId)
    requires forall a :: a in addrs ==> a.id != id
    ensures RemoveAddress(addrs + [NewAddress(id, b)], id) == addrs
  {
    RemoveAddressAppend(addrs, NewAddress(id, b), id);
    RemoveUnknownAddress(addrs, id);
  }

  /** DELETE `/me/addresses/:addressId`: the user's list without the
      addresses of that id; an unknown id changes nothing. */
  function DeleteAddress(users: map<UserId, User>, me: UserId, id: AddressId)
    : (r: (map<UserId, User>, Result<seq<Address>>))
    ensures me !in users ==> r == (users, Err(NoSuchUser))
    ensures me in users ==>
      r.1 == Ok(RemoveAddress(users[me].addresses, id)) &&
      r.0 == users[me := users[me].(addresses := r.1.value)]
  {
    if me !in users then (users, Err(NoSuchUser))
    else
      var addrs := RemoveAddress(users[me].addresses, id);
      (users[me := users[me].(addresses := addrs)], Ok(addrs))
  }

  method DeleteAddressHandler(store: UserStore, me: UserId, id: AddressId) returns (res: Result<seq<Address>>)
    requires store.Valid()
    modifies store
    ensures store.Valid() && store.nextId == old(store.nextId)
    ensures (store.users, res) == DeleteAddress(old(store.users), me, id)
  {
    if me !in store.users {
      return Err(NoSuchUser);
    }
    var u := store.users[me];
    var addrs := RemoveAddress(u.addresses, id);
    store.users := store.users[me := u.(addresses := addrs)];
    res := Ok(addrs);
  }
}
