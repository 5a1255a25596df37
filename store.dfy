/**
 * The record store the server calls through db.js: user records, the
 * latest spot and the Apple push registrations, each keyed by (uid, garage)
 * (registrations also by device). db.js is not part of this model; its
 * operations are taken to be get, upsert-merge, overwrite and delete on
 * three maps, applied one at a time.
 */
module Store {
  import opened Wrappers
  import opened JsValues

  datatype Key = Key(uid: string, garage: string)
  datatype PushKey = PushKey(key: Key, device: string)

  /** A user record: the wallet linkage ids, each absent until first recorded. */
  datatype User = User(googleObjectId: Option<string>, appleSerial: Option<string>)

  /** The fields an upsert supplies; `None` means the field is not in the update. */
  datatype UserPatch = UserPatch(googleObjectId: Option<string>, appleSerial: Option<string>)

  datatype Spot = Spot(floor: string, stair: string, ts: int)

  datatype State = State(users: map<Key, User>, spots: map<Key, Spot>, pushes: map<PushKey, Value>)

  const Empty := State(map[], map[], map[])
  const NoLinks := UserPatch(None, None)

  /** `!user.field` is false: the field holds a non-empty string. */
  predicate Linked(field: Option<string>) {
    field.Some? && field.value != ""
  }

  function Lookup<K, V>(m: map<K, V>, k: K): Option<V> {
    if k in m then Some(m[k]) else None
  }

  /** Upsert-merge of one record: supplied fields replace, the others are kept (or absent for a new record). */
  function Merge(current: Option<User>, patch: UserPatch): (u: User)
    ensures patch.googleObjectId.Some? ==> u.googleObjectId == patch.googleObjectId
    ensures patch.appleSerial.Some? ==> u.appleSerial == patch.appleSerial
    ensures patch.googleObjectId.None? ==>
      u.googleObjectId == (if current.Some? then current.value.googleObjectId else None)
    ensures patch.appleSerial.None? ==>
      u.appleSerial == (if current.Some? then current.value.appleSerial else None)
  {
    var base := if current.Some? then current.value else User(None, None);
    User(if patch.googleObjectId.Some? then patch.googleObjectId else base.googleObjectId,
         if patch.appleSerial.Some? then patch.appleSerial else base.appleSerial)
  }

  /** `dbUpsertUser`: the merged record, stored under its key and returned. */
  function Upserted(st: State, key: Key, patch: UserPatch): (r: (State, User))
    ensures r.1 == Merge(Lookup(st.users, key), patch)
    ensures r.0 == st.(users := st.users[key := r.1])
  {
    var u := Merge(Lookup(st.users, key), patch);
    (st.(users := st.users[key := u]), u)
  }

  /** `dbUpdateSpot`: unconditional overwrite of the spot under the key. */
  function SpotUpdated(st: State, key: Key, spot: Spot): (r: State)
    ensures key in r.spots && r.spots[key] == spot
    ensures forall k :: k != key ==> (k in r.spots <==> k in st.spots) && (k in st.spots ==> r.spots[k] == st.spots[k])
    ensures r.users == st.users && r.pushes == st.pushes
  {
    st.(spots := st.spots[key := spot])
  }

  /** `dbAddApplePush`: the token stored under (key, device). */
  function PushAdded(st: State, key: Key, device: string, token: Value): (r: State)
    ensures PushKey(key, device) in r.pushes && r.pushes[PushKey(key, device)] == token
    ensures forall k :: k != PushKey(key, device) ==>
      (k in r.pushes <==> k in st.pushes) && (k in st.pushes ==> r.pushes[k] == st.pushes[k])
    ensures r.users == st.users && r.spots == st.spots
  {
    st.(pushes := st.pushes[PushKey(key, device) := token])
  }

  /** `dbRemoveApplePush`: the entry under (key, device) removed, if there was one. */
  function PushRemoved(st: State, key: Key, device: string): (r: State)
    ensures PushKey(key, device) !in r.pushes
    ensures forall k :: k != PushKey(key, device) ==>
      (k in r.pushes <==> k in st.pushes) && (k in st.pushes ==> r.pushes[k] == st.pushes[k])
    ensures r.users == st.users && r.spots == st.spots
  {
    st.(pushes := st.pushes - {PushKey(key, device)})
  }

  /** Adding and then removing a registration leaves none, and no other entry changes. */
  lemma AddThenRemovePush(st: State, key: Key, device: string, token: Value)
    ensures PushKey(key, device) !in PushRemoved(PushAdded(st, key, device, token), key, device).pushes
    ensures PushRemoved(PushAdded(st, key, device, token), key, device) == PushRemoved(st, key, device)
    ensures PushKey(key, device) !in st.pushes ==>
      PushRemoved(PushAdded(st, key, device, token), key, device) == st
  {
    var k := PushKey(key, device);
    assert st.pushes[k := token] - {k} == st.pushes - {k};
    if k !in st.pushes {
      assert st.pushes - {k} == st.pushes;
    }
  }

  /** The store as the server sees it: three maps that the db calls update in place. */
  class Db {
    var users: map<Key, User>
    var spots: map<Key, Spot>
    var pushes: map<PushKey, Value>

    function Snapshot(): State
      reads this
    {
      State(users, spots, pushes)
    }

    constructor ()
      ensures Snapshot() == Empty
    {
      users, spots, pushes := map[], map[], map[];
    }

    /** `dbGetUser` */
    method GetUser(key: Key) returns (u: Option<User>)
      ensures u == Lookup(users, key)
    {
      u := if key in users then Some(users[key]) else None;
    }

    /** `dbUpsertUser` */
    method UpsertUser(key: Key, patch: UserPatch) returns (u: User)
      modifies this
      ensures (Snapshot(), u) == Upserted(old(Snapshot()), key, patch)
    {
      var current := if key in users then Some(users[key]) else None;
      u := Merge(current, patch);
      users := users[key := u];
    }

    /** `dbUpdateSpot` */
    method UpdateSpot(key: Key, spot: Spot)
      modifies this
      ensures Snapshot() == SpotUpdated(old(Snapshot()), key, spot)
    {
      spots := spots[key := spot];
    }

    /** `dbGetSpot` */
    method GetSpot(key: Key) returns (s: Option<Spot>)
      ensures s == Lookup(spots, key)
    {
      s := if key in spots then Some(spots[key]) else None;
    }

    /** `dbAddApplePush` */
    method AddApplePush(key: Key, device: string, token: Value)
      modifies this
      ensures Snapshot() == PushAdded(old(Snapshot()), key, device, token)
    {
      pushes := pushes[PushKey(key, device) := token];
    }

    /** `dbRemoveApplePush` */
    method RemoveApplePush(key: Key, device: string)
      modifies this
      ensures Snapshot() == PushRemoved(old(Snapshot()), key, device)
    {
      pushes := pushes - {PushKey(key, device)};
    }
  }
}
