/**
 * The user-profile service: a browser cache of profiles under keys "user_<uid>", the
 * remote `users` collection, and the operations that read, create, promote and
 * re-synchronise profiles. Every remote call consumes one entry of a fault script
 * (an empty script means every call succeeds), and `online` is the browser's
 * connectivity flag, constant during one operation.
 */
module UserService {
  import opened Js

  const Lider := "lider"
  const Modelista := "modelista"
  const Pendiente := "pendiente"

  /** `ROLES`: its keys and, in the same order, its values. */
  const RoleKeys: seq<string> := ["LIDER", "MODELISTA", "PENDIENTE"]
  const RoleValues: seq<string> := [Lider, Modelista, Pendiente]

  /** A browser-storage entry: the JSON text of an object, the empty text, or text JSON.parse rejects. */
  datatype Stored = Json(o: Obj) | EmptyText | Garbage

  /**
   * How one remote call ends: it succeeds, it succeeds but a read reports no document
   * (a stale or concurrently cleared read; writes treat it as success), or it fails with
   * a Firebase error code and message.
   */
  datatype Fault = Ok | Stale | Fail(code: string, message: string)

  /** The world the service sees. */
  datatype Store = Store(
    local: map<string, Stored>,
    storageFull: bool,
    users: map<string, Obj>,
    online: bool,
    faults: seq<Fault>)

  /** The state after an operation and how the operation ended. */
  datatype Res<T> = Res(s: Store, out: Outcome<T>)

  datatype SyncResult = Synced(uid: string) | SyncError(key: string)

  const LocalDataNotDefined := JsError("ReferenceError", "", "localData is not defined")
  const RolInvalido := JsError("Error", "", "Rol inválido")
  const NotSaved := JsError("Error", "", "No se pudo guardar el usuario en Firestore")
  const InvalidDocRef := JsError("FirebaseError", "invalid-argument", "Invalid document reference")
  const NoDocument := JsError("FirebaseError", "not-found", "No document to update")

  function FaultError(f: Fault): JsError
    requires f.Fail?
  {
    JsError("FirebaseError", f.code, f.message)
  }

  /** A uid that `doc(db, "users", uid)` refuses: the empty one or one with a path separator. */
  predicate InvalidId(uid: string) {
    uid == "" || '/' in uid
  }

  // ---------------------------------------------------------------------------
  // The browser cache

  const Prefix := "user_"

  function LocalKey(uid: string): (k: string)
    ensures StartsWith(k, Prefix) && k[|Prefix|..] == uid
  {
    Prefix + uid
  }

  lemma LocalKeyInjective(a: string, b: string)
    ensures LocalKey(a) == LocalKey(b) ==> a == b
  {
    assert LocalKey(a)[|Prefix|..] == a && LocalKey(b)[|Prefix|..] == b;
  }

  /** `JSON.parse(JSON.stringify(o))` for a flat object: undefined fields disappear. */
  function Jsonify(o: Obj): (r: Obj)
    ensures forall k :: k in r <==> k in o && o[k] != Undefined
    ensures forall k :: k in r ==> r[k] == o[k]
  {
    map k | k in o && o[k] != Undefined :: o[k]
  }

  lemma JsonifyIdentity(o: Obj)
    requires forall k :: k in o ==> o[k] != Undefined
    ensures Jsonify(o) == o
  {
  }

  /** getLocalUser: the parsed entry, or null when it is missing, empty or unparsable. */
  function ReadLocal(s: Store, uid: string): Option<Obj> {
    var k := LocalKey(uid);
    if k in s.local && s.local[k].Json? then Some(s.local[k].o) else None
  }

  /** saveLocalUser: a failing write (storage full) is swallowed and changes nothing. */
  function WriteLocal(s: Store, uid: string, d: Obj): (r: Store)
    ensures r.users == s.users && r.online == s.online && r.faults == s.faults && r.storageFull == s.storageFull
  {
    if s.storageFull then s else s.(local := s.local[LocalKey(uid) := Json(Jsonify(d))])
  }

  /** Reading back what was saved gives it back, up to its undefined fields; a failed save changes nothing. */
  lemma LocalRoundTrip(s: Store, uid: string, d: Obj)
    ensures !s.storageFull ==> ReadLocal(WriteLocal(s, uid, d), uid) == Some(Jsonify(d))
    ensures s.storageFull ==> WriteLocal(s, uid, d) == s
  {
  }

  /** Saving one profile leaves every other entry alone. */
  lemma WriteLocalOtherKeys(s: Store, uid: string, d: Obj, k: string)
    requires k != LocalKey(uid)
    ensures k in WriteLocal(s, uid, d).local <==> k in s.local
    ensures k in s.local ==> WriteLocal(s, uid, d).local[k] == s.local[k]
  {
  }

  /** The next entry of the fault script, and the store with it consumed. */
  function NextFault(s: Store): (r: (Fault, Store))
    ensures r.1.local == s.local && r.1.users == s.users && r.1.online == s.online
    ensures r.1.storageFull == s.storageFull
    ensures r.1.faults == if s.faults == [] then [] else s.faults[1..]
    ensures r.0 == if s.faults == [] then Ok else s.faults[0]
  {
    if s.faults == [] then (Ok, s) else (s.faults[0], s.(faults := s.faults[1..]))
  }

  // ---------------------------------------------------------------------------
  // getUser

  function TemporaryProfile(uid: string): Obj {
    map["id" := Str(uid), "rol" := Str(Modelista), "offline" := Bool(true), "temporary" := Bool(true)]
  }

  /** `{ ...o, offline: true }`. */
  function MarkOffline(o: Obj): Obj {
    o["offline" := Bool(true)]
  }

  /** `{ id: userDoc.id, ...userData, offline: false }`. */
  function OnlineProfile(uid: string, data: Obj): Obj {
    (map["id" := Str(uid)] + data)["offline" := Bool(false)]
  }

  /**
   * getUser, as written. The cached profile `localData` is declared inside the `try`, so
   * the `catch` cannot see it: every failure inside the `try` ends in a ReferenceError,
   * and the cache and temporary-profile fallbacks of the `catch` are never reached.
   */
  function GetUserSpec(s: Store, uid: string): Res<Option<Obj>> {
    var localData := ReadLocal(s, uid);
    if !s.online then
      Res(s, Return(Some(if localData.Some? then MarkOffline(localData.value) else TemporaryProfile(uid))))
    else if InvalidId(uid) then Res(s, Throw(LocalDataNotDefined))
    else
      var t1 := NextFault(s); var f, s1 := t1.0, t1.1;
      if f.Fail? then Res(s1, Throw(LocalDataNotDefined))
      else if f.Ok? && uid in s1.users then
        var user := OnlineProfile(uid, s1.users[uid]);
        Res(WriteLocal(s1, uid, user), Return(Some(user)))
      else if localData.Some? then Res(s1, Return(Some(MarkOffline(localData.value))))
      else Res(s1, Return(None))
  }

  /** Offline, getUser answers from the cache (or a temporary modelista profile) and touches nothing. */
  lemma GetUserOffline(s: Store, uid: string)
    requires !s.online
    ensures GetUserSpec(s, uid).s == s
    ensures ReadLocal(s, uid).Some? ==>
      GetUserSpec(s, uid).out == Return(Some(ReadLocal(s, uid).value["offline" := Bool(true)]))
    ensures ReadLocal(s, uid).None? ==>
      var p := GetUserSpec(s, uid).out.value.value;
      && p.Keys == {"id", "rol", "offline", "temporary"}
      && p["id"] == Str(uid) && p["rol"] == Str("modelista")
      && p["offline"] == Bool(true) && p["temporary"] == Bool(true)
  {
  }

  /** Online, an existing document is returned with `offline` false and cached under the uid. */
  lemma GetUserExisting(s: Store, uid: string)
    requires s.online && !InvalidId(uid) && NextFault(s).0 == Ok && uid in s.users
    ensures var r := GetUserSpec(s, uid);
      && r.out.Return? && r.out.value.Some?
      && var p := r.out.value.value;
      && p["offline"] == Bool(false)
      && (forall k :: k in s.users[uid] && k != "offline" ==> p[k] == s.users[uid][k])
      && (!s.storageFull ==> ReadLocal(r.s, uid) == Some(Jsonify(p)))
      && r.s.users == s.users
  {
  }

  /** Online, a missing document falls back to the cache marked offline, or to null; nothing is written. */
  lemma GetUserMissing(s: Store, uid: string)
    requires s.online && !InvalidId(uid) && !NextFault(s).0.Fail?
    requires NextFault(s).0 == Stale || uid !in s.users
    ensures var r := GetUserSpec(s, uid);
      && r.s == NextFault(s).1
      && r.out == Return(if ReadLocal(s, uid).Some? then Some(MarkOffline(ReadLocal(s, uid).value)) else None)
  {
  }

  /** getUser throws exactly when it is online and the read fails, and then always with the ReferenceError. */
  lemma GetUserThrowsReferenceError(s: Store, uid: string)
    ensures GetUserSpec(s, uid).out.Throw? <==> s.online && (InvalidId(uid) || NextFault(s).0.Fail?)
    ensures GetUserSpec(s, uid).out.Throw? ==> GetUserSpec(s, uid).out.err == LocalDataNotDefined
    ensures GetUserSpec(s, uid).s.users == s.users
  {
  }

  // ---------------------------------------------------------------------------
  // updateUserRole

  predicate IsRole(v: Value) {
    v == Str(Lider) || v == Str(Modelista) || v == Str(Pendiente)
  }

  /** The role test is membership in `Object.values(ROLES)`. */
  lemma IsRoleIsRoleValue(v: Value)
    ensures IsRole(v) <==> v.Str? && v.s in RoleValues
  {
  }

  function UpdateUserRoleSpec(s: Store, uid: string, newRole: Value): Res<()> {
    if !IsRole(newRole) then Res(s, Throw(RolInvalido))
    else if InvalidId(uid) then Res(s, Throw(InvalidDocRef))
    else
      var t2 := NextFault(s); var f, s1 := t2.0, t2.1;
      if f.Fail? then Res(s1, Throw(FaultError(f)))
      else if uid !in s1.users then Res(s1, Throw(NoDocument))
      else
        var d := s1.users[uid]["rol" := newRole]["updatedAt" := ServerStamp];
        Res(s1.(users := s1.users[uid := d]), Return(()))
  }

  /**
   * An invalid role is refused with "Rol inválido" before any remote call; a successful
   * change sets only that user's `rol` (and `updatedAt`); the cache is never touched.
   */
  lemma UpdateUserRoleContract(s: Store, uid: string, newRole: Value)
    ensures !IsRole(newRole) ==> UpdateUserRoleSpec(s, uid, newRole) == Res(s, Throw(RolInvalido))
    ensures UpdateUserRoleSpec(s, uid, newRole).s.local == s.local
    ensures var r := UpdateUserRoleSpec(s, uid, newRole);
      r.out.Return? ==>
        && IsRole(newRole) && uid in s.users && uid in r.s.users
        && r.s.users[uid]["rol"] == newRole
        && (forall k :: k in s.users[uid] && k != "rol" && k != "updatedAt" ==>
              k in r.s.users[uid] && r.s.users[uid][k] == s.users[uid][k])
        && (forall u :: u != uid ==> (u in r.s.users <==> u in s.users))
        && (forall u :: u != uid && u in s.users ==> r.s.users[u] == s.users[u])
    ensures UpdateUserRoleSpec(s, uid, newRole).out.Throw? ==> UpdateUserRoleSpec(s, uid, newRole).s.users == s.users
  {
  }

  // ---------------------------------------------------------------------------
  // createNewUser

  /** `userData.rol || ROLES.MODELISTA`. */
  function RoleOrDefault(data: Obj): Value {
    if Truthy(Get(data, "rol")) then data["rol"] else Str(Modelista)
  }

  /** `newUserData`: the given fields, the role or its default, and the two server timestamps. */
  function NewUserData(data: Obj): (r: Obj)
    ensures forall k :: k in data && k !in {"rol", "createdAt", "updatedAt"} ==> k in r && r[k] == data[k]
    ensures r.Keys == data.Keys + {"rol", "createdAt", "updatedAt"}
  {
    data["rol" := RoleOrDefault(data)]["createdAt" := ServerStamp]["updatedAt" := ServerStamp]
  }

  /** The profile cached by the offline fallback. */
  function PendingEntry(nud: Obj, uid: string, now: string): Obj {
    nud["id" := Str(uid)]["offline" := Bool(true)]["pendingSync" := Bool(true)]
       ["createdAt" := Str(now)]["updatedAt" := Str(now)]
  }

  /** The profile returned by the offline fallback, `{ id: uid, ...newUserData, offline, pendingSync }`. */
  function PendingResult(nud: Obj, uid: string): Obj {
    (map["id" := Str(uid)] + nud)["offline" := Bool(true)]["pendingSync" := Bool(true)]
  }

  /** The `catch` of createNewUser: offline, cache and return a pending profile; online, rethrow. */
  function CreateCatch(s: Store, uid: string, nud: Obj, now: string, err: JsError): Res<Obj> {
    if !s.online then Res(WriteLocal(s, uid, PendingEntry(nud, uid, now)), Return(PendingResult(nud, uid)))
    else Res(s, Throw(err))
  }

  /** createNewUser; `now` stands for `new Date().toISOString()`. */
  function CreateNewUserSpec(s: Store, uid: string, data: Obj, now: string): Res<Obj> {
    if InvalidId(uid) then Res(s, Throw(InvalidDocRef))
    else
      var nud := NewUserData(data);
      var t3 := NextFault(s); var f1, s1 := t3.0, t3.1;
      if f1.Fail? then CreateCatch(s1, uid, nud, now, FaultError(f1))
      else
        var s2 := s1.(users := s1.users[uid := nud]);
        var t4 := NextFault(s2); var f2, s3 := t4.0, t4.1;
        if f2.Fail? then CreateCatch(s3, uid, nud, now, FaultError(f2))
        else if f2.Stale? then CreateCatch(s3, uid, nud, now, NotSaved)
        else
          var saved := map["id" := Str(uid)] + s3.users[uid];
          Res(WriteLocal(s3, uid, saved["createdAt" := Str(now)]["updatedAt" := Str(now)]), Return(saved))
  }

  /** Every profile createNewUser returns carries the given role, or "modelista" when it was falsy. */
  lemma CreateNewUserRole(s: Store, uid: string, data: Obj, now: string)
    ensures var r := CreateNewUserSpec(s, uid, data, now);
      r.out.Return? ==> "rol" in r.out.value && r.out.value["rol"] == RoleOrDefault(data)
    ensures !Truthy(Get(data, "rol")) ==> RoleOrDefault(data) == Str("modelista")
  {
    if !InvalidId(uid) {
      var nud := NewUserData(data);
      assert nud["rol"] == RoleOrDefault(data);
      assert PendingResult(nud, uid)["rol"] == nud["rol"];
      assert (map["id" := Str(uid)] + nud)["rol"] == nud["rol"];
      var s1 := NextFault(s).1;
      var s3 := NextFault(s1.(users := s1.users[uid := nud])).1;
      assert s3.users[uid] == nud;
    }
  }

  /**
   * Online, createNewUser returns only after the document was written and read back as
   * existing; the returned profile is the written one with its id, and it is cached.
   */
  lemma CreateNewUserOnline(s: Store, uid: string, data: Obj, now: string)
    requires s.online
    ensures var r := CreateNewUserSpec(s, uid, data, now);
      r.out.Return? ==>
        && uid in r.s.users && r.s.users[uid] == NewUserData(data)
        && r.out.value == map["id" := Str(uid)] + NewUserData(data)
        && (!s.storageFull ==>
              ReadLocal(r.s, uid) == Some(Jsonify(r.out.value["createdAt" := Str(now)]["updatedAt" := Str(now)])))
    ensures var r := CreateNewUserSpec(s, uid, data, now);
      r.out.Throw? ==> r.s.local == s.local
    ensures var r := CreateNewUserSpec(s, uid, data, now);
      !InvalidId(uid) && !NextFault(s).0.Fail? && NextFault(NextFault(s).1).0 == Stale ==>
        r.out == Throw(NotSaved)
  {
  }

  /** A returned profile's id is the uid whenever the given data has no `id` of its own. */
  lemma CreateNewUserId(s: Store, uid: string, data: Obj, now: string)
    requires "id" !in data
    ensures var r := CreateNewUserSpec(s, uid, data, now);
      r.out.Return? ==> Get(r.out.value, "id") == Str(uid)
  {
    if !InvalidId(uid) {
      var nud := NewUserData(data);
      assert "id" !in nud;
      assert Get(PendingResult(nud, uid), "id") == Str(uid);
      var s1 := NextFault(s).1;
      var s3 := NextFault(s1.(users := s1.users[uid := nud])).1;
      assert s3.users[uid] == nud;
    }
  }

  /**
   * Offline, a failed write is not an error: the profile is cached and returned with
   * `pendingSync` and `offline` set.
   */
  lemma CreateNewUserOfflineFallback(s: Store, uid: string, data: Obj, now: string)
    requires !s.online && !InvalidId(uid) && NextFault(s).0.Fail?
    ensures var r := CreateNewUserSpec(s, uid, data, now);
      && r.out.Return?
      && r.out.value["pendingSync"] == Bool(true) && r.out.value["offline"] == Bool(true)
      && r.s.users == s.users
      && (!s.storageFull ==> ReadLocal(r.s, uid) == Some(Jsonify(PendingEntry(NewUserData(data), uid, now))))
  {
  }

  /** Offline, createNewUser never throws for a valid uid. */
  lemma CreateNewUserOfflineNeverThrows(s: Store, uid: string, data: Obj, now: string)
    requires !s.online && !InvalidId(uid)
    ensures CreateNewUserSpec(s, uid, data, now).out.Return?
  {
  }

  // ---------------------------------------------------------------------------
  // syncPendingUsers

  /** The local-only fields that are stripped before a profile is pushed. */
  const LocalOnlyFields: set<string> := {"pendingSync", "offline", "id"}

  /** `payload` after the three `delete`s. */
  function Payload(data: Obj): (r: Obj)
    ensures forall k :: k in r <==> k in data && k !in LocalOnlyFields
    ensures forall k :: k in r ==> r[k] == data[k]
  {
    map k | k in data && k !in LocalOnlyFields :: data[k]
  }

  /** `data.id || key.replace('user_', '')`; a truthy non-string id is not a usable path. */
  function SyncUid(key: string, data: Obj): Option<string>
    requires StartsWith(key, Prefix)
  {
    var id := Get(data, "id");
    if Truthy(id) then (if id.Str? then Some(id.s) else None) else Some(key[|Prefix|..])
  }

  /** `{ ...data, pendingSync: false, offline: false, updatedAt: now }`. */
  function MarkSynced(data: Obj, now: string): Obj {
    data["pendingSync" := Bool(false)]["offline" := Bool(false)]["updatedAt" := Str(now)]
  }

  /** The merge of `{ ...payload, updatedAt: serverTimestamp() }` into the user's document. */
  function MergePush(users: map<string, Obj>, uid: string, data: Obj): map<string, Obj> {
    users[uid := (if uid in users then users[uid] else map[]) + Payload(data)["updatedAt" := ServerStamp]]
  }

  /** Whether the loop body reaches the `setDoc` or an error for this stored entry. */
  predicate Attempted(e: Stored) {
    e.Garbage? || (e.Json? && Truthy(Get(e.o, "pendingSync")))
  }

  /** One iteration of the loop, for a key starting with "user_". */
  function SyncKey(s: Store, key: string, now: string): (Store, Option<SyncResult>)
    requires StartsWith(key, Prefix)
  {
    if key !in s.local || s.local[key].EmptyText? then (s, None)
    else if s.local[key].Garbage? then (s, Some(SyncError(key)))
    else
      var data := s.local[key].o;
      if !Truthy(Get(data, "pendingSync")) then (s, None)
      else
        var uid := SyncUid(key, data);
        if uid.None? || InvalidId(uid.value) then (s, Some(SyncError(key)))
        else
          var t5 := NextFault(s); var f, s1 := t5.0, t5.1;
          if f.Fail? then (s1, Some(SyncError(key)))
          else
            var s2 := s1.(users := MergePush(s1.users, uid.value, data));
            (WriteLocal(s2, uid.value, MarkSynced(data, now)), Some(Synced(uid.value)))
  }

  /** `Object.keys(localStorage).filter(k => k.startsWith('user_'))`. */
  function UserKeys(keys: seq<string>): (r: seq<string>)
    ensures |r| <= |keys|
    ensures Subsequence(r, keys)
    ensures forall k :: k in r <==> k in keys && StartsWith(k, Prefix)
  {
    if keys == [] then []
    else
      var rest := UserKeys(keys[1..]);
      SubsequenceOfTail(rest, keys);
      assert keys == [keys[0]] + keys[1..];
      if StartsWith(keys[0], Prefix) then [keys[0]] + rest else rest
  }

  predicate AllPrefixed(keys: seq<string>) {
    forall i :: 0 <= i < |keys| ==> StartsWith(keys[i], Prefix)
  }

  function Opt(r: Option<SyncResult>): seq<SyncResult> {
    if r.Some? then [r.value] else []
  }

  /** The store and the results after the loop has visited `keys` in order. */
  function SyncAll(s: Store, keys: seq<string>, now: string): (Store, seq<SyncResult>)
    requires AllPrefixed(keys)
  {
    if keys == [] then (s, [])
    else
      var t6 := SyncAll(s, keys[..|keys| - 1], now); var s1, rs := t6.0, t6.1;
      var t7 := SyncKey(s1, keys[|keys| - 1], now); var s2, r := t7.0, t7.1;
      (s2, rs + Opt(r))
  }

  /**
   * One iteration: an entry that is not pending (or has no text) is skipped; every attempted
   * entry gives exactly one result; a failed push changes no document and no entry; a
   * successful push marks the entry synced.
   */
  lemma SyncKeyOutcome(s: Store, key: string, now: string)
    requires StartsWith(key, Prefix)
    ensures var t8 := SyncKey(s, key, now); var s', r := t8.0, t8.1;
      && (r.Some? <==> key in s.local && Attempted(s.local[key]))
      && (r.None? ==> s' == s)
      && (r.Some? && r.value.SyncError? ==> r.value.key == key && s'.local == s.local && s'.users == s.users)
      && (r.Some? && r.value.Synced? ==>
            && s.local[key].Json?
            && var data := s.local[key].o;
            && SyncUid(key, data) == Some(r.value.uid)
            && s'.users == MergePush(s.users, r.value.uid, data)
            && (!s.storageFull ==> ReadLocal(s', r.value.uid) == Some(Jsonify(MarkSynced(data, now)))))
  {
  }

  /** No document of `after` has a local-only field that its `before` did not already have. */
  predicate NoNewLocalFields(before: map<string, Obj>, after: map<string, Obj>) {
    forall v, f :: v in after && f in LocalOnlyFields && f in after[v] ==>
      v in before && f in before[v] && after[v][f] == before[v][f]
  }

  lemma NoNewLocalFieldsTransitive(a: map<string, Obj>, b: map<string, Obj>, c: map<string, Obj>)
    requires NoNewLocalFields(a, b) && NoNewLocalFields(b, c)
    ensures NoNewLocalFields(a, c)
  {
  }

  /** The pushed document never gains a local-only field: those it has, it had before. */
  lemma MergePushNoLocalFields(users: map<string, Obj>, uid: string, data: Obj)
    ensures NoNewLocalFields(users, MergePush(users, uid, data))
  {
  }

  /** One iteration keeps the store's flags and never changes an entry outside the "user_" keys. */
  lemma SyncKeyFrame(s: Store, key: string, now: string)
    requires StartsWith(key, Prefix)
    ensures var s' := SyncKey(s, key, now).0;
      && s'.online == s.online && s'.storageFull == s.storageFull
      && (forall k :: !StartsWith(k, Prefix) ==>
            (k in s'.local <==> k in s.local) && (k in s.local ==> s'.local[k] == s.local[k]))
  {
    var t9 := SyncKey(s, key, now); var s', r := t9.0, t9.1;
    SyncKeyOutcome(s, key, now);
    if r.Some? && r.value.Synced? {
      var data := s.local[key].o;
      var s1 := NextFault(s).1.(users := MergePush(s.users, r.value.uid, data));
      forall k | !StartsWith(k, Prefix)
        ensures (k in s'.local <==> k in s.local) && (k in s.local ==> s'.local[k] == s.local[k])
      {
        assert k != LocalKey(r.value.uid);
        WriteLocalOtherKeys(s1, r.value.uid, MarkSynced(data, now), k);
      }
    }
  }

  /** One iteration never gives a document a local-only field it did not have. */
  lemma SyncKeyNoLocalFields(s: Store, key: string, now: string)
    requires StartsWith(key, Prefix)
    ensures NoNewLocalFields(s.users, SyncKey(s, key, now).0.users)
  {
    var t10 := SyncKey(s, key, now); var s', r := t10.0, t10.1;
    SyncKeyOutcome(s, key, now);
    if r.Some? && r.value.Synced? {
      MergePushNoLocalFields(s.users, r.value.uid, s.local[key].o);
    }
  }

  /** The sweep records at most one result per key. */
  lemma {:induction false} SyncAllResults(s: Store, keys: seq<string>, now: string)
    requires AllPrefixed(keys)
    ensures |SyncAll(s, keys, now).1| <= |keys|
  {
    if keys != [] {
      SyncAllResults(s, keys[..|keys| - 1], now);
    }
  }

  /** Over the whole sweep, entries outside the "user_" keys keep their values. */
  lemma {:induction false} SyncAllOtherKeys(s: Store, keys: seq<string>, now: string)
    requires AllPrefixed(keys)
    ensures var s' := SyncAll(s, keys, now).0;
      && s'.online == s.online && s'.storageFull == s.storageFull
      && (forall k :: !StartsWith(k, Prefix) ==>
            (k in s'.local <==> k in s.local) && (k in s.local ==> s'.local[k] == s.local[k]))
  {
    if keys != [] {
      var init := keys[..|keys| - 1];
      var s1 := SyncAll(s, init, now).0;
      SyncAllOtherKeys(s, init, now);
      SyncKeyFrame(s1, keys[|keys| - 1], now);
      assert SyncAll(s, keys, now).0 == SyncKey(s1, keys[|keys| - 1], now).0;
    }
  }

  /** Over the whole sweep, no local-only field reaches a document unless it was already there. */
  lemma {:induction false} SyncAllNoLocalFields(s: Store, keys: seq<string>, now: string)
    requires AllPrefixed(keys)
    ensures NoNewLocalFields(s.users, SyncAll(s, keys, now).0.users)
  {
    if keys != [] {
      var init := keys[..|keys| - 1];
      var s1 := SyncAll(s, init, now).0;
      SyncAllNoLocalFields(s, init, now);
      SyncKeyNoLocalFields(s1, keys[|keys| - 1], now);
      assert SyncAll(s, keys, now).0 == SyncKey(s1, keys[|keys| - 1], now).0;
      NoNewLocalFieldsTransitive(s.users, s1.users, SyncAll(s, keys, now).0.users);
    } else {
      assert NoNewLocalFields(s.users, s.users);
    }
  }

  /**
   * A profile cached by the offline fallback of createNewUser is picked up by the next
   * sweep: the entry is attempted, and if the push succeeds the document carries the role.
   */
  lemma OfflineProfileIsSynced(s: Store, uid: string, data: Obj, now: string, later: string)
    requires !s.online && !s.storageFull && !InvalidId(uid) && NextFault(s).0.Fail?
    ensures var s1 := CreateNewUserSpec(s, uid, data, now).s;
      var t11 := SyncKey(s1, LocalKey(uid), later); var s2, r := t11.0, t11.1;
      && r.Some?
      && (!NextFault(s1).0.Fail? ==>
            r == Some(Synced(uid)) && uid in s2.users && s2.users[uid]["rol"] == RoleOrDefault(data))
  {
    var entry := Jsonify(PendingEntry(NewUserData(data), uid, now));
    CreateNewUserOfflineFallback(s, uid, data, now);
    PendingEntryFields(data, uid, now);
    PendingEntrySynced(CreateNewUserSpec(s, uid, data, now).s, uid, entry, later);
  }

  /** The cached pending profile is pending, names its uid, and keeps the role of the data. */
  lemma PendingEntryFields(data: Obj, uid: string, now: string)
    ensures var entry := Jsonify(PendingEntry(NewUserData(data), uid, now));
      && Get(entry, "pendingSync") == Bool(true) && Get(entry, "id") == Str(uid)
      && "rol" in entry && entry["rol"] == RoleOrDefault(data)
  {
    var nud := NewUserData(data);
    var pe := PendingEntry(nud, uid, now);
    assert RoleOrDefault(data) != Undefined;
    assert nud["rol"] == RoleOrDefault(data);
    assert pe["rol"] == nud["rol"] && pe["id"] == Str(uid) && pe["pendingSync"] == Bool(true);
  }

  /** One iteration on a pending entry that names its own valid uid pushes it, unless the call fails. */
  lemma PendingEntrySynced(s: Store, uid: string, entry: Obj, now: string)
    requires !InvalidId(uid) && ReadLocal(s, uid) == Some(entry)
    requires Get(entry, "pendingSync") == Bool(true) && Get(entry, "id") == Str(uid) && "rol" in entry
    ensures var t11 := SyncKey(s, LocalKey(uid), now); var s2, r := t11.0, t11.1;
      && r.Some?
      && (!NextFault(s).0.Fail? ==>
            r == Some(Synced(uid)) && uid in s2.users && s2.users[uid]["rol"] == entry["rol"])
  {
    assert SyncUid(LocalKey(uid), entry) == Some(uid);
    assert "rol" in Payload(entry);
  }

  // ---------------------------------------------------------------------------
  // The service as the program sees it: state that the operations update in place

  class Service {
    var local: map<string, Stored>
    var storageFull: bool
    var users: map<string, Obj>
    var online: bool
    var faults: seq<Fault>

    function State(): Store
      reads this
    {
      Store(local, storageFull, users, online, faults)
    }

    constructor(s: Store)
      ensures State() == s
    {
      local, storageFull, users, online, faults := s.local, s.storageFull, s.users, s.online, s.faults;
    }

    /** One remote call's fate. */
    method TakeFault() returns (f: Fault)
      modifies this
      ensures (f, State()) == NextFault(old(State()))
    {
      if faults == [] {
        f := Ok;
      } else {
        f := faults[0];
        faults := faults[1..];
      }
    }

    method GetLocalUser(uid: string) returns (r: Option<Obj>)
      ensures r == ReadLocal(State(), uid)
    {
      var key := LocalKey(uid);
      if key in local && local[key].Json? {
        r := Some(local[key].o);
      } else {
        r := None;
      }
    }

    method SaveLocalUser(uid: string, d: Obj)
      modifies this
      ensures State() == WriteLocal(old(State()), uid, d)
    {
      if !storageFull {
        local := local[LocalKey(uid) := Json(Jsonify(d))];
      }
    }

    method GetUser(uid: string) returns (r: Outcome<Option<Obj>>)
      modifies this
      ensures Res(State(), r) == GetUserSpec(old(State()), uid)
    {
      var localData := GetLocalUser(uid);
      if !online {
        if localData.Some? {
          return Return(Some(MarkOffline(localData.value)));
        }
        return Return(Some(TemporaryProfile(uid)));
      }
      if InvalidId(uid) {
        // doc() throws inside the try; the catch then reads the out-of-scope `localData`.
        return Throw(LocalDataNotDefined);
      }
      var f := TakeFault();
      if f.Fail? {
        return Throw(LocalDataNotDefined);
      }
      if f.Ok? && uid in users {
        var user := OnlineProfile(uid, users[uid]);
        SaveLocalUser(uid, user);
        return Return(Some(user));
      }
      if localData.Some? {
        return Return(Some(MarkOffline(localData.value)));
      }
      return Return(None);
    }

    method UpdateUserRole(uid: string, newRole: Value) returns (r: Outcome<()>)
      modifies this
      ensures Res(State(), r) == UpdateUserRoleSpec(old(State()), uid, newRole)
    {
      if !IsRole(newRole) {
        return Throw(RolInvalido);
      }
      if InvalidId(uid) {
        return Throw(InvalidDocRef);
      }
      var f := TakeFault();
      if f.Fail? {
        return Throw(FaultError(f));
      }
      if uid !in users {
        return Throw(NoDocument);
      }
      users := users[uid := users[uid]["rol" := newRole]["updatedAt" := ServerStamp]];
      r := Return(());
    }

    method CreateNewUser(uid: string, data: Obj, now: string) returns (r: Outcome<Obj>)
      modifies this
      ensures Res(State(), r) == CreateNewUserSpec(old(State()), uid, data, now)
    {
      if InvalidId(uid) {
        return Throw(InvalidDocRef);
      }
      var newUserData := NewUserData(data);
      var err: JsError;
      var f := TakeFault();
      if !f.Fail? {
        users := users[uid := newUserData];
        f := TakeFault();
        if !f.Fail? && !f.Stale? {
          var saved := map["id" := Str(uid)] + users[uid];
          SaveLocalUser(uid, saved["createdAt" := Str(now)]["updatedAt" := Str(now)]);
          return Return(saved);
        }
        err := if f.Fail? then FaultError(f) else NotSaved;
      } else {
        err := FaultError(f);
      }
      if !online {
        SaveLocalUser(uid, PendingEntry(newUserData, uid, now));
        return Return(PendingResult(newUserData, uid));
      }
      return Throw(err);
    }

    /** One turn of the sweep's loop; the `try`/`catch` turns every failure into an error result. */
    method SyncOne(key: string, now: string) returns (r: Option<SyncResult>)
      requires StartsWith(key, Prefix)
      modifies this
      ensures (State(), r) == SyncKey(old(State()), key, now)
    {
      if key !in local || local[key].EmptyText? {
        return None;
      }
      if local[key].Garbage? {
        return Some(SyncError(key));
      }
      var data := local[key].o;
      if !Truthy(Get(data, "pendingSync")) {
        return None;
      }
      var uid := SyncUid(key, data);
      if uid.None? || InvalidId(uid.value) {
        return Some(SyncError(key));
      }
      var f := TakeFault();
      if f.Fail? {
        return Some(SyncError(key));
      }
      users := MergePush(users, uid.value, data);
      SaveLocalUser(uid.value, MarkSynced(data, now));
      r := Some(Synced(uid.value));
    }

    /**
     * syncPendingUsers. `allKeys` is the enumeration `Object.keys(localStorage)` gives;
     * each entry is read when its turn comes, after the writes of earlier iterations.
     */
    method SyncPendingUsers(allKeys: seq<string>, now: string) returns (results: seq<SyncResult>)
      modifies this
      ensures (State(), results) == SyncAll(old(State()), UserKeys(allKeys), now)
    {
      var keys := UserKeys(allKeys);
      results := [];
      var i := 0;
      while i < |keys|
        invariant 0 <= i <= |keys|
        invariant (State(), results) == SyncAll(old(State()), keys[..i], now)
      {
        assert keys[..i + 1][..i] == keys[..i];
        var r := SyncOne(keys[i], now);
        results := results + Opt(r);
        i := i + 1;
      }
      assert keys[..i] == keys;
    }
  }
}
