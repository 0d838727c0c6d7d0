/**
 * The user administration page: the list of user documents, a role selector on every row
 * but the signed-in user's own, and the local list update after a role change.
 */
module AdminUsuarios {
  import opened Js
  import opened UserService

  /** `users.map(u => u.id === userId ? { ...u, rol: newRole } : u)` */
  function WithRole(users: seq<Obj>, userId: string, newRole: string): (r: seq<Obj>)
    ensures |r| == |users|
    ensures forall i :: 0 <= i < |users| ==>
      r[i] == if Get(users[i], "id") == Str(userId) then users[i]["rol" := Str(newRole)] else users[i]
  {
    seq(|users|, i requires 0 <= i < |users| =>
      if Get(users[i], "id") == Str(userId) then users[i]["rol" := Str(newRole)] else users[i])
  }

  /** handleRoleChange: the service call, then the local update only if it returned. */
  function RoleChange(s: Store, users: seq<Obj>, userId: string, newRole: string): (Store, seq<Obj>) {
    var r := UpdateUserRoleSpec(s, userId, Str(newRole));
    if r.out.Throw? then (r.s, users) else (r.s, WithRole(users, userId, newRole))
  }

  /**
   * A successful change rewrites only the `rol` of the rows whose id is `userId`, to the
   * role the stored document now has; a failed one leaves the list as it was.
   */
  lemma RoleChangeTouchesOneRow(s: Store, users: seq<Obj>, userId: string, newRole: string)
    ensures var r := RoleChange(s, users, userId, newRole);
      var ok := UpdateUserRoleSpec(s, userId, Str(newRole)).out.Return?;
      && (!ok ==> r.1 == users && r.0.users == s.users)
      && (ok ==>
            && |r.1| == |users|
            && userId in r.0.users && r.0.users[userId]["rol"] == Str(newRole)
            && newRole in RoleValues
            && forall i :: 0 <= i < |users| ==>
                 if Get(users[i], "id") == Str(userId)
                 then r.1[i].Keys == users[i].Keys + {"rol"} && r.1[i]["rol"] == Str(newRole)
                      && (forall k :: k in users[i] && k != "rol" ==> r.1[i][k] == users[i][k])
                 else r.1[i] == users[i])
  {
    UpdateUserRoleContract(s, userId, Str(newRole));
    IsRoleIsRoleValue(Str(newRole));
  }

  /** An invalid role never reaches the list or the store. */
  lemma InvalidRoleChangesNothing(s: Store, users: seq<Obj>, userId: string, newRole: string)
    requires newRole !in RoleValues
    ensures RoleChange(s, users, userId, newRole) == (s, users)
  {
    IsRoleIsRoleValue(Str(newRole));
  }

  /** `user.id !== currentUser.uid`: whether a row shows the role selector. */
  predicate ShowsSelector(row: Obj, currentUid: string) {
    Get(row, "id") != Str(currentUid)
  }

  /** The signed-in user's own row never shows a selector; every other row does. */
  lemma OwnRowHasNoSelector(users: seq<Obj>, currentUid: string)
    ensures forall i :: 0 <= i < |users| ==>
      (ShowsSelector(users[i], currentUid) <==> Get(users[i], "id") != Str(currentUid))
    ensures forall i :: 0 <= i < |users| && "id" in users[i] && users[i]["id"] == Str(currentUid) ==>
      !ShowsSelector(users[i], currentUid)
  {
  }
  /**
   * A change issued from a row's selector never targets the signed-in user: their
   * document and their rows in the list stay as they were.
   */
  lemma SelectorNeverTargetsSelf(s: Store, users: seq<Obj>, i: nat, currentUid: string, newRole: string)
    requires i < |users| && ShowsSelector(users[i], currentUid) && Get(users[i], "id").Str?
    ensures var userId := Get(users[i], "id").s;
      var r := RoleChange(s, users, userId, newRole);
      && userId != currentUid
      && (currentUid in r.0.users <==> currentUid in s.users)
      && (currentUid in s.users ==> r.0.users[currentUid] == s.users[currentUid])
      && (forall k :: 0 <= k < |users| && Get(users[k], "id") == Str(currentUid) ==> r.1[k] == users[k])
  {
    var userId := Get(users[i], "id").s;
    UpdateUserRoleContract(s, userId, Str(newRole));
  }


  /** `key.charAt(0) + key.slice(1).toLowerCase()` */
  function Label(key: string): (r: string)
    ensures |r| == |key|
    ensures key != [] ==> r[0] == key[0]
  {
    if key == [] then "" else [key[0]] + ToLower(key[1..])
  }

  /** The selector's options, as (label, value) in the order of `ROLES`. */
  function RoleOptions(): (r: seq<(string, string)>)
    ensures |r| == |RoleKeys|
    ensures forall i :: 0 <= i < |r| ==> r[i] == (Label(RoleKeys[i]), RoleValues[i])
  {
    seq(|RoleKeys|, i requires 0 <= i < |RoleKeys| => (Label(RoleKeys[i]), RoleValues[i]))
  }

  lemma RoleOptionLabels()
    ensures RoleOptions() == [("Lider", "lider"), ("Modelista", "modelista"), ("Pendiente", "pendiente")]
  {
    LabelWord("LIDER", "Lider");
    LabelWord("MODELISTA", "Modelista");
    LabelWord("PENDIENTE", "Pendiente");
    var r := RoleOptions();
    assert r[0] == ("Lider", "lider") && r[1] == ("Modelista", "modelista") && r[2] == ("Pendiente", "pendiente");
  }

  /** An upper-case word is labelled by its first letter and the rest in lower case. */
  lemma LabelWord(key: string, shown: string)
    requires |key| == |shown| && key != [] && shown[0] == key[0]
    requires forall i :: 1 <= i < |key| ==> 'A' <= key[i] <= 'Z' && shown[i] as int == key[i] as int + 32
    ensures Label(key) == shown
  {
    var t := ToLower(key[1..]);
    forall i | 1 <= i < |key| ensures t[i - 1] == shown[i] {
      assert key[1..][i - 1] == key[i];
    }
    assert Label(key) == [key[0]] + t;
  }

  /** `user.nombre || "Sin nombre"` */
  function NameCell(row: Obj): (v: Value)
    ensures Truthy(v)
  {
    Or(Get(row, "nombre"), Str("Sin nombre"))
  }

  /** The page: the rows, the loading flag and the service it calls. */
  class Page {
    var users: seq<Obj>
    var loading: bool
    const currentUid: string
    const svc: Service

    constructor(currentUid: string, svc: Service)
      ensures users == [] && loading && this.currentUid == currentUid && this.svc == svc
    {
      users, loading := [], true;
      this.currentUid, this.svc := currentUid, svc;
    }

    /** loadUsers, given what getAllUsers returned: loading ends whether or not it threw. */
    method LoadUsers(fetched: Outcome<seq<Obj>>)
      modifies this
      ensures users == (if fetched.Return? then fetched.value else old(users))
      ensures !loading
    {
      if fetched.Return? {
        users := fetched.value;
      }
      loading := false;
    }

    method HandleRoleChange(userId: string, newRole: string)
      modifies this, svc
      ensures (svc.State(), users) == RoleChange(old(svc.State()), old(users), userId, newRole)
      ensures loading == old(loading)
    {
      var r := svc.UpdateUserRole(userId, Str(newRole));
      if r.Return? {
        users := WithRole(users, userId, newRole);
      }
    }
  }
}
