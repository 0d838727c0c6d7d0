/**
 * The session context: on every change of the signed-in account it fetches the profile,
 * creates one when there is none or only an offline one, and publishes the resulting
 * user with its derived flags.
 */
module AuthContext {
  import opened Js
  import opened UserService

  /** What the authentication service reports about the signed-in account. */
  datatype FirebaseUser = FirebaseUser(uid: string, email: Value, displayName: Value)

  /** The user the context publishes. */
  datatype AppUser = AppUser(uid: string, email: Value, nombre: Value, rol: Value, offline: Value)

  /** The profile used when getUser throws. */
  const BasicProfile: Obj := map["rol" := Str(Pendiente), "offline" := Bool(true)]

  /** `profile?.k` */
  function Field(p: Option<Obj>, k: string): Value {
    if p.Some? then Get(p.value, k) else Undefined
  }

  /** The profile the callback asks createNewUser to write. */
  function NewProfileData(fu: FirebaseUser): Obj {
    map["email" := fu.email, "nombre" := Or(fu.displayName, fu.email), "rol" := Str(Modelista)]
  }

  /** The first `try`: getUser, with a thrown error replaced by the basic profile. */
  function Fetch(s: Store, uid: string): (Store, Option<Obj>) {
    var r := GetUserSpec(s, uid);
    if r.out.Throw? then (r.s, Some(BasicProfile)) else (r.s, r.out.value)
  }

  /** A missing or offline profile is recreated. */
  predicate NeedsProfile(p: Option<Obj>) {
    p.None? || Truthy(Get(p.value, "offline"))
  }

  /**
   * The second `try`: createNewUser, then getUser again; a throw from either keeps the
   * profile it had.
   */
  function Recreate(s: Store, fu: FirebaseUser, p: Option<Obj>, now: string): (Store, Option<Obj>) {
    var c := CreateNewUserSpec(s, fu.uid, NewProfileData(fu), now);
    if c.out.Throw? then (c.s, p)
    else
      var g := GetUserSpec(c.s, fu.uid);
      if g.out.Throw? then (g.s, p) else (g.s, g.out.value)
  }

  /**
   * The profile reconciliation. For a `pendiente` profile the callback calls
   * `updateUserRole`, a name the file never imports: the call throws a ReferenceError
   * before reaching the service, the error is swallowed, and nothing changes.
   */
  function Reconcile(s: Store, fu: FirebaseUser, now: string): (Store, Option<Obj>) {
    var f := Fetch(s, fu.uid);
    if NeedsProfile(f.1) then Recreate(f.0, fu, f.1, now) else f
  }

  /** The user published from the profile. */
  function ToAppUser(fu: FirebaseUser, p: Option<Obj>): AppUser {
    AppUser(fu.uid, fu.email,
      Or(Or(Field(p, "nombre"), fu.displayName), fu.email),
      Or(Field(p, "rol"), Str(Pendiente)),
      Or(Field(p, "offline"), Bool(false)))
  }

  /** The onAuthStateChanged callback; `now` stands for the timestamp createNewUser takes. */
  function OnAuthChange(s: Store, fu: Option<FirebaseUser>, now: string): (Store, Option<AppUser>) {
    if fu.None? then (s, None)
    else
      var r := Reconcile(s, fu.value, now);
      (r.0, Some(ToAppUser(fu.value, r.1)))
  }

  /** Signing out publishes no user and touches no store. */
  lemma SignedOut(s: Store, now: string)
    ensures OnAuthChange(s, None, now) == (s, None)
  {
  }

  /** When getUser throws, the profile is the basic pendiente one, which then counts as missing. */
  lemma FetchFailureGivesBasicProfile(s: Store, uid: string)
    requires GetUserSpec(s, uid).out.Throw?
    ensures var p := Fetch(s, uid).1;
      && p == Some(BasicProfile)
      && Get(p.value, "rol") == Str("pendiente") && Get(p.value, "offline") == Bool(true)
      && NeedsProfile(p)
  {
  }

  /**
   * A missing or offline profile makes the callback call createNewUser with role modelista
   * and the display name (or the email) as name, then refetches; if either call throws, the
   * profile is kept, otherwise the refetched profile is the one published.
   */
  lemma MissingProfileIsCreated(s: Store, fu: FirebaseUser, now: string)
    requires NeedsProfile(Fetch(s, fu.uid).1)
    ensures var f := Fetch(s, fu.uid);
      var c := CreateNewUserSpec(f.0, fu.uid, NewProfileData(fu), now);
      && NewProfileData(fu)["rol"] == Str("modelista")
      && NewProfileData(fu)["nombre"] == (if Truthy(fu.displayName) then fu.displayName else fu.email)
      && (c.out.Throw? ==> Reconcile(s, fu, now) == (c.s, f.1))
      && (c.out.Return? ==>
            var g := GetUserSpec(c.s, fu.uid);
            Reconcile(s, fu, now) == (g.s, if g.out.Throw? then f.1 else g.out.value))
  {
  }

  /**
   * A present, online profile with role pendiente stays pendiente: the promotion never
   * reaches the service, so the store is as the fetch left it.
   */
  lemma PendienteStaysPendiente(s: Store, fu: FirebaseUser, now: string)
    requires var p := Fetch(s, fu.uid).1;
      !NeedsProfile(p) && Get(p.value, "rol") == Str("pendiente")
    ensures Reconcile(s, fu, now) == Fetch(s, fu.uid)
    ensures OnAuthChange(s, Some(fu), now).1.value.rol == Str("pendiente")
    ensures OnAuthChange(s, Some(fu), now).0.users == s.users
  {
    GetUserThrowsReferenceError(s, fu.uid);
  }

  /** The published user's name, role and offline flag fall back in the order the callback gives. */
  lemma AppUserDefaults(fu: FirebaseUser, p: Option<Obj>)
    ensures var u := ToAppUser(fu, p);
      && u.uid == fu.uid && u.email == fu.email
      && (Truthy(Field(p, "nombre")) ==> u.nombre == Field(p, "nombre"))
      && (!Truthy(Field(p, "nombre")) && Truthy(fu.displayName) ==> u.nombre == fu.displayName)
      && (!Truthy(Field(p, "nombre")) && !Truthy(fu.displayName) ==> u.nombre == fu.email)
      && (Truthy(Field(p, "rol")) ==> u.rol == Field(p, "rol"))
      && (!Truthy(Field(p, "rol")) ==> u.rol == Str("pendiente"))
      && (Truthy(Field(p, "offline")) ==> u.offline == Field(p, "offline"))
      && (!Truthy(Field(p, "offline")) ==> u.offline == Bool(false))
      && Truthy(u.rol)
  {
  }

  /**
   * A first session while offline, with nothing cached and the write failing: the profile
   * becomes the cached pending one, so the user is a modelista marked offline.
   */
  lemma OfflineFirstSession(s: Store, fu: FirebaseUser, now: string)
    requires !s.online && !s.storageFull && !InvalidId(fu.uid)
    requires ReadLocal(s, fu.uid).None? && NextFault(s).0.Fail?
    ensures var u := OnAuthChange(s, Some(fu), now).1.value;
      u.rol == Str("modelista") && u.offline == Bool(true)
  {
    FetchOffline(s, fu.uid);
    var p := Some(TemporaryProfile(fu.uid));
    var r := Reconcile(s, fu, now);
    assert r == Recreate(s, fu, p, now);
    var entry := Jsonify(PendingEntry(NewUserData(NewProfileData(fu)), fu.uid, now));
    RecreatePending(s, fu, p, now);
    PendingEntryFields(NewProfileData(fu), fu.uid, now);
    assert RoleOrDefault(NewProfileData(fu)) == Str(Modelista);
    ModelistaOffline(fu, entry);
    assert OnAuthChange(s, Some(fu), now).1 == Some(ToAppUser(fu, r.1));
  }

  /** Offline with nothing cached, getUser's temporary profile is fetched, and it counts as missing. */
  lemma FetchOffline(s: Store, uid: string)
    requires !s.online && ReadLocal(s, uid).None?
    ensures Fetch(s, uid) == (s, Some(TemporaryProfile(uid)))
    ensures NeedsProfile(Some(TemporaryProfile(uid)))
  {
  }

  /** Offline with the write failing, the recreated profile is the cached pending one, marked offline. */
  lemma RecreatePending(s: Store, fu: FirebaseUser, p: Option<Obj>, now: string)
    requires !s.online && !s.storageFull && !InvalidId(fu.uid) && NextFault(s).0.Fail?
    ensures var entry := Jsonify(PendingEntry(NewUserData(NewProfileData(fu)), fu.uid, now));
      Recreate(s, fu, p, now).1 == Some(MarkOffline(entry))
  {
    var c := CreateNewUserSpec(s, fu.uid, NewProfileData(fu), now);
    CreateNewUserOfflineFallback(s, fu.uid, NewProfileData(fu), now);
    GetUserOffline(c.s, fu.uid);
  }

  lemma ModelistaOffline(fu: FirebaseUser, entry: Obj)
    requires "rol" in entry && entry["rol"] == Str(Modelista)
    ensures var u := ToAppUser(fu, Some(MarkOffline(entry)));
      u.rol == Str("modelista") && u.offline == Bool(true)
  {
  }

  /** `isAuthenticated`, `isLider` and `isModelista`. */
  predicate IsAuthenticated(u: Option<AppUser>) {
    u.Some?
  }

  predicate IsLider(u: Option<AppUser>) {
    u.Some? && u.value.rol == Str("lider")
  }

  predicate IsModelista(u: Option<AppUser>) {
    u.Some? && u.value.rol == Str("modelista")
  }

  /** A user is never both; either role implies a signed-in user. */
  lemma RoleFlagsExclusive(u: Option<AppUser>)
    ensures !(IsLider(u) && IsModelista(u))
    ensures IsLider(u) || IsModelista(u) ==> IsAuthenticated(u)
    ensures IsAuthenticated(u) <==> u != None
  {
  }

  const MsgConnection := "Problemas de conexión. Algunas funciones pueden estar limitadas."
  const MsgLoadFailed := "Error al cargar el perfil de usuario."

  /** The outer `catch`: a connectivity code keeps the user, anything else clears it. */
  function OuterError(user: Option<AppUser>, code: string): (Option<AppUser>, string) {
    if code == "failed-precondition" || code == "unavailable" then (user, MsgConnection)
    else (None, MsgLoadFailed)
  }

  lemma OuterErrorContract(user: Option<AppUser>, code: string)
    ensures var r := OuterError(user, code);
      && (code in {"failed-precondition", "unavailable"} <==> r.0 == user && r.1 == MsgConnection)
      && (code !in {"failed-precondition", "unavailable"} ==> r.0 == None && r.1 == MsgLoadFailed)
  {
  }

  /** The provider's state: the published user, the spinner and the error text. */
  class Provider {
    var user: Option<AppUser>
    var loading: bool
    var error: Option<string>
    const svc: Service

    /** Mounting: loading, no error, no user yet. */
    constructor(svc: Service)
      ensures user == None && loading && error == None && this.svc == svc
    {
      user, loading, error := None, true, None;
      this.svc := svc;
    }

    method OnAuthStateChanged(fu: Option<FirebaseUser>, now: string)
      modifies this, svc
      ensures (svc.State(), user) == OnAuthChange(old(svc.State()), fu, now)
      ensures !loading && error == old(error)
    {
      if fu.None? {
        user, loading := None, false;
        return;
      }
      var firebaseUser := fu.value;
      var profile: Option<Obj>;
      var fetched := svc.GetUser(firebaseUser.uid);
      if fetched.Throw? {
        profile := Some(BasicProfile);
      } else {
        profile := fetched.value;
      }
      if profile.None? || Truthy(Get(profile.value, "offline")) {
        var created := svc.CreateNewUser(firebaseUser.uid, NewProfileData(firebaseUser), now);
        if created.Return? {
          var refetched := svc.GetUser(firebaseUser.uid);
          if refetched.Return? {
            profile := refetched.value;
          }
        }
      }
      user := Some(ToAppUser(firebaseUser, profile));
      loading := false;
    }

    /** The outer `catch` and `finally`. */
    method OnOuterError(code: string)
      modifies this
      ensures (user, error) == (OuterError(old(user), code).0, Some(OuterError(old(user), code).1))
      ensures !loading
    {
      if code == "failed-precondition" || code == "unavailable" {
        error := Some(MsgConnection);
      } else {
        user := None;
        error := Some(MsgLoadFailed);
      }
      loading := false;
    }
  }
}
