/**
 * The registration dialog: it validates the form in a fixed order, creates the account,
 * writes the profile, and ends in one of four ways (success, write failure, offline
 * pending profile, unverified profile). A profile that did not reach the server has its
 * account deleted again.
 */
module RegisterModal {
  import opened Js
  import opened Registration
  import opened Identity
  import opened UserService

  const MsgIncomplete := "Por favor completa todos los campos."
  const MsgBadEmail := "Por favor ingresa un correo válido."
  const MsgProfileDefault := "Error al crear perfil de usuario en la base de datos"
  const MsgPending := "No hay conexión. El registro no se completó en el servidor. Intenta nuevamente cuando tengas conexión."
  const MsgUnverified := "Registro completado pero no se pudo verificar en el servidor."
  const MsgUnknown := "Error desconocido al registrar"

  /** No white space strictly between positions `p` and `q`. */
  predicate NoSpaceBetween(s: string, p: int, q: int)
    requires 0 <= p <= q <= |s|
  {
    forall j :: p < j < q ==> !IsSpace(s[j])
  }

  /** A match of `\S+@\S+\.\S+` with its '@' at `p` and its '.' at `q`. */
  predicate EmailAt(s: string, p: int, q: int) {
    0 < p && p + 1 < q && q + 1 < |s|
      && s[p] == '@' && s[q] == '.' && !IsSpace(s[p - 1]) && !IsSpace(s[q + 1])
      && NoSpaceBetween(s, p, q)
  }

  /** `/\S+@\S+\.\S+/.test(s)`: the pattern matches somewhere in `s`. */
  predicate EmailLike(s: string) {
    exists p, q | 0 <= p < |s| && 0 <= q < |s| :: EmailAt(s, p, q)
  }

  /** The checks of handleSubmit on the normalised fields, in their order; None when all pass. */
  function Checks(email: string, nombre: string, password: string, confirm: string, rol: string): Option<string> {
    if email == "" || nombre == "" || password == "" || confirm == "" || rol == "" then Some(MsgIncomplete)
    else if !EmailLike(email) then Some(MsgBadEmail)
    else if password != confirm then Some(MsgMismatch)
    else if Utf16Length(password) < MinPassword then Some(MsgShort)
    else None
  }

  /** The checks applied to the form: email and name are trimmed first, the password is not. */
  function Validate(f: Form): Option<string> {
    Checks(Trim(f.email), Trim(f.nombre), f.password, f.confirmPassword, f.rol)
  }

  /** The profile handed to createNewUser: trimmed email and name, the chosen role. */
  function ProfileData(f: Form): Obj {
    map["email" := Str(Trim(f.email)), "nombre" := Str(Trim(f.nombre)), "rol" := Str(f.rol)]
  }

  /** `m || d` for a message. */
  function OrDefault(m: string, d: string): string {
    if m != "" then m else d
  }

  /** The services after the submission, the error shown, and whether the toast was shown and the dialog closed. */
  datatype Flow = Flow(auth: AuthState, store: Store, error: string, closed: bool)

  /** deleteUser as compensation: a refusal is only logged. */
  function Compensate(a: AuthState, uid: string): AuthState {
    DeleteUserSpec(a, uid).0
  }

  /** How the dialog ends once the account `uid` exists and createNewUser has ended as `r`. */
  function Conclude(a1: AuthState, uid: string, r: Res<Obj>): Flow {
    if r.out.Throw? then
      Flow(if r.s.online then Compensate(a1, uid) else a1, r.s,
           OrDefault(r.out.err.message, MsgProfileDefault), false)
    else if Truthy(Get(r.out.value, "pendingSync")) then Flow(Compensate(a1, uid), r.s, MsgPending, false)
    else if Truthy(Get(r.out.value, "id")) then Flow(a1, r.s, "", true)
    else Flow(a1, r.s, MsgUnverified, false)
  }

  /** The submission after the checks: account creation, then the profile write. */
  function Register(email: string, password: string, data: Obj, a: AuthState, s: Store, now: string): Flow {
    var ac := CreateUserSpec(a, email, password);
    if ac.1.Throw? then Flow(ac.0, s, OrDefault(ac.1.err.message, MsgUnknown), false)
    else Conclude(ac.0, ac.1.value, CreateNewUserSpec(s, ac.1.value, data, now))
  }

  /** handleSubmit; `now` stands for the ISO timestamp createNewUser takes. */
  function SubmitSpec(f: Form, a: AuthState, s: Store, now: string): Flow {
    match Validate(f)
    case Some(msg) => Flow(a, s, msg, false)
    case None => Register(Trim(f.email), f.password, ProfileData(f), a, s, now)
  }

  /**
   * The form passes exactly when every field is present (email and name after trimming),
   * the email looks like one, the passwords agree and are long enough; each message
   * implies that the earlier checks passed.
   */
  lemma ValidateOrder(f: Form)
    ensures var email, nombre := Trim(f.email), Trim(f.nombre);
      var present := email != "" && nombre != "" && f.password != "" && f.confirmPassword != "" && f.rol != "";
      && (Validate(f).None? <==>
            present && EmailLike(email) && f.password == f.confirmPassword && Utf16Length(f.password) >= 6)
      && (Validate(f) == Some(MsgIncomplete) <==> !present)
      && (Validate(f) == Some(MsgBadEmail) <==> present && !EmailLike(email))
      && (Validate(f) == Some(MsgMismatch) <==> present && EmailLike(email) && f.password != f.confirmPassword)
      && (Validate(f) == Some(MsgShort) <==>
            present && EmailLike(email) && f.password == f.confirmPassword && Utf16Length(f.password) < 6)
  {
  }

  /** Email and name are trimmed before they are checked; the password is taken as typed. */
  lemma TrimmedBeforeValidation(f: Form)
    ensures Validate(f.(email := Trim(f.email), nombre := Trim(f.nombre))) == Validate(f)
  {
    TrimIdempotent(f.email);
    TrimIdempotent(f.nombre);
  }

  /** A password of five spaces and a letter passes: white space counts towards its length. */
  lemma PasswordNotTrimmed()
    ensures Checks("a@b.c", "Ana", "     x", "     x", "modelista").None?
  {
    assert EmailAt("a@b.c", 1, 3);
  }

  /** Length counts UTF-16 code units: three astral characters make a long enough password. */
  lemma AstralPasswordLongEnough()
    ensures Checks("a@b.c", "Ana", "\U{1F600}\U{1F600}\U{1F600}", "\U{1F600}\U{1F600}\U{1F600}", "modelista").None?
  {
    assert EmailAt("a@b.c", 1, 3);
    Utf16LengthAstral();
  }

  /** A failed check stops the submission before any call: nothing changes, nothing closes. */
  lemma ValidationFailureStops(f: Form, a: AuthState, s: Store, now: string)
    requires Validate(f).Some?
    ensures SubmitSpec(f, a, s, now) == Flow(a, s, Validate(f).value, false)
  {
  }

  /**
   * The four endings. When the profile write throws, the error is its message (or the
   * default), and the account is deleted exactly when the browser is online and the
   * deletion is granted. A pending profile always has its deletion attempted. The dialog
   * closes exactly when the saved profile has an id and is not pending, and an error
   * shows exactly when it does not close.
   */
  lemma ConcludeCases(a1: AuthState, uid: string, r: Res<Obj>)
    ensures var flow := Conclude(a1, uid, r);
      && flow.store == r.s
      && (r.out.Throw? ==>
            && !flow.closed
            && flow.error == OrDefault(r.out.err.message, MsgProfileDefault)
            && (r.s.online && NextAuthFault(a1).0 == Granted ==> uid !in flow.auth.accounts)
            && (!r.s.online || NextAuthFault(a1).0.Refused? ==> flow.auth.accounts == a1.accounts))
      && (r.out.Return? && Truthy(Get(r.out.value, "pendingSync")) ==>
            flow == Flow(DeleteUserSpec(a1, uid).0, r.s, MsgPending, false))
      && (flow.closed <==> r.out.Return? && !Truthy(Get(r.out.value, "pendingSync")) && Truthy(Get(r.out.value, "id")))
      && (flow.closed ==> flow.error == "" && flow.auth == a1)
      && (!flow.closed ==> flow.error != "")
  {
  }

  /** A failed account creation shows its message (or the default) and writes no profile. */
  lemma AccountFailure(email: string, password: string, data: Obj, a: AuthState, s: Store, now: string)
    requires CreateUserSpec(a, email, password).1.Throw?
    ensures var flow := Register(email, password, data, a, s, now);
      && !flow.closed && flow.store == s && flow.auth.accounts == a.accounts
      && flow.error == OrDefault(CreateUserSpec(a, email, password).1.err.message, MsgUnknown)
  {
  }

  /** Nothing after the account creation (the deletion included) changes the message, the closing or the profile store. */
  lemma CompensationFailureIgnored(a1: AuthState, b1: AuthState, uid: string, r: Res<Obj>)
    ensures var x, y := Conclude(a1, uid, r), Conclude(b1, uid, r);
      x.error == y.error && x.closed == y.closed && x.store == y.store
  {
  }

  /**
   * The fourth ending cannot occur: every profile createNewUser returns carries the new uid
   * as its id, so a returned profile that is not pending always closes the dialog.
   */
  lemma UnverifiedUnreachable(email: string, password: string, data: Obj, a: AuthState, s: Store, now: string)
    requires "id" !in data
    requires CreateUserSpec(a, email, password).1.Return?
    ensures var uid := CreateUserSpec(a, email, password).1.value;
      var r := CreateNewUserSpec(s, uid, data, now);
      Register(email, password, data, a, s, now).closed <==> r.out.Return? && !Truthy(Get(r.out.value, "pendingSync"))
  {
    var ac := CreateUserSpec(a, email, password);
    assert ac.1.value != "";
    CreateNewUserId(s, ac.1.value, data, now);
    ClosedIffSaved(ac.0, ac.1.value, CreateNewUserSpec(s, ac.1.value, data, now));
  }

  /** With the id of a non-empty uid on the saved profile, the dialog closes exactly when the profile is not pending. */
  lemma ClosedIffSaved(a1: AuthState, uid: string, r: Res<Obj>)
    requires uid != "" && (r.out.Return? ==> Get(r.out.value, "id") == Str(uid))
    ensures Conclude(a1, uid, r).closed <==> r.out.Return? && !Truthy(Get(r.out.value, "pendingSync"))
  {
  }

  /** The dialog: its form, the error it shows, its spinner, and whether it was closed after a toast. */
  class Modal {
    var form: Form
    var error: string
    var loading: bool
    var closed: bool
    const auth: Auth
    const svc: Service

    constructor(auth: Auth, svc: Service)
      ensures form == InitialForm && error == "" && !loading && !closed
      ensures this.auth == auth && this.svc == svc
    {
      form, error, loading, closed := InitialForm, "", false, false;
      this.auth, this.svc := auth, svc;
    }

    method HandleSubmit(now: string)
      modifies this, auth, svc
      ensures Flow(auth.State(), svc.State(), error, closed)
        == SubmitSpec(old(form), old(auth.State()), old(svc.State()), now)
      ensures !loading && form == old(form)
    {
      var f := form;
      ghost var a0, s0 := auth.State(), svc.State();
      error := "";
      loading := true;
      closed := false;
      var email := Trim(f.email);
      var nombre := Trim(f.nombre);
      var failed := CheckFields(email, nombre, f.password, f.confirmPassword, f.rol);
      assert failed == Validate(f);
      if failed.Some? {
        error, loading := failed.value, false;
        assert SubmitSpec(f, a0, s0, now) == Flow(a0, s0, failed.value, false);
        return;
      }
      assert SubmitSpec(f, a0, s0, now) == Register(email, f.password, ProfileData(f), a0, s0, now);
      RegisterAccount(email, f.password, ProfileData(f), now);
      loading := false;
    }

    /**
     * The checks of handleSubmit, each returning early with its message: the method
     * form of `Checks`, which specifies it.
     */
    static method CheckFields(email: string, nombre: string, password: string, confirm: string, rol: string)
      returns (failed: Option<string>)
      ensures failed == Checks(email, nombre, password, confirm, rol)
    {
      if email == "" || nombre == "" || password == "" || confirm == "" || rol == "" {
        return Some(MsgIncomplete);
      }
      if !EmailLike(email) {
        return Some(MsgBadEmail);
      }
      if password != confirm {
        return Some(MsgMismatch);
      }
      if Utf16Length(password) < MinPassword {
        return Some(MsgShort);
      }
      return None;
    }

    /** The `try` of handleSubmit: create the account, then write the profile. */
    method RegisterAccount(email: string, password: string, data: Obj, now: string)
      modifies this, auth, svc
      ensures Flow(auth.State(), svc.State(), error, closed)
        == Register(email, password, data, old(auth.State()), old(svc.State()), now)
      ensures form == old(form) && loading == old(loading)
    {
      var credential := auth.CreateUser(email, password);
      if credential.Throw? {
        error, closed := OrDefault(credential.err.message, MsgUnknown), false;
        return;
      }
      var uid := credential.value;
      var saved := svc.CreateNewUser(uid, data, now);
      Finish(uid, saved);
    }

    /** The four endings once the account exists and createNewUser has ended. */
    method Finish(uid: string, saved: Outcome<Obj>)
      modifies this, auth
      ensures Flow(auth.State(), svc.State(), error, closed) == Conclude(old(auth.State()), uid, Res(svc.State(), saved))
      ensures form == old(form) && loading == old(loading)
    {
      closed := false;
      if saved.Throw? {
        if svc.online {
          var _ := auth.DeleteUser(uid);
        }
        error := OrDefault(saved.err.message, MsgProfileDefault);
      } else if Truthy(Get(saved.value, "pendingSync")) {
        var _ := auth.DeleteUser(uid);
        error := MsgPending;
      } else if Truthy(Get(saved.value, "id")) {
        error, closed := "", true;
      } else {
        error := MsgUnverified;
      }
    }
  }
}
