/**
 * The simpler registration form: two password checks, then account creation and the
 * profile write, then navigation to the login page. There is no compensation: a failed
 * profile write leaves the new account in place.
 */
module RegisterForm {
  import opened Js
  import opened Registration
  import opened Identity
  import opened UserService

  /** The services after the submission, the error shown, and whether it navigated to "/login". */
  datatype Flow = Flow(auth: AuthState, store: Store, error: string, navigated: bool)

  /** The two checks, in their order; the form's fields are taken as typed. */
  function Checks(f: Form): Option<string> {
    if f.password != f.confirmPassword then Some(MsgMismatch)
    else if Utf16Length(f.password) < MinPassword then Some(MsgShort)
    else None
  }

  function ProfileData(f: Form): Obj {
    map["email" := Str(f.email), "nombre" := Str(f.nombre), "rol" := Str(f.rol)]
  }

  /** The `try`: create the account, write the profile, navigate; any throw shows its message. */
  function Register(f: Form, a: AuthState, s: Store, now: string): Flow {
    var ac := CreateUserSpec(a, f.email, f.password);
    if ac.1.Throw? then Flow(ac.0, s, ac.1.err.message, false)
    else
      var r := CreateNewUserSpec(s, ac.1.value, ProfileData(f), now);
      if r.out.Throw? then Flow(ac.0, r.s, r.out.err.message, false)
      else Flow(ac.0, r.s, "", true)
  }

  /** handleSubmit; `now` stands for the ISO timestamp createNewUser takes. */
  function SubmitSpec(f: Form, a: AuthState, s: Store, now: string): Flow {
    match Checks(f)
    case Some(msg) => Flow(a, s, msg, false)
    case None => Register(f, a, s, now)
  }

  /** The mismatch check comes first; either failure stops before the account is created. */
  lemma ChecksOrder(f: Form, a: AuthState, s: Store, now: string)
    ensures Checks(f) == Some(MsgMismatch) <==> f.password != f.confirmPassword
    ensures Checks(f) == Some(MsgShort) <==> f.password == f.confirmPassword && Utf16Length(f.password) < 6
    ensures Checks(f).None? <==> f.password == f.confirmPassword && Utf16Length(f.password) >= 6
    ensures Checks(f).Some? ==> SubmitSpec(f, a, s, now) == Flow(a, s, Checks(f).value, false)
  {
  }

  /** Length counts UTF-16 code units: three astral characters make a long enough password. */
  lemma AstralPasswordLongEnough(f: Form)
    requires f.password == "\U{1F600}\U{1F600}\U{1F600}" && f.confirmPassword == f.password
    ensures Checks(f).None?
  {
    Utf16LengthAstral();
  }

  /** It navigates to the login page exactly when the checks pass and both awaited steps return. */
  lemma NavigatesIff(f: Form, a: AuthState, s: Store, now: string)
    ensures var flow := SubmitSpec(f, a, s, now);
      && (flow.navigated <==>
            && Checks(f).None?
            && var ac := CreateUserSpec(a, f.email, f.password);
            && ac.1.Return?
            && CreateNewUserSpec(s, ac.1.value, ProfileData(f), now).out.Return?)
      && (flow.navigated ==> flow.error == "")
  {
  }

  /** A thrown error shows its message and does not navigate. */
  lemma ErrorShowsMessage(f: Form, a: AuthState, s: Store, now: string)
    requires Checks(f).None?
    ensures var ac := CreateUserSpec(a, f.email, f.password);
      var flow := SubmitSpec(f, a, s, now);
      && (ac.1.Throw? ==> !flow.navigated && flow.error == ac.1.err.message && flow.store == s)
      && (ac.1.Return? && CreateNewUserSpec(s, ac.1.value, ProfileData(f), now).out.Throw? ==>
            !flow.navigated && flow.error == CreateNewUserSpec(s, ac.1.value, ProfileData(f), now).out.err.message)
  {
  }

  /** No rollback: after a failed profile write the created account is still there. */
  lemma NoRollback(f: Form, a: AuthState, s: Store, now: string)
    requires Checks(f).None?
    requires var ac := CreateUserSpec(a, f.email, f.password);
      ac.1.Return? && CreateNewUserSpec(s, ac.1.value, ProfileData(f), now).out.Throw?
    ensures var uid := CreateUserSpec(a, f.email, f.password).1.value;
      var flow := SubmitSpec(f, a, s, now);
      uid in flow.auth.accounts && flow.auth.accounts[uid] == f.email
  {
    CreateUserContract(a, f.email, f.password);
  }

  /**
   * Offline, a failed profile write is not an error for createNewUser, so the form
   * navigates to the login page although only a pending profile was cached.
   */
  lemma OfflineNavigatesWithPendingProfile(f: Form, a: AuthState, s: Store, now: string)
    requires Checks(f).None? && !s.online
    requires var ac := CreateUserSpec(a, f.email, f.password);
      ac.1.Return? && NextFault(s).0.Fail?
    ensures var ac := CreateUserSpec(a, f.email, f.password);
      var r := CreateNewUserSpec(s, ac.1.value, ProfileData(f), now);
      && SubmitSpec(f, a, s, now).navigated
      && r.out.value["pendingSync"] == Bool(true)
      && r.s.users == s.users
  {
    var ac := CreateUserSpec(a, f.email, f.password);
    CreateNewUserOfflineFallback(s, ac.1.value, ProfileData(f), now);
  }

  /** The form: its fields, the error it shows, its spinner, and whether it has navigated. */
  class Page {
    var form: Form
    var error: string
    var loading: bool
    var navigated: bool
    const auth: Auth
    const svc: Service

    constructor(auth: Auth, svc: Service)
      ensures form == InitialForm && error == "" && !loading && !navigated
      ensures this.auth == auth && this.svc == svc
    {
      form, error, loading, navigated := InitialForm, "", false, false;
      this.auth, this.svc := auth, svc;
    }

    method HandleSubmit(now: string)
      modifies this, auth, svc
      ensures Flow(auth.State(), svc.State(), error, navigated)
        == SubmitSpec(old(form), old(auth.State()), old(svc.State()), now)
      ensures !loading && form == old(form)
    {
      var f := form;
      error := "";
      loading := true;
      navigated := false;
      if f.password != f.confirmPassword {
        error, loading := MsgMismatch, false;
        return;
      }
      if Utf16Length(f.password) < MinPassword {
        error, loading := MsgShort, false;
        return;
      }
      var credential := auth.CreateUser(f.email, f.password);
      if credential.Throw? {
        error, loading := credential.err.message, false;
        return;
      }
      var written := svc.CreateNewUser(credential.value, ProfileData(f), now);
      if written.Throw? {
        error, loading := written.err.message, false;
        return;
      }
      navigated := true;
      loading := false;
    }
  }
}
