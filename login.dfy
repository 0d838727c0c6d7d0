/**
 * The login page: two hard-coded accounts, the user it remembers in browser storage, and
 * the redirect a remembered user gets on opening the page.
 */
module Login {
  import opened Js
  import opened UserService

  const LiderUser: Obj := map["nombre" := Str("Líder Outfitting"), "rol" := Str("lider")]
  const ModelistaUser: Obj := map["nombre" := Str("Modelista Naval"), "rol" := Str("modelista")]
  const MsgBadCredentials := "Usuario o contraseña incorrecta"
  const InvalidJson := JsError("SyntaxError", "", "Unexpected end of JSON input")

  /** The account a pair of credentials opens, with the page it leads to. */
  function Credentials(email: string, password: string): Option<(Obj, string)> {
    if email == "lider@gmail.com" && password == "1234" then Some((LiderUser, "/dashboard-lider"))
    else if email == "modelista@gmail.com" && password == "1234" then Some((ModelistaUser, "/dashboard-kpis"))
    else None
  }

  /** What a submission leaves: the "usuario" storage entry, the navigation, the alert. */
  datatype Effect = Effect(stored: Option<Stored>, navigatedTo: Option<string>, alert: Option<string>)

  function SubmitSpec(email: string, password: string, stored: Option<Stored>): Effect {
    var c := Credentials(email, password);
    if c.None? then Effect(stored, None, Some(MsgBadCredentials))
    else Effect(Some(Json(c.value.0)), Some(c.value.1), None)
  }

  /**
   * The mount effect: JSON.parse of the stored entry (null when there is none, a throw when
   * the text is not JSON), then a redirect by role.
   */
  function Redirect(stored: Option<Stored>): Outcome<Option<string>> {
    match stored
    case None => Return(None)
    case Some(Json(o)) =>
      if Get(o, "rol") == Str("lider") then Return(Some("/dashboard-lider"))
      else if Get(o, "rol") == Str("modelista") then Return(Some("/dashboard-kpis"))
      else Return(None)
    case Some(_) => Throw(InvalidJson)
  }

  /** The lider and modelista accounts store their user and navigate; anything else only alerts. */
  lemma SubmitCases(email: string, password: string, stored: Option<Stored>)
    ensures email == "lider@gmail.com" && password == "1234" ==>
      SubmitSpec(email, password, stored) == Effect(Some(Json(LiderUser)), Some("/dashboard-lider"), None)
    ensures email == "modelista@gmail.com" && password == "1234" ==>
      SubmitSpec(email, password, stored) == Effect(Some(Json(ModelistaUser)), Some("/dashboard-kpis"), None)
    ensures Credentials(email, password).None? <==>
      !((email == "lider@gmail.com" || email == "modelista@gmail.com") && password == "1234")
    ensures Credentials(email, password).None? ==>
      SubmitSpec(email, password, stored) == Effect(stored, None, Some(MsgBadCredentials))
  {
  }

  /** A stored lider goes to its dashboard, a modelista to the KPI page, anyone else nowhere. */
  lemma RedirectCases(stored: Option<Stored>)
    ensures stored.None? ==> Redirect(stored) == Return(None)
    ensures stored.Some? && stored.value.Json? ==>
      && Redirect(stored).Return?
      && (Redirect(stored).value.Some? <==> Get(stored.value.o, "rol") in {Str("lider"), Str("modelista")})
    ensures stored.Some? && !stored.value.Json? ==> Redirect(stored).Throw?
  {
  }

  /** After a successful login, opening the page again leads the user where the login did. */
  lemma RememberedLogin(email: string, password: string, stored: Option<Stored>)
    requires Credentials(email, password).Some?
    ensures var e := SubmitSpec(email, password, stored);
      Redirect(e.stored) == Return(e.navigatedTo)
  {
  }

  class LoginPage {
    var email: string
    var password: string
    /** The "usuario" entry of browser storage. */
    var usuario: Option<Stored>
    var navigatedTo: Option<string>
    var alert: Option<string>

    constructor(usuario: Option<Stored>)
      ensures email == "" && password == "" && this.usuario == usuario && navigatedTo == None && alert == None
    {
      email, password, this.usuario, navigatedTo, alert := "", "", usuario, None, None;
    }

    /** The mount effect; a throw leaves the state as it was. */
    method OnMount() returns (r: Outcome<()>)
      modifies this
      ensures var d := Redirect(old(usuario));
        && (d.Throw? <==> r.Throw?)
        && navigatedTo == (if d.Return? && d.value.Some? then d.value else old(navigatedTo))
      ensures usuario == old(usuario) && email == old(email) && password == old(password) && alert == old(alert)
    {
      var d := Redirect(usuario);
      if d.Throw? {
        return Throw(d.err);
      }
      if d.value.Some? {
        navigatedTo := d.value;
      }
      r := Return(());
    }

    method HandleSubmit()
      modifies this
      ensures Effect(usuario, navigatedTo, alert) == SubmitSpec(email, password, old(usuario))
      ensures email == old(email) && password == old(password)
    {
      navigatedTo, alert := None, None;
      if email == "lider@gmail.com" && password == "1234" {
        usuario := Some(Json(LiderUser));
        navigatedTo := Some("/dashboard-lider");
      } else if email == "modelista@gmail.com" && password == "1234" {
        usuario := Some(Json(ModelistaUser));
        navigatedTo := Some("/dashboard-kpis");
      } else {
        alert := Some(MsgBadCredentials);
      }
    }
  }
}
