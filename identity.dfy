/**
 * The authentication service the registration flows call: accounts keyed by uid, created
 * with an email and password and deleted by uid. Each call consumes one entry of a fault
 * script, so a call either succeeds or fails with the scripted error.
 */
module Identity {
  import opened Js

  /** How one call to the authentication service ends. */
  datatype AuthFault = Granted | Refused(code: string, message: string)

  /** The accounts (uid to email), the counter that names the next account, and the fault script. */
  datatype AuthState = AuthState(accounts: map<string, string>, next: nat, faults: seq<AuthFault>)

  /** The uid the service gives its `n`-th account: never empty and never containing '/'. */
  function NewUid(n: nat): (uid: string)
    ensures uid != [] && '/' !in uid
  {
    var d := NatToString(n);
    assert forall i :: 0 <= i < |d| ==> IsDigit(d[i]);
    "uid" + d
  }

  function NextAuthFault(a: AuthState): (r: (AuthFault, AuthState))
    ensures r.1 == a.(faults := if a.faults == [] then [] else a.faults[1..])
    ensures r.0 == if a.faults == [] then Granted else a.faults[0]
  {
    if a.faults == [] then (Granted, a) else (a.faults[0], a.(faults := a.faults[1..]))
  }

  function RefusalError(f: AuthFault): JsError
    requires f.Refused?
  {
    JsError("FirebaseError", f.code, f.message)
  }

  /** createUserWithEmailAndPassword: the new account's uid, or the scripted refusal. */
  function CreateUserSpec(a: AuthState, email: string, password: string): (AuthState, Outcome<string>) {
    var t1 := NextAuthFault(a); var f, a1 := t1.0, t1.1;
    if f.Refused? then (a1, Throw(RefusalError(f)))
    else
      var uid := NewUid(a1.next);
      (a1.(accounts := a1.accounts[uid := email], next := a1.next + 1), Return(uid))
  }

  /** deleteUser: the account disappears, or the scripted refusal leaves it in place. */
  function DeleteUserSpec(a: AuthState, uid: string): (AuthState, Outcome<()>) {
    var t2 := NextAuthFault(a); var f, a1 := t2.0, t2.1;
    if f.Refused? then (a1, Throw(RefusalError(f)))
    else (a1.(accounts := a1.accounts - {uid}), Return(()))
  }

  /** A created account holds the given email; a refused call changes no account. */
  lemma CreateUserContract(a: AuthState, email: string, password: string)
    ensures var t3 := CreateUserSpec(a, email, password); var a', r := t3.0, t3.1;
      && (r.Return? ==> r.value in a'.accounts && a'.accounts[r.value] == email
                        && forall u :: u in a.accounts && u != r.value ==> u in a'.accounts && a'.accounts[u] == a.accounts[u])
      && (r.Throw? ==> a'.accounts == a.accounts)
      && (r.Return? <==> NextAuthFault(a).0 == Granted)
  {
  }

  /** Deleting a freshly created account restores the accounts as they were. */
  lemma CreateThenDelete(a: AuthState, email: string, password: string)
    requires NewUid(a.next) !in a.accounts
    ensures var t4 := CreateUserSpec(a, email, password); var a1, r := t4.0, t4.1;
      r.Return? ==>
        var t5 := DeleteUserSpec(a1, r.value); var a2, d := t5.0, t5.1;
        d.Return? ==> a2.accounts == a.accounts
  {
  }

  class Auth {
    var accounts: map<string, string>
    var next: nat
    var faults: seq<AuthFault>

    function State(): AuthState
      reads this
    {
      AuthState(accounts, next, faults)
    }

    constructor(a: AuthState)
      ensures State() == a
    {
      accounts, next, faults := a.accounts, a.next, a.faults;
    }

    method TakeFault() returns (f: AuthFault)
      modifies this
      ensures (f, State()) == NextAuthFault(old(State()))
    {
      if faults == [] {
        f := Granted;
      } else {
        f := faults[0];
        faults := faults[1..];
      }
    }

    method CreateUser(email: string, password: string) returns (r: Outcome<string>)
      modifies this
      ensures (State(), r) == CreateUserSpec(old(State()), email, password)
    {
      var f := TakeFault();
      if f.Refused? {
        return Throw(RefusalError(f));
      }
      var uid := NewUid(next);
      accounts := accounts[uid := email];
      next := next + 1;
      r := Return(uid);
    }

    method DeleteUser(uid: string) returns (r: Outcome<()>)
      modifies this
      ensures (State(), r) == DeleteUserSpec(old(State()), uid)
    {
      var f := TakeFault();
      if f.Refused? {
        return Throw(RefusalError(f));
      }
      accounts := accounts - {uid};
      r := Return(());
    }
  }
}
