/**
 * The login form: three demo accounts keyed by e-mail address, the
 * normalisation of the typed address, the password check, and the route
 * each role lands on.
 */
module LoginPage {
  import opened Seqs
  import opened Text
  import opened Types
  import opened Store

  datatype DemoAccount = DemoAccount(password: string, role: Role)

  const DemoPassword := "password"
  const InvalidMessage := "Invalid email or password"

  /** The address of each role's demo account. */
  function DemoEmail(role: Role): string
  {
    match role
    case Admin => "admin@peachreviews.com"
    case Writer => "writer@peachreviews.com"
    case Provider => "provider@peachreviews.com"
  }

  /** `DEMO_ACCOUNTS[key]`: an account exactly for the three demo addresses,
      each with the demo password and the role the address names. */
  function AccountFor(key: string): (r: Option<DemoAccount>)
    ensures r.Some? <==> exists role :: DemoEmail(role) == key
    ensures r.Some? ==> r.value.password == DemoPassword && DemoEmail(r.value.role) == key
  {
    if key == DemoEmail(Admin) then Some(DemoAccount(DemoPassword, Admin))
    else if key == DemoEmail(Writer) then Some(DemoAccount(DemoPassword, Writer))
    else if key == DemoEmail(Provider) then Some(DemoAccount(DemoPassword, Provider))
    else None
  }

  /** `email.toLowerCase().trim()` */
  function EmailKey(email: string): string
  {
    Trim(Lower(email))
  }

  /** `redirectMap[role]` */
  function RouteOf(role: Role): (r: string)
    ensures r != ""
  {
    match role
    case Admin => "/admin/overview"
    case Writer => "/writer/queue"
    case Provider => "/provider/overview"
  }

  /** The three roles land on three different routes. */
  lemma RoutesDistinct(a: Role, b: Role)
    ensures RouteOf(a) == RouteOf(b) <==> a == b
  {
    if a != b {
      assert RouteOf(a)[1] != RouteOf(b)[1] || RouteOf(a)[|RouteOf(a)| - 1] != RouteOf(b)[|RouteOf(b)| - 1];
    }
  }

  datatype LoginOutcome = Invalid | SignedIn(role: Role)

  /** The decision `handleLogin` takes: the normalised address must name a
      demo account and the password must match it exactly. */
  function CheckLogin(email: string, password: string): (r: LoginOutcome)
    ensures r.SignedIn? <==> (password == DemoPassword && exists role :: DemoEmail(role) == EmailKey(email))
    ensures r.SignedIn? ==> DemoEmail(r.role) == EmailKey(email)
  {
    var account := AccountFor(EmailKey(email));
    if account.None? || account.value.password != password then Invalid
    else SignedIn(account.value.role)
  }

  /** Every demo account signs in with its own address and the demo
      password. */
  lemma DemoAccountsSignIn(role: Role)
    ensures CheckLogin(DemoEmail(role), DemoPassword) == SignedIn(role)
  {
    var e := DemoEmail(role);
    DemoEmailNormal(role);
    KeyOfNormalEmail(e);
    DemoAccountFound(role);
  }

  /** A demo address typed after a space still signs in. */
  lemma PaddedEmailSignsIn(role: Role)
    ensures CheckLogin(" " + DemoEmail(role), DemoPassword) == SignedIn(role)
  {
    var e := DemoEmail(role);
    DemoEmailNormal(role);
    KeyOfNormalEmail(e);
    DemoAccountFound(role);
  }

  /** The demo addresses are lower case and start and end with a letter. */
  lemma DemoEmailNormal(role: Role)
    ensures IsNormalEmail(DemoEmail(role))
  {
  }

  /** Lower case, and starts and ends with something other than a space. */
  predicate IsNormalEmail(s: string)
  {
    s != [] && !IsSpace(s[0]) && !IsSpace(s[|s| - 1]) &&
    forall i :: 0 <= i < |s| ==> !('A' <= s[i] <= 'Z')
  }

  lemma DemoAccountFound(role: Role)
    ensures AccountFor(DemoEmail(role)) == Some(DemoAccount(DemoPassword, role))
  {
    DemoEmailRoleUnique(role);
  }

  /** An address already in lower case, without surrounding spaces, is its
      own key, also after a leading space. */
  lemma KeyOfNormalEmail(s: string)
    requires IsNormalEmail(s)
    ensures EmailKey(s) == s && EmailKey(" " + s) == s
  {
    LowerKeepsLowercase(s);
    LowerKeepsLowercase(" " + s);
    TrimSolid(s);
  }

  /** Each address belongs to one role only. */
  lemma DemoEmailRoleUnique(role: Role)
    ensures forall other :: DemoEmail(other) == DemoEmail(role) ==> other == role
  {
    forall other | DemoEmail(other) == DemoEmail(role)
      ensures other == role
    {
      assert DemoEmail(other)[0] == DemoEmail(role)[0];
    }
  }

  /** Lower-casing a string without capitals changes nothing. */
  lemma LowerKeepsLowercase(s: string)
    requires forall i :: 0 <= i < |s| ==> !('A' <= s[i] <= 'Z')
    ensures Lower(s) == s
  {
  }

  /** A password that is not exactly the account's (one with a leading
      space, say) never signs in, whatever the address. */
  lemma PaddedPasswordFails(email: string, password: string)
    ensures CheckLogin(email, " " + password) == Invalid
  {
    assert (" " + password)[0] != DemoPassword[0];
  }

  /** The login form's state. */
  class LoginForm {
    const store: AppStore
    var email: string
    var password: string
    var error: string

    constructor (store: AppStore)
      ensures this.store == store && email == "" && password == "" && error == ""
    {
      this.store := store;
      email := "";
      password := "";
      error := "";
    }

    /** `handleLogin`: on a bad address or password it shows the error and
        leaves the store alone; otherwise it clears the error, logs the
        store in as the account's role and returns the route to go to. */
    method HandleLogin() returns (route: Option<string>)
      modifies this, store
      ensures email == old(email) && password == old(password)
      ensures CheckLogin(email, password).Invalid? ==>
        error == InvalidMessage && route.None? && store.State() == old(store.State())
      ensures CheckLogin(email, password).SignedIn? ==>
        var role := CheckLogin(email, password).role;
        error == "" && route == Some(RouteOf(role)) &&
        store.State() == old(store.State()).(currentUser := FirstWithRole(store.seedUsers, role))
    {
      error := "";
      var outcome := CheckLogin(email, password);
      if outcome.Invalid? {
        error := InvalidMessage;
        return None;
      }
      var role := outcome.role;
      store.Login(role);
      route := Some(RouteOf(role));
    }
  }
}
