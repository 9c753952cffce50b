/**
 * The client's session gate: the stored token, the flags
 * `isAuthenticated`, `isAdminAuthenticated` and `loading`, the start-up
 * check of the stored token, login, logout, the admin password prompt and
 * the route table. Navigation is the returned target path.
 */
module App {
  import opened Wrappers
  import opened Js
  import opened Text
  import Jwt

  /** `JSON.parse(atob(token.split(".")[1]))`; `None` is the exception the catch branch handles. */
  function DecodeTokenPayload(token: string): Option<Jwt.Claims> {
    var parts := Split(token, '.');
    if |parts| < 2 then None else Jwt.DecodeClaims(parts[1])
  }

  /**
   * `Date.now() >= decodedToken.exp * 1000`, with `nowMs` in milliseconds
   * and `exp` in seconds. Without `exp` the product is NaN and the
   * comparison is false.
   */
  predicate Expired(claims: Jwt.Claims, nowMs: int) {
    claims.exp.Some? && nowMs >= claims.exp.value * 1000
  }

  /** The route patterns of the router; `OtherPath` matches none of them. */
  datatype Location =
    | Root | LoginPath | SignupPath | HomePath
    | ProductPath(id: string) | CheckoutPath(id: string) | AdminPath
    | OtherPath(path: string)

  datatype Page =
    | LoginPage | SignupPage | HomePage
    | ProductDetailsPage(id: string) | CheckoutPage(id: string)
    | AdminPage | AdminPasswordPrompt

  datatype View = Loading | Render(page: Page) | Redirect(to: string) | NoMatch

  /** The pages behind the authentication gate. */
  predicate Protected(loc: Location) {
    loc.HomePath? || loc.ProductPath? || loc.CheckoutPath? || loc.AdminPath?
  }

  /** The element the app shows at `loc` for the given flags. */
  function Route(loc: Location, isAuthenticated: bool, isAdminAuthenticated: bool, loading: bool): (v: View)
    ensures v == Loading <==> loading
    ensures !loading && Protected(loc) && !isAuthenticated ==> v == Redirect("/login")
    ensures !loading && (loc.LoginPath? || loc.SignupPath?) && isAuthenticated ==> v == Redirect("/home")
    ensures !loading && loc.Root? ==> v == Redirect(if isAuthenticated then "/home" else "/login")
    ensures v.Render? && v.page != LoginPage && v.page != SignupPage ==> isAuthenticated
    ensures v.Render? && (v.page == LoginPage || v.page == SignupPage) ==> !isAuthenticated
    ensures v == Render(AdminPage) <==> !loading && loc.AdminPath? && isAuthenticated && isAdminAuthenticated
  {
    if loading then Loading
    else match loc
      case Root => Redirect(if isAuthenticated then "/home" else "/login")
      case LoginPath => if !isAuthenticated then Render(LoginPage) else Redirect("/home")
      case SignupPath => if !isAuthenticated then Render(SignupPage) else Redirect("/home")
      case HomePath => if isAuthenticated then Render(HomePage) else Redirect("/login")
      case ProductPath(id) => if isAuthenticated then Render(ProductDetailsPage(id)) else Redirect("/login")
      case CheckoutPath(id) => if isAuthenticated then Render(CheckoutPage(id)) else Redirect("/login")
      case AdminPath =>
        if !isAuthenticated then Redirect("/login")
        else if isAdminAuthenticated then Render(AdminPage)
        else Render(AdminPasswordPrompt)
      case OtherPath(_) => NoMatch
  }

  /** The password the admin prompt accepts. */
  const AdminPassword := "admin"

  class Session {
    /** `localStorage` entry "token". */
    var storedToken: Option<string>
    var isAuthenticated: bool
    var isAdminAuthenticated: bool
    var loading: bool

    /** The initial state of the component, over whatever storage holds. */
    constructor (stored: Option<string>)
      ensures storedToken == stored
      ensures !isAuthenticated && !isAdminAuthenticated && loading
    {
      storedToken := stored;
      isAuthenticated, isAdminAuthenticated, loading := false, false, true;
    }

    /** `checkAuth`, at `nowMs` milliseconds. */
    method CheckAuth(nowMs: int)
      modifies this
      ensures !loading
      ensures isAdminAuthenticated == old(isAdminAuthenticated)
      ensures !TruthyString(old(storedToken)) ==> !isAuthenticated && storedToken == old(storedToken)
      ensures TruthyString(old(storedToken)) ==>
                match DecodeTokenPayload(old(storedToken).value)
                case None => !isAuthenticated && storedToken == None
                case Some(claims) =>
                  && isAuthenticated == !Expired(claims, nowMs)
                  && storedToken == (if Expired(claims, nowMs) then None else old(storedToken))
      ensures isAuthenticated ==> storedToken == old(storedToken) && TruthyString(storedToken)
    {
      if TruthyString(storedToken) {
        var decoded := DecodeTokenPayload(storedToken.value);
        if decoded.Some? {
          var isExpired := Expired(decoded.value, nowMs);
          isAuthenticated := !isExpired;
          if isExpired {
            storedToken := None;
          }
        } else {
          storedToken := None;
          isAuthenticated := false;
        }
      } else {
        isAuthenticated := false;
      }
      loading := false;
    }

    /** `localStorage.setItem("token", token)` after a successful login request. */
    method StoreToken(token: string)
      modifies this
      ensures storedToken == Some(token)
      ensures isAuthenticated == old(isAuthenticated) && isAdminAuthenticated == old(isAdminAuthenticated)
      ensures loading == old(loading)
    {
      storedToken := Some(token);
    }

    /** `handleLoginSuccess`: returns the navigation target. */
    method HandleLoginSuccess() returns (target: string)
      modifies this
      ensures isAuthenticated && target == "/home"
      ensures storedToken == old(storedToken) && isAdminAuthenticated == old(isAdminAuthenticated)
      ensures loading == old(loading)
    {
      isAuthenticated := true;
      target := "/home";
    }

    /** `handleLogout`: returns the navigation target. */
    method HandleLogout() returns (target: string)
      modifies this
      ensures storedToken == None && !isAuthenticated && !isAdminAuthenticated
      ensures loading == old(loading)
      ensures target == "/login"
    {
      storedToken := None;
      isAuthenticated := false;
      isAdminAuthenticated := false;
      target := "/login";
    }

    /**
     * `AdminPasswordPrompt` given what `window.prompt` returned (`None` when
     * cancelled): only "admin" sets the flag; anything else redirects home.
     */
    method AdminPrompt(input: Option<string>) returns (redirect: Option<string>)
      modifies this
      ensures isAdminAuthenticated == (old(isAdminAuthenticated) || input == Some(AdminPassword))
      ensures redirect == (if input == Some(AdminPassword) then None else Some("/home"))
      ensures storedToken == old(storedToken) && isAuthenticated == old(isAuthenticated)
      ensures loading == old(loading)
    {
      if input == Some(AdminPassword) {
        isAdminAuthenticated := true;
        redirect := None;
      } else {
        redirect := Some("/home");
      }
    }
  }

  /** The payload the client decodes from a token the server signed. */
  lemma {:induction false} DecodeSignedToken(secret: string, userId: nat, iat: nat)
    ensures DecodeTokenPayload(Jwt.Sign(secret, userId, iat))
              == Some(Jwt.Claims(userId, iat, Some(iat + Jwt.Lifetime)))
  {
    Jwt.SignedSegments(secret, userId, iat);
    Jwt.DecodeEncode(Jwt.Claims(userId, iat, Some(iat + Jwt.Lifetime)));
  }

  lemma {:induction false} BelowScaled(n: nat, e: nat)
    ensures n / 1000 < e <==> n < e * 1000
  {
    var q, r := n / 1000, n % 1000;
    assert n == q * 1000 + r && 0 <= r < 1000;
    if q < e {
      assert (q + 1) * 1000 <= e * 1000;
    } else {
      assert q * 1000 >= e * 1000;
    }
  }

  /**
   * For a token the server signed, the client's unverified expiry check at
   * `nowMs` milliseconds accepts it exactly when the server's verification
   * at the same instant, in whole seconds, does.
   */
  lemma {:induction false} ClientAgreesWithServer(secret: string, userId: nat, iat: nat, nowMs: nat)
    ensures var token := Jwt.Sign(secret, userId, iat);
            && DecodeTokenPayload(token).Some?
            && (!Expired(DecodeTokenPayload(token).value, nowMs) <==> Jwt.Verify(secret, token, nowMs / 1000).Some?)
  {
    DecodeSignedToken(secret, userId, iat);
    Jwt.VerifySign(secret, userId, iat, nowMs / 1000);
    BelowScaled(nowMs, iat + Jwt.Lifetime);
  }

  /** Reloading the page with a freshly stored, unexpired token signs the user in and keeps the token. */
  method ReloadWithFreshToken(secret: string, userId: nat, iat: nat, nowMs: nat) returns (s: Session)
    requires nowMs < (iat + Jwt.Lifetime) * 1000
    ensures s.isAuthenticated && !s.loading
    ensures s.storedToken == Some(Jwt.Sign(secret, userId, iat))
  {
    var token := Jwt.Sign(secret, userId, iat);
    DecodeSignedToken(secret, userId, iat);
    s := new Session(Some(token));
    s.CheckAuth(nowMs);
  }

  /** After logout, the start-up check finds no token and the user stays signed out. */
  method ReloadAfterLogout(s: Session, nowMs: int) returns (target: string)
    modifies s
    ensures target == "/login"
    ensures !s.isAuthenticated && !s.isAdminAuthenticated && s.storedToken == None && !s.loading
  {
    target := s.HandleLogout();
    s.CheckAuth(nowMs);
  }
}
