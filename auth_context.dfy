/** The session state of the storefront's auth provider: the signed-in user,
    the loading flag, and the bearer token kept in browser storage under the
    key "token". The network calls `login` and `verifyToken` are not modelled;
    their outcomes are passed in as results. */
module AuthContext {
  import opened Wrappers
  import Js

  datatype User = User(id: int, username: string, email: string, isAdmin: bool)

  /** What the auth service answers to a successful login. */
  datatype LoginResponse = LoginResponse(accessToken: string, tokenType: string, user: User)

  /** The value the provider hands to its consumers. */
  datatype ContextValue = ContextValue(user: Option<User>, isLoading: bool, isAuthenticated: bool)

  const AdminPath := "/admin"
  const DashboardPath := "/dashboard"
  const LoginPath := "/login"
  const OutsideProvider := "useAuth must be used within an AuthProvider"

  /** Where a successful login navigates. */
  function RedirectTarget(u: User): (path: string)
    ensures path == AdminPath <==> u.isAdmin
    ensures path == DashboardPath <==> !u.isAdmin
  {
    if u.isAdmin then AdminPath else DashboardPath
  }

  /** `useAuth()`: the provider's value, or an error outside any provider. */
  function UseAuth(context: Option<ContextValue>): (r: Result<ContextValue, string>)
    ensures r.Failure? <==> context.None?
    ensures r.Failure? ==> r.error == OutsideProvider
    ensures r.Success? ==> r.value == context.value
  {
    match context
    case None => Failure(OutsideProvider)
    case Some(v) => Success(v)
  }

  class AuthProvider {
    var user: Option<User>
    var isLoading: bool
    /** `localStorage.getItem("token")`, `None` when no item is stored. */
    var storedToken: Option<string>

    /** The first render: no user yet, loading, and whatever token the browser holds. */
    constructor (stored: Option<string>)
      ensures user == None && isLoading && storedToken == stored
    {
      user := None;
      isLoading := true;
      storedToken := stored;
    }

    /** The mount effect, run once the verification of the stored token (if
        there is one) has settled with `verification`. */
    method Mount(verification: Result<User, string>)
      modifies this
      ensures !isLoading
      ensures !Js.TruthyString(old(storedToken)) ==> user == old(user) && storedToken == old(storedToken)
      ensures Js.TruthyString(old(storedToken)) && verification.Success? ==>
        user == Some(verification.value) && storedToken == old(storedToken)
      ensures Js.TruthyString(old(storedToken)) && verification.Failure? ==>
        user == old(user) && storedToken == None
    {
      if Js.TruthyString(storedToken) {
        match verification {
          case Success(u) => user := Some(u);
          case Failure(_) => storedToken := None;
        }
        isLoading := false;
      } else {
        isLoading := false;
      }
    }

    /** `login(email, password)` once the auth service answered `response`:
        on success the token is stored, the user is set and the result is the
        navigation target; a failure is rethrown and changes nothing. */
    method Login(response: Result<LoginResponse, string>) returns (r: Result<string, string>)
      modifies this
      ensures isLoading == old(isLoading)
      ensures response.Failure? ==>
        r == Failure(response.error) && user == old(user) && storedToken == old(storedToken)
      ensures response.Success? ==>
        && storedToken == Some(response.value.accessToken)
        && user == Some(response.value.user)
        && r == Success(RedirectTarget(response.value.user))
    {
      match response
      case Failure(e) =>
        r := Failure(e);
      case Success(resp) =>
        storedToken := Some(resp.accessToken);
        user := Some(resp.user);
        r := Success(RedirectTarget(resp.user));
    }

    /** `logout()`: forgets the token and the user and navigates to the login page. */
    method Logout() returns (path: string)
      modifies this
      ensures storedToken == None && user == None && isLoading == old(isLoading)
      ensures path == LoginPath
    {
      storedToken := None;
      user := None;
      path := LoginPath;
    }

    /** `!!user`. */
    function IsAuthenticated(): (b: bool)
      reads this
      ensures b <==> user.Some?
    {
      user.Some?
    }

    /** The provider's context value. */
    function Value(): (v: ContextValue)
      reads this
      ensures v.user == user && v.isLoading == isLoading
      ensures v.isAuthenticated <==> v.user.Some?
    {
      ContextValue(user, isLoading, IsAuthenticated())
    }
  }

  /** A session from a cold start: with no stored token the provider settles
      signed out; a regular user's login lands on the dashboard with the token
      stored; logout clears both again. */
  method SessionScenario(u: User, token: string)
    requires !u.isAdmin
  {
    var auth := new AuthProvider(None);
    auth.Mount(Failure("Invalid token"));
    assert !auth.isLoading && !auth.IsAuthenticated();
    var target := auth.Login(Success(LoginResponse(token, "bearer", u)));
    assert target == Success(DashboardPath) && auth.storedToken == Some(token);
    assert UseAuth(Some(auth.Value())) == Success(ContextValue(Some(u), false, true));
    var after := auth.Logout();
    assert after == LoginPath && auth.user == None && auth.storedToken == None;
  }
}
