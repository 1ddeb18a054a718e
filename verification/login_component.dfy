/**
 * The login page (login.component.ts): its two input fields, the error
 * message it shows, and `onLogin`, which opens the session and goes to the
 * dashboard or shows the error.
 */
module LoginPage {
  import opened Records
  import Auth

  const DashboardRoute: string := "/dashboard"
  const InvalidLoginMessage: string := "Invalid username or password"

  class LoginComponent {
    var username: string
    var password: string
    var errorMessage: string
    /** The routes passed to `router.navigate`, oldest first. */
    var navigations: seq<string>
    const auth: Auth.AuthService

    constructor (authService: Auth.AuthService)
      ensures username == "" && password == "" && errorMessage == "" && navigations == []
      ensures auth == authService
    {
      username, password, errorMessage := "", "", "";
      navigations := [];
      auth := authService;
    }

    /**
     * `onLogin`: the current username and password go to `login`; on
     * success the flag is set to 'true' and the dashboard is opened, the
     * error message left as it was; on failure the message is set and
     * storage is not written.
     */
    method OnLogin()
      requires auth.Valid()
      modifies auth.storage, this`errorMessage, this`navigations
      ensures auth.Accepts(Credentials(username, password)) ==>
                && auth.storage.items == old(auth.storage.items)[Auth.LoggedInKey := "true"]
                && navigations == old(navigations) + [DashboardRoute]
                && errorMessage == old(errorMessage)
      ensures !auth.Accepts(Credentials(username, password)) ==>
                && auth.storage.items == old(auth.storage.items)
                && navigations == old(navigations)
                && errorMessage == InvalidLoginMessage
    {
      var isValid := auth.Login(Credentials(username, password));
      if isValid {
        auth.storage.SetItem(Auth.LoggedInKey, "true");
        navigations := navigations + [DashboardRoute];
      } else {
        errorMessage := InvalidLoginMessage;
      }
    }
  }

  /**
   * In a browser: a wrong password shows the error and opens no session;
   * the right one then opens the session and the dashboard, and the old
   * error message stays; logging out closes the session again.
   */
  method FailThenSucceedThenLogout()
    returns (afterFailure: bool, message: string, afterSuccess: bool, routes: seq<string>, afterLogout: bool)
    ensures !afterFailure && afterSuccess && !afterLogout
    ensures message == InvalidLoginMessage
    ensures routes == [DashboardRoute]
  {
    var storage := new Auth.LocalStorage();
    var auth := new Auth.AuthService(null, storage);
    var page := new LoginComponent(auth);
    page.username, page.password := "admin", "wrong";
    page.OnLogin();
    afterFailure := auth.IsLoggedIn();
    page.password := "1234";
    page.OnLogin();
    afterSuccess := auth.IsLoggedIn();
    message := page.errorMessage;
    routes := page.navigations;
    auth.Logout();
    afterLogout := auth.IsLoggedIn();
  }
}
