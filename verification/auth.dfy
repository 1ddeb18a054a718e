/**
 * The session gate (login.service.ts): `login` checks credentials against
 * the fixed pair in a browser or asks the main process under Electron, and
 * the logged-in state is the `isLoggedIn` entry of the browser's
 * `localStorage`.
 */
module Auth {
  import opened Records
  import MainProcess

  /** The `localStorage` key that holds the session flag. */
  const LoggedInKey: string := "isLoggedIn"

  /** The browser's `localStorage`: string keys to string values. */
  class LocalStorage {
    var items: map<string, string>

    constructor ()
      ensures items == map[]
    {
      items := map[];
    }

    method GetItem(key: string) returns (v: Option<string>)
      ensures key in items <==> v.Some?
      ensures v.Some? ==> v.value == items[key]
    {
      v := if key in items then Some(items[key]) else None;
    }

    method SetItem(key: string, value: string)
      modifies this
      ensures items == old(items)[key := value]
    {
      items := items[key := value];
    }

    method RemoveItem(key: string)
      modifies this
      ensures items == old(items) - {key}
    {
      items := items - {key};
    }
  }

  /** The session is open when the flag is stored with exactly the text 'true'. */
  predicate LoggedIn(items: map<string, string>) {
    LoggedInKey in items && items[LoggedInKey] == "true"
  }

  class AuthService {
    /** `window.electronAPI`, or null in a browser. */
    const electronApi: MainProcess.DesktopStore?
    const isElectron: bool
    const storage: LocalStorage

    ghost predicate Valid()
      reads this, electronApi
    {
      isElectron == (electronApi != null) && (electronApi != null ==> electronApi.Valid())
    }

    constructor (bridge: MainProcess.DesktopStore?, localStorage: LocalStorage)
      requires bridge != null ==> bridge.Valid()
      ensures Valid()
      ensures electronApi == bridge && storage == localStorage
      ensures isElectron <==> bridge != null
    {
      electronApi := bridge;
      isElectron := bridge != null;
      storage := localStorage;
    }

    /**
     * The answer `login` gives for `c`: in a browser, whether `c` is the
     * fixed `admin`/`1234`; under Electron, the bridge's `success`, with a
     * rejected call counted as a refusal.
     */
    predicate Accepts(c: Credentials)
      reads this, electronApi
    {
      if electronApi == null then IsDefaultCredentials(c)
      else electronApi.LoginResult(c) == Ok(true)
    }

    method Login(c: Credentials) returns (ok: bool)
      requires Valid()
      ensures ok == Accepts(c)
      ensures !isElectron ==> (ok <==> IsDefaultCredentials(c))
      ensures isElectron ==> (ok <==> electronApi.Ready() && exists u :: u in electronApi.users && MainProcess.RowMatches(u, c))
      ensures isElectron && electronApi.LoginResult(c).Err? ==> !ok
    {
      if !isElectron {
        return IsDefaultCredentials(c);
      }
      var result := electronApi.LoginUser(c);
      match result
      case Ok(success) => ok := success;
      case Err(_) => ok := false;
    }

    /** `isLoggedIn`. */
    method IsLoggedIn() returns (b: bool)
      ensures b <==> LoggedIn(storage.items)
    {
      var v := storage.GetItem(LoggedInKey);
      b := v == Some("true");
    }

    /** `logout`: only the flag is removed. */
    method Logout()
      modifies storage
      ensures storage.items == old(storage.items) - {LoggedInKey}
      ensures !LoggedIn(storage.items)
      ensures forall k :: k in old(storage.items) && k != LoggedInKey ==> k in storage.items && storage.items[k] == old(storage.items)[k]
    {
      storage.RemoveItem(LoggedInKey);
    }
  }

  /** Any stored value other than the exact text 'true' leaves the session closed. */
  method FlagMustBeExactlyTrue(value: string) returns (loggedIn: bool)
    ensures loggedIn <==> value == "true"
  {
    var storage := new LocalStorage();
    storage.SetItem(LoggedInKey, value);
    var auth := new AuthService(null, storage);
    loggedIn := auth.IsLoggedIn();
  }
}
