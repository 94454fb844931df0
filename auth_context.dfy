/** src/context/AuthContext.tsx: the session held by `AuthProvider`. The
    token lives in the provider's state and is mirrored under the key
    'token' of local storage. AuthService.signIn (the request and the
    extraction of the access token) is an input: its outcome is passed in. */
module AuthContext {
  import opened Wrappers
  import opened JsValues
  import opened BrowserStorage

  class AuthProvider {
    const storage: Storage
    var token: Option<string>
    var isLoading: bool

    /** The state holds no token other than the stored one. */
    ghost predicate Mirrors()
      reads this, storage
    {
      token.Some? ==> storage.token == token
    }

    /** First render: no token yet, still loading. */
    constructor (storage: Storage)
      ensures this.storage == storage
      ensures token == None && isLoading
      ensures Mirrors()
    {
      this.storage := storage;
      token := None;
      isLoading := true;
    }

    /** The mount effect: adopt the stored token when it is truthy; stop
        loading whether or not reading storage threw. */
    method Init(readThrows: bool)
      requires token == None && isLoading
      modifies this
      ensures token == (if !readThrows && TruthyString(storage.token) then storage.token else None)
      ensures !isLoading && RendersChildren()
      ensures IsAuthenticated() <==> !readThrows && TruthyString(storage.token)
      ensures Mirrors()
    {
      if !readThrows {
        var stored := storage.token;
        if TruthyString(stored) {
          token := stored;
        }
      }
      isLoading := false;
    }

    /** `login`: on success store the returned token, then adopt it; on
        failure rethrow and change nothing. */
    method Login(signIn: Result<string, Thrown>) returns (r: Result<(), Thrown>)
      modifies this, storage
      ensures signIn.Success? ==> r == Success(()) && storage.token == Some(signIn.value) && token == Some(signIn.value)
      ensures signIn.Failure? ==> r == Failure(signIn.error) && storage.token == old(storage.token) && token == old(token)
      ensures storage.notes == old(storage.notes) && storage.categories == old(storage.categories)
      ensures isLoading == old(isLoading)
      ensures signIn.Success? ==> (IsAuthenticated() <==> signIn.value != "")
      ensures signIn.Success? || old(Mirrors()) ==> Mirrors()
    {
      match signIn
      case Success(t) =>
        storage.token := Some(t);
        token := Some(t);
        r := Success(());
      case Failure(e) =>
        r := Failure(e);
    }

    /** `logout`: unconditional, no server call. */
    method Logout()
      modifies this, storage
      ensures storage.token == None && token == None
      ensures storage.notes == old(storage.notes) && storage.categories == old(storage.categories)
      ensures isLoading == old(isLoading)
      ensures !IsAuthenticated()
      ensures Mirrors()
    {
      storage.token := None;
      token := None;
    }

    /** `isAuthenticated: !!token`: a null token and the empty token both
        count as signed out. */
    predicate IsAuthenticated()
      reads this
      ensures IsAuthenticated() <==> token.Some? && token.value != ""
    {
      TruthyString(token)
    }

    /** While loading, the provider renders a placeholder instead of its children. */
    predicate RendersChildren()
      reads this
    {
      !isLoading
    }
  }

  /** A session on one page load: the mount effect ends loading so the
      children render, a sign-in that returns `t` authenticates exactly when
      `t` is non-empty, and a logout signs out. It starts from any storage,
      including one whose token was removed behind the provider's back. */
  method SessionLifecycle(storage: Storage, readThrows: bool, t: string)
    returns (rendersAfterInit: bool, authenticatedAfterLogin: bool, authenticatedAfterLogout: bool)
    modifies storage
    ensures rendersAfterInit
    ensures authenticatedAfterLogin <==> t != ""
    ensures !authenticatedAfterLogout
    ensures storage.token == None
  {
    var p := new AuthProvider(storage);
    p.Init(readThrows);
    rendersAfterInit := p.RendersChildren();
    var r := p.Login(Success(t));
    authenticatedAfterLogin := p.IsAuthenticated();
    p.Logout();
    authenticatedAfterLogout := p.IsAuthenticated();
  }
}
