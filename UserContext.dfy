/**
 * The authentication context of src/contexts/UserContext.jsx: the state that
 * `AuthProvider` shares with the pages (`isAuthenticated`, `isLoading`) and
 * the operations it exposes, each delegating to the session service.
 */
module UserContext {
  import opened Js
  import opened Auth

  /** Before and after the one-shot startup check. */
  datatype Phase = Loading | Resolved

  class AuthProvider {
    const service: AuthService
    var isAuthenticated: bool
    var isLoading: bool
    ghost var phase: Phase

    ghost predicate Valid()
      reads this
    {
      isLoading <==> phase == Loading
    }

    /** The context agrees with the store about whether someone is signed in. */
    ghost predicate Consistent()
      reads this, service
    {
      isAuthenticated == service.IsAuthenticated()
    }

    /** The provider as first rendered: not authenticated, still loading. */
    constructor (service: AuthService)
      ensures Valid() && phase == Loading && this.service == service
      ensures !isAuthenticated && isLoading
    {
      this.service := service;
      isAuthenticated := false;
      isLoading := true;
      phase := Loading;
    }

    /** `checkAuth`, run once by the mount effect: adopts the store's view and
        ends the loading phase. */
    method CheckAuth()
      requires Valid() && phase == Loading
      modifies this
      ensures Valid() && phase == Resolved && !isLoading
      ensures isAuthenticated == service.IsAuthenticated()
    {
      var authenticated := service.IsAuthenticated();
      isAuthenticated := authenticated;
      isLoading := false;
      phase := Resolved;
    }

    /** `login(credentials)`: the service stores the session when the reply
        carries a token; any reply the service returns sets `isAuthenticated`,
        even one without a token that the service did not store; a rejection
        leaves the context and the store as they were and propagates. */
    method Login(res: ApiResult<LoginReply>) returns (r: ApiResult<LoginReply>)
      requires Valid()
      modifies this, service
      ensures Valid() && phase == old(phase) && isLoading == old(isLoading)
      ensures r == res
      ensures res.Ok? ==> isAuthenticated
      ensures StoresSession(res) ==> service.storage == WithSession(old(service.storage), res.data)
      ensures !StoresSession(res) ==> service.storage == old(service.storage)
      ensures res.Err? ==> isAuthenticated == old(isAuthenticated) && service.storage == old(service.storage)
      ensures StoresSession(res) ==> Consistent()
      ensures res.Err? ==> (Consistent() <==> old(Consistent()))
      ensures res.Ok? && !StoresSession(res) ==> (Consistent() <==> old(service.IsAuthenticated()))
    {
      r := service.Login(res);
      if r.Ok? {
        isAuthenticated := true;
      }
    }

    /** `logout()`: clears the store and the flag, whatever the state was. */
    method Logout()
      requires Valid()
      modifies this, service
      ensures Valid() && phase == old(phase) && isLoading == old(isLoading)
      ensures !isAuthenticated && !service.IsAuthenticated()
      ensures service.storage == old(service.storage) - SessionKeys
      ensures Consistent()
    {
      service.Logout();
      isAuthenticated := false;
    }

    /** `register(userData)`: passes the outcome through; the context and the
        store are untouched whether it succeeds or fails. */
    method Register(res: ApiResult<Body>) returns (r: ApiResult<Body>)
      ensures r == res
    {
      r := service.Register(res);
    }
  }
}
