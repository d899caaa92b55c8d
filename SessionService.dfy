/**
 * The process-wide session store: a dictionary from session id to username.
 * In the application the dictionary is a static field, so every service that
 * holds a `SessionService` sees the same map; here that single store is one
 * `SessionService` object shared by reference.
 */
module Sessions {

  import opened Wrappers

  class SessionService {
    /** session id -> username */
    var activeSessions: map<string, string>

    /** The store starts empty when the process starts. */
    constructor ()
      ensures activeSessions == map[]
    {
      activeSessions := map[];
    }

    /** Binds `sessionId` to `username`, overwriting any earlier binding of that id. */
    method CreateSession(sessionId: string, username: string)
      modifies this
      ensures sessionId in activeSessions && activeSessions[sessionId] == username
      ensures activeSessions.Keys == old(activeSessions).Keys + {sessionId}
      ensures forall id :: id in old(activeSessions) && id != sessionId ==>
                activeSessions[id] == old(activeSessions)[id]
    {
      activeSessions := activeSessions[sessionId := username];
    }

    /** Forgets `sessionId`; an id that is not present is ignored. */
    method RemoveSession(sessionId: string)
      modifies this
      ensures sessionId !in activeSessions
      ensures activeSessions.Keys == old(activeSessions).Keys - {sessionId}
      ensures forall id :: id in activeSessions ==> activeSessions[id] == old(activeSessions)[id]
      ensures sessionId !in old(activeSessions) ==> activeSessions == old(activeSessions)
    {
      activeSessions := activeSessions - {sessionId};
    }

    /** The username bound to `sessionId`, or None (null). */
    method GetUserFromSession(sessionId: string) returns (username: Option<string>)
      ensures username.Some? <==> sessionId in activeSessions
      ensures username.Some? ==> username.value == activeSessions[sessionId]
    {
      username := if sessionId in activeSessions then Some(activeSessions[sessionId]) else None;
    }

    /** Whether `sessionId` is bound. */
    method IsUserLoggedIn(sessionId: string) returns (loggedIn: bool)
      ensures loggedIn <==> sessionId in activeSessions
    {
      loggedIn := sessionId in activeSessions;
    }

    /** Same lookup as GetUserFromSession. */
    method GetUsername(sessionId: string) returns (username: Option<string>)
      ensures username.Some? <==> sessionId in activeSessions
      ensures username.Some? ==> username.value == activeSessions[sessionId]
    {
      username := if sessionId in activeSessions then Some(activeSessions[sessionId]) else None;
    }
  }

  /**
   * The store's observable lifecycle through its own operations: a created session
   * is logged in under its username, an overwrite replaces the username, a removal
   * logs it out, and two removals are as good as one.
   */
  method SessionLifecycle(store: SessionService, id: string, first: string, second: string)
    modifies store
    ensures id !in store.activeSessions
  {
    store.CreateSession(id, first);
    var loggedIn := store.IsUserLoggedIn(id);
    var name := store.GetUsername(id);
    assert loggedIn && name == Some(first);
    store.CreateSession(id, second);
    var viaOther := store.GetUserFromSession(id);
    name := store.GetUsername(id);
    assert name == viaOther == Some(second);
    store.RemoveSession(id);
    loggedIn := store.IsUserLoggedIn(id);
    name := store.GetUsername(id);
    assert !loggedIn && name == None;
    store.RemoveSession(id);
  }
}
