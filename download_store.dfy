/** The in-memory download store: a map from checkout session to the
    signed download URL of its skill pack. */
module DownloadStore {
  import opened Text
  import opened Results

  /** The URL a run of `setDownloadUrl` calls leaves for `session`: the one
      from the last call naming it, if any. */
  function LastSet(calls: seq<(String, String)>, session: String): (r: Option<String>)
    ensures r.None? <==> forall i :: 0 <= i < |calls| ==> calls[i].0 != session
    ensures r.Some? ==> exists i :: 0 <= i < |calls| && calls[i] == (session, r.value)
    decreases |calls|
  {
    if calls == [] then None
    else
      var last := calls[|calls| - 1];
      if last.0 == session then Some(last.1)
      else
        var r := LastSet(calls[..|calls| - 1], session);
        assert forall i :: 0 <= i < |calls| - 1 ==> calls[..|calls| - 1][i] == calls[i];
        r
  }

  /** The map a run of calls builds, starting from an empty store. */
  function Replay(calls: seq<(String, String)>): map<String, String>
    decreases |calls|
  {
    if calls == [] then map[]
    else
      var last := calls[|calls| - 1];
      Replay(calls[..|calls| - 1])[last.0 := last.1]
  }

  /** `getDownloadUrlBySession` on a map. */
  function Lookup(store: map<String, String>, session: String): (r: Option<String>)
    ensures r.Some? <==> session in store
    ensures r.Some? ==> r.value == store[session]
  {
    if session in store then Some(store[session]) else None
  }

  /** After any run of calls, a lookup gives the URL of the last call for
      that session, and null for a session never set. */
  lemma {:induction false} ReplayLookup(calls: seq<(String, String)>, session: String)
    ensures Lookup(Replay(calls), session) == LastSet(calls, session)
    decreases |calls|
  {
    if calls != [] {
      ReplayLookup(calls[..|calls| - 1], session);
    }
  }

  /** A later call for the same session overrides an earlier one, and a
      call for another session does not disturb it. */
  lemma SetThenGet(calls: seq<(String, String)>, session: String, url: String, others: seq<(String, String)>)
    requires forall i :: 0 <= i < |others| ==> others[i].0 != session
    ensures Lookup(Replay(calls + [(session, url)] + others), session) == Some(url)
  {
    var all := calls + [(session, url)] + others;
    ReplayLookup(all, session);
    LastSetSkips(calls + [(session, url)], others, session);
  }

  lemma {:induction false} LastSetSkips(front: seq<(String, String)>, others: seq<(String, String)>, session: String)
    requires forall i :: 0 <= i < |others| ==> others[i].0 != session
    ensures LastSet(front + others, session) == LastSet(front, session)
    decreases |others|
  {
    if others != [] {
      var all := front + others;
      assert all[..|all| - 1] == front + others[..|others| - 1];
      LastSetSkips(front, others[..|others| - 1], session);
    } else {
      assert front + others == front;
    }
  }

  /** The module-level map behind `setDownloadUrl` and `getDownloadUrlBySession`. */
  class Store {
    var store: map<String, String>

    constructor()
      ensures store == map[]
    {
      store := map[];
    }

    /** Record (or replace) the URL of a session; no other session changes. */
    method SetDownloadUrl(sessionId: String, url: String)
      modifies this
      ensures store == old(store)[sessionId := url]
      ensures forall s :: s != sessionId ==> Lookup(store, s) == Lookup(old(store), s)
    {
      store := store[sessionId := url];
    }

    /** The URL recorded for a session, or null. */
    method GetDownloadUrlBySession(sessionId: String) returns (r: Option<String>)
      ensures r == Lookup(store, sessionId)
    {
      if sessionId in store {
        r := Some(store[sessionId]);
      } else {
        r := None;
      }
    }
  }
}
