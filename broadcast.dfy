/**
 * The fan-out broadcaster `WSManager` (app/ws_manager.py): a set of connected clients,
 * and a broadcast that tries every client once and drops the ones whose send failed.
 *
 * Sockets are values of the type parameter `C`. Whether the handshake and a send succeed
 * is decided outside the model: the handshake outcome is a parameter of `Connect`, and
 * `sendFails` says which clients' sends raise.
 */
module Broadcast {

  predicate NoDuplicates<C(==)>(s: seq<C>)
  {
    forall i, j :: 0 <= i < j < |s| ==> s[i] != s[j]
  }

  class WSManager<C(==)> {
    var clients: set<C>

    constructor ()
      ensures clients == {}
    {
      clients := {};
    }

    /**
     * `connect` (lines 9-11): after the handshake the socket joins the clients; if the
     * handshake raises, nothing changes and the caller sees the failure.
     */
    method Connect(ws: C, accepted: bool) returns (ok: bool)
      modifies this
      ensures ok == accepted
      ensures clients == if accepted then old(clients) + {ws} else old(clients)
    {
      if !accepted {
        return false;
      }
      clients := clients + {ws};
      return true;
    }

    /** `disconnect` (lines 13-14): removes the socket if present; others stay. */
    method Disconnect(ws: C)
      modifies this
      ensures clients == old(clients) - {ws}
    {
      clients := clients - {ws};
    }

    /**
     * `broadcast` (lines 17-26). Every client connected at the start is sent to exactly
     * once, in some order (`attempted`); a failed send neither stops the sweep nor
     * escapes. The clients are not touched during the sweep; afterwards exactly those
     * whose send failed are removed.
     */
    method Broadcast(sendFails: C -> bool) returns (attempted: seq<C>)
      modifies this
      ensures NoDuplicates(attempted) && forall c :: c in attempted <==> c in old(clients)
      ensures clients == old(clients) - set c | c in old(clients) && sendFails(c)
    {
      var dead: seq<C> := [];
      attempted := [];
      var pending := clients;
      while pending != {}
        invariant clients == old(clients)
        invariant pending <= clients
        invariant NoDuplicates(attempted)
        invariant forall c :: c in attempted <==> c in clients && c !in pending
        invariant forall c :: c in dead <==> c in attempted && sendFails(c)
        decreases pending
      {
        var ws :| ws in pending;
        attempted := attempted + [ws];
        if sendFails(ws) {
          dead := dead + [ws];
        }
        pending := pending - {ws};
      }
      var i := 0;
      while i < |dead|
        invariant 0 <= i <= |dead|
        invariant clients == old(clients) - set c | c in dead[..i]
      {
        Disconnect(dead[i]);
        i := i + 1;
      }
      assert dead[..|dead|] == dead;
    }
  }
}
