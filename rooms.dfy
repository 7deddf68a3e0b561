// The backend's per-run rooms: for each run id, the live sockets subscribed
// to it, in connection order. Sockets are compared by identity, here a
// number per socket object. Whether a send raises is an oracle `fails`;
// the JSON serialisation of the message is the `payload` string.
module Rooms {
  import Seqs

  type SocketId = nat

  /** The comprehension `[c for c in room if c is not ws]`. */
  function IsNot(ws: SocketId): SocketId -> bool
  {
    (c: SocketId) => c != ws
  }

  /** The sockets of a room not yet in `gone`. */
  function NotIn(gone: seq<SocketId>): SocketId -> bool
  {
    (c: SocketId) => c !in gone
  }

  function Alive(fails: SocketId -> bool): SocketId -> bool
  {
    (c: SocketId) => !fails(c)
  }

  /** One delivery record per recipient, all with the same payload. */
  function Deliveries(to: seq<SocketId>, payload: string): (r: seq<(SocketId, string)>)
    ensures |r| == |to|
    ensures forall k :: 0 <= k < |to| ==> r[k] == (to[k], payload)
  {
    seq(|to|, k requires 0 <= k < |to| => (to[k], payload))
  }

  /** The rooms after `runId`'s room has become `room`: a room left empty
      is deleted. */
  function WithRoom(rooms: map<string, seq<SocketId>>, runId: string, room: seq<SocketId>): (r: map<string, seq<SocketId>>)
    ensures room == [] ==> r == rooms - {runId}
    ensures room != [] ==> r == rooms[runId := room]
  {
    if room == [] then rooms - {runId} else rooms[runId := room]
  }

  class ConnectionManager {
    var rooms: map<string, seq<SocketId>>
    /** Every successful send so far, in order. */
    var sent: seq<(SocketId, string)>

    /** No room is ever empty. */
    ghost predicate Valid()
      reads this
    {
      forall runId :: runId in rooms ==> rooms[runId] != []
    }

    constructor ()
      ensures Valid() && rooms == map[] && sent == []
    {
      rooms := map[];
      sent := [];
    }

    /** `rooms.setdefault(run_id, []).append(ws)`. */
    method Connect(runId: string, ws: SocketId)
      requires Valid()
      modifies this`rooms
      ensures Valid()
      ensures runId in old(rooms) ==> rooms == old(rooms)[runId := old(rooms)[runId] + [ws]]
      ensures runId !in old(rooms) ==> rooms == old(rooms)[runId := [ws]]
    {
      if runId in rooms {
        rooms := rooms[runId := rooms[runId] + [ws]];
      } else {
        rooms := rooms[runId := [ws]];
      }
    }

    /** Drops every occurrence of `ws` from the run's room, deleting it when
        nothing is left; an unknown run id changes nothing. */
    method Disconnect(runId: string, ws: SocketId)
      requires Valid()
      modifies this`rooms
      ensures Valid()
      ensures runId !in old(rooms) ==> rooms == old(rooms)
      ensures runId in old(rooms) ==>
                rooms == WithRoom(old(rooms), runId, Seqs.Filter(old(rooms)[runId], IsNot(ws)))
    {
      if runId in rooms {
        var rest := Seqs.Filter(rooms[runId], IsNot(ws));
        rooms := rooms[runId := rest];
        if rest == [] {
          rooms := rooms - {runId};
        }
      }
    }

    /** Sends `payload` to every socket of the run in room order, collecting
        the ones whose send raised, then disconnects those. */
    method Broadcast(runId: string, payload: string, fails: SocketId -> bool)
      requires Valid()
      modifies this
      ensures Valid()
      ensures runId !in old(rooms) ==> rooms == old(rooms) && sent == old(sent)
      ensures runId in old(rooms) ==>
                sent == old(sent) + Deliveries(Seqs.Filter(old(rooms)[runId], Alive(fails)), payload) &&
                rooms == WithRoom(old(rooms), runId, Seqs.Filter(old(rooms)[runId], Alive(fails)))
    {
      if runId !in rooms {
        return;
      }
      var room := rooms[runId];
      var stale := SendAll(room, payload, fails);
      DropAll(runId, room, stale);
      StaleRemoval(room, fails);
    }

    /** The send loop: each socket in turn; a raising send marks it stale. */
    method SendAll(room: seq<SocketId>, payload: string, fails: SocketId -> bool)
      returns (stale: seq<SocketId>)
      modifies this`sent
      ensures stale == Seqs.Filter(room, fails)
      ensures sent == old(sent) + Deliveries(Seqs.Filter(room, Alive(fails)), payload)
    {
      stale := [];
      for i := 0 to |room|
        invariant stale == Seqs.Filter(room[..i], fails)
        invariant sent == old(sent) + Deliveries(Seqs.Filter(room[..i], Alive(fails)), payload)
      {
        SendStep(room, i, payload, fails);
        if fails(room[i]) {
          stale := stale + [room[i]];
        } else {
          sent := sent + [(room[i], payload)];
        }
      }
      assert room[..|room|] == room;
    }

    /** The cleanup loop: disconnect each stale socket from the room. */
    method DropAll(runId: string, room: seq<SocketId>, stale: seq<SocketId>)
      requires Valid() && runId in rooms && rooms[runId] == room
      modifies this`rooms
      ensures Valid()
      ensures rooms == WithRoom(old(rooms), runId, Seqs.Filter(room, NotIn(stale)))
    {
      assert Seqs.Filter(room, NotIn([])) == room by {
        Seqs.FilterAll(room, NotIn([]));
      }
      for k := 0 to |stale|
        invariant Valid()
        invariant rooms == WithRoom(old(rooms), runId, Seqs.Filter(room, NotIn(stale[..k])))
      {
        ghost var before := rooms;
        Disconnect(runId, stale[k]);
        DropStep(old(rooms), runId, room, stale[..k], stale[k], before, rooms);
        assert stale[..k + 1] == stale[..k] + [stale[k]];
      }
      assert stale[..|stale|] == stale;
    }
  }

  // ---- Properties -----------------------------------------------------------

  /** One more socket tried: it joins the stale list or the deliveries. */
  lemma SendStep(room: seq<SocketId>, i: nat, payload: string, fails: SocketId -> bool)
    requires i < |room|
    ensures Seqs.Filter(room[..i + 1], fails) ==
            Seqs.Filter(room[..i], fails) + (if fails(room[i]) then [room[i]] else [])
    ensures Deliveries(Seqs.Filter(room[..i + 1], Alive(fails)), payload) ==
            Deliveries(Seqs.Filter(room[..i], Alive(fails)), payload) + (if fails(room[i]) then [] else [(room[i], payload)])
  {
    assert room[..i + 1] == room[..i] + [room[i]];
    Seqs.FilterAppend(room[..i], [room[i]], fails);
    Seqs.FilterAppend(room[..i], [room[i]], Alive(fails));
    assert Seqs.Filter([room[i]], fails) == if fails(room[i]) then [room[i]] else [];
    assert Seqs.Filter([room[i]], Alive(fails)) == if fails(room[i]) then [] else [room[i]];
  }

  /** One more stale socket disconnected: the room is the original one
      without every socket dropped so far. */
  lemma DropStep(rooms0: map<string, seq<SocketId>>, runId: string, room: seq<SocketId>, gone: seq<SocketId>,
                 ws: SocketId, before: map<string, seq<SocketId>>, after: map<string, seq<SocketId>>)
    requires before == WithRoom(rooms0, runId, Seqs.Filter(room, NotIn(gone)))
    requires runId !in before ==> after == before
    requires runId in before ==> after == WithRoom(before, runId, Seqs.Filter(before[runId], IsNot(ws)))
    ensures after == WithRoom(rooms0, runId, Seqs.Filter(room, NotIn(gone + [ws])))
  {
    PruneStep(room, gone, ws);
  }

  /** Removing one more socket from what is left. */
  lemma {:induction false} PruneStep(room: seq<SocketId>, gone: seq<SocketId>, ws: SocketId)
    ensures Seqs.Filter(Seqs.Filter(room, NotIn(gone)), IsNot(ws)) == Seqs.Filter(room, NotIn(gone + [ws]))
  {
    if room != [] {
      PruneStep(room[1..], gone, ws);
      var head: seq<SocketId> := if NotIn(gone)(room[0]) then [room[0]] else [];
      Seqs.FilterAppend(head, Seqs.Filter(room[1..], NotIn(gone)), IsNot(ws));
      if head != [] {
        Seqs.FilterCons(room[0], [], IsNot(ws));
      }
    }
  }

  /** Disconnecting every failing socket leaves exactly the live ones. */
  lemma StaleRemoval(room: seq<SocketId>, fails: SocketId -> bool)
    ensures Seqs.Filter(room, NotIn(Seqs.Filter(room, fails))) == Seqs.Filter(room, Alive(fails))
  {
    var stale := Seqs.Filter(room, fails);
    forall i | 0 <= i < |room| ensures NotIn(stale)(room[i]) == Alive(fails)(room[i]) {
      if fails(room[i]) {
        Seqs.FilterComplete(room, fails, i);
      }
    }
    FilterAgree(room, NotIn(stale), Alive(fails));
  }

  /** Filtering by two predicates that agree on every element. */
  lemma {:induction false} FilterAgree<T>(s: seq<T>, p: T -> bool, q: T -> bool)
    requires forall i :: 0 <= i < |s| ==> p(s[i]) == q(s[i])
    ensures Seqs.Filter(s, p) == Seqs.Filter(s, q)
  {
    if s != [] {
      assert forall i :: 0 <= i < |s[1..]| ==> s[1..][i] == s[i + 1];
      FilterAgree(s[1..], p, q);
    }
  }

  /** After `disconnect`, the socket is gone from the room, every other
      socket of the room is still there, in the same order. */
  lemma DisconnectRemovesOnlyThatSocket(room: seq<SocketId>, ws: SocketId, i: nat)
    requires i < |room| && room[i] != ws
    ensures ws !in Seqs.Filter(room, IsNot(ws))
    ensures room[i] in Seqs.Filter(room, IsNot(ws))
    ensures Seqs.IsSubsequence(Seqs.Filter(room, IsNot(ws)), room)
  {
    Seqs.FilterComplete(room, IsNot(ws), i);
    Seqs.FilterIsSubsequence(room, IsNot(ws));
  }

  /** Connecting then disconnecting a socket new to a room restores the room. */
  lemma {:induction false} ConnectThenDisconnect(room: seq<SocketId>, ws: SocketId)
    requires ws !in room
    ensures Seqs.Filter(room + [ws], IsNot(ws)) == room
  {
    Seqs.FilterAppend(room, [ws], IsNot(ws));
    Seqs.FilterAll(room, IsNot(ws));
    Seqs.FilterCons(ws, [], IsNot(ws));
  }

  /** Disconnecting from one room leaves every other room as it was. */
  method DisconnectIsLocal(m: ConnectionManager, runId: string, ws: SocketId, other: string)
    requires m.Valid() && other != runId
    modifies m
    ensures other in m.rooms <==> other in old(m.rooms)
    ensures other in m.rooms ==> m.rooms[other] == old(m.rooms[other])
  {
    m.Disconnect(runId, ws);
  }
}
