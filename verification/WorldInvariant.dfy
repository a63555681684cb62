/** What every event keeps true of the whole server, and so what every run does. */
module WorldInvariant {
  import opened Options
  import opened Ids
  import opened Components
  import opened Protocol
  import opened SessionInvariant
  import opened World

  /** A stored session is under its own global id, and not empty. */
  ghost predicate StoredOK(env: Env, w: World, key: string, empty: set<nat>) {
    key in w.store ==>
      && w.store[key] in w.heap
      && key == GlobalID(env, w.heap[w.store[key]])
      && (w.heap[w.store[key]].participants == map[] ==> w.store[key] in empty)
  }

  /** A handler that sits somewhere sits in a stored session, as the participant of its own connection there,
      and its canceller and its modules point at the same session. */
  ghost predicate ConnOK(env: Env, w: World, c: nat) {
    c in w.conns && w.conns[c].current.Some? ==>
      && Seated(w, c)
      && GlobalID(env, SessionOf(w, c)) in w.store && w.store[GlobalID(env, SessionOf(w, c))] == SeatOf(w, c).session
      && SessionOf(w, c).participants[SeatOf(w, c).participant].conn == c
      && w.conns[c].stop.Some? && w.conns[c].stop.value.0 == SeatOf(w, c).session
      && w.conns[c].stop.value.1 in SessionOf(w, c).frameHandlers
      && SessionOf(w, c).frameHandlers[w.conns[c].stop.value.1] == c
      && w.conns[c].modules == w.conns[c].current
  }

  /** Every participant of a session is where its connection sits. */
  ghost predicate MembersOK(w: World, ref: nat) {
    ref in w.heap ==>
      forall p :: p in w.heap[ref].participants ==>
        var c := w.heap[ref].participants[p].conn; c in w.conns && w.conns[c].current == Some(Seat(ref, p))
  }

  ghost predicate SessionsOK(w: World) {
    forall ref :: ref in w.heap ==> Valid(w.heap[ref])
  }

  /** The ids of the stored sessions. */
  ghost function LiveIDs(w: World): set<nat> {
    set key | key in w.store && w.store[key] in w.heap :: w.heap[w.store[key]].id
  }

  /** The invariant of the server; the sessions in `empty` are about to be entered. */
  ghost predicate InvBut(env: Env, w: World, empty: set<nat>) {
    && SessionsOK(w)
    && (forall key :: StoredOK(env, w, key, empty))
    && (forall ref :: MembersOK(w, ref))
    && (forall c :: ConnOK(env, w, c))
    && w.ids.Partitions(LiveIDs(w))
  }

  ghost predicate Inv(env: Env, w: World) {
    InvBut(env, w, {})
  }

  lemma StartInv(env: Env)
    ensures Inv(env, START)
  {
    assert LiveIDs(START) == {};
  }

  /** Two stored sessions never share an id, nor does one session have two global ids. */
  lemma StoredUnique(env: Env, w: World, empty: set<nat>, a: string, b: string)
    requires InvBut(env, w, empty) && a in w.store && b in w.store && w.store[a] in w.heap && w.store[b] in w.heap
    requires w.heap[w.store[a]].id == w.heap[w.store[b]].id || w.store[a] == w.store[b]
    ensures a == b
  {
    hide SessionsOK, MembersOK, ConnOK, LiveIDs;
    assert StoredOK(env, w, a, empty) && StoredOK(env, w, b, empty);
  }

  /** Where a connection sits, there is a stored and valid session. */
  lemma SeatStored(env: Env, w: World, c: nat)
    requires Inv(env, w) && Seated(w, c)
    ensures var key, s := GlobalID(env, SessionOf(w, c)), SessionOf(w, c);
      && key in w.store && w.store[key] == SeatOf(w, c).session && Valid(s)
      && s.participants[SeatOf(w, c).participant].conn == c
      && FrameOf(w, c) in s.frameHandlers && s.frameHandlers[FrameOf(w, c)] == c
  {
    hide Valid;
    assert ConnOK(env, w, c);
  }

  lemma SameLiveIDs(w: World, w': World)
    requires w'.store == w.store
    requires forall key :: key in w.store ==>
      w.store[key] in w.heap && w.store[key] in w'.heap && w'.heap[w.store[key]].id == w.heap[w.store[key]].id
    ensures LiveIDs(w') == LiveIDs(w)
  {
    forall id ensures id in LiveIDs(w) <==> id in LiveIDs(w') {
      if id in LiveIDs(w) {
        var key :| key in w.store && w.store[key] in w.heap && w.heap[w.store[key]].id == id;
        assert w'.heap[w'.store[key]].id == id;
      }
      if id in LiveIDs(w') {
        var key :| key in w'.store && w'.store[key] in w'.heap && w'.heap[w'.store[key]].id == id;
        assert w.heap[w.store[key]].id == id;
      }
    }
  }

  /** Replacing a session by one with the same members changes nothing for the connections. */
  lemma UpdateKeepsInv(env: Env, w: World, ref: nat, s': Session)
    requires Inv(env, w) && ref in w.heap && SameMembers(w.heap[ref], s') && Valid(s')
    ensures Inv(env, w.(heap := w.heap[ref := s']))
  {
    hide Valid;
    var w' := w.(heap := w.heap[ref := s']);
    forall key ensures StoredOK(env, w', key, {}) {
      assert StoredOK(env, w, key, {});
      assert w.heap[ref].participants != map[] ==> s'.participants != map[] by {
        if s'.participants == map[] {
          assert w.heap[ref].participants.Keys == {};
        }
      }
    }
    forall r ensures MembersOK(w', r) {
      assert MembersOK(w, r);
    }
    forall c ensures ConnOK(env, w', c) {
      assert ConnOK(env, w, c);
    }
    assert LiveIDs(w') == LiveIDs(w) by {
      forall key | key in w.store ensures w.store[key] in w.heap && w'.heap[w.store[key]].id == w.heap[w.store[key]].id {
        assert StoredOK(env, w, key, {});
      }
      SameLiveIDs(w, w');
    }
  }

  lemma MessageKeepsInv(env: Env, w: World, c: nat, request: Request)
    requires Inv(env, w)
    ensures Inv(env, Step(env, w, Message(c, request)).world)
  {
    hide Handle, Valid, InvBut;
    if Seated(w, c) {
      var seat, s := SeatOf(w, c), SessionOf(w, c);
      SeatStored(env, w, c);
      HandleKeepsValid(env.flags, s, seat.participant, request);
      UpdateKeepsInv(env, w, seat.session, Handle(env.flags, s, seat.participant, request).session);
    }
  }

  /** The world after a departure, as far as the invariant is concerned. */
  ghost predicate LeftAs(env: Env, w: World, c: nat, w': World) {
    && Seated(w, c)
    && var ref, s := SeatOf(w, c).session, SessionOf(w, c);
    && ref in w'.heap && w'.heap == w.heap[ref := w'.heap[ref]]
    && Valid(w'.heap[ref]) && w'.heap[ref].id == s.id
    && w'.heap[ref].participants == s.participants - {SeatOf(w, c).participant}
    && w'.heap[ref].frameHandlers == s.frameHandlers - {FrameOf(w, c)}
    && w'.conns == w.conns[c := w.conns[c].(current := None)]
    && (if w'.heap[ref].participants == map[] then w'.store == w.store - {GlobalID(env, s)} && w'.ids == w.ids.Return(s.id)
        else w'.store == w.store && w'.ids == w.ids)
  }

  lemma LeaveIsLeft(env: Env, w: World, c: nat, order: seq<nat>)
    requires Inv(env, w) && Seated(w, c) && Enumerates(order, OwnedIDs(w, c))
    ensures LeftAs(env, w, c, LeaveSession(env, w, c, order).world)
  {
    hide Leave, Valid, InvBut;
    SeatStored(env, w, c);
    LeaveKeepsValid(env.flags, SessionOf(w, c), SeatOf(w, c).participant, order, FrameOf(w, c));
  }

  lemma LeaveKeepsConn(env: Env, w: World, c: nat, w': World, d: nat)
    requires Inv(env, w) && LeftAs(env, w, c, w')
    ensures ConnOK(env, w', d)
  {
    hide Valid, LiveIDs, StoredOK, GlobalSessionID;
    assert ConnOK(env, w, c) && ConnOK(env, w, d);
    if d != c && d in w.conns && w.conns[d].current.Some? {
      var ref := SeatOf(w, d).session;
      if ref == SeatOf(w, c).session {
        assert SeatOf(w, d).participant in w'.heap[ref].participants;
        assert w.conns[d].stop.value.1 in w'.heap[ref].frameHandlers;
        assert w'.store == w.store;
      } else {
        assert w'.heap[ref] == w.heap[ref];
        assert GlobalID(env, SessionOf(w, d)) in w'.store;
      }
    }
  }

  lemma LeaveKeepsMembers(env: Env, w: World, c: nat, w': World, ref: nat)
    requires Inv(env, w) && LeftAs(env, w, c, w')
    ensures MembersOK(w', ref)
  {
    hide Valid, LiveIDs, StoredOK, GlobalSessionID, ConnOK;
    assert MembersOK(w, ref);
  }

  lemma LeaveKeepsStored(env: Env, w: World, c: nat, w': World, key: string)
    requires Inv(env, w) && LeftAs(env, w, c, w')
    ensures StoredOK(env, w', key, {})
  {
    hide Valid, LiveIDs, GlobalSessionID, ConnOK, MembersOK;
    assert StoredOK(env, w, key, {});
    SeatStored(env, w, c);
    if key in w'.store && w'.store[key] == SeatOf(w, c).session {
      StoredUnique(env, w, {}, key, GlobalID(env, SessionOf(w, c)));
    }
  }

  lemma LeaveKeepsIDs(env: Env, w: World, c: nat, w': World)
    requires Inv(env, w) && LeftAs(env, w, c, w')
    ensures w'.ids.Partitions(LiveIDs(w'))
  {
    hide Valid, LiveIDs, GlobalSessionID, ConnOK, MembersOK, IdPool.Partitions;
    var s := SessionOf(w, c);
    SeatStored(env, w, c);
    forall key | key in w.store
      ensures w.store[key] in w.heap && w'.heap[w.store[key]].id == w.heap[w.store[key]].id && key == GlobalID(env, w.heap[w.store[key]])
    {
      assert StoredOK(env, w, key, {});
    }
    var w1 := w.(heap := w'.heap);
    SameLiveIDs(w, w1);
    if w'.heap[SeatOf(w, c).session].participants == map[] {
      LiveMember(w, GlobalID(env, s));
      ReturnKeepsPartition(w.ids, LiveIDs(w), s.id);
      LiveWithout(env, w1, GlobalID(env, s), w');
    } else {
      SameLiveIDs(w, w');
    }
  }

  lemma LiveMember(w: World, key: string)
    requires key in w.store && w.store[key] in w.heap
    ensures w.heap[w.store[key]].id in LiveIDs(w)
  {
  }

  /** Taking one session out of the store takes its id out of the live ones. */
  lemma LiveWithout(env: Env, w: World, gone: string, w': World)
    requires gone in w.store && w'.store == w.store - {gone} && w'.heap == w.heap
    requires forall key :: key in w.store ==> w.store[key] in w.heap && key == GlobalID(env, w.heap[w.store[key]])
    ensures LiveIDs(w') == LiveIDs(w) - {w.heap[w.store[gone]].id}
  {
    forall id ensures id in LiveIDs(w') <==> id in LiveIDs(w) && id != w.heap[w.store[gone]].id {
      if id in LiveIDs(w) && id != w.heap[w.store[gone]].id {
        var key :| key in w.store && w.heap[w.store[key]].id == id;
        assert key in w'.store;
      }
      if id in LiveIDs(w') {
        var key :| key in w'.store && w'.heap[w'.store[key]].id == id;
        assert key != gone;
      }
    }
  }

  /** A departure keeps the invariant, and leaves the connection without a seat. */
  lemma LeaveKeepsInv(env: Env, w: World, c: nat, order: seq<nat>)
    requires Inv(env, w) && (Seated(w, c) ==> Enumerates(order, OwnedIDs(w, c)))
    ensures var w' := Standing(env, w, c, order).world;
      Inv(env, w') && w'.conns.Keys == w.conns.Keys && (c in w'.conns ==> w'.conns[c].current == None)
  {
    hide Leave, Valid, LiveIDs, MembersOK, StoredOK;
    var w' := Standing(env, w, c, order).world;
    if Seated(w, c) {
      LeaveIsLeft(env, w, c, order);
      LeftKeepsInv(env, w, c, w');
    } else {
      assert ConnOK(env, w, c);
    }
  }

  lemma LeftKeepsInv(env: Env, w: World, c: nat, w': World)
    requires Inv(env, w) && LeftAs(env, w, c, w')
    ensures Inv(env, w')
  {
    hide StoredOK, MembersOK, ConnOK, Valid, LiveIDs, IdPool.Partitions, GlobalSessionID;
    forall d ensures ConnOK(env, w', d) { LeaveKeepsConn(env, w, c, w', d); }
    forall ref ensures MembersOK(w', ref) { LeaveKeepsMembers(env, w, c, w', ref); }
    forall key ensures StoredOK(env, w', key, {}) { LeaveKeepsStored(env, w, c, w', key); }
    LeaveKeepsIDs(env, w, c, w');
  }

  /** The world after an entrance, as far as the invariant is concerned. */
  ghost predicate EnteredAs(w: World, c: nat, ref: nat, frame: nat, w': World) {
    && ref in w.heap && ref in w'.heap && w'.heap == w.heap[ref := w'.heap[ref]]
    && var s, s', pid := w.heap[ref], w'.heap[ref], w.heap[ref].participantIDs.current + 1;
    && Valid(s') && s'.id == s.id && pid !in s.participants && frame !in s.frameHandlers
    && s'.participants == s.participants[pid := Participant(c, {})]
    && s'.frameHandlers == s.frameHandlers[frame := c]
    && w'.store == w.store && w'.ids == w.ids
    && w'.conns == w.conns[c := Conn(Some(Seat(ref, pid)), Some((ref, frame)), Some(Seat(ref, pid)))]
  }

  lemma EnterIsEntered(env: Env, w: World, c: nat, ref: nat, frame: nat)
    requires InvBut(env, w, {ref}) && ref in w.heap && c in w.conns && w.conns[c].current == None
    requires w.heap[ref].frameIDs.CanPick(frame)
    ensures EnteredAs(w, c, ref, frame, EnterSession(env, w, c, ref, frame).world)
  {
    hide Join, Valid, StoredOK, ConnOK, LiveIDs, IdPool.Partitions;
    var s := w.heap[ref];
    assert MembersOK(w, ref);
    JoinKeepsValid(env.flags, s, c, GlobalID(env, s), frame);
  }

  lemma EnterKeepsConn(env: Env, w: World, c: nat, ref: nat, frame: nat, w': World, d: nat)
    requires InvBut(env, w, {ref}) && EnteredAs(w, c, ref, frame, w')
    requires GlobalID(env, w.heap[ref]) in w.store && w.store[GlobalID(env, w.heap[ref])] == ref
    ensures ConnOK(env, w', d)
  {
    hide Valid, LiveIDs, StoredOK, GlobalSessionID;
    assert ConnOK(env, w, d);
  }

  lemma EnterKeepsMembers(env: Env, w: World, c: nat, ref: nat, frame: nat, w': World, r: nat)
    requires InvBut(env, w, {ref}) && EnteredAs(w, c, ref, frame, w') && c in w.conns && w.conns[c].current == None
    ensures MembersOK(w', r)
  {
    hide Valid, LiveIDs, StoredOK, GlobalSessionID, ConnOK;
    assert MembersOK(w, r);
  }

  lemma EnterKeepsStored(env: Env, w: World, c: nat, ref: nat, frame: nat, w': World, key: string)
    requires InvBut(env, w, {ref}) && EnteredAs(w, c, ref, frame, w')
    ensures StoredOK(env, w', key, {})
  {
    hide Valid, LiveIDs, GlobalSessionID, ConnOK, MembersOK;
    assert StoredOK(env, w, key, {ref});
  }

  lemma EnterKeepsIDs(env: Env, w: World, c: nat, ref: nat, frame: nat, w': World)
    requires InvBut(env, w, {ref}) && EnteredAs(w, c, ref, frame, w')
    ensures w'.ids.Partitions(LiveIDs(w'))
  {
    hide Valid, LiveIDs, GlobalSessionID, ConnOK, MembersOK, IdPool.Partitions;
    forall key | key in w.store ensures w.store[key] in w.heap && w'.heap[w.store[key]].id == w.heap[w.store[key]].id {
      assert StoredOK(env, w, key, {ref});
    }
    SameLiveIDs(w, w');
  }

  /** An entrance into a stored session keeps the invariant, even into one that is still empty. */
  lemma EnterKeepsInv(env: Env, w: World, c: nat, ref: nat, frame: nat)
    requires InvBut(env, w, {ref}) && ref in w.heap && c in w.conns && w.conns[c].current == None
    requires w.heap[ref].frameIDs.CanPick(frame)
    requires GlobalID(env, w.heap[ref]) in w.store && w.store[GlobalID(env, w.heap[ref])] == ref
    ensures Inv(env, EnterSession(env, w, c, ref, frame).world)
  {
    hide StoredOK, MembersOK, ConnOK, Valid, LiveIDs, IdPool.Partitions, GlobalSessionID, Join;
    var w' := EnterSession(env, w, c, ref, frame).world;
    EnterIsEntered(env, w, c, ref, frame);
    forall d ensures ConnOK(env, w', d) { EnterKeepsConn(env, w, c, ref, frame, w', d); }
    forall r ensures MembersOK(w', r) { EnterKeepsMembers(env, w, c, ref, frame, w', r); }
    forall key ensures StoredOK(env, w', key, {}) { EnterKeepsStored(env, w, c, ref, frame, w', key); }
    EnterKeepsIDs(env, w, c, ref, frame, w');
  }

  /** A new id is not that of a live session, so nothing in the store is overwritten. */
  lemma NewIDIsFree(env: Env, w: World, id: nat)
    requires Inv(env, w) && w.ids.CanPick(id)
    ensures id !in LiveIDs(w) && GlobalSessionID(env.serverID, id) !in w.store
    ensures w.ids.Take(id).Partitions(LiveIDs(w) + {id})
  {
    hide Valid, ConnOK, MembersOK, IdPool.Partitions, LiveIDs, IdPool.CanPick;
    TakeKeepsPartition(w.ids, LiveIDs(w), id);
    var key := GlobalSessionID(env.serverID, id);
    assert StoredOK(env, w, key, {});
    if key in w.store {
      GlobalIDInjective(env.serverID, id, w.heap[w.store[key]].id);
      LiveMember(w, key);
      assert false;
    }
  }

  lemma AllocateKeepsOthers(env: Env, w: World, id: nat, ref: nat)
    requires Inv(env, w) && ref !in w.heap && GlobalSessionID(env.serverID, id) !in w.store
    ensures var w' := AllocateSession(env, w, id, ref);
      && SessionsOK(w')
      && (forall key :: StoredOK(env, w', key, {ref})) && (forall r :: MembersOK(w', r)) && (forall c :: ConnOK(env, w', c))
  {
    hide Valid, LiveIDs, IdPool.Partitions, GlobalSessionID;
    var w' := AllocateSession(env, w, id, ref);
    NewSessionValid(id);
    forall key ensures StoredOK(env, w', key, {ref}) { assert StoredOK(env, w, key, {}); }
    forall r ensures MembersOK(w', r) { assert MembersOK(w, r); }
    forall c ensures ConnOK(env, w', c) { assert ConnOK(env, w, c); }
  }

  lemma AllocateLive(env: Env, w: World, id: nat, ref: nat)
    requires Inv(env, w) && ref !in w.heap && GlobalSessionID(env.serverID, id) !in w.store
    ensures LiveIDs(AllocateSession(env, w, id, ref)) == LiveIDs(w) + {id}
  {
    hide Valid, IdPool.Partitions, GlobalSessionID, ConnOK, MembersOK;
    var w', added := AllocateSession(env, w, id, ref), GlobalSessionID(env.serverID, id);
    assert w'.store[added] == ref && w'.heap[ref].id == id;
    forall i ensures i in LiveIDs(w') <==> i in LiveIDs(w) || i == id {
      if i in LiveIDs(w) {
        var key :| key in w.store && w.store[key] in w.heap && w.heap[w.store[key]].id == i;
        assert key in w'.store && w'.heap[w'.store[key]].id == i;
      }
      if i in LiveIDs(w') && i != id {
        var key :| key in w'.store && w'.store[key] in w'.heap && w'.heap[w'.store[key]].id == i;
        assert StoredOK(env, w, key, {});
        assert key in w.store && w.heap[w.store[key]].id == i;
      }
    }
  }

  lemma AllocateKeepsInv(env: Env, w: World, id: nat, ref: nat)
    requires Inv(env, w) && w.ids.CanPick(id) && ref !in w.heap
    ensures var w' := AllocateSession(env, w, id, ref);
      InvBut(env, w', {ref}) && GlobalID(env, w'.heap[ref]) in w'.store && w'.store[GlobalID(env, w'.heap[ref])] == ref
  {
    hide StoredOK, MembersOK, ConnOK, SessionsOK, LiveIDs, IdPool.Partitions, IdPool.CanPick, GlobalSessionID;
    NewIDIsFree(env, w, id);
    AllocateKeepsOthers(env, w, id, ref);
    AllocateLive(env, w, id, ref);
  }

  lemma JoinKeepsInv(env: Env, w: World, c: nat, globalID: string, picks: Picks)
    requires Inv(env, w) && Enabled(env, w, JoinSession(c, globalID, picks))
    ensures Inv(env, Step(env, w, JoinSession(c, globalID, picks)).world)
  {
    hide InvBut, Standing, EnterSession, AllocateSession, Enumerates, IdPool.CanPick, GlobalSessionID;
    if c in w.conns && !AlreadyThere(env, w, c, globalID) {
      LeaveKeepsInv(env, w, c, picks.order);
      var w1 := Standing(env, w, c, picks.order).world;
      if globalID in w1.store && w1.store[globalID] in w1.heap && c in w1.conns {
        StoredSession(env, w1, globalID);
        EnterKeepsInv(env, w1, c, w1.store[globalID], picks.frame);
      } else if globalID == "" && c in w1.conns {
        NoEmptyID(env, w1);
        AllocateKeepsInv(env, w1, picks.sessionID, picks.allocation);
        AllocatedKeepsConns(env, w1, picks.sessionID, picks.allocation);
        EnterKeepsInv(env, AllocateSession(env, w1, picks.sessionID, picks.allocation), c, picks.allocation, picks.frame);
      }
    }
  }

  lemma StoredSession(env: Env, w: World, key: string)
    requires Inv(env, w) && key in w.store
    ensures w.store[key] in w.heap && key == GlobalID(env, w.heap[w.store[key]]) && InvBut(env, w, {w.store[key]})
  {
    hide MembersOK, ConnOK, SessionsOK, LiveIDs, IdPool.Partitions, GlobalSessionID;
    forall k ensures StoredOK(env, w, k, {w.store[key]}) {
      assert StoredOK(env, w, k, {});
    }
    assert StoredOK(env, w, key, {});
  }

  lemma NoEmptyID(env: Env, w: World)
    requires Inv(env, w)
    ensures "" !in w.store
  {
    hide MembersOK, ConnOK, SessionsOK, LiveIDs, IdPool.Partitions, GlobalSessionID;
    assert StoredOK(env, w, "", {});
    if "" in w.store {
      GlobalIDNotEmpty(env.serverID, w.heap[w.store[""]].id);
      assert false;
    }
  }

  lemma AllocatedKeepsConns(env: Env, w: World, id: nat, ref: nat)
    ensures var w' := AllocateSession(env, w, id, ref);
      w'.conns == w.conns && ref in w'.heap && w'.heap[ref] == NewSession(id) && w'.heap[ref].frameIDs == NO_IDS
  {
  }

  lemma ConnectKeepsInv(env: Env, w: World, c: nat)
    requires Inv(env, w)
    ensures Inv(env, Step(env, w, Connect(c)).world)
  {
    hide Valid, LiveIDs, IdPool.Partitions, GlobalSessionID;
    var w' := Step(env, w, Connect(c)).world;
    forall key ensures StoredOK(env, w', key, {}) { assert StoredOK(env, w, key, {}); }
    forall r ensures MembersOK(w', r) { assert MembersOK(w, r); }
    forall d ensures ConnOK(env, w', d) { assert ConnOK(env, w, d); }
    assert LiveIDs(w') == LiveIDs(w) by {
      forall key | key in w.store ensures w.store[key] in w.heap { assert StoredOK(env, w, key, {}); }
      SameLiveIDs(w, w');
    }
  }

  /** Every event keeps the invariant. */
  lemma StepKeepsInv(env: Env, w: World, e: Event)
    requires Inv(env, w) && Enabled(env, w, e)
    ensures Inv(env, Step(env, w, e).world)
  {
    hide InvBut, Standing, EnterSession, AllocateSession, Handle, Enumerates;
    match e
    case Connect(c) => ConnectKeepsInv(env, w, c);
    case JoinSession(c, globalID, picks) => JoinKeepsInv(env, w, c, globalID, picks);
    case Message(c, request) => MessageKeepsInv(env, w, c, request);
    case Disconnect(c, picks) => LeaveKeepsInv(env, w, c, picks.order);
  }

  /** Every run of the server, from its start, keeps the invariant. */
  lemma {:induction false} RunKeepsInv(env: Env, w: World, events: seq<Event>, w': World)
    requires Inv(env, w) && IsRun(env, w, events, w')
    ensures Inv(env, w')
    decreases |events|
  {
    hide InvBut, Step, Enabled;
    if events != [] {
      StepKeepsInv(env, w, events[0]);
      RunKeepsInv(env, Step(env, w, events[0]).world, events[1..], w');
    }
  }

  /** Every reachable world satisfies the invariant. */
  lemma ReachableInv(env: Env, w: World)
    requires Reachable(env, w)
    ensures Inv(env, w)
  {
    hide IsRun, InvBut;
    var events :| IsRun(env, START, events, w);
    StartInv(env);
    RunKeepsInv(env, START, events, w);
  }

  /** In every reachable world, a connection that sits somewhere is a participant, of its own, of a session that the
      store holds under its global id, and one frame handler of that session is its own. */
  lemma ConnectionsConsistent(env: Env, w: World, c: nat)
    requires Reachable(env, w) && c in w.conns && w.conns[c].current.Some?
    ensures Seated(w, c)
    ensures var s := SessionOf(w, c);
      && GlobalID(env, s) in w.store && w.store[GlobalID(env, s)] == SeatOf(w, c).session
      && s.participants[SeatOf(w, c).participant].conn == c
      && FrameOf(w, c) in s.frameHandlers && s.frameHandlers[FrameOf(w, c)] == c
  {
    hide LiveIDs, GlobalSessionID, Valid, StoredOK, Reachable, MembersOK;
    ReachableInv(env, w);
    assert ConnOK(env, w, c);
  }

  /** In every reachable world, every participant of a session belongs to exactly one connection, which sits there. */
  lemma ParticipantsConsistent(env: Env, w: World, ref: nat, p: nat)
    requires Reachable(env, w) && ref in w.heap && p in w.heap[ref].participants
    ensures forall c :: c in w.conns && w.conns[c].current == Some(Seat(ref, p)) <==> c == w.heap[ref].participants[p].conn
  {
    hide LiveIDs, GlobalSessionID, Valid, StoredOK, Reachable;
    ReachableInv(env, w);
    assert MembersOK(w, ref);
    forall c | c in w.conns && w.conns[c].current == Some(Seat(ref, p)) ensures c == w.heap[ref].participants[p].conn {
      assert ConnOK(env, w, c);
    }
  }

  /** In every reachable world, looking up a global id finds a session exactly if its id is live, and then the one
      stored session with that id, which is not empty. */
  lemma LookupFindsTheSession(env: Env, w: World, id: nat)
    requires Reachable(env, w)
    ensures id in LiveIDs(w) <==> GlobalSessionID(env.serverID, id) in w.store
    ensures id in LiveIDs(w) ==> var ref := w.store[GlobalSessionID(env.serverID, id)];
      ref in w.heap && w.heap[ref].id == id && w.heap[ref].participants != map[]
      && (forall key :: key in w.store && w.store[key] in w.heap && w.heap[w.store[key]].id == id ==> w.store[key] == ref)
  {
    hide Valid, ConnOK, MembersOK, Reachable, GlobalSessionID, IdPool.CanPick, IdPool.Partitions, SessionsOK;
    ReachableInv(env, w);
    var found := GlobalSessionID(env.serverID, id);
    assert StoredOK(env, w, found, {});
    if found in w.store {
      GlobalIDInjective(env.serverID, id, w.heap[w.store[found]].id);
    }
    forall key | key in w.store && w.store[key] in w.heap && w.heap[w.store[key]].id == id ensures key == found {
      assert StoredOK(env, w, key, {});
    }
  }

  /** In every reachable world, live and reusable session ids partition 1..current, and no live id is handed out. */
  lemma NewIDsAreNotLive(env: Env, w: World, pick: nat)
    requires Reachable(env, w)
    ensures w.ids.Partitions(LiveIDs(w))
    ensures w.ids.CanPick(pick) ==> pick !in LiveIDs(w)
  {
    hide InvBut, Reachable, IdPool.CanPick, IdPool.Partitions, LiveIDs;
    ReachableInv(env, w);
    assert w.ids.Partitions(LiveIDs(w)) by {
      InvPartitions(env, w);
    }
    if w.ids.CanPick(pick) {
      NewIDIsFree(env, w, pick);
    }
  }

  lemma InvPartitions(env: Env, w: World)
    requires Inv(env, w)
    ensures w.ids.Partitions(LiveIDs(w))
  {
    hide LiveIDs, IdPool.Partitions, StoredOK, MembersOK, ConnOK, SessionsOK;
  }

  lemma {:induction false} Enumerable(ids: set<nat>) returns (order: seq<nat>)
    ensures Enumerates(order, ids)
    decreases |ids|
  {
    if ids == {} {
      order := [];
    } else {
      var id :| id in ids;
      var rest := Enumerable(ids - {id});
      order := rest + [id];
    }
  }

  lemma {:induction false} FreshAllocation(taken: set<nat>) returns (ref: nat)
    ensures ref !in taken && forall r :: r in taken ==> r < ref
    decreases |taken|
  {
    if taken == {} {
      ref := 0;
    } else {
      var r :| r in taken;
      var above := FreshAllocation(taken - {r});
      ref := if above > r then above else r + 1;
      forall x | x in taken ensures x < ref {
        assert x == r || x in taken - {r};
      }
    }
  }

  lemma PickExists(pool: IdPool) returns (pick: nat)
    ensures pool.CanPick(pick)
  {
    if pool.reusable == {} {
      pick := pool.current + 1;
    } else {
      pick :| pick in pool.reusable;
    }
  }

  /** No request is stuck: a join is always possible for some choices, whatever session is asked for. */
  lemma JoinIsEnabled(env: Env, w: World, c: nat, globalID: string)
    ensures exists picks :: Enabled(env, w, JoinSession(c, globalID, picks))
  {
    hide Standing, IdPool.CanPick, Enumerates;
    var order := Enumerable(if Seated(w, c) then OwnedIDs(w, c) else {});
    var w1 := Standing(env, w, c, order).world;
    var id := PickExists(w1.ids);
    var ref := FreshAllocation(w1.heap.Keys);
    var frame := PickExists(if globalID in w1.store && w1.store[globalID] in w1.heap then w1.heap[w1.store[globalID]].frameIDs else NO_IDS);
    assert Enabled(env, w, JoinSession(c, globalID, Picks(order, id, ref, frame)));
  }
}
