/** What each event does to the whole server, for every connection: where it then sits, which sessions change, and who is sent what. */
module Steps {
  import opened Options
  import opened Ids
  import opened Components
  import opened Protocol
  import opened SessionInvariant
  import opened Requests
  import opened Membership
  import opened World
  import opened WorldInvariant
  import opened ClientRuns

  /** A connection is in a seat. */
  predicate SitsAt(w: World, c: nat, seat: Seat) {
    c in w.conns && w.conns[c].current == Some(seat)
  }

  lemma SeatMeans(env: Env, w: World, c: nat)
    requires Inv(env, w)
    ensures Seated(w, c) <==> exists seat :: SitsAt(w, c, seat)
    ensures Seated(w, c) ==>
      && SitsAt(w, c, SeatOf(w, c)) && SeatOf(w, c).session in w.heap && Valid(SessionOf(w, c))
      && SeatOf(w, c).participant in SessionOf(w, c).participants
      && w.conns[c].stop == Some((SeatOf(w, c).session, FrameOf(w, c)))
      && FrameOf(w, c) in SessionOf(w, c).frameHandlers && SessionOf(w, c).frameHandlers[FrameOf(w, c)] == c
      && SessionOf(w, c).participants[SeatOf(w, c).participant].conn == c
  {
    hide Valid, StoredOK, MembersOK, GlobalSessionID, LiveIDs, IdPool.Partitions;
    assert ConnOK(env, w, c);
    if Seated(w, c) {
      SeatStored(env, w, c);
      assert SitsAt(w, c, SeatOf(w, c));
    }
  }

  /** Each connection is known from its first event on, and sits nowhere at first; connecting once more changes nothing. */
  lemma ConnectStep(env: Env, w: World, c: nat)
    ensures var next := Step(env, w, Connect(c));
      && next.outs == map[] && c in next.world.conns
      && next.world == w.(conns := if c in w.conns then w.conns else w.conns[c := Conn(None, None, None)])
  {
  }

  /** A message of a seated connection changes its session, and sends, as the handled request does, and changes nothing else; one of
      a connection that sits nowhere changes nothing in any session. */
  lemma MessageStep(env: Env, w: World, c: nat, request: Request)
    requires Inv(env, w)
    ensures var next := Step(env, w, Message(c, request));
      && (forall seat :: SitsAt(w, c, seat) ==>
            && seat.session in w.heap && seat.participant in w.heap[seat.session].participants
            && var result := Handle(env.flags, w.heap[seat.session], seat.participant, request);
               next == Outcome(w.(heap := w.heap[seat.session := result.session]), map[seat.session := result.out]))
      && ((forall seat :: !SitsAt(w, c, seat)) ==> next == Outcome(w, map[]))
  {
    hide InvBut, Handle, Valid;
    SeatMeans(env, w, c);
  }

  /** What the server is once the connection has left its seat: the session is left as Leave says, and is stored no more if nobody
      is left in it, and then its id may come again. */
  ghost predicate Vacated(env: Env, w: World, c: nat, seat: Seat, order: seq<nat>, next: Outcome)
    requires SitsAt(w, c, seat) && seat.session in w.heap && seat.participant in w.heap[seat.session].participants
  {
    var s := w.heap[seat.session];
    && w.conns[c].stop.Some?
    && var left := Leave(env.flags, s, seat.participant, order, w.conns[c].stop.value.1);
       var empty := s.participants.Keys == {seat.participant};
       && next.outs == map[seat.session := left.out]
       && next.world.heap == w.heap[seat.session := left.session]
       && next.world.conns == w.conns[c := Conn(None, w.conns[c].stop, w.conns[c].modules)]
       && next.world.store == (if empty then w.store - {GlobalSessionID(env.serverID, s.id)} else w.store)
       && next.world.ids == (if empty then IdPool(w.ids.current, w.ids.reusable + {s.id}) else w.ids)
  }

  lemma DisconnectStep(env: Env, w: World, c: nat, picks: Picks)
    requires Inv(env, w) && Enabled(env, w, Disconnect(c, picks))
    ensures var next := Step(env, w, Disconnect(c, picks));
      && (forall seat :: SitsAt(w, c, seat) ==>
            && seat.session in w.heap && seat.participant in w.heap[seat.session].participants
            && (forall id :: id in picks.order <==> id in w.heap[seat.session].participants[seat.participant].entityIDs)
            && Vacated(env, w, c, seat, picks.order, next))
      && ((forall seat :: !SitsAt(w, c, seat)) ==> next == Outcome(w, map[]))
  {
    hide InvBut, Leave, Valid, GlobalSessionID;
    SeatMeans(env, w, c);
    if Seated(w, c) {
      SeatStored(env, w, c);
      LeftAlone(env.flags, SessionOf(w, c), SeatOf(w, c).participant, picks.order, FrameOf(w, c));
    }
  }

  lemma LeftAlone(flags: set<Flag>, s: Session, pid: nat, order: seq<nat>, frame: nat)
    requires Valid(s) && pid in s.participants && Enumerates(order, s.participants[pid].entityIDs)
    requires frame in s.frameHandlers && s.frameHandlers[frame] == s.participants[pid].conn
    ensures Leave(flags, s, pid, order, frame).session.participants == map[] <==> s.participants.Keys == {pid}
  {
    hide Valid, Leave;
    LeaveKeepsValid(flags, s, pid, order, frame);
    var rest := s.participants - {pid};
    assert rest.Keys == s.participants.Keys - {pid};
    assert rest == map[] <==> rest.Keys == {};
  }

  /** What the server is once the connection has entered the session `s`, which is under `globalID` and allocated as `ref`: it sits
      there as a new participant, and its canceller and its modules point there. The other sessions and connections are as in `w`. */
  ghost predicate Entered(env: Env, w: World, outs: map<nat, Outbox>, s: Session, c: nat, globalID: string, frame: nat, ref: nat,
                          next: Outcome)
  {
    var joined, seat := Join(env.flags, s, c, globalID, frame), Seat(ref, s.participantIDs.current + 1);
    && next.world.heap == w.heap[ref := joined.session]
    && next.world.conns == w.conns[c := Conn(Some(seat), Some((ref, frame)), Some(seat))]
    && ref !in outs && next.outs == outs[ref := Then(joined.out, ModuleStates(joined.session, seat.participant))]
  }

  lemma EnterSessionEnters(env: Env, w: World, c: nat, ref: nat, frame: nat, before: map<nat, Outbox>)
    requires ref in w.heap && c in w.conns && ref !in before
    ensures var entered := EnterSession(env, w, c, ref, frame);
      var next := Outcome(entered.world, before + entered.outs);
      && Entered(env, w, before, w.heap[ref], c, GlobalID(env, w.heap[ref]), frame, ref, next)
      && next.world.store == w.store && next.world.ids == w.ids
  {
    hide Join, ModuleStates, Then, GlobalSessionID;
  }

  lemma AllocateThenEnter(env: Env, w: World, c: nat, id: nat, ref: nat, frame: nat, before: map<nat, Outbox>)
    requires ref !in w.heap && c in w.conns && ref !in before
    ensures var entered, key := EnterSession(env, AllocateSession(env, w, id, ref), c, ref, frame), GlobalSessionID(env.serverID, id);
      var next := Outcome(entered.world, before + entered.outs);
      && Entered(env, w, before, NewSession(id), c, key, frame, ref, next)
      && next.world.store == w.store[key := ref] && next.world.ids == w.ids.Take(id)
  {
    hide Join, GlobalSessionID, EnterSession;
    EnterSessionEnters(env, AllocateSession(env, w, id, ref), c, ref, frame, before);
  }

  /** The connection sits in the session that it asks for. */
  predicate IsThere(env: Env, w: World, c: nat, globalID: string) {
    c in w.conns && w.conns[c].current.Some? && w.conns[c].current.value.session in w.heap
    && GlobalSessionID(env.serverID, w.heap[w.conns[c].current.value.session].id) == globalID
  }

  lemma ThereIff(env: Env, w: World, c: nat, globalID: string)
    requires Inv(env, w)
    ensures IsThere(env, w, c, globalID) <==> AlreadyThere(env, w, c, globalID)
  {
    hide InvBut, Valid, GlobalSessionID;
    SeatMeans(env, w, c);
    if IsThere(env, w, c, globalID) {
      assert SitsAt(w, c, w.conns[c].current.value);
    }
  }

  /** A connection that is already in the session it asks for is told so, and sent the module states; nothing else happens. */
  lemma JoinAgain(env: Env, w: World, c: nat, globalID: string, picks: Picks)
    requires Inv(env, w) && IsThere(env, w, c, globalID)
    ensures var next, seat := Step(env, w, JoinSession(c, globalID, picks)), w.conns[c].current.value;
      var s := w.heap[seat.session];
      && next.world == w && next.outs.Keys == {seat.session}
      && forall q :: Sent(next.outs[seat.session], q)
                     == if q == seat.participant then [Error(SessionAlreadyJoined), VikjaState(s.actions), OdalState(s.assets)] else []
  {
    hide InvBut, Valid, GlobalSessionID, Standing, EnterSession, AllocateSession, Then;
    SeatMeans(env, w, c);
    ThereIff(env, w, c, globalID);
    var seat, s := SeatOf(w, c), SessionOf(w, c);
    forall q ensures Sent(Then(Reply(seat.participant, Error(SessionAlreadyJoined)), ModuleStates(s, seat.participant)), q)
                     == if q == seat.participant then [Error(SessionAlreadyJoined), VikjaState(s.actions), OdalState(s.assets)] else []
    {
      SentThen(Reply(seat.participant, Error(SessionAlreadyJoined)), ModuleStates(s, seat.participant), q);
    }
  }

  /** Else it leaves where it sits, if anywhere, as if it disconnected. If the session is stored then, it enters it; the name of no
      session gets it into a new one, allocated afresh under an id that no stored session has; any other name gets it nowhere. */
  lemma JoinStep(env: Env, w: World, c: nat, globalID: string, picks: Picks)
    requires Inv(env, w) && Enabled(env, w, JoinSession(c, globalID, picks)) && !IsThere(env, w, c, globalID)
    ensures var next, left := Step(env, w, JoinSession(c, globalID, picks)), Step(env, w, Disconnect(c, picks));
      var w1 := left.world;
      if c !in w.conns then next == Outcome(w, map[])
      else if globalID in w1.store then
        var ref := w1.store[globalID];
        && ref in w1.heap && GlobalSessionID(env.serverID, w1.heap[ref].id) == globalID && w1.heap[ref].frameIDs.CanPick(picks.frame)
        && Entered(env, w1, left.outs, w1.heap[ref], c, globalID, picks.frame, ref, next)
        && next.world.store == w1.store && next.world.ids == w1.ids
      else if globalID == "" then
        var key := GlobalSessionID(env.serverID, picks.sessionID);
        && picks.allocation !in w1.heap && key !in w1.store && w1.ids.CanPick(picks.sessionID) && picks.frame == 1
        && Entered(env, w1, left.outs, NewSession(picks.sessionID), c, key, picks.frame, picks.allocation, next)
        && next.world.store == w1.store[key := picks.allocation] && next.world.ids == w1.ids.Take(picks.sessionID)
      else next == left
  {
    hide InvBut, Standing, EnterSession, AllocateSession, IdPool.CanPick, IdPool.Take, GlobalSessionID, Entered,
      Enumerates, NewSession;
    ThereIff(env, w, c, globalID);
    LeaveKeepsInv(env, w, c, picks.order);
    var left := Standing(env, w, c, picks.order);
    OutsOf(env, w, c, picks.order);
    if c in w.conns {
      if globalID in left.world.store {
        StoredSession(env, left.world, globalID);
        NotLeft(env, w, c, globalID, picks);
        EnterSessionEnters(env, left.world, c, left.world.store[globalID], picks.frame, left.outs);
      } else if globalID == "" {
        NewKey(env, left.world, picks.sessionID);
        FirstFrame(picks.frame);
        AllocateThenEnter(env, left.world, c, picks.sessionID, picks.allocation, picks.frame, left.outs);
      }
    }
  }

  lemma FirstFrame(frame: nat)
    requires NO_IDS.CanPick(frame)
    ensures frame == 1
  {
  }

  lemma NewKey(env: Env, w: World, id: nat)
    requires Inv(env, w) && w.ids.CanPick(id)
    ensures GlobalSessionID(env.serverID, id) !in w.store
  {
    hide SessionsOK, MembersOK, ConnOK, LiveIDs, IdPool.Partitions;
    InvPartitions(env, w);
    NewIDIsFree(env, w, id);
  }

  /** A departure touches no session that is not there, and keeps the connection. */
  lemma OutsOf(env: Env, w: World, c: nat, order: seq<nat>)
    ensures var left := Standing(env, w, c, order);
      left.outs.Keys == (if Seated(w, c) then {SeatOf(w, c).session} else {})
      && left.outs.Keys <= left.world.heap.Keys == w.heap.Keys && left.world.conns.Keys == w.conns.Keys
  {
    hide Leave;
  }

  lemma NotLeft(env: Env, w: World, c: nat, globalID: string, picks: Picks)
    requires Inv(env, w) && Enabled(env, w, JoinSession(c, globalID, picks)) && !AlreadyThere(env, w, c, globalID)
    requires globalID in Standing(env, w, c, picks.order).world.store
    ensures Standing(env, w, c, picks.order).world.store[globalID] !in Standing(env, w, c, picks.order).outs
  {
    hide InvBut, LeaveSession, IdPool.CanPick, GlobalSessionID, Enumerates;
    OutsOf(env, w, c, picks.order);
    if Seated(w, c) {
      StandingIsLeave(env, w, c, picks.order);
      EnteredIsNotLeft(env, w, c, globalID, picks);
    }
  }

  /** The connection sits in the session that `before` was, as a participant under an id never used there, welcomed with the
      state of the session and announced to the others; nothing else of the session is new to them. */
  ghost predicate SeatedIn(env: Env, before: Session, c: nat, globalID: string, ref: nat, next: Outcome) {
    var pid := before.participantIDs.current + 1;
    && c in next.world.conns && next.world.conns[c].current == Some(Seat(ref, pid))
    && ref in next.world.heap && ref in next.outs
    && var s, out := next.world.heap[ref], next.outs[ref];
       && pid !in before.participants && s.participants == before.participants[pid := Participant(c, {})]
       && s.id == before.id && s.entities == before.entities && s.components == before.components
       && s.actions == before.actions && s.assets == before.assets
       && Welcomes(Sent(out, pid), env.flags, s, pid, globalID)
       && forall q :: q != pid ==>
            Sent(out, q) == if q in before.participants && DisableParticipantJoinBroadcast !in env.flags then [JoinBroadcast(pid)] else []
  }

  lemma EnteredSeats(env: Env, w: World, outs: map<nat, Outbox>, s: Session, c: nat, globalID: string,
      frame: nat, ref: nat, next: Outcome)
    requires Entered(env, w, outs, s, c, globalID, frame, ref, next)
    requires Valid(s) && s.frameIDs.CanPick(frame) && c !in Conns(s.participants)
    ensures SeatedIn(env, s, c, globalID, ref, next)
  {
    hide Valid, IdPool.CanPick, Welcomes, Join, Then, IdPool.Partitions;
    JoinMeaning(env.flags, s, c, globalID, frame);
  }

  /** A session that one connection has just opened holds that connection's participant, under id 1, and nothing else. */
  ghost predicate OpenedBy(s: Session, id: nat, c: nat) {
    && s.id == id && s.participants == map[1 := Participant(c, {})] && s.frameHandlers == map[1 := c]
    && s.participantIDs == s.frameIDs == IdPool(1, {}) && s.entityIDs == s.assetIDs == IdPool(0, {})
    && s.entities == map[] && s.actions == map[] && s.assets == map[]
    && s.components == Store(IdPool(0, {}), map[], map[], map[], map[])
  }

  lemma EntranceOpens(env: Env, w: World, outs: map<nat, Outbox>, id: nat, c: nat, globalID: string, ref: nat, next: Outcome)
    requires Entered(env, w, outs, NewSession(id), c, globalID, 1, ref, next)
    ensures ref in next.world.heap && OpenedBy(next.world.heap[ref], id, c)
  {
    hide Then, ModuleStates;
  }

  /** So a connection that asks for a stored session, or for a new one, ends up in it, wherever it sat before. */
  lemma JoinSeats(env: Env, w: World, c: nat, globalID: string, picks: Picks)
    requires Inv(env, w) && Enabled(env, w, JoinSession(c, globalID, picks)) && !IsThere(env, w, c, globalID) && c in w.conns
    ensures var next, w1 := Step(env, w, JoinSession(c, globalID, picks)), Step(env, w, Disconnect(c, picks)).world;
      if globalID in w1.store then
        var ref := w1.store[globalID];
        && ref in w1.heap && SeatedIn(env, w1.heap[ref], c, globalID, ref, next)
        && globalID in next.world.store && next.world.store[globalID] == ref
      else if globalID == "" then
        var key, ref := GlobalSessionID(env.serverID, picks.sessionID), picks.allocation;
        && SeatedIn(env, NewSession(picks.sessionID), c, key, ref, next)
        && OpenedBy(next.world.heap[ref], picks.sessionID, c)
        && key !in w1.store && key in next.world.store && next.world.store[key] == ref
      else c in next.world.conns && next.world.conns[c].current == None && next.world.heap == w1.heap
  {
    hide InvBut, Step, Enabled, IdPool.CanPick, GlobalSessionID, Entered, OpenedBy, SeatedIn, Valid, IsThere, NewSession;
    var next, left := Step(env, w, JoinSession(c, globalID, picks)), Step(env, w, Disconnect(c, picks));
    var w1 := left.world;
    JoinStep(env, w, c, globalID, picks);
    DisconnectKeeps(env, w, c, globalID, picks);
    if globalID in w1.store {
      var ref := w1.store[globalID];
      NewcomerThere(env, w1, ref, c);
      EnteredSeats(env, w1, left.outs, w1.heap[ref], c, globalID, picks.frame, ref, next);
    } else if globalID == "" {
      var key := GlobalSessionID(env.serverID, picks.sessionID);
      NewSessionValid(picks.sessionID);
      FirstPick(picks.sessionID, c, picks.frame);
      EntranceOpens(env, w1, left.outs, picks.sessionID, c, key, picks.allocation, next);
      EnteredSeats(env, w1, left.outs, NewSession(picks.sessionID), c, key, picks.frame, picks.allocation, next);
    }
  }

  lemma FirstPick(id: nat, c: nat, frame: nat)
    requires frame == 1
    ensures NewSession(id).frameIDs.CanPick(frame) && c !in Conns(NewSession(id).participants) && NewSession(id).id == id
  {
  }

  lemma DisconnectKeeps(env: Env, w: World, c: nat, globalID: string, picks: Picks)
    requires Inv(env, w) && Enabled(env, w, JoinSession(c, globalID, picks)) && c in w.conns
    ensures var w1 := Step(env, w, Disconnect(c, picks)).world; Inv(env, w1) && c in w1.conns && w1.conns[c].current == None
  {
    hide InvBut, Standing, IdPool.CanPick, Enumerates;
    OutsOf(env, w, c, picks.order);
    LeaveKeepsInv(env, w, c, picks.order);
  }

  /** A connection that sits nowhere answers for no participant. */
  lemma NewcomerThere(env: Env, w: World, ref: nat, c: nat)
    requires Inv(env, w) && ref in w.heap && c in w.conns && w.conns[c].current == None
    ensures Valid(w.heap[ref]) && c !in Conns(w.heap[ref].participants)
  {
    hide Valid, StoredOK, ConnOK, LiveIDs, IdPool.Partitions;
    assert MembersOK(w, ref);
  }

  /** Every connect and every message may come at any time, and a disconnect for some order in which the entities are visited. */
  lemma EventsEnabled(env: Env, w: World, c: nat, request: Request)
    ensures Enabled(env, w, Connect(c)) && Enabled(env, w, Message(c, request))
    ensures exists picks :: Enabled(env, w, Disconnect(c, picks))
  {
    hide Enumerates;
    var order := Enumerable(if Seated(w, c) then OwnedIDs(w, c) else {});
    assert Enabled(env, w, Disconnect(c, Picks(order, 0, 0, 0)));
  }
}
