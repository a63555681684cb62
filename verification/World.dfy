/** The whole server: connections, the session store, and every session ever allocated. */
module World {
  import opened Options
  import opened Ids
  import opened Components
  import opened Protocol

  /** What a handler points at: a session, by allocation, and a participant of it. */
  datatype Seat = Seat(session: nat, participant: nat)

  /** A connection's handler: where it sits, the frame canceller it keeps, and what its modules point at.
      The last two are left behind when a session is left. */
  datatype Conn = Conn(current: Option<Seat>, stop: Option<(nat, nat)>, modules: Option<Seat>)

  datatype World = World(heap: map<nat, Session>, store: map<string, nat>, ids: IdPool, conns: map<nat, Conn>)

  const START := World(map[], map[], NO_IDS, map[])

  /** What never changes while the server is up. */
  datatype Env = Env(serverID: string, flags: set<Flag>)

  function GlobalID(env: Env, s: Session): string {
    GlobalSessionID(env.serverID, s.id)
  }

  /** The choices that map iteration, id reuse and allocation leave open. */
  datatype Picks = Picks(order: seq<nat>, sessionID: nat, allocation: nat, frame: nat)

  datatype Event =
    | Connect(conn: nat)
    | JoinSession(conn: nat, globalID: string, picks: Picks)
    | Message(conn: nat, request: Request)
    | Disconnect(conn: nat, picks: Picks)

  /** The next world, and what each session's participants are sent. */
  datatype Outcome = Outcome(world: World, outs: map<nat, Outbox>)

  predicate Seated(w: World, c: nat) {
    && c in w.conns && w.conns[c].current.Some?
    && w.conns[c].current.value.session in w.heap
    && w.conns[c].current.value.participant in w.heap[w.conns[c].current.value.session].participants
  }

  function SeatOf(w: World, c: nat): Seat
    requires Seated(w, c)
  {
    w.conns[c].current.value
  }

  function SessionOf(w: World, c: nat): Session
    requires Seated(w, c)
  {
    w.heap[SeatOf(w, c).session]
  }

  function OwnedIDs(w: World, c: nat): set<nat>
    requires Seated(w, c)
  {
    SessionOf(w, c).participants[SeatOf(w, c).participant].entityIDs
  }

  /** The frame handler that leaving cancels. */
  function FrameOf(w: World, c: nat): nat
    requires Seated(w, c)
  {
    if w.conns[c].stop.Some? then w.conns[c].stop.value.1 else 0
  }

  function LeaveSession(env: Env, w: World, c: nat, order: seq<nat>): Outcome
    requires Seated(w, c)
  {
    var seat, s := SeatOf(w, c), SessionOf(w, c);
    var left := Leave(env.flags, s, seat.participant, order, FrameOf(w, c));
    var w1 := w.(heap := w.heap[seat.session := left.session], conns := w.conns[c := w.conns[c].(current := None)]);
    Outcome(if left.session.participants == map[] then w1.(store := w.store - {GlobalID(env, s)}, ids := w.ids.Return(s.id)) else w1,
            map[seat.session := left.out])
  }

  function EnterSession(env: Env, w: World, c: nat, ref: nat, frame: nat): Outcome
    requires ref in w.heap && c in w.conns
  {
    var s := w.heap[ref];
    var joined := Join(env.flags, s, c, GlobalID(env, s), frame);
    var seat := Seat(ref, s.participantIDs.current + 1);
    Outcome(w.(heap := w.heap[ref := joined.session], conns := w.conns[c := Conn(Some(seat), Some((ref, frame)), Some(seat))]),
            map[ref := Then(joined.out, ModuleStates(joined.session, seat.participant))])
  }

  function AllocateSession(env: Env, w: World, id: nat, ref: nat): World {
    w.(heap := w.heap[ref := NewSession(id)], store := w.store[GlobalSessionID(env.serverID, id) := ref], ids := w.ids.Take(id))
  }

  predicate AlreadyThere(env: Env, w: World, c: nat, globalID: string) {
    Seated(w, c) && GlobalID(env, SessionOf(w, c)) == globalID
  }

  /** The world in which a join request looks its session up: the former session has been left. */
  function Standing(env: Env, w: World, c: nat, order: seq<nat>): Outcome {
    if Seated(w, c) then LeaveSession(env, w, c, order) else Outcome(w, map[])
  }

  function Step(env: Env, w: World, e: Event): Outcome {
    match e
    case Connect(c) => Outcome(if c in w.conns then w else w.(conns := w.conns[c := Conn(None, None, None)]), map[])
    case Disconnect(c, picks) => Standing(env, w, c, picks.order)
    case Message(c, request) =>
      if !Seated(w, c) then Outcome(w, map[])
      else
        var seat := SeatOf(w, c);
        var result := Handle(env.flags, SessionOf(w, c), seat.participant, request);
        Outcome(w.(heap := w.heap[seat.session := result.session]), map[seat.session := result.out])
    case JoinSession(c, globalID, picks) =>
      if c !in w.conns then Outcome(w, map[])
      else if AlreadyThere(env, w, c, globalID) then
        var seat := SeatOf(w, c);
        Outcome(w, map[seat.session := Then(Reply(seat.participant, Error(SessionAlreadyJoined)),
                                            ModuleStates(SessionOf(w, c), seat.participant))])
      else
        var left := Standing(env, w, c, picks.order);
        var w1 := left.world;
        if globalID in w1.store && w1.store[globalID] in w1.heap && c in w1.conns then
          var entered := EnterSession(env, w1, c, w1.store[globalID], picks.frame);
          Outcome(entered.world, left.outs + entered.outs)
        else if globalID != "" || c !in w1.conns then left
        else
          var entered := EnterSession(env, AllocateSession(env, w1, picks.sessionID, picks.allocation), c, picks.allocation, picks.frame);
          Outcome(entered.world, left.outs + entered.outs)
  }

  ghost predicate Enumerates(order: seq<nat>, ids: set<nat>) {
    forall id :: id in order <==> id in ids
  }

  /** The picks of an event are among the choices that are open. */
  ghost predicate Enabled(env: Env, w: World, e: Event) {
    match e
    case Connect(_) => true
    case Message(_, _) => true
    case Disconnect(c, picks) => Seated(w, c) ==> Enumerates(picks.order, OwnedIDs(w, c))
    case JoinSession(c, globalID, picks) =>
      && (Seated(w, c) ==> Enumerates(picks.order, OwnedIDs(w, c)))
      && var w1 := Standing(env, w, c, picks.order).world;
         if globalID in w1.store && w1.store[globalID] in w1.heap then w1.heap[w1.store[globalID]].frameIDs.CanPick(picks.frame)
         else globalID == "" ==> w1.ids.CanPick(picks.sessionID) && picks.allocation !in w1.heap && NO_IDS.CanPick(picks.frame)
  }

  /** A run visits the worlds of its events one after the other. */
  ghost predicate IsRun(env: Env, w: World, events: seq<Event>, w': World)
    decreases |events|
  {
    if events == [] then w' == w
    else Enabled(env, w, events[0]) && IsRun(env, Step(env, w, events[0]).world, events[1..], w')
  }

  /** A world that some run from the start of the server ends in. */
  ghost predicate Reachable(env: Env, w: World) {
    exists events :: IsRun(env, START, events, w)
  }
}
