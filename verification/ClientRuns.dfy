/** Clients that keep a replica each, and the components of the types they follow, over whole runs of the server. */
module ClientRuns {
  import opened Options
  import opened Ids
  import opened Components
  import opened Protocol
  import opened SessionInvariant
  import opened World
  import opened WorldInvariant
  import opened Replicas
  import opened Subscribers

  datatype Client = Client(replica: Replica, watch: Watch)

  const BLANK := Client(Replica({}, map[], map[], map[]), NO_WATCH)

  type Clients = map<Seat, Client>

  /** The client's replica is what it should be of the session, and of every type it knows it knows all components. */
  ghost predicate Follows(s: Session, pid: nat, client: Client) {
    client.replica == ViewOf(s) && Informed(s, pid, client.watch)
  }

  function Listen(client: Client, ms: seq<Msg>): Client {
    Client(ApplyAll(client.replica, ms), Overhear(client.watch, ms))
  }

  function Learn(client: Client, me: nat, request: Request, ms: seq<Msg>): Client {
    Client(ApplyOwn(client.replica, me, request, ms), Answer(client.watch, request, ms))
  }

  predicate Taken(w: World, seat: Seat) {
    seat.session in w.heap && seat.participant in w.heap[seat.session].participants
  }

  /** What the client in a seat is sent by an event. */
  function Received(outcome: Outcome, seat: Seat): seq<Msg> {
    if seat.session in outcome.outs then Sent(outcome.outs[seat.session], seat.participant) else []
  }

  /** What an event makes of the client in a seat: messages only, and its own request. */
  function After(env: Env, w: World, e: Event, seat: Seat, client: Client): Client {
    var ms := Received(Step(env, w, e), seat);
    if e.Message? && Seated(w, e.conn) && SeatOf(w, e.conn) == seat then Learn(client, seat.participant, e.request, ms)
    else Listen(client, ms)
  }

  /** The client of a seat before an event; one whose seat is not taken yet starts from nothing. */
  function Before(w: World, clients: Clients, seat: Seat): Client {
    if seat in clients && Taken(w, seat) then clients[seat] else BLANK
  }

  /** Every client whose seat is taken after the event has heard it. */
  ghost predicate Heard(env: Env, w: World, clients: Clients, e: Event, clients': Clients) {
    forall seat :: Taken(Step(env, w, e).world, seat) ==>
      seat in clients' && clients'[seat] == After(env, w, e, seat, Before(w, clients, seat))
  }

  ghost predicate InSync(w: World, clients: Clients) {
    forall seat :: Taken(w, seat) ==> seat in clients && Follows(w.heap[seat.session], seat.participant, clients[seat])
  }

  /** A client that follows its session, or has not started. */
  ghost predicate Ready(w: World, seat: Seat, client: Client) {
    if Taken(w, seat) then Follows(w.heap[seat.session], seat.participant, client) else client == BLANK
  }

  /** A run of the server together with its clients. */
  ghost predicate IsClientRun(env: Env, w: World, clients: Clients, events: seq<Event>, w': World, clients': Clients)
    decreases |events|
  {
    if events == [] then w' == w && clients' == clients
    else
      Enabled(env, w, events[0])
      && exists next :: Heard(env, w, clients, events[0], next)
                        && IsClientRun(env, Step(env, w, events[0]).world, next, events[1..], w', clients')
  }

  /** A client that is sent nothing goes on following its session. */
  lemma SilenceSyncs(s: Session, pid: nat, client: Client)
    requires Follows(s, pid, client)
    ensures Follows(s, pid, Listen(client, []))
  {
    NothingHeard(client.watch, []);
  }

  lemma MessageSyncs(env: Env, w: World, c: nat, request: Request, seat: Seat, client: Client)
    requires Inv(env, w) && env.flags == {} && Taken(Step(env, w, Message(c, request)).world, seat) && Ready(w, seat, client)
    ensures Follows(Step(env, w, Message(c, request)).world.heap[seat.session], seat.participant,
                    After(env, w, Message(c, request), seat, client))
  {
    hide Handle, InvBut, ApplyOwn, ViewOf, Sent, IdsIssued, Owned, Connected, ModulesRefer, Store.Refers, Informed, Answer,
      Overhear;
    if Seated(w, c) && seat.session == SeatOf(w, c).session {
      var s, pid := SessionOf(w, c), SeatOf(w, c).participant;
      SeatStored(env, w, c);
      HandleKeepsValid(env.flags, s, pid, request);
      HandleSyncs(s, pid, request, seat.participant);
      HandleInforms(s, pid, request, seat.participant, client.watch);
    } else {
      NothingHeard(client.watch, []);
    }
  }

  lemma StandingSyncs(env: Env, w: World, c: nat, order: seq<nat>, seat: Seat, client: Client)
    requires Inv(env, w) && env.flags == {} && (Seated(w, c) ==> Enumerates(order, OwnedIDs(w, c)))
    requires Taken(Standing(env, w, c, order).world, seat) && Ready(w, seat, client)
    ensures Taken(w, seat)
    ensures Follows(Standing(env, w, c, order).world.heap[seat.session], seat.participant,
                    Listen(client, Received(Standing(env, w, c, order), seat)))
  {
    hide Leave, InvBut, ViewOf, Sent, IdsIssued, Owned, Connected, Referring, Informed, Overhear;
    if Seated(w, c) && seat.session == SeatOf(w, c).session {
      var s, pid := SessionOf(w, c), SeatOf(w, c).participant;
      SeatStored(env, w, c);
      LeaveKeepsValid(env.flags, s, pid, order, FrameOf(w, c));
      LeaveSyncs(s, pid, order, FrameOf(w, c), seat.participant);
      LeaveInforms(s, pid, order, FrameOf(w, c), seat.participant, client.watch);
    } else {
      NothingHeard(client.watch, []);
    }
  }

  lemma SentAfter(a: Outbox, b: Outbox, q: nat)
    requires q !in b
    ensures Sent(Then(a, b), q) == Sent(a, q)
  {
  }

  lemma HeldValid(env: Env, w: World, empty: set<nat>, ref: nat)
    requires InvBut(env, w, empty) && ref in w.heap
    ensures Valid(w.heap[ref])
  {
    hide Valid, StoredOK, MembersOK, ConnOK, LiveIDs;
  }

  lemma EnterSyncs(env: Env, w: World, c: nat, ref: nat, frame: nat, seat: Seat, client: Client)
    requires InvBut(env, w, {ref}) && env.flags == {} && ref in w.heap && c in w.conns && w.conns[c].current == None
    requires w.heap[ref].frameIDs.CanPick(frame) && seat.session == ref
    requires Taken(EnterSession(env, w, c, ref, frame).world, seat) && Ready(w, seat, client)
    ensures Follows(EnterSession(env, w, c, ref, frame).world.heap[seat.session], seat.participant,
                    Listen(client, Received(EnterSession(env, w, c, ref, frame), seat)))
  {
    hide Join, InvBut, ViewOf, Sent, Then, Valid, IdPool.CanPick, Informed, Overhear, ApplyAll;
    var s := w.heap[ref];
    var pid := s.participantIDs.current + 1;
    EnterIsEntered(env, w, c, ref, frame);
    HeldValid(env, w, {ref}, ref);
    var joined := Join(env.flags, s, c, GlobalID(env, s), frame);
    JoinSyncs(s, c, GlobalID(env, s), frame, seat.participant, client.replica);
    JoinInforms(s, c, GlobalID(env, s), frame, seat.participant, client.watch);
    if seat.participant != pid {
      SentAfter(joined.out, ModuleStates(joined.session, pid), seat.participant);
    }
  }

  lemma AlreadySent(s: Session, pid: nat, q: nat)
    ensures Sent(Then(Reply(pid, Error(SessionAlreadyJoined)), ModuleStates(s, pid)), q)
            == if q == pid then [Error(SessionAlreadyJoined), VikjaState(s.actions), OdalState(s.assets)] else []
  {
  }

  lemma AlreadyMessages(s: Session, pid: nat, q: nat, client: Client)
    requires Follows(s, q, client)
    ensures Follows(s, q, Listen(client, Sent(Then(Reply(pid, Error(SessionAlreadyJoined)), ModuleStates(s, pid)), q)))
  {
    hide Informed, Overhear, Sent, Then, ModuleStates;
    AlreadySent(s, pid, q);
    if q == pid {
      var ms := [Error(SessionAlreadyJoined), VikjaState(s.actions), OdalState(s.assets)];
      assert ms[1..][0] == ms[1] && ms[1..][1..] == [ms[2]];
      ApplyOne(ViewOf(s), ms[2]);
      assert ApplyAll(ViewOf(s), ms) == ApplyAll(ViewOf(s), ms[1..]) == ApplyAll(ViewOf(s), ms[1..][1..]);
      NothingHeard(client.watch, ms);
    } else {
      NothingHeard(client.watch, []);
    }
  }

  /** A connection that is already there is told so, and sent the module states once more. */
  lemma AlreadySyncs(env: Env, w: World, c: nat, globalID: string, picks: Picks, seat: Seat, client: Client)
    requires Taken(w, seat) && c in w.conns && AlreadyThere(env, w, c, globalID) && Ready(w, seat, client)
    ensures Follows(w.heap[seat.session], seat.participant, After(env, w, JoinSession(c, globalID, picks), seat, client))
  {
    hide GlobalSessionID, Sent, Then, ModuleStates, ViewOf, Overhear, Informed;
    if seat.session == SeatOf(w, c).session {
      AlreadyMessages(SessionOf(w, c), SeatOf(w, c).participant, seat.participant, client);
    } else {
      SilenceSyncs(w.heap[seat.session], seat.participant, client);
    }
  }

  /** Nobody enters again the session that the same request has just left. */
  lemma EnteredIsNotLeft(env: Env, w: World, c: nat, globalID: string, picks: Picks)
    requires Inv(env, w) && Enabled(env, w, JoinSession(c, globalID, picks))
    requires Seated(w, c) && !AlreadyThere(env, w, c, globalID)
    ensures var w1 := LeaveSession(env, w, c, picks.order).world;
      globalID in w1.store ==> w1.store[globalID] != SeatOf(w, c).session
  {
    hide InvBut, Leave, IdPool.CanPick, GlobalSessionID, Valid;
    LeaveKeepsInv(env, w, c, picks.order);
    LeaveIsLeft(env, w, c, picks.order);
    var w1 := LeaveSession(env, w, c, picks.order).world;
    if globalID in w1.store {
      StoredSession(env, w1, globalID);
    }
  }

  lemma JoinRequestSyncs(env: Env, w: World, c: nat, globalID: string, picks: Picks, seat: Seat, client: Client)
    requires Inv(env, w) && env.flags == {} && Enabled(env, w, JoinSession(c, globalID, picks))
    requires Taken(Step(env, w, JoinSession(c, globalID, picks)).world, seat) && Ready(w, seat, client)
    ensures Follows(Step(env, w, JoinSession(c, globalID, picks)).world.heap[seat.session], seat.participant,
                    After(env, w, JoinSession(c, globalID, picks), seat, client))
  {
    hide InvBut, Standing, EnterSession, AllocateSession, Enumerates, IdPool.CanPick, GlobalSessionID, Sent, AlreadyThere,
      Follows, Listen;
    if c !in w.conns {
      SilenceSyncs(w.heap[seat.session], seat.participant, client);
    } else {
      if AlreadyThere(env, w, c, globalID) {
        AlreadySyncs(env, w, c, globalID, picks, seat, client);
      } else {
        var left := Standing(env, w, c, picks.order);
        var w1 := left.world;
        LeaveKeepsInv(env, w, c, picks.order);
        if globalID in w1.store && w1.store[globalID] in w1.heap && c in w1.conns {
          StoredSession(env, w1, globalID);
          if Seated(w, c) {
            StandingIsLeave(env, w, c, picks.order);
            EnteredIsNotLeft(env, w, c, globalID, picks);
          }
          TwoPhases(env, w, c, picks.order, w1, w1.store[globalID], picks.frame, seat, client);
        } else if globalID != "" || c !in w1.conns {
          StandingSyncs(env, w, c, picks.order, seat, client);
        } else {
          var w2 := AllocateSession(env, w1, picks.sessionID, picks.allocation);
          NoEmptyID(env, w1);
          AllocateKeepsInv(env, w1, picks.sessionID, picks.allocation);
          AllocatedKeepsConns(env, w1, picks.sessionID, picks.allocation);
          Allocated(env, w1, picks.sessionID, picks.allocation);
          Touched(env, w, c, picks.order, w2, picks.allocation, picks.frame);
          TwoPhases(env, w, c, picks.order, w2, picks.allocation, picks.frame, seat, client);
        }
      }
    }
  }

  lemma Allocated(env: Env, w: World, id: nat, ref: nat)
    requires ref !in w.heap
    ensures var w' := AllocateSession(env, w, id, ref);
      w'.heap.Keys == w.heap.Keys + {ref} && w'.heap[ref].participants == map[]
      && forall r :: r in w.heap ==> w'.heap[r] == w.heap[r]
  {
  }

  /** What a seat is sent by a departure and then by the entrance into another session of `w1`. */
  lemma TwoPhases(env: Env, w: World, c: nat, order: seq<nat>, w1: World, ref: nat, frame: nat, seat: Seat, client: Client)
    requires Inv(env, w) && env.flags == {} && (Seated(w, c) ==> Enumerates(order, OwnedIDs(w, c)))
    requires Seated(w, c) ==> ref != SeatOf(w, c).session
    requires InvBut(env, w1, {ref}) && ref in w1.heap && c in w1.conns && w1.conns[c].current == None
    requires w1.heap[ref].frameIDs.CanPick(frame)
    requires var left := Standing(env, w, c, order).world;
      && w1.heap.Keys == left.heap.Keys + {ref}
      && (forall x :: x in left.heap ==> w1.heap[x] == left.heap[x])
      && (ref !in left.heap ==> w1.heap[ref].participants == map[])
    requires Taken(EnterSession(env, w1, c, ref, frame).world, seat) && Ready(w, seat, client)
    ensures var left, entered := Standing(env, w, c, order), EnterSession(env, w1, c, ref, frame);
      Follows(entered.world.heap[seat.session], seat.participant,
              Listen(client, Received(Outcome(entered.world, left.outs + entered.outs), seat)))
  {
    hide InvBut, Standing, EnterSession, IdPool.CanPick, GlobalSessionID, Sent, Enumerates, Follows, Listen;
    var left, entered := Standing(env, w, c, order), EnterSession(env, w1, c, ref, frame);
    Touched(env, w, c, order, w1, ref, frame);
    if seat.session == ref {
      EnterSyncs(env, w1, c, ref, frame, seat, client);
    } else {
      StandingSyncs(env, w, c, order, seat, client);
    }
  }

  lemma StandingIsLeave(env: Env, w: World, c: nat, order: seq<nat>)
    requires Seated(w, c)
    ensures Standing(env, w, c, order) == LeaveSession(env, w, c, order)
  {
    hide LeaveSession;
  }

  /** A departure touches one session, the one that is left; an entrance touches the one that is entered. */
  lemma Touched(env: Env, w: World, c: nat, order: seq<nat>, w1: World, ref: nat, frame: nat)
    requires ref in w1.heap && c in w1.conns
    ensures var left, entered := Standing(env, w, c, order), EnterSession(env, w1, c, ref, frame);
      && left.world.heap.Keys == w.heap.Keys
      && left.outs.Keys == (if Seated(w, c) then {SeatOf(w, c).session} else {})
      && (forall x :: x in w.heap && x !in left.outs.Keys ==> left.world.heap[x] == w.heap[x])
      && entered.outs.Keys == {ref} && entered.world.heap.Keys == w1.heap.Keys
      && (forall x :: x in w1.heap && x != ref ==> entered.world.heap[x] == w1.heap[x])
  {
    hide Leave, Join;
  }

  /** With no feature flag set, every event keeps every client's replica equal to its session, and what it knows of types right. */
  lemma StepSyncs(env: Env, w: World, clients: Clients, e: Event, clients': Clients)
    requires Inv(env, w) && env.flags == {} && Enabled(env, w, e)
    requires InSync(w, clients) && Heard(env, w, clients, e, clients')
    ensures InSync(Step(env, w, e).world, clients')
  {
    hide InvBut, Step, Enabled, After, Follows, Taken;
    var w' := Step(env, w, e).world;
    forall seat | Taken(w', seat)
      ensures seat in clients' && TakenSession(w', seat) && Follows(w'.heap[seat.session], seat.participant, clients'[seat])
    {
      var client := Before(w, clients, seat);
      assert clients'[seat] == After(env, w, e, seat, client);
      SeatSyncs(env, w, e, seat, client);
    }
  }

  predicate TakenSession(w: World, seat: Seat) {
    seat.session in w.heap
  }

  lemma SeatSyncs(env: Env, w: World, e: Event, seat: Seat, client: Client)
    requires Inv(env, w) && env.flags == {} && Enabled(env, w, e) && Taken(Step(env, w, e).world, seat) && Ready(w, seat, client)
    ensures TakenSession(Step(env, w, e).world, seat)
    ensures Follows(Step(env, w, e).world.heap[seat.session], seat.participant, After(env, w, e, seat, client))
  {
    hide InvBut, Standing, EnterSession, AllocateSession, Handle, Enumerates, Follows, Listen, Learn, Sent;
    match e
    case Connect(c) =>
      SilenceSyncs(w.heap[seat.session], seat.participant, client);
    case JoinSession(c, globalID, picks) => JoinRequestSyncs(env, w, c, globalID, picks, seat, client);
    case Message(c, request) => MessageSyncs(env, w, c, request, seat, client);
    case Disconnect(c, picks) => StandingSyncs(env, w, c, picks.order, seat, client);
  }

  /** With no feature flag set, over every run, each client's replica equals its session after every event, and each client
      knows all components of every type that it has listed since it subscribed to it. */
  lemma {:induction false} RunSyncs(env: Env, w: World, clients: Clients, events: seq<Event>, w': World, clients': Clients)
    requires Inv(env, w) && env.flags == {} && InSync(w, clients) && IsClientRun(env, w, clients, events, w', clients')
    ensures Inv(env, w') && InSync(w', clients')
    decreases |events|
  {
    hide InvBut, Step, Enabled, InSync, Heard;
    if events != [] {
      var w1 := Step(env, w, events[0]).world;
      var next :| Heard(env, w, clients, events[0], next) && IsClientRun(env, w1, next, events[1..], w', clients');
      StepKeepsInv(env, w, events[0]);
      StepSyncs(env, w, clients, events[0], next);
      RunSyncs(env, w1, next, events[1..], w', clients');
    }
  }

  /** Whatever the clients were, there are clients that hear an event. */
  lemma HeardBySome(env: Env, w: World, clients: Clients, e: Event) returns (next: Clients)
    ensures Heard(env, w, clients, e, next)
  {
    hide Step, After;
    var w' := Step(env, w, e).world;
    var seats := set ref, p | ref in w'.heap && p in w'.heap[ref].participants :: Seat(ref, p);
    next := map seat | seat in seats :: After(env, w, e, seat, Before(w, clients, seat));
  }

  /** So every run of the server is one with clients. */
  lemma {:induction false} EveryRunHasClients(env: Env, w: World, clients: Clients, events: seq<Event>, w': World)
    requires IsRun(env, w, events, w')
    ensures exists clients' :: IsClientRun(env, w, clients, events, w', clients')
    decreases |events|
  {
    hide Step, Enabled, Heard;
    if events == [] {
      assert IsClientRun(env, w, clients, events, w', clients);
    } else {
      var w1 := Step(env, w, events[0]).world;
      var next := HeardBySome(env, w, clients, events[0]);
      EveryRunHasClients(env, w1, next, events[1..], w');
      var clients' :| IsClientRun(env, w1, next, events[1..], w', clients');
      assert IsClientRun(env, w, clients, events, w', clients');
    }
  }

  /** From the start of the server, no client is ever out of sync. */
  lemma ClientsStayInSync(env: Env, events: seq<Event>, w: World, clients: Clients, seat: Seat)
    requires env.flags == {} && IsClientRun(env, START, map[], events, w, clients) && Taken(w, seat)
    ensures seat in clients && clients[seat].replica == ViewOf(w.heap[seat.session])
  {
    hide IsClientRun, InvBut;
    StartInv(env);
    RunSyncs(env, START, map[], events, w, clients);
  }

  /** Nor is it ever wrong about a type it knows: it subscribes to the type, and knows each of its components and no others. */
  lemma SubscribersStayInformed(env: Env, events: seq<Event>, w: World, clients: Clients, seat: Seat, typ: nat)
    requires env.flags == {} && IsClientRun(env, START, map[], events, w, clients) && Taken(w, seat)
    ensures seat in clients
    ensures typ in clients[seat].watch.types <==> seat.participant in w.heap[seat.session].components.Subscribers(typ)
    ensures typ in clients[seat].watch.known ==>
      typ in clients[seat].watch.types && clients[seat].watch.known[typ] == w.heap[seat.session].components.TypeComponents(typ)
  {
    hide IsClientRun, InvBut;
    StartInv(env);
    RunSyncs(env, START, map[], events, w, clients);
  }

  /** A type is known from the answer to a list request on, until the client gives up its subscription. */
  lemma KnownUntilUnsubscribed(env: Env, w: World, e: Event, seat: Seat, client: Client, typ: nat)
    requires Inv(env, w) && env.flags == {} && Enabled(env, w, e) && Taken(w, seat) && Taken(Step(env, w, e).world, seat)
    requires Follows(w.heap[seat.session], seat.participant, client) && typ in client.watch.types
    ensures var client' := After(env, w, e, seat, client);
      var own := e.Message? && Seated(w, e.conn) && SeatOf(w, e.conn) == seat;
      typ in client'.watch.known <==>
        (own && e.request == ComponentList(typ)) || (typ in client.watch.known && !(own && e.request == Unsubscribe(typ)))
  {
    hide InvBut, Standing, Enumerates, ApplyAll, ApplyOwn, HearAll, Handle, Sent, ViewOf, Informed, Answer, Valid;
    if e.Message? && Seated(w, e.conn) && SeatOf(w, e.conn) == seat {
      SeatStored(env, w, e.conn);
      KnownAfter(SessionOf(w, e.conn), seat.participant, e.request, client.watch, typ);
    }
  }
}
