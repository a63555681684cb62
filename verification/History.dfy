/** What a whole run cannot undo: ids are never issued twice, and what nobody may touch stays as it is. */
module History {
  import opened Options
  import opened Ids
  import opened Components
  import opened Protocol
  import opened SessionInvariant
  import opened World
  import opened WorldInvariant

  /** A persistent entity whose owner has left. */
  predicate Orphaned(s: Session, e: nat) {
    e in s.entities && s.entities[e].persist && s.entities[e].owner !in s.participants
  }

  predicate HasAction(s: Session, e: nat, name: string) {
    e in s.actions && name in s.actions[e]
  }

  ghost predicate LaterEntities(s: Session, s': Session) {
    && s.entityIDs.current <= s'.entityIDs.current
    && (forall e :: e in s'.entities && e !in s.entities ==> s.entityIDs.current < e)
    && (forall e :: e in s'.entities && e in s.entities ==>
          s'.entities[e].owner == s.entities[e].owner && s'.entities[e].persist == s.entities[e].persist)
    && (forall e :: Orphaned(s, e) ==> e in s'.entities && s'.entities[e] == s.entities[e])
  }

  ghost predicate LaterMembers(s: Session, s': Session) {
    && s'.id == s.id
    && s.participantIDs.current <= s'.participantIDs.current
    && (forall p :: p in s'.participants && p !in s.participants ==> s.participantIDs.current < p)
    && (forall p :: p in s'.participants && p in s.participants ==> s'.participants[p].conn == s.participants[p].conn)
  }

  ghost predicate LaterActions(s: Session, s': Session) {
    forall e, name :: HasAction(s, e, name) && e in s'.entities ==>
      HasAction(s', e, name) && s.actions[e][name].timestamp <= s'.actions[e][name].timestamp
  }

  /** How a session may change over time. */
  ghost predicate Later(s: Session, s': Session) {
    LaterEntities(s, s') && LaterMembers(s, s') && LaterActions(s, s')
  }

  lemma LaterRefl(s: Session)
    ensures Later(s, s)
  {
  }

  lemma LaterTrans(a: Session, b: Session, c: Session)
    requires Valid(a) && Later(a, b) && Later(b, c)
    ensures Later(a, c)
  {
    hide Connected, Store.Refers;
    forall e | Orphaned(a, e) ensures e in c.entities && c.entities[e] == a.entities[e] {
      assert Orphaned(b, e);
    }
    forall e, name | HasAction(a, e, name) && e in c.entities
      ensures HasAction(c, e, name) && a.actions[e][name].timestamp <= c.actions[e][name].timestamp
    {
      assert e in a.entities && e in b.entities;
      assert HasAction(b, e, name);
    }
  }

  lemma AddEntityLater(flags: set<Flag>, s: Session, pid: nat, persist: bool, flag: int, pose: Option<Pose>)
    requires IdsIssued(s) && pid in s.participants
    ensures LaterEntities(s, AddEntity(flags, s, pid, persist, flag, pose).session)
  {
    hide Then, Broadcast;
  }

  lemma DeleteEntityLater(flags: set<Flag>, s: Session, pid: nat, id: nat)
    requires pid in s.participants
    ensures LaterEntities(s, DeleteInModules(DeleteEntity(flags, s, pid, id).session, id))
  {
    hide Then, Broadcast, Store.DeleteByEntityID;
  }

  lemma UpdatePoseLater(flags: set<Flag>, s: Session, pid: nat, id: nat, pose: Pose)
    requires pid in s.participants
    ensures LaterEntities(s, UpdatePose(flags, s, pid, id, pose).session)
  {
    hide Then, Broadcast;
  }

  lemma HandleLaterEntities(flags: set<Flag>, s: Session, pid: nat, r: Request)
    requires IdsIssued(s) && pid in s.participants
    ensures LaterEntities(s, Handle(flags, s, pid, r).session)
  {
    hide IdsIssued, AddEntity, DeleteEntity, DeleteInModules, UpdatePose, AddType, AddComponent, DeleteComponent, UpdateComponent,
      SubscribeTo, UnsubscribeFrom, SetEntityAction, AddAsset;
    match r
    case EntityAdd(persist, flag, pose) => AddEntityLater(flags, s, pid, persist, flag, pose);
    case EntityDelete(id) => DeleteEntityLater(flags, s, pid, id);
    case EntityUpdatePose(id, pose) => UpdatePoseLater(flags, s, pid, id, pose);
    case _ => HandleShape(flags, s, pid, r);
  }

  lemma HandleLaterActions(flags: set<Flag>, s: Session, pid: nat, r: Request)
    requires Valid(s) && pid in s.participants
    ensures LaterActions(s, Handle(flags, s, pid, r).session)
  {
    hide Then, Broadcast, Connected, Store.Refers, Owned, IdsIssued, Store.DeleteByEntityID, AddType, AddComponent,
      DeleteComponent, UpdateComponent, SubscribeTo, UnsubscribeFrom, AddAsset;
    if !EntityRequest(r) && !r.SetAction? {
      HandleShape(flags, s, pid, r);
    }
  }

  lemma HandleLater(flags: set<Flag>, s: Session, pid: nat, r: Request)
    requires Valid(s) && pid in s.participants
    ensures Later(s, Handle(flags, s, pid, r).session)
  {
    hide Handle, IdsIssued, Owned, Referring, Connected, LaterEntities, LaterActions;
    HandleLaterEntities(flags, s, pid, r);
    HandleLaterActions(flags, s, pid, r);
    HandleKeepsValid(flags, s, pid, r);
  }

  lemma JoinLater(flags: set<Flag>, s: Session, conn: nat, globalID: string, frame: nat)
    requires Valid(s) && s.frameIDs.CanPick(frame) && conn !in Conns(s.participants)
    ensures Later(s, Join(flags, s, conn, globalID, frame).session)
  {
    hide Join, Connected, Store.Refers, Referring, Owned;
    JoinKeepsValid(flags, s, conn, globalID, frame);
  }

  lemma LeaveLater(flags: set<Flag>, s: Session, pid: nat, order: seq<nat>, frame: nat)
    requires Valid(s) && pid in s.participants && (forall id :: id in order <==> id in s.participants[pid].entityIDs)
    requires frame in s.frameHandlers && s.frameHandlers[frame] == s.participants[pid].conn
    ensures Later(s, Leave(flags, s, pid, order, frame).session)
    ensures forall e :: e in s.entities && s.entities[e].owner == pid && s.entities[e].persist ==>
      Orphaned(Leave(flags, s, pid, order, frame).session, e)
  {
    hide Leave, Connected, Store.Refers;
    LeaveKeepsValid(flags, s, pid, order, frame);
  }

  /** Every session ever allocated is still there, and only got later. */
  ghost predicate WorldLater(w: World, w': World) {
    forall ref :: ref in w.heap ==> ref in w'.heap && Later(w.heap[ref], w'.heap[ref])
  }

  lemma WorldLaterTrans(env: Env, a: World, b: World, c: World)
    requires Inv(env, a) && WorldLater(a, b) && WorldLater(b, c)
    ensures WorldLater(a, c)
  {
    hide Valid, Later, StoredOK, ConnOK, MembersOK, LiveIDs;
    forall ref | ref in a.heap ensures ref in c.heap && Later(a.heap[ref], c.heap[ref]) {
      LaterTrans(a.heap[ref], b.heap[ref], c.heap[ref]);
    }
  }

  /** One session is replaced by a later one, and sessions may be added. */
  lemma OneLater(w: World, w': World, ref: nat)
    requires w'.heap.Keys == w.heap.Keys + {ref}
    requires ref in w.heap ==> Later(w.heap[ref], w'.heap[ref])
    requires forall r :: r in w.heap && r != ref ==> w'.heap[r] == w.heap[r]
    ensures WorldLater(w, w')
  {
    hide Later;
    forall r | r in w.heap ensures Later(w.heap[r], w'.heap[r]) {
      if r != ref {
        LaterRefl(w.heap[r]);
      }
    }
  }

  lemma MessageLater(env: Env, w: World, c: nat, request: Request)
    requires Inv(env, w)
    ensures WorldLater(w, Step(env, w, Message(c, request)).world)
  {
    hide Handle, Valid, InvBut, Later;
    var w' := Step(env, w, Message(c, request)).world;
    if Seated(w, c) {
      SeatStored(env, w, c);
      HandleLater(env.flags, SessionOf(w, c), SeatOf(w, c).participant, request);
      OneLater(w, w', SeatOf(w, c).session);
    } else {
      NoneLater(w);
    }
  }

  lemma NoneLater(w: World)
    ensures WorldLater(w, w)
  {
    hide Later;
    forall r | r in w.heap ensures Later(w.heap[r], w.heap[r]) {
      LaterRefl(w.heap[r]);
    }
  }

  lemma StandingLater(env: Env, w: World, c: nat, order: seq<nat>)
    requires Inv(env, w) && (Seated(w, c) ==> Enumerates(order, OwnedIDs(w, c)))
    ensures WorldLater(w, Standing(env, w, c, order).world)
  {
    hide Leave, Valid, InvBut, Later;
    if Seated(w, c) {
      SeatStored(env, w, c);
      LeaveLater(env.flags, SessionOf(w, c), SeatOf(w, c).participant, order, FrameOf(w, c));
      OneLater(w, Standing(env, w, c, order).world, SeatOf(w, c).session);
    } else {
      NoneLater(w);
    }
  }

  lemma EnterLater(env: Env, w: World, c: nat, ref: nat, frame: nat)
    requires InvBut(env, w, {ref}) && ref in w.heap && c in w.conns && w.conns[c].current == None
    requires w.heap[ref].frameIDs.CanPick(frame)
    ensures WorldLater(w, EnterSession(env, w, c, ref, frame).world)
  {
    hide Join, Valid, StoredOK, ConnOK, LiveIDs, Later, IdPool.CanPick;
    assert MembersOK(w, ref);
    JoinLater(env.flags, w.heap[ref], c, GlobalID(env, w.heap[ref]), frame);
    OneLater(w, EnterSession(env, w, c, ref, frame).world, ref);
  }

  lemma JoinSessionLater(env: Env, w: World, c: nat, globalID: string, picks: Picks)
    requires Inv(env, w) && Enabled(env, w, JoinSession(c, globalID, picks))
    ensures WorldLater(w, Step(env, w, JoinSession(c, globalID, picks)).world)
  {
    hide InvBut, Standing, EnterSession, Enumerates, IdPool.CanPick, GlobalSessionID, Later, WorldLater;
    NoneLater(w);
    if c in w.conns && !AlreadyThere(env, w, c, globalID) {
      LeaveKeepsInv(env, w, c, picks.order);
      StandingLater(env, w, c, picks.order);
      var w1 := Standing(env, w, c, picks.order).world;
      if globalID in w1.store && w1.store[globalID] in w1.heap {
        StoredSession(env, w1, globalID);
        EnterLater(env, w1, c, w1.store[globalID], picks.frame);
        WorldLaterTrans(env, w, w1, EnterSession(env, w1, c, w1.store[globalID], picks.frame).world);
      } else if globalID == "" {
        NewSessionLater(env, w1, c, picks);
        WorldLaterTrans(env, w, w1, Step(env, w, JoinSession(c, globalID, picks)).world);
      }
    }
  }

  lemma NewSessionLater(env: Env, w: World, c: nat, picks: Picks)
    requires Inv(env, w) && c in w.conns && w.conns[c].current == None
    requires w.ids.CanPick(picks.sessionID) && picks.allocation !in w.heap && NO_IDS.CanPick(picks.frame)
    ensures WorldLater(w, EnterSession(env, AllocateSession(env, w, picks.sessionID, picks.allocation), c,
                                       picks.allocation, picks.frame).world)
  {
    hide InvBut, EnterSession, IdPool.CanPick, GlobalSessionID, Later;
    var w1 := AllocateSession(env, w, picks.sessionID, picks.allocation);
    AllocateKeepsInv(env, w, picks.sessionID, picks.allocation);
    AllocatedKeepsConns(env, w, picks.sessionID, picks.allocation);
    EnterLater(env, w1, c, picks.allocation, picks.frame);
  }

  lemma StepLater(env: Env, w: World, e: Event)
    requires Inv(env, w) && Enabled(env, w, e)
    ensures WorldLater(w, Step(env, w, e).world)
  {
    hide InvBut, Standing, EnterSession, AllocateSession, Handle, Enumerates, WorldLater;
    match e
    case Connect(c) => ConnectLater(env, w, c);
    case JoinSession(c, globalID, picks) => JoinSessionLater(env, w, c, globalID, picks);
    case Message(c, request) => MessageLater(env, w, c, request);
    case Disconnect(c, picks) => StandingLater(env, w, c, picks.order);
  }

  lemma ConnectLater(env: Env, w: World, c: nat)
    ensures WorldLater(w, Step(env, w, Connect(c)).world)
  {
    hide Later;
    NoneLater(w);
  }

  lemma {:induction false} RunLater(env: Env, w: World, events: seq<Event>, w': World)
    requires Inv(env, w) && IsRun(env, w, events, w')
    ensures WorldLater(w, w')
    decreases |events|
  {
    hide InvBut, Step, Enabled, WorldLater;
    if events == [] {
      NoneLater(w);
    } else {
      var w1 := Step(env, w, events[0]).world;
      StepKeepsInv(env, w, events[0]);
      StepLater(env, w, events[0]);
      RunLater(env, w1, events[1..], w');
      WorldLaterTrans(env, w, w1, w');
    }
  }

  /** Once the owner of a persistent entity has left, no run deletes or moves the entity, and the owner never returns. */
  lemma PersistentSurvives(env: Env, w: World, events: seq<Event>, w': World, ref: nat, e: nat)
    requires Reachable(env, w) && IsRun(env, w, events, w') && ref in w.heap && Orphaned(w.heap[ref], e)
    ensures ref in w'.heap && Orphaned(w'.heap[ref], e) && w'.heap[ref].entities[e] == w.heap[ref].entities[e]
  {
    hide IsRun, Reachable, Connected, Store.Refers, StoredOK, ConnOK, MembersOK, LiveIDs;
    ReachableInv(env, w);
    RunLater(env, w, events, w');
    var s, s' := w.heap[ref], w'.heap[ref];
    assert Later(s, s');
  }

  /** A departure leaves the persistent entities of the one who left to nobody. */
  lemma DepartureOrphans(env: Env, w: World, c: nat, order: seq<nat>, e: nat)
    requires Reachable(env, w) && Seated(w, c) && Enumerates(order, OwnedIDs(w, c)) && e in SessionOf(w, c).entities
    requires SessionOf(w, c).entities[e].owner == SeatOf(w, c).participant && SessionOf(w, c).entities[e].persist
    ensures var ref, w' := SeatOf(w, c).session, LeaveSession(env, w, c, order).world;
      ref in w'.heap && Orphaned(w'.heap[ref], e) && w'.heap[ref].entities[e] == SessionOf(w, c).entities[e]
  {
    hide Leave, Reachable, InvBut, Connected, Store.Refers;
    ReachableInv(env, w);
    SeatStored(env, w, c);
    LeaveKeepsValid(env.flags, SessionOf(w, c), SeatOf(w, c).participant, order, FrameOf(w, c));
  }

  /** A deleted entity's id never names another entity, nor a participant's another participant. */
  lemma IdsNeverReissued(env: Env, w: World, events: seq<Event>, w': World, ref: nat)
    requires Reachable(env, w) && IsRun(env, w, events, w') && ref in w.heap
    ensures ref in w'.heap
    ensures forall e :: 1 <= e <= w.heap[ref].entityIDs.current && e !in w.heap[ref].entities ==> e !in w'.heap[ref].entities
    ensures forall p :: 1 <= p <= w.heap[ref].participantIDs.current && p !in w.heap[ref].participants ==>
      p !in w'.heap[ref].participants
    ensures forall e :: e in w.heap[ref].entities && e in w'.heap[ref].entities ==>
      w'.heap[ref].entities[e].owner == w.heap[ref].entities[e].owner
  {
    hide IsRun, Reachable, InvBut;
    ReachableInv(env, w);
    RunLater(env, w, events, w');
    assert Later(w.heap[ref], w'.heap[ref]);
  }

  /** As long as the entity exists, the time stored for one of its actions never goes back, nor is the action lost. */
  lemma TimestampsNeverDecrease(env: Env, w: World, events: seq<Event>, w': World, ref: nat, e: nat, name: string)
    requires Reachable(env, w) && IsRun(env, w, events, w') && ref in w.heap && HasAction(w.heap[ref], e, name)
    ensures ref in w'.heap
    ensures HasAction(w'.heap[ref], e, name) <==> e in w'.heap[ref].entities
    ensures HasAction(w'.heap[ref], e, name) ==> w.heap[ref].actions[e][name].timestamp <= w'.heap[ref].actions[e][name].timestamp
  {
    hide IsRun, Reachable, StoredOK, ConnOK, MembersOK, LiveIDs, Connected, Store.Refers;
    ReachableInv(env, w);
    RunLater(env, w, events, w');
    RunKeepsInv(env, w, events, w');
    assert Later(w.heap[ref], w'.heap[ref]) && Valid(w'.heap[ref]);
  }
}
