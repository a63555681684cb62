/** What every handled message and every departure keeps true of a session. */
module SessionInvariant {
  import opened Options
  import opened Ids
  import opened Components
  import opened Protocol

  ghost predicate IdsIssued(s: Session) {
    && s.participantIDs.reusable == {} && s.entityIDs.reusable == {} && s.assetIDs.reusable == {}
    && (forall p :: p in s.participants ==> 1 <= p <= s.participantIDs.current)
    && (forall e :: e in s.entities ==> 1 <= e <= s.entityIDs.current && 1 <= s.entities[e].owner <= s.participantIDs.current)
  }

  ghost function OwnedBy(entities: map<nat, Entity>, p: nat): set<nat> {
    set e | e in entities && entities[e].owner == p
  }

  /** Each participant's index holds exactly the entities it owns; a transient entity has its owner around. */
  ghost predicate Owned(s: Session) {
    && (forall p :: p in s.participants ==> s.participants[p].entityIDs == OwnedBy(s.entities, p))
    && (forall e :: e in s.entities && !s.entities[e].persist ==> s.entities[e].owner in s.participants)
  }

  /** Components, subscriptions, actions and assets refer to what is in the session. */
  ghost predicate Referring(s: Session) {
    && s.components.Refers(s.entities.Keys, s.participants.Keys)
    && ModulesRefer(s)
  }

  ghost predicate ModulesRefer(s: Session) {
    && s.actions.Keys <= s.entities.Keys
    && s.assets.Keys <= s.entities.Keys
    && (forall e :: e in s.assets ==> s.assets[e].participant == s.entities[e].owner && 1 <= s.assets[e].id <= s.assetIDs.current)
    && (forall e, f :: e in s.assets && f in s.assets && s.assets[e].id == s.assets[f].id ==> e == f)
  }

  /** Participants, frame handlers and the connections behind them correspond one to one. */
  ghost predicate Connected(s: Session) {
    && s.frameIDs.Partitions(s.frameHandlers.Keys)
    && (forall p, q :: p in s.participants && q in s.participants && s.participants[p].conn == s.participants[q].conn ==> p == q)
    && (forall f, g :: f in s.frameHandlers && g in s.frameHandlers && s.frameHandlers[f] == s.frameHandlers[g] ==> f == g)
    && s.frameHandlers.Values == Conns(s.participants)
  }

  ghost function Conns(participants: map<nat, Participant>): set<nat> {
    set p | p in participants :: participants[p].conn
  }

  ghost predicate Valid(s: Session) {
    IdsIssued(s) && Owned(s) && Referring(s) && Connected(s)
  }

  /** The same participants for the same connections, and the same frame handlers. */
  ghost predicate SameMembers(s: Session, s': Session) {
    && s'.id == s.id
    && s'.participantIDs == s.participantIDs
    && s'.participants.Keys == s.participants.Keys
    && (forall p :: p in s.participants ==> s'.participants[p].conn == s.participants[p].conn)
    && s'.frameHandlers == s.frameHandlers && s'.frameIDs == s.frameIDs
  }

  lemma NewSessionValid(id: nat)
    ensures Valid(NewSession(id))
  {
  }

  lemma SameMembersConnected(s: Session, s': Session)
    requires Connected(s) && SameMembers(s, s')
    ensures Connected(s')
  {
    forall c ensures c in Conns(s'.participants) <==> c in Conns(s.participants) {
      if p :| p in s.participants && s.participants[p].conn == c {
        assert p in s'.participants && s'.participants[p].conn == c;
      }
      if p :| p in s'.participants && s'.participants[p].conn == c {
        assert p in s.participants;
      }
    }
  }

  predicate EntityRequest(r: Request) {
    r.EntityAdd? || r.EntityDelete? || r.EntityUpdatePose?
  }

  /** Requests about components touch the component store only, those of a module its own state only. */
  lemma HandleShape(flags: set<Flag>, s: Session, pid: nat, r: Request)
    requires pid in s.participants && !EntityRequest(r)
    ensures var s' := Handle(flags, s, pid, r).session;
      if r.SetAction? then s' == s.(actions := s'.actions)
      else if r.AssetAdd? then s' == s.(assetIDs := s'.assetIDs, assets := s'.assets)
      else s' == s.(components := s'.components)
  {
    hide Then, Broadcast, BroadcastTo, NotifyAll, Store.Put, Store.Update, Store.Delete, Store.AddType;
  }

  /** The entity handlers keep the members, the ids and the ownership index. */
  lemma AddEntityKeeps(flags: set<Flag>, s: Session, pid: nat, persist: bool, flag: int, pose: Option<Pose>)
    requires IdsIssued(s) && Owned(s) && ModulesRefer(s) && pid in s.participants
    ensures var s' := AddEntity(flags, s, pid, persist, flag, pose).session;
      SameMembers(s, s') && IdsIssued(s') && Owned(s') && ModulesRefer(s')
  {
    hide Then, Broadcast;
  }

  lemma DeleteEntityMembers(flags: set<Flag>, s: Session, pid: nat, id: nat)
    requires IdsIssued(s) && pid in s.participants
    ensures var s' := DeleteInModules(DeleteEntity(flags, s, pid, id).session, id); SameMembers(s, s') && IdsIssued(s')
  {
    hide Then, Broadcast, Store.DeleteByEntityID;
  }

  lemma DeleteEntityOwned(flags: set<Flag>, s: Session, pid: nat, id: nat)
    requires Owned(s) && pid in s.participants
    ensures Owned(DeleteInModules(DeleteEntity(flags, s, pid, id).session, id))
  {
    hide Then, Broadcast, Store.DeleteByEntityID;
  }

  lemma DeleteEntityModules(flags: set<Flag>, s: Session, pid: nat, id: nat)
    requires ModulesRefer(s) && pid in s.participants
    ensures ModulesRefer(DeleteInModules(DeleteEntity(flags, s, pid, id).session, id))
  {
    hide Then, Broadcast, Store.DeleteByEntityID;
  }

  lemma UpdatePoseKeeps(flags: set<Flag>, s: Session, pid: nat, id: nat, pose: Pose)
    requires IdsIssued(s) && Owned(s) && ModulesRefer(s) && pid in s.participants
    ensures var s' := UpdatePose(flags, s, pid, id, pose).session;
      SameMembers(s, s') && IdsIssued(s') && Owned(s') && ModulesRefer(s')
  {
    hide Then, Broadcast;
  }

  lemma ActionsRefer(s: Session, pid: nat, request: Option<ActionRequest>)
    requires ModulesRefer(s)
    ensures ModulesRefer(SetEntityAction(s, pid, request).session)
  {
    hide Then, Broadcast;
  }

  lemma AssetsRefer(s: Session, pid: nat, assetId: string, id: nat)
    requires ModulesRefer(s) && IdsIssued(s)
    ensures ModulesRefer(AddAsset(s, pid, assetId, id).session) && IdsIssued(AddAsset(s, pid, assetId, id).session)
  {
    hide Then, Broadcast;
  }

  lemma ComponentRequestKeepsStore(flags: set<Flag>, s: Session, pid: nat, r: Request)
    requires s.components.Refers(s.entities.Keys, s.participants.Keys) && pid in s.participants && !EntityRequest(r)
    ensures var s' := Handle(flags, s, pid, r).session; s'.components.Refers(s.entities.Keys, s.participants.Keys)
  {
    hide Sent, Then, Broadcast, BroadcastTo, NotifyAll, Store.Refers, AddEntity, DeleteEntity, DeleteInModules, UpdatePose;
    var c, es, ps := s.components, s.entities.Keys, s.participants.Keys;
    match r
    case TypeAdd(name) => AddTypeKeeps(c, name, es, ps);
    case ComponentAdd(typ, id, data) =>
      if typ in c.nameIndex && id in es {
        PutKeeps(c, typ, id, data, es, ps);
      }
    case ComponentDelete(typ, id) => DeleteKeeps(c, typ, id, es, ps);
    case ComponentUpdate(typ, id, data) => UpdateKeeps(c, typ, id, data, es, ps);
    case Subscribe(typ) =>
      if typ in c.nameIndex {
        SubscribeKeeps(c, typ, pid, es, ps);
      }
    case Unsubscribe(typ) => UnsubscribeKeepsOne(c, typ, pid, es, ps);
    case _ => HandleShape(flags, s, pid, r);
  }

  lemma HandleKeepsStore(flags: set<Flag>, s: Session, pid: nat, r: Request)
    requires s.components.Refers(s.entities.Keys, s.participants.Keys) && pid in s.participants
    ensures var s' := Handle(flags, s, pid, r).session; s'.components.Refers(s'.entities.Keys, s'.participants.Keys)
  {
    hide Then, Broadcast, Store.Refers, AddType, AddComponent, DeleteComponent, UpdateComponent,
      SubscribeTo, UnsubscribeFrom, SetEntityAction, AddAsset;
    var s', c, es, ps := Handle(flags, s, pid, r).session, s.components, s.entities.Keys, s.participants.Keys;
    match r
    case EntityAdd(_, _, _) =>
      assert s'.participants.Keys == ps;
      RefersMore(c, es, ps, s'.entities.Keys, ps);
    case EntityDelete(id) =>
      assert s'.participants.Keys == ps;
      DeleteEntityKeeps(c, id, es, ps);
      assert (s.entities - {id}).Keys == es - {id};
    case EntityUpdatePose(_, _) => assert s'.entities.Keys == es;
    case _ =>
      HandleShape(flags, s, pid, r);
      ComponentRequestKeepsStore(flags, s, pid, r);
  }

  /** What is said of members, entities and module states does not depend on the component store. */
  lemma OutsideTheStore(s: Session, c: Store, actions: Actions)
    requires IdsIssued(s) && Owned(s)
    ensures var s' := s.(components := c, actions := actions); SameMembers(s, s') && IdsIssued(s') && Owned(s')
    ensures ModulesRefer(s) && actions == s.actions ==> ModulesRefer(s.(components := c, actions := actions))
  {
  }

  lemma OutsideTheAssets(s: Session, ids: IdPool, assets: map<nat, Asset>)
    requires Owned(s)
    ensures var s' := s.(assetIDs := ids, assets := assets); SameMembers(s, s') && Owned(s')
  {
  }

  lemma HandleKeepsRest(flags: set<Flag>, s: Session, pid: nat, r: Request)
    requires IdsIssued(s) && Owned(s) && ModulesRefer(s) && pid in s.participants
    ensures var s' := Handle(flags, s, pid, r).session;
      SameMembers(s, s') && IdsIssued(s') && Owned(s') && ModulesRefer(s')
  {
    hide AddEntity, DeleteEntity, DeleteInModules, UpdatePose, AddType, AddComponent, DeleteComponent, UpdateComponent,
      SubscribeTo, UnsubscribeFrom, SetEntityAction, AddAsset, SameMembers, IdsIssued, Owned, ModulesRefer;
    var s' := Handle(flags, s, pid, r).session;
    match r
    case EntityAdd(persist, flag, pose) => AddEntityKeeps(flags, s, pid, persist, flag, pose);
    case EntityDelete(id) =>
      DeleteEntityMembers(flags, s, pid, id);
      DeleteEntityOwned(flags, s, pid, id);
      DeleteEntityModules(flags, s, pid, id);
    case EntityUpdatePose(id, pose) => UpdatePoseKeeps(flags, s, pid, id, pose);
    case SetAction(request) =>
      HandleShape(flags, s, pid, r);
      OutsideTheStore(s, s.components, s'.actions);
      ActionsRefer(s, pid, request);
    case AssetAdd(assetId, id) =>
      HandleShape(flags, s, pid, r);
      OutsideTheAssets(s, s'.assetIDs, s'.assets);
      AssetsRefer(s, pid, assetId, id);
    case _ =>
      HandleShape(flags, s, pid, r);
      OutsideTheStore(s, s'.components, s.actions);
  }

  /** Every handled message keeps the session valid and its members as they are. */
  lemma HandleKeepsValid(flags: set<Flag>, s: Session, pid: nat, r: Request)
    requires Valid(s) && pid in s.participants
    ensures var s' := Handle(flags, s, pid, r).session; Valid(s') && SameMembers(s, s')
  {
    hide Handle, IdsIssued, Owned, ModulesRefer, Connected, SameMembers, Store.Refers;
    HandleKeepsRest(flags, s, pid, r);
    HandleKeepsStore(flags, s, pid, r);
    SameMembersConnected(s, Handle(flags, s, pid, r).session);
  }

  ghost function Joined(s: Session, conn: nat, frame: nat): Session {
    s.(participantIDs := s.participantIDs.Take(s.participantIDs.current + 1),
       participants := s.participants[s.participantIDs.current + 1 := Participant(conn, {})],
       frameIDs := s.frameIDs.Take(frame),
       frameHandlers := s.frameHandlers[frame := conn])
  }

  lemma JoinedConnected(s: Session, conn: nat, frame: nat)
    requires IdsIssued(s) && Connected(s) && s.frameIDs.CanPick(frame) && conn !in Conns(s.participants)
    ensures frame !in s.frameHandlers && s.participantIDs.current + 1 !in s.participants
    ensures Connected(Joined(s, conn, frame))
  {
    var s', pid := Joined(s, conn, frame), s.participantIDs.current + 1;
    TakeKeepsPartition(s.frameIDs, s.frameHandlers.Keys, frame);
    JoinConns(s.participants, s.frameHandlers, pid, conn, frame);
    assert s'.frameHandlers.Keys == s.frameHandlers.Keys + {frame};
    forall p | p in s.participants ensures s.participants[p].conn != conn {
      assert s.participants[p].conn in Conns(s.participants);
    }
    forall f | f in s.frameHandlers ensures s.frameHandlers[f] != conn {
      assert s.frameHandlers[f] in s.frameHandlers.Values;
    }
  }

  lemma JoinedOwned(s: Session, conn: nat, frame: nat)
    requires IdsIssued(s) && Owned(s)
    ensures IdsIssued(Joined(s, conn, frame)) && Owned(Joined(s, conn, frame))
  {
    assert OwnedBy(s.entities, s.participantIDs.current + 1) == {};
  }

  lemma JoinedReferring(s: Session, conn: nat, frame: nat)
    requires Referring(s)
    ensures Referring(Joined(s, conn, frame))
  {
    hide Store.Refers;
    RefersMore(s.components, s.entities.Keys, s.participants.Keys, s.entities.Keys, Joined(s, conn, frame).participants.Keys);
  }

  /** A join adds one participant with an id never issued before, and one frame handler, for its connection. */
  lemma JoinKeepsValid(flags: set<Flag>, s: Session, conn: nat, globalID: string, frame: nat)
    requires Valid(s) && s.frameIDs.CanPick(frame) && conn !in Conns(s.participants)
    ensures var s' := Join(flags, s, conn, globalID, frame).session;
      Valid(s') && s' == Joined(s, conn, frame)
      && s.participantIDs.current + 1 !in s.participants && frame !in s.frameHandlers
  {
    hide Then, Broadcast, IfNotSet, IdsIssued, Owned, Referring, Connected;
    JoinedConnected(s, conn, frame);
    JoinedOwned(s, conn, frame);
    JoinedReferring(s, conn, frame);
  }

  lemma JoinConns(participants: map<nat, Participant>, handlers: map<nat, nat>, pid: nat, conn: nat, frame: nat)
    requires pid !in participants && frame !in handlers && handlers.Values == Conns(participants)
    ensures handlers[frame := conn].Values == Conns(participants[pid := Participant(conn, {})])
  {
    var ps, hs := participants[pid := Participant(conn, {})], handlers[frame := conn];
    assert hs[frame] == conn && ps[pid].conn == conn;
    forall c ensures c in hs.Values <==> c in Conns(ps) {
      if c in handlers.Values {
        var f :| f in handlers && handlers[f] == c;
        assert hs[f] == c;
      }
      if p :| p in participants && participants[p].conn == c {
        assert ps[p].conn == c;
      }
    }
  }

  ghost function Dropped(s: Session, order: seq<nat>): set<nat> {
    set id | id in s.entities && id in order && !s.entities[id].persist
  }

  /** Whatever the order, the visited transient entities go, with their components, and nothing else does. */
  lemma {:induction false} DropOwnedMeaning(flags: set<Flag>, s: Session, pid: nat, order: seq<nat>)
    requires s.components.Refers(s.entities.Keys, s.participants.Keys)
    ensures var s' := DropOwned(flags, s, pid, order).session;
      && s' == s.(components := s'.components, entities := s.entities - Dropped(s, order))
      && s'.components.Refers(s'.entities.Keys, s.participants.Keys)
      && s'.components.subscriptions == s.components.subscriptions
      && (forall typ, e :: s'.components.Has(typ, e) <==> s.components.Has(typ, e) && e !in Dropped(s, order))
    decreases |order|
  {
    hide Then, Broadcast, IfNotSet;
    if order == [] {
      assert s.entities - Dropped(s, order) == s.entities;
    } else {
      var id := order[0];
      if id !in s.entities || s.entities[id].persist {
        DropOwnedMeaning(flags, s, pid, order[1..]);
        assert Dropped(s, order) == Dropped(s, order[1..]);
      } else {
        var t := s.(components := s.components.DeleteByEntityID(id), entities := s.entities - {id});
        DeleteEntityKeeps(s.components, id, s.entities.Keys, s.participants.Keys);
        assert t.entities.Keys == s.entities.Keys - {id};
        DropOwnedMeaning(flags, t, pid, order[1..]);
        assert Dropped(s, order) == Dropped(t, order[1..]) + {id};
        assert t.entities - Dropped(t, order[1..]) == s.entities - Dropped(s, order);
      }
    }
  }

  /** The session after a departure, whatever the order in which the entities were visited. */
  ghost function Left(s: Session, pid: nat, frame: nat, c: Store): Session
    requires pid in s.participants
  {
    var gone := set id | id in s.participants[pid].entityIDs && id in s.entities && !s.entities[id].persist;
    s.(actions := s.actions - Forgotten(s, pid), assets := s.assets - Forgotten(s, pid), components := c,
       entities := s.entities - gone,
       frameHandlers := s.frameHandlers - {frame}, frameIDs := s.frameIDs.Return(frame),
       participants := s.participants - {pid})
  }

  lemma LeaveShape(flags: set<Flag>, s: Session, pid: nat, order: seq<nat>, frame: nat)
    requires pid in s.participants && (forall id :: id in order <==> id in s.participants[pid].entityIDs)
    requires s.components.Refers(s.entities.Keys, s.participants.Keys)
    ensures var s' := Leave(flags, s, pid, order, frame).session;
      && s' == Left(s, pid, frame, s'.components)
      && s'.components.Refers(s'.entities.Keys, s'.participants.Keys)
  {
    hide Then, Broadcast, IfNotSet, Store.Refers, DropOwned;
    var s1 := s.(actions := s.actions - Forgotten(s, pid), assets := s.assets - Forgotten(s, pid),
                 components := s.components.UnsubscribeByParticipant(pid));
    UnsubscribeKeeps(s.components, pid, s.entities.Keys, s.participants.Keys);
    DropWithout(flags, s1, pid, order);
    assert Dropped(s1, order) == set id | id in s.participants[pid].entityIDs && id in s.entities && !s.entities[id].persist;
    assert (s.participants - {pid}).Keys == s.participants.Keys - {pid};
  }

  /** The same as DropOwnedMeaning, for a store in which the leaving participant has no subscription left. */
  lemma DropWithout(flags: set<Flag>, s: Session, pid: nat, order: seq<nat>)
    requires s.components.Refers(s.entities.Keys, s.participants.Keys - {pid})
    ensures var s' := DropOwned(flags, s, pid, order).session;
      && s' == s.(components := s'.components, entities := s.entities - Dropped(s, order))
      && s'.components.Refers(s'.entities.Keys, s.participants.Keys - {pid})
  {
    hide Then, Broadcast, IfNotSet, DropOwned;
    RefersMore(s.components, s.entities.Keys, s.participants.Keys - {pid}, s.entities.Keys, s.participants.Keys);
    DropOwnedMeaning(flags, s, pid, order);
  }

  lemma LeftConnected(s: Session, pid: nat, frame: nat, c: Store)
    requires Connected(s) && pid in s.participants && frame in s.frameHandlers
    requires s.frameHandlers[frame] == s.participants[pid].conn
    ensures Connected(Left(s, pid, frame, c))
  {
    var s' := Left(s, pid, frame, c);
    ReturnKeepsPartition(s.frameIDs, s.frameHandlers.Keys, frame);
    assert s'.frameHandlers.Keys == s.frameHandlers.Keys - {frame};
    var k := s.participants[pid].conn;
    forall x ensures x in s'.frameHandlers.Values <==> x in s.frameHandlers.Values && x != k {
      if x in s.frameHandlers.Values && x != k {
        var f :| f in s.frameHandlers && s.frameHandlers[f] == x;
        assert s'.frameHandlers[f] == x;
      }
    }
    forall x ensures x in Conns(s'.participants) <==> x in Conns(s.participants) && x != k {
      if x in Conns(s.participants) && x != k {
        var p :| p in s.participants && s.participants[p].conn == x;
        assert s'.participants[p].conn == x;
      }
    }
  }

  lemma LeftOwned(s: Session, pid: nat, frame: nat, c: Store)
    requires IdsIssued(s) && Owned(s) && pid in s.participants
    ensures IdsIssued(Left(s, pid, frame, c)) && Owned(Left(s, pid, frame, c))
  {
    var s' := Left(s, pid, frame, c);
    forall p | p in s'.participants ensures s'.participants[p].entityIDs == OwnedBy(s'.entities, p) {
      assert s.participants[p].entityIDs == OwnedBy(s.entities, p);
      assert OwnedBy(s'.entities, p) == OwnedBy(s.entities, p);
    }
  }

  lemma LeftModules(s: Session, pid: nat, frame: nat, c: Store)
    requires ModulesRefer(s) && pid in s.participants
    ensures ModulesRefer(Left(s, pid, frame, c))
  {
  }

  /** A departure keeps the session valid although the modules forget entities before the session removes them. */
  lemma LeaveKeepsValid(flags: set<Flag>, s: Session, pid: nat, order: seq<nat>, frame: nat)
    requires Valid(s) && pid in s.participants && (forall id :: id in order <==> id in s.participants[pid].entityIDs)
    requires frame in s.frameHandlers && s.frameHandlers[frame] == s.participants[pid].conn
    ensures var s' := Leave(flags, s, pid, order, frame).session;
      Valid(s') && s' == Left(s, pid, frame, s'.components)
  {
    hide Leave, IdsIssued, Owned, ModulesRefer, Connected, Store.Refers;
    LeaveShape(flags, s, pid, order, frame);
    var c := Leave(flags, s, pid, order, frame).session.components;
    LeftConnected(s, pid, frame, c);
    LeftOwned(s, pid, frame, c);
    LeftModules(s, pid, frame, c);
  }
}
