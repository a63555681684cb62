/** A client's replica of its session, kept up by the messages it is sent. */
module Replicas {
  import opened Options
  import opened Ids
  import opened Components
  import opened Protocol
  import opened SessionInvariant

  datatype Replica = Replica(
    participants: set<nat>,
    entities: map<nat, EntityInfo>,
    actions: Actions,
    assets: map<nat, Asset>)

  /** What a replica should hold: everything of the session that clients are told about. */
  function ViewOf(s: Session): Replica {
    Replica(s.participants.Keys, Infos(s.entities), s.actions, s.assets)
  }

  function Forget(r: Replica, entity: nat): Replica {
    r.(entities := r.entities - {entity}, actions := r.actions - {entity}, assets := r.assets - {entity})
  }

  function Move(r: Replica, entity: nat, pose: Pose): Replica {
    if entity in r.entities then r.(entities := r.entities[entity := r.entities[entity].(pose := pose)]) else r
  }

  /** A client that receives one message. */
  function Apply(r: Replica, m: Msg): Replica {
    match m
    case SessionState(participants, entities, _) => r.(participants := participants, entities := entities)
    case VikjaState(actions) => r.(actions := actions)
    case OdalState(assets) => r.(assets := assets)
    case JoinBroadcast(p) => r.(participants := r.participants + {p})
    case LeaveBroadcast(p) => r.(participants := r.participants - {p})
    case EntityAddBroadcast(e, info) => r.(entities := r.entities[e := info])
    case EntityDeleteBroadcast(e) => Forget(r, e)
    case PoseBroadcast(e, pose) => Move(r, e, pose)
    case ActionBroadcast(e, name, a) => r.(actions := PutAction(r.actions, e, name, a))
    case AssetAddBroadcast(e, asset) => r.(assets := r.assets[e := asset])
    case _ => r
  }

  function ApplyAll(r: Replica, ms: seq<Msg>): Replica
    decreases |ms|
  {
    if ms == [] then r else ApplyAll(Apply(r, ms[0]), ms[1..])
  }

  /** A client that is answered: it knows its own request, and learns from the reply whether it was granted. */
  function ApplyOwn(r: Replica, me: nat, request: Request, ms: seq<Msg>): Replica {
    match request
    case EntityAdd(_, flag, pose) =>
      if ms != [] && ms[0].EntityAddResponse? then
        r.(entities := r.entities[ms[0].entity := EntityInfo(me, flag, if pose.Some? then pose.value else NO_POSE)])
      else r
    case EntityDelete(e) => if ms == [EntityDeleteResponse] then Forget(r, e) else r
    case EntityUpdatePose(e, pose) => if e in r.entities && r.entities[e].owner == me then Move(r, e, pose) else r
    case SetAction(request) =>
      if ms == [ActionResponse] && request.Some? && request.value.timestamp.Some? then
        var a := request.value;
        r.(actions := PutAction(r.actions, a.entity, a.name, Action(a.timestamp.value, a.data)))
      else r
    case AssetAdd(assetId, e) =>
      if ms != [] && ms[0].AssetAddResponse? then r.(assets := r.assets[e := Asset(ms[0].id, assetId, me)]) else r
    case _ => r
  }

  lemma ApplyOne(r: Replica, m: Msg)
    ensures ApplyAll(r, [m]) == Apply(r, m)
  {
    assert ApplyAll(Apply(r, m), [m][1..]) == Apply(r, m);
  }

  lemma {:induction false} ApplyConcat(r: Replica, a: seq<Msg>, b: seq<Msg>)
    ensures ApplyAll(r, a + b) == ApplyAll(ApplyAll(r, a), b)
    decreases |a|
  {
    if a == [] {
      assert a + b == b;
    } else {
      assert (a + b)[1..] == a[1..] + b && (a + b)[0] == a[0];
      ApplyConcat(Apply(r, a[0]), a[1..], b);
    }
  }

  /** What a broadcast sends to one participant besides the sender. */
  lemma BroadcastSent(s: Session, pid: nat, m: Msg, reply: Outbox, q: nat)
    requires q in s.participants && q != pid && q !in reply
    ensures Sent(Then(reply, Broadcast(s, pid, m)), q) == [m]
    ensures Sent(Then(Broadcast(s, pid, m), reply), q) == [m]
    ensures Sent(Broadcast(s, pid, m), q) == [m]
  {
  }

  lemma BroadcastReply(s: Session, pid: nat, m: Msg, reply: Msg)
    ensures Sent(Then(Reply(pid, reply), Broadcast(s, pid, m)), pid) == [reply]
  {
  }

  lemma EntityAddSyncs(s: Session, pid: nat, persist: bool, flag: int, pose: Option<Pose>, q: nat)
    requires pid in s.participants && q in s.participants
    ensures var result := AddEntity({}, s, pid, persist, flag, pose); var request := EntityAdd(persist, flag, pose);
      var ms := Sent(result.out, q);
      (if q == pid then ApplyOwn(ViewOf(s), pid, request, ms) else ApplyAll(ViewOf(s), ms)) == ViewOf(result.session)
  {
    hide Then, Sent, Broadcast;
    var result := AddEntity({}, s, pid, persist, flag, pose);
    var id := s.entityIDs.current + 1;
    var m := EntityAddBroadcast(id, Info(result.session.entities[id]));
    assert result.out == Then(Reply(pid, EntityAddResponse(id)), Broadcast(s, pid, m));
    assert Infos(result.session.entities) == Infos(s.entities)[id := Info(result.session.entities[id])];
    assert result.session.participants.Keys == s.participants.Keys;
    if q == pid {
      BroadcastReply(s, pid, m, EntityAddResponse(id));
    } else {
      BroadcastSent(s, pid, m, Reply(pid, EntityAddResponse(id)), q);
      ApplyOne(ViewOf(s), m);
    }
  }

  lemma RefusedSyncs(s: Session, pid: nat, code: ErrorCode, q: nat)
    ensures Sent(Refuse(s, pid, code).out, q) == if q == pid then [Error(code)] else []
  {
  }

  lemma EntityDeleteSyncs(s: Session, pid: nat, id: nat, q: nat)
    requires ModulesRefer(s) && pid in s.participants && q in s.participants
    ensures var result := Handle({}, s, pid, EntityDelete(id)); var ms := Sent(result.out, q);
      (if q == pid then ApplyOwn(ViewOf(s), pid, EntityDelete(id), ms) else ApplyAll(ViewOf(s), ms)) == ViewOf(result.session)
  {
    hide Then, Sent, Broadcast, Store.DeleteByEntityID;
    var result := Handle({}, s, pid, EntityDelete(id));
    if id in s.entities && s.entities[id].owner == pid {
      var m := EntityDeleteBroadcast(id);
      assert result.out == Then(Reply(pid, EntityDeleteResponse), Broadcast(s, pid, m));
      assert Infos(result.session.entities) == Infos(s.entities) - {id};
      assert result.session.participants.Keys == s.participants.Keys;
      BroadcastReply(s, pid, m, EntityDeleteResponse);
      if q != pid {
        BroadcastSent(s, pid, m, Reply(pid, EntityDeleteResponse), q);
        ApplyOne(ViewOf(s), m);
      }
    } else {
      var code := if id in s.entities then Unauthorized else NotFound;
      RefusedSyncs(s, pid, code, q);
      assert id !in s.entities ==> s.actions - {id} == s.actions && s.assets - {id} == s.assets;
    }
  }

  lemma UpdatePoseSyncs(s: Session, pid: nat, id: nat, pose: Pose, q: nat)
    requires pid in s.participants && q in s.participants
    ensures var result := UpdatePose({}, s, pid, id, pose); var ms := Sent(result.out, q);
      (if q == pid then ApplyOwn(ViewOf(s), pid, EntityUpdatePose(id, pose), ms) else ApplyAll(ViewOf(s), ms)) == ViewOf(result.session)
  {
    hide Then;
    var result := UpdatePose({}, s, pid, id, pose);
    if id in s.entities && s.entities[id].owner == pid {
      assert Infos(result.session.entities) == Move(ViewOf(s), id, pose).entities;
      if q != pid {
        BroadcastSent(s, pid, PoseBroadcast(id, pose), map[], q);
        ApplyOne(ViewOf(s), PoseBroadcast(id, pose));
      }
    }
  }

  lemma SetActionSyncs(s: Session, pid: nat, request: Option<ActionRequest>, q: nat)
    requires pid in s.participants && q in s.participants
    ensures var result := SetEntityAction(s, pid, request); var ms := Sent(result.out, q);
      (if q == pid then ApplyOwn(ViewOf(s), pid, SetAction(request), ms) else ApplyAll(ViewOf(s), ms)) == ViewOf(result.session)
  {
    hide Then, Sent, Broadcast;
    var result := SetEntityAction(s, pid, request);
    if result == Refuse(s, pid, BadRequest) {
      RefusedSyncs(s, pid, BadRequest, q);
    } else {
      var r := request.value;
      var m := ActionBroadcast(r.entity, r.name, Action(r.timestamp.value, r.data));
      BroadcastReply(s, pid, m, ActionResponse);
      if q != pid {
        BroadcastSent(s, pid, m, Reply(pid, ActionResponse), q);
        ApplyOne(ViewOf(s), m);
      }
    }
  }

  lemma AddAssetSyncs(s: Session, pid: nat, assetId: string, id: nat, q: nat)
    requires pid in s.participants && q in s.participants
    ensures var result := AddAsset(s, pid, assetId, id); var ms := Sent(result.out, q);
      (if q == pid then ApplyOwn(ViewOf(s), pid, AssetAdd(assetId, id), ms) else ApplyAll(ViewOf(s), ms)) == ViewOf(result.session)
  {
    hide Then, Sent, Broadcast;
    var result := AddAsset(s, pid, assetId, id);
    if assetId == "" || id !in s.entities || s.entities[id].owner != pid {
      RefusedSyncs(s, pid, BadRequest, q);
      RefusedSyncs(s, pid, NotFound, q);
      RefusedSyncs(s, pid, Unauthorized, q);
    } else {
      var asset := Asset(s.assetIDs.current + 1, assetId, pid);
      BroadcastReply(s, pid, AssetAddBroadcast(id, asset), AssetAddResponse(asset.id));
      if q != pid {
        BroadcastSent(s, pid, AssetAddBroadcast(id, asset), Reply(pid, AssetAddResponse(asset.id)), q);
        ApplyOne(ViewOf(s), AssetAddBroadcast(id, asset));
      }
    }
  }

  predicate ComponentMsg(m: Msg) {
    m.Error? || m.TypeAddResponse? || m.ComponentAddResponse? || m.ComponentAddBroadcast? || m.ComponentDeleteResponse?
    || m.ComponentDeleteBroadcast? || m.ComponentUpdateBroadcast? || m.SubscribeResponse? || m.UnsubscribeResponse?
    || m.ComponentListResponse?
  }

  lemma {:induction false} ComponentMsgsIgnored(r: Replica, ms: seq<Msg>)
    requires forall m :: m in ms ==> ComponentMsg(m)
    ensures ApplyAll(r, ms) == r
    decreases |ms|
  {
    if ms != [] {
      assert ComponentMsg(ms[0]);
      ComponentMsgsIgnored(r, ms[1..]);
    }
  }

  ghost predicate Quiet(out: Outbox) {
    forall p, m :: p in out && m in out[p] ==> ComponentMsg(m)
  }

  lemma QuietThen(a: Outbox, b: Outbox)
    requires Quiet(a) && Quiet(b)
    ensures Quiet(Then(a, b))
  {
  }

  lemma QuietNotify(s: Session, pid: nat, typ: nat, m: Msg, reply: Msg)
    requires ComponentMsg(m) && ComponentMsg(reply)
    ensures Quiet(Then(Reply(pid, reply), NotifyAll(s, pid, typ, m))) && Quiet(Then(NotifyAll(s, pid, typ, m), Reply(pid, reply)))
  {
    QuietThen(Reply(pid, reply), NotifyAll(s, pid, typ, m));
    QuietThen(NotifyAll(s, pid, typ, m), Reply(pid, reply));
  }

  /** Requests about components send messages that leave replicas alone. */
  lemma ComponentRequestQuiet(s: Session, pid: nat, request: Request)
    requires pid in s.participants && !EntityRequest(request) && !request.SetAction? && !request.AssetAdd?
    ensures Quiet(Handle({}, s, pid, request).out)
  {
    hide Then, NotifyAll, Store.Put, Store.Update, Store.Delete, Store.AddType, Store.Subscribe, Store.Unsubscribe,
      AddEntity, DeleteEntity, DeleteInModules, UpdatePose, SetEntityAction, AddAsset;
    match request
    case ComponentAdd(typ, id, data) => QuietNotify(s, pid, typ, ComponentAddBroadcast(typ, id, data), ComponentAddResponse);
    case ComponentDelete(typ, id) => QuietNotify(s, pid, typ, ComponentDeleteBroadcast(typ, id), ComponentDeleteResponse);
    case _ =>
  }

  /** After a handled message, each client's own messages bring its replica from the old session to the new one. */
  lemma HandleSyncs(s: Session, pid: nat, request: Request, q: nat)
    requires ModulesRefer(s) && pid in s.participants && q in s.participants
    ensures var result := Handle({}, s, pid, request); var ms := Sent(result.out, q);
      (if q == pid then ApplyOwn(ViewOf(s), pid, request, ms) else ApplyAll(ViewOf(s), ms)) == ViewOf(result.session)
  {
    hide AddEntity, DeleteEntity, UpdatePose, SetEntityAction, AddAsset, DeleteInModules, ModulesRefer;
    match request
    case EntityAdd(persist, flag, pose) => EntityAddSyncs(s, pid, persist, flag, pose, q);
    case EntityDelete(id) => EntityDeleteSyncs(s, pid, id, q);
    case EntityUpdatePose(id, pose) => UpdatePoseSyncs(s, pid, id, pose, q);
    case SetAction(r) => SetActionSyncs(s, pid, r, q);
    case AssetAdd(assetId, id) => AddAssetSyncs(s, pid, assetId, id, q);
    case _ =>
      HandleShape({}, s, pid, request);
      ComponentRequestQuiet(s, pid, request);
      ComponentMsgsIgnored(ViewOf(s), Sent(Handle({}, s, pid, request).out, q));
  }

  /** The messages of a join, for the newcomer and for the others. */
  lemma JoinSent(s: Session, conn: nat, globalID: string, frame: nat)
    requires s.participantIDs.current + 1 !in s.participants
    ensures var result := Join({}, s, conn, globalID, frame); var pid := s.participantIDs.current + 1; var s' := result.session;
      && s'.participants.Keys == s.participants.Keys + {pid}
      && Sent(result.out, pid) == [JoinResponse(globalID, pid),
                                   SessionState(s'.participants.Keys, Infos(s'.entities), s'.components.entityComponents)]
      && forall q :: q in s.participants ==> Sent(result.out, q) == [JoinBroadcast(pid)]
  {
    hide Broadcast, Infos, Then, Sent;
    var result, pid := Join({}, s, conn, globalID, frame), s.participantIDs.current + 1;
    var s' := result.session;
    var state := SessionState(s'.participants.Keys, Infos(s'.entities), s'.components.entityComponents);
    var own := Then(Reply(pid, JoinResponse(globalID, pid)), Reply(pid, state));
    assert result.out == Then(own, Broadcast(s', pid, JoinBroadcast(pid)));
    OwnMessages(pid, JoinResponse(globalID, pid), state);
    JoinBroadcastSent(s', pid, own);
    forall q | q in s.participants ensures Sent(result.out, q) == [JoinBroadcast(pid)] {
      BroadcastSent(s', pid, JoinBroadcast(pid), own, q);
    }
  }

  lemma OwnMessages(pid: nat, a: Msg, b: Msg)
    ensures var own := Then(Reply(pid, a), Reply(pid, b)); own.Keys == {pid} && Sent(own, pid) == [a, b]
  {
  }

  /** A join brings the others' replicas up to date, and gives the newcomer the whole session. */
  lemma JoinSyncs(s: Session, conn: nat, globalID: string, frame: nat, q: nat, r: Replica)
    requires s.participantIDs.current + 1 !in s.participants
    ensures var result := Join({}, s, conn, globalID, frame); var pid := s.participantIDs.current + 1;
      && (q in s.participants ==> ApplyAll(ViewOf(s), Sent(result.out, q)) == ViewOf(result.session))
      && ApplyAll(r, Sent(Then(result.out, ModuleStates(result.session, pid)), pid)) == ViewOf(result.session)
  {
    hide Broadcast, Infos, Join;
    var result, pid := Join({}, s, conn, globalID, frame), s.participantIDs.current + 1;
    var s' := result.session;
    JoinSent(s, conn, globalID, frame);
    JoinKeepsView(s, conn, globalID, frame);
    ApplyOne(ViewOf(s), JoinBroadcast(pid));
    var ms := Sent(result.out, pid) + [VikjaState(s'.actions), OdalState(s'.assets)];
    assert Sent(Then(result.out, ModuleStates(s', pid)), pid) == ms;
    JoinMessages(r, ms, s');
  }

  lemma JoinKeepsView(s: Session, conn: nat, globalID: string, frame: nat)
    ensures var s', pid := Join({}, s, conn, globalID, frame).session, s.participantIDs.current + 1;
      ViewOf(s') == ViewOf(s).(participants := s.participants.Keys + {pid})
  {
    hide Then, Broadcast, IfNotSet;
  }

  lemma JoinBroadcastSent(s: Session, pid: nat, own: Outbox)
    ensures Sent(Then(own, Broadcast(s, pid, JoinBroadcast(pid))), pid) == Sent(own, pid)
  {
  }

  lemma JoinMessages(r: Replica, ms: seq<Msg>, s: Session)
    requires |ms| == 4 && ms[0].JoinResponse? && ms[1].SessionState? && ms[2] == VikjaState(s.actions) && ms[3] == OdalState(s.assets)
    requires ms[1].participants == s.participants.Keys && ms[1].entities == Infos(s.entities)
    ensures ApplyAll(r, ms) == ViewOf(s)
  {
    var r1, r2, r3 := Apply(r, ms[0]), Apply(Apply(r, ms[0]), ms[1]), Apply(Apply(Apply(r, ms[0]), ms[1]), ms[2]);
    assert ms[1..][0] == ms[1] && ms[1..][1..][0] == ms[2] && ms[1..][1..][1..] == [ms[3]];
    ApplyOne(r3, ms[3]);
    assert ApplyAll(r, ms) == ApplyAll(r1, ms[1..]) == ApplyAll(r2, ms[1..][1..]) == ApplyAll(r3, [ms[3]]);
  }

  ghost function Forgot(r: Replica, gone: set<nat>): Replica {
    r.(entities := r.entities - gone, actions := r.actions - gone, assets := r.assets - gone)
  }

  /** One delete broadcast per dropped entity, in any order, makes a replica forget exactly the dropped ones. */
  lemma {:induction false} DropSyncs(s: Session, pid: nat, order: seq<nat>, q: nat, r: Replica)
    requires q in s.participants && q != pid
    ensures ApplyAll(r, Sent(DropOwned({}, s, pid, order).out, q)) == Forgot(r, Dropped(s, order))
    decreases |order|
  {
    hide Broadcast, Sent, Then, ApplyAll, Forgot, Store.DeleteByEntityID;
    if order == [] {
      NothingDropped(r, q);
      assert Dropped(s, order) == {};
    } else {
      var id := order[0];
      if id !in s.entities || s.entities[id].persist {
        DropSyncs(s, pid, order[1..], q, r);
        assert Dropped(s, order) == Dropped(s, order[1..]);
      } else {
        var t := s.(components := s.components.DeleteByEntityID(id), entities := s.entities - {id});
        DropOneSent(s, pid, order, q);
        var ms := Sent(DropOwned({}, t, pid, order[1..]).out, q);
        ApplyConcat(r, [EntityDeleteBroadcast(id)], ms);
        ApplyOne(r, EntityDeleteBroadcast(id));
        DropSyncs(t, pid, order[1..], q, Forget(r, id));
        assert Dropped(s, order) == Dropped(t, order[1..]) + {id};
        ForgotOneMore(r, id, Dropped(t, order[1..]));
      }
    }
  }

  lemma NothingDropped(r: Replica, q: nat)
    ensures ApplyAll(r, Sent(map[], q)) == r && Forgot(r, {}) == r
  {
    assert r.entities - {} == r.entities && r.actions - {} == r.actions && r.assets - {} == r.assets;
  }

  lemma DropOneSent(s: Session, pid: nat, order: seq<nat>, q: nat)
    requires q in s.participants && q != pid && order != [] && order[0] in s.entities && !s.entities[order[0]].persist
    ensures var id := order[0];
      var t := s.(components := s.components.DeleteByEntityID(id), entities := s.entities - {id});
      Sent(DropOwned({}, s, pid, order).out, q) == [EntityDeleteBroadcast(id)] + Sent(DropOwned({}, t, pid, order[1..]).out, q)
  {
    hide Broadcast;
    BroadcastSent(s, pid, EntityDeleteBroadcast(order[0]), map[], q);
  }

  lemma ForgotOneMore(r: Replica, id: nat, gone: set<nat>)
    ensures Forgot(Forget(r, id), gone) == Forgot(r, gone + {id})
  {
    assert r.entities - {id} - gone == r.entities - (gone + {id});
    assert r.actions - {id} - gone == r.actions - (gone + {id});
    assert r.assets - {id} - gone == r.assets - (gone + {id});
  }

  /** A departure brings the replicas of those who stay up to date. */
  lemma LeaveSyncs(s: Session, pid: nat, order: seq<nat>, frame: nat, q: nat)
    requires Valid(s) && pid in s.participants && (forall id :: id in order <==> id in s.participants[pid].entityIDs)
    requires frame in s.frameHandlers && s.frameHandlers[frame] == s.participants[pid].conn
    requires q in s.participants && q != pid
    ensures var result := Leave({}, s, pid, order, frame);
      ApplyAll(ViewOf(s), Sent(result.out, q)) == ViewOf(result.session)
  {
    hide Broadcast, DropOwned, Connected, IdsIssued, Owned, Store.Refers;
    var result := Leave({}, s, pid, order, frame);
    LeaveKeepsValid({}, s, pid, order, frame);
    var s1 := s.(actions := s.actions - Forgotten(s, pid), assets := s.assets - Forgotten(s, pid),
                 components := s.components.UnsubscribeByParticipant(pid));
    var drop := DropOwned({}, s1, pid, order);
    var m := LeaveBroadcast(pid);
    DropSyncs(s1, pid, order, q, ViewOf(s));
    assert q in result.session.participants;
    BroadcastSent(result.session, pid, m, map[], q);
    assert Sent(result.out, q) == Sent(drop.out, q) + [m];
    ApplyConcat(ViewOf(s), Sent(drop.out, q), [m]);
    ApplyOne(Forgot(ViewOf(s), Dropped(s1, order)), m);
    LeftView(s, pid, frame, result.session.components, Dropped(s1, order));
  }

  /** Forgetting keys that were never there makes no difference. */
  lemma OnlyListed<T>(m: map<nat, T>, keys: set<nat>, gone: set<nat>, forgotten: set<nat>)
    requires m.Keys <= keys && forgotten * keys == gone
    ensures m - forgotten == m - gone
  {
  }

  lemma LeftView(s: Session, pid: nat, frame: nat, c: Store, gone: set<nat>)
    requires ModulesRefer(s) && pid in s.participants
    requires gone == set id | id in s.participants[pid].entityIDs && id in s.entities && !s.entities[id].persist
    ensures Apply(Forgot(ViewOf(s), gone), LeaveBroadcast(pid)) == ViewOf(Left(s, pid, frame, c))
  {
    var s', forgotten := Left(s, pid, frame, c), Forgotten(s, pid);
    assert Infos(s.entities) - gone == Infos(s.entities - gone);
    OnlyListed(s.actions, s.entities.Keys, gone, forgotten);
    OnlyListed(s.assets, s.entities.Keys, gone, forgotten);
    assert (s.participants - {pid}).Keys == s.participants.Keys - {pid};
  }
}
