/** What the handlers of a joined participant do to the session they sit in: what Protocol says. */
module Realtime {
  import opened Options
  import opened Ids
  import opened Components
  import opened EntityComponents
  import opened Protocol
  import opened Sessions
  import opened Modules

  lemma ExtendedByNone(logs: Logs)
    ensures Extended(logs, map[]) == logs
  {
    forall p | p in logs ensures Extended(logs, map[])[p] == logs[p] {
      assert Sent(map[], p) == [];
    }
  }

  lemma Sits(session: Sessions.Session, participant: Sessions.Participant)
    requires session.Valid() && participant.id in session.participants && session.participants[participant.id] == participant
    ensures Joined(session, participant)
  {
  }

  lemma Seated(session: Sessions.Session, participant: Sessions.Participant)
    requires Joined(session, participant)
    ensures session.Valid() && participant.id in session.participants && session.participants[participant.id] == participant
    ensures participant.id in session.View().participants && participant.responder in RespondersOf(session.participants)
    ensures forall r :: r in RespondersOf(session.participants) ==> exists p :: p in session.participants && session.participants[p].responder == r
    ensures session.View().participants[participant.id].entityIDs == participant.entityIDs
    ensures forall id :: id in session.entities <==> id in session.View().entities
    ensures forall id :: id in session.entities ==>
      && session.entities[id].id == id
      && session.View().entities[id] == session.entities[id].View()
      && session.View().entities[id].owner == session.entities[id].participantID
  {
    session.SameKeys();
  }

  /** A broadcast to the others, unless a feature flag forbids it. */
  method BroadcastUnless(flags: set<Flag>, flag: Flag, session: Sessions.Session, participant: Sessions.Participant, m: Msg)
    requires Joined(session, participant)
    modifies RespondersOf(session.participants)`sent
    ensures session.View() == old(session.View())
    ensures session.Logged() == Extended(old(session.Logged()), IfNotSet(flags, flag, Protocol.Broadcast(session.View(), participant.id, m)))
  {
    hide Extended, Sent, Sessions.Session.View, Sessions.Session.Logged, Protocol.Broadcast, RespondersOf;
    if flag !in flags {
      session.Broadcast(participant, m);
    } else {
      ExtendedByNone(session.Logged());
    }
  }

  /** A reply, and a broadcast to the others unless a feature flag forbids it. */
  method RespondAndBroadcastUnless(flags: set<Flag>, flag: Flag, session: Sessions.Session, participant: Sessions.Participant,
                                   reply: Msg, m: Msg)
    requires Joined(session, participant)
    modifies RespondersOf(session.participants)`sent
    ensures session.View() == old(session.View())
    ensures session.Logged() == Extended(old(session.Logged()),
      Then(Reply(participant.id, reply), IfNotSet(flags, flag, Protocol.Broadcast(session.View(), participant.id, m))))
  {
    hide *;
    Seated(session, participant);
    ghost var logs := session.Logged();
    Respond(session, participant, reply);
    BroadcastUnless(flags, flag, session, participant, m);
    ExtendedThen(logs, Reply(participant.id, reply), IfNotSet(flags, flag, Protocol.Broadcast(session.View(), participant.id, m)));
  }

  method Own(session: Sessions.Session, participant: Sessions.Participant, e: Sessions.Entity)
    requires Joined(session, participant)
    modifies participant`entityIDs
    ensures participant.id in old(session.View()).participants
    ensures session.View() == WithOwned(old(session.View()), participant.id, old(participant.entityIDs) + {e.id})
    ensures session.Logged() == old(session.Logged())
  {
    hide Sessions.Session.EntityViews, EntityComponentStore.View, SequentialIDGenerator.View;
    participant.AddEntity(e);
    assert session.Members() == old(session.Members())[participant.id := participant.View()];
  }

  method Disown(session: Sessions.Session, participant: Sessions.Participant, e: Sessions.Entity)
    requires Joined(session, participant)
    modifies participant`entityIDs
    ensures participant.id in old(session.View()).participants
    ensures session.View() == WithOwned(old(session.View()), participant.id, old(participant.entityIDs) - {e.id})
    ensures session.Logged() == old(session.Logged())
  {
    hide Sessions.Session.EntityViews, EntityComponentStore.View, SequentialIDGenerator.View;
    participant.RemoveEntity(e);
    assert session.Members() == old(session.Members())[participant.id := participant.View()];
  }

  ghost function WithOwned(s: Protocol.Session, pid: nat, entityIDs: set<nat>): Protocol.Session
    requires pid in s.participants
  {
    s.(participants := s.participants[pid := s.participants[pid].(entityIDs := entityIDs)])
  }

  method Place(session: Sessions.Session, e: Sessions.Entity, pose: Pose)
    requires session.Valid() && e.id in session.entities && session.entities[e.id] == e
    modifies e`pose
    ensures session.View() == old(session.View()).(entities := old(session.View()).entities[e.id := e.View()])
    ensures e.View() == old(e.View()).(pose := pose)
    ensures session.Logged() == old(session.Logged())
  {
    hide Sessions.Session.Members, EntityComponentStore.View, SequentialIDGenerator.View;
    e.SetPose(pose);
    assert session.EntityViews() == old(session.EntityViews())[e.id := e.View()];
  }

  method CreateEntity(session: Sessions.Session, id: nat, pid: nat, persist: bool, flag: int, pose: Option<Pose>) returns (e: Sessions.Entity)
    ensures fresh(e) && e.id == id && session.Logged() == old(session.Logged()) && session.View() == old(session.View())
    ensures e.View() == Protocol.Entity(pid, persist, flag, if pose.Some? then pose.value else NO_POSE)
  {
    e := new Sessions.Entity(id, pid, persist, flag);
    if pose.Some? {
      e.SetPose(pose.value);
    }
  }

  /** What an added entity does to the session. */
  ghost function WithEntity(s: Protocol.Session, pid: nat, e: Protocol.Entity): Protocol.Session
    requires pid in s.participants
  {
    var id := s.entityIDs.current + 1;
    WithOwned(s.(entityIDs := s.entityIDs.Take(id), entities := s.entities[id := e]), pid, s.participants[pid].entityIDs + {id})
  }

  lemma AddEntityIs(flags: set<Flag>, s: Protocol.Session, pid: nat, persist: bool, flag: int, pose: Option<Pose>)
    requires pid in s.participants
    ensures var id, e := s.entityIDs.current + 1, Protocol.Entity(pid, persist, flag, if pose.Some? then pose.value else NO_POSE);
      var s' := WithEntity(s, pid, e);
      AddEntity(flags, s, pid, persist, flag, pose)
      == Result(s', Then(Reply(pid, EntityAddResponse(id)),
                         IfNotSet(flags, DisableEntityAddBroadcast, Protocol.Broadcast(s', pid, EntityAddBroadcast(id, Info(e))))))
  {
    var id, e := s.entityIDs.current + 1, Protocol.Entity(pid, persist, flag, if pose.Some? then pose.value else NO_POSE);
    SameBroadcast(s, WithEntity(s, pid, e), pid, EntityAddBroadcast(id, Info(e)));
  }

  method MakeEntity(session: Sessions.Session, participant: Sessions.Participant, persist: bool, flag: int, pose: Option<Pose>)
    returns (entity: Sessions.Entity)
    requires Joined(session, participant) && participant.id in session.View().participants
    requires session.View().entityIDs.reusable == {}
    modifies session.entityIDs`currentID, session.entityIDs`reusableIDs, session`entities, participant`entityIDs
    ensures fresh(entity) && entity.id == old(session.View()).entityIDs.current + 1
    ensures entity.View() == Protocol.Entity(participant.id, persist, flag, if pose.Some? then pose.value else NO_POSE)
    ensures session.View() == WithEntity(old(session.View()), participant.id, entity.View())
    ensures Joined(session, participant) && session.Logged() == old(session.Logged())
    ensures session.participants == old(session.participants) && session.entities == old(session.entities)[entity.id := entity]
  {
    hide Sessions.Session.View, Sessions.Session.Logged, Sessions.Session.Valid, Sessions.Session.EntityViews,
      Sessions.Session.Members, Sessions.Entity.View, Sessions.Participant.View, Joined, RespondersOf,
      SequentialIDGenerator.View, EntityComponentStore.View, IdPool.Take, Extended, WithOwned;
    Seated(session, participant);
    ghost var s := session.View();
    var id := session.NewEntityID();
    entity := CreateEntity(session, id, participant.id, persist, flag, pose);
    session.Parts();
    session.AddEntity(entity);
    Sits(session, participant);
    Own(session, participant, entity);
    Sits(session, participant);
  }

  method HandleEntityAdd(flags: set<Flag>, session: Sessions.Session, participant: Sessions.Participant,
                         persist: bool, flag: int, pose: Option<Pose>)
    requires Joined(session, participant) && participant.id in session.View().participants
    requires session.View().entityIDs.reusable == {}
    modifies session.entityIDs`currentID, session.entityIDs`reusableIDs, session`entities, participant`entityIDs
    modifies RespondersOf(session.participants)`sent
    ensures Joined(session, participant)
    ensures var result := AddEntity(flags, old(session.View()), participant.id, persist, flag, pose);
      session.View() == result.session && session.Logged() == Extended(old(session.Logged()), result.out)
  {
    hide *;
    AddEntityIs(flags, session.View(), participant.id, persist, flag, pose);
    var entity := MakeEntity(session, participant, persist, flag, pose);
    RespondAndBroadcastUnless(flags, DisableEntityAddBroadcast, session, participant, EntityAddResponse(entity.id),
                              EntityAddBroadcast(entity.id, Info(entity.View())));
  }

  /** What a deleted entity does to the session, the module states excepted. */
  ghost function WithoutEntity(s: Protocol.Session, pid: nat, id: nat): Protocol.Session
    requires pid in s.participants
  {
    WithOwned(s.(components := s.components.DeleteByEntityID(id), entities := s.entities - {id}), pid, s.participants[pid].entityIDs - {id})
  }

  lemma DeleteEntityIs(flags: set<Flag>, s: Protocol.Session, pid: nat, id: nat)
    requires pid in s.participants
    ensures id !in s.entities ==> DeleteEntity(flags, s, pid, id) == Refuse(s, pid, NotFound)
    ensures id in s.entities && s.entities[id].owner != pid ==> DeleteEntity(flags, s, pid, id) == Refuse(s, pid, Unauthorized)
    ensures id in s.entities && s.entities[id].owner == pid ==>
      var s' := WithoutEntity(s, pid, id);
      DeleteEntity(flags, s, pid, id)
      == Result(s', Then(Reply(pid, EntityDeleteResponse),
                         IfNotSet(flags, DisableEntityDeleteBroadcast, Protocol.Broadcast(s', pid, EntityDeleteBroadcast(id)))))
  {
    SameBroadcast(s, WithoutEntity(s, pid, id), pid, EntityDeleteBroadcast(id));
  }

  method DropEntity(session: Sessions.Session, participant: Sessions.Participant, entity: Sessions.Entity)
    requires Joined(session, participant) && participant.id in session.View().participants
    modifies session.entityComponents`entityComponents, session`entities, participant`entityIDs
    ensures session.View() == WithoutEntity(old(session.View()), participant.id, entity.id)
    ensures Joined(session, participant) && session.Logged() == old(session.Logged())
    ensures session.participants == old(session.participants) && session.entities == old(session.entities) - {entity.id}
  {
    hide Sessions.Session.View, Sessions.Session.Logged, Sessions.Session.Valid, Sessions.Session.EntityViews,
      Sessions.Session.Members, Sessions.Entity.View, Sessions.Participant.View, Joined, RespondersOf,
      SequentialIDGenerator.View, EntityComponentStore.View, IdPool.Take, Extended, WithOwned;
    Seated(session, participant);
    ghost var s := session.View();
    session.Parts();
    session.entityComponents.DeleteByEntityID(entity.id);
    session.Parts();
    session.RemoveEntity(entity);
    Sits(session, participant);
    Disown(session, participant, entity);
    Sits(session, participant);
  }

  method HandleEntityDelete(flags: set<Flag>, session: Sessions.Session, participant: Sessions.Participant, id: nat)
    requires Joined(session, participant) && participant.id in session.View().participants
    modifies session.entityComponents`entityComponents, session`entities, participant`entityIDs
    modifies RespondersOf(session.participants)`sent
    ensures Joined(session, participant)
    ensures var result := DeleteEntity(flags, old(session.View()), participant.id, id);
      session.View() == result.session && session.Logged() == Extended(old(session.Logged()), result.out)
  {
    hide *;
    ghost var s, pid := session.View(), participant.id;
    Seated(session, participant);
    DeleteEntityIs(flags, s, pid, id);
    var found := session.EntityByID(id);
    if found == None {
      Deny(session, participant, NotFound);
      return;
    }
    if found.value.participantID != participant.id {
      Deny(session, participant, Unauthorized);
      return;
    }
    DropEntity(session, participant, found.value);
    RespondAndBroadcastUnless(flags, DisableEntityDeleteBroadcast, session, participant, EntityDeleteResponse, EntityDeleteBroadcast(id));
  }

  /** A refusal changes nothing, and tells the participant. */
  method Deny(session: Sessions.Session, participant: Sessions.Participant, code: ErrorCode)
    requires Joined(session, participant)
    modifies RespondersOf(session.participants)`sent
    ensures var result := Refuse(old(session.View()), participant.id, code);
      session.View() == result.session && session.Logged() == Extended(old(session.Logged()), result.out)
  {
    hide Sessions.Session.View, Sessions.Session.Logged, Sessions.Session.Valid, Joined, RespondersOf, Extended, Reply;
    Seated(session, participant);
    Respond(session, participant, Error(code));
  }

  lemma UpdatePoseIs(flags: set<Flag>, s: Protocol.Session, pid: nat, id: nat, pose: Pose)
    requires pid in s.participants
    ensures id !in s.entities || s.entities[id].owner != pid ==> UpdatePose(flags, s, pid, id, pose) == Result(s, map[])
    ensures id in s.entities && s.entities[id].owner == pid ==>
      var s' := s.(entities := s.entities[id := s.entities[id].(pose := pose)]);
      UpdatePose(flags, s, pid, id, pose)
      == Result(s', IfNotSet(flags, DisableEntityUpdatePoseBroadcast, Protocol.Broadcast(s', pid, PoseBroadcast(id, pose))))
  {
    if id in s.entities {
      SameBroadcast(s, s.(entities := s.entities[id := s.entities[id].(pose := pose)]), pid, PoseBroadcast(id, pose));
    }
  }

  method HandleEntityUpdatePose(flags: set<Flag>, session: Sessions.Session, participant: Sessions.Participant, id: nat, pose: Pose)
    requires Joined(session, participant) && participant.id in session.View().participants
    modifies session.entities.Values`pose, RespondersOf(session.participants)`sent
    ensures Joined(session, participant)
    ensures var result := UpdatePose(flags, old(session.View()), participant.id, id, pose);
      session.View() == result.session && session.Logged() == Extended(old(session.Logged()), result.out)
  {
    hide *;
    ghost var s, pid := session.View(), participant.id;
    Seated(session, participant);
    UpdatePoseIs(flags, s, pid, id, pose);
    ExtendedByNone(session.Logged());
    var found := session.EntityByID(id);
    if found == None || found.value.participantID != participant.id {
      return;
    }
    Place(session, found.value, pose);
    BroadcastUnless(flags, DisableEntityUpdatePoseBroadcast, session, participant, PoseBroadcast(id, pose));
  }

  method HandleEntityComponentTypeAdd(session: Sessions.Session, participant: Sessions.Participant, name: string)
    requires Joined(session, participant) && session.View().components.ids.reusable == {}
    modifies session.entityComponents`nameIndex, session.entityComponents`idIndex
    modifies session.entityComponents.ids`currentID, session.entityComponents.ids`reusableIDs
    modifies RespondersOf(session.participants)`sent
    ensures Joined(session, participant)
    ensures var result := AddType(old(session.View()), participant.id, name);
      session.View() == result.session && session.Logged() == Extended(old(session.Logged()), result.out)
  {
    hide Sessions.Session.View, Sessions.Session.Logged, Sessions.Session.Valid, Joined, RespondersOf, EntityComponentStore.View, Extended,
      Then, Sent, Reply, IfNotSet, Protocol.BroadcastTo, Refuse, Store.AddType;
    Seated(session, participant);
    if name == "" {
      Deny(session, participant, BadRequest);
      return;
    }
    session.Parts();
    session.Apart();
    session.entityComponents.Fields();
    var typ := session.entityComponents.AddType(name);
    session.Parts();
    Respond(session, participant, TypeAddResponse(typ));
  }

  /** The others are told, unless a feature flag forbids it or nobody subscribes to the type. */
  method NotifyUnless(flags: set<Flag>, flag: Flag, session: Sessions.Session, participant: Sessions.Participant, typ: nat, m: Msg)
    requires Joined(session, participant)
    modifies RespondersOf(session.participants)`sent
    ensures session.View() == old(session.View())
    ensures session.Logged() == Extended(old(session.Logged()), IfNotSet(flags, flag, NotifyAll(session.View(), participant.id, typ, m)))
  {
    hide Extended, Sent, Sessions.Session.Logged, Sessions.Session.Members, Sessions.Session.EntityViews, Protocol.Broadcast;
    ExtendedByNone(session.Logged());
    if flag !in flags {
      var participantIDs := session.entityComponents.Notify(typ);
      if participantIDs != [] {
        assert participantIDs[0] in session.View().components.Subscribers(typ);
        session.Broadcast(participant, m);
      }
    }
  }

  method RespondAndNotifyUnless(flags: set<Flag>, flag: Flag, session: Sessions.Session, participant: Sessions.Participant, typ: nat,
                                reply: Msg, m: Msg)
    requires Joined(session, participant)
    modifies RespondersOf(session.participants)`sent
    ensures session.View() == old(session.View())
    ensures session.Logged() == Extended(old(session.Logged()),
      Then(Reply(participant.id, reply), IfNotSet(flags, flag, NotifyAll(session.View(), participant.id, typ, m))))
  {
    hide *;
    Seated(session, participant);
    ghost var logs := session.Logged();
    Respond(session, participant, reply);
    NotifyUnless(flags, flag, session, participant, typ, m);
    ExtendedThen(logs, Reply(participant.id, reply), IfNotSet(flags, flag, NotifyAll(session.View(), participant.id, typ, m)));
  }

  method NotifyUnlessAndRespond(flags: set<Flag>, flag: Flag, session: Sessions.Session, participant: Sessions.Participant, typ: nat,
                                reply: Msg, m: Msg)
    requires Joined(session, participant)
    modifies RespondersOf(session.participants)`sent
    ensures session.View() == old(session.View())
    ensures session.Logged() == Extended(old(session.Logged()),
      Then(IfNotSet(flags, flag, NotifyAll(session.View(), participant.id, typ, m)), Reply(participant.id, reply)))
  {
    hide *;
    Seated(session, participant);
    ghost var logs := session.Logged();
    NotifyUnless(flags, flag, session, participant, typ, m);
    Respond(session, participant, reply);
    ExtendedThen(logs, IfNotSet(flags, flag, NotifyAll(session.View(), participant.id, typ, m)), Reply(participant.id, reply));
  }

  lemma AddComponentIs(flags: set<Flag>, s: Protocol.Session, pid: nat, typ: nat, id: nat, data: Data)
    ensures typ == 0 || id == 0 ==> AddComponent(flags, s, pid, typ, id, data) == Refuse(s, pid, BadRequest)
    ensures typ != 0 && id != 0 && (id !in s.entities || typ !in s.components.nameIndex) ==>
      AddComponent(flags, s, pid, typ, id, data) == Refuse(s, pid, NotFound)
    ensures typ != 0 && id != 0 && id in s.entities && typ in s.components.nameIndex && s.components.Has(typ, id) ==>
      AddComponent(flags, s, pid, typ, id, data) == Refuse(s, pid, Conflict)
    ensures typ != 0 && id != 0 && id in s.entities && typ in s.components.nameIndex && !s.components.Has(typ, id) ==>
      var s', m := s.(components := s.components.Put(typ, id, data)), ComponentAddBroadcast(typ, id, data);
      AddComponent(flags, s, pid, typ, id, data)
      == Result(s', Then(Reply(pid, ComponentAddResponse), IfNotSet(flags, DisableComponentAddBroadcast, NotifyAll(s', pid, typ, m))))
  {
    SameNotify(s, s.(components := s.components.Put(typ, id, data)), pid, typ, ComponentAddBroadcast(typ, id, data));
  }

  lemma SameNotify(s: Protocol.Session, s': Protocol.Session, pid: nat, typ: nat, m: Msg)
    requires s'.participants == s.participants && s'.components.subscriptions == s.components.subscriptions
    ensures NotifyAll(s', pid, typ, m) == NotifyAll(s, pid, typ, m)
  {
    SameBroadcast(s, s', pid, m);
  }

  method HandleEntityComponentAdd(flags: set<Flag>, session: Sessions.Session, participant: Sessions.Participant, typ: nat, id: nat, data: Data)
    requires Joined(session, participant)
    modifies session.entityComponents`entityComponents, RespondersOf(session.participants)`sent
    ensures Joined(session, participant)
    ensures var result := AddComponent(flags, old(session.View()), participant.id, typ, id, data);
      session.View() == result.session && session.Logged() == Extended(old(session.Logged()), result.out)
  {
    hide *;
    ghost var s, pid := session.View(), participant.id;
    Seated(session, participant);
    AddComponentIs(flags, s, pid, typ, id, data);
    if typ == 0 || id == 0 {
      Deny(session, participant, BadRequest);
      return;
    }
    if session.EntityByID(id) == None {
      Deny(session, participant, NotFound);
      return;
    }
    session.Parts();
    session.entityComponents.Fields();
    var error := session.entityComponents.Add(typ, id, data);
    session.Parts();
    if error.Some? {
      Deny(session, participant, if error.value == AlreadyAdded then Conflict else NotFound);
      return;
    }
    RespondAndNotifyUnless(flags, DisableComponentAddBroadcast, session, participant, typ, ComponentAddResponse,
                           ComponentAddBroadcast(typ, id, data));
  }

  lemma DeleteComponentIs(flags: set<Flag>, s: Protocol.Session, pid: nat, typ: nat, id: nat)
    ensures typ == 0 || id == 0 ==> DeleteComponent(flags, s, pid, typ, id) == Refuse(s, pid, BadRequest)
    ensures typ != 0 && id != 0 && (id !in s.entities || !s.components.Has(typ, id)) ==>
      DeleteComponent(flags, s, pid, typ, id) == Refuse(s, pid, NotFound)
    ensures typ != 0 && id != 0 && id in s.entities && s.components.Has(typ, id) ==>
      var s', m := s.(components := s.components.Delete(typ, id)), ComponentDeleteBroadcast(typ, id);
      DeleteComponent(flags, s, pid, typ, id)
      == Result(s', Then(IfNotSet(flags, DisableComponentDeleteBroadcast, NotifyAll(s', pid, typ, m)), Reply(pid, ComponentDeleteResponse)))
  {
    SameNotify(s, s.(components := s.components.Delete(typ, id)), pid, typ, ComponentDeleteBroadcast(typ, id));
  }

  method HandleEntityComponentDelete(flags: set<Flag>, session: Sessions.Session, participant: Sessions.Participant, typ: nat, id: nat)
    requires Joined(session, participant)
    modifies session.entityComponents`entityComponents, RespondersOf(session.participants)`sent
    ensures Joined(session, participant)
    ensures var result := DeleteComponent(flags, old(session.View()), participant.id, typ, id);
      session.View() == result.session && session.Logged() == Extended(old(session.Logged()), result.out)
  {
    hide *;
    ghost var s, pid := session.View(), participant.id;
    Seated(session, participant);
    DeleteComponentIs(flags, s, pid, typ, id);
    if typ == 0 || id == 0 {
      Deny(session, participant, BadRequest);
      return;
    }
    if session.EntityByID(id) == None {
      Deny(session, participant, NotFound);
      return;
    }
    session.Parts();
    var ok := session.entityComponents.Delete(typ, id);
    session.Parts();
    if !ok {
      Deny(session, participant, NotFound);
      return;
    }
    NotifyUnlessAndRespond(flags, DisableComponentDeleteBroadcast, session, participant, typ, ComponentDeleteResponse,
                           ComponentDeleteBroadcast(typ, id));
  }

  /** The subscribers are told, unless a feature flag forbids it. */
  method NotifySubscribersUnless(flags: set<Flag>, flag: Flag, session: Sessions.Session, participant: Sessions.Participant, typ: nat, m: Msg)
    requires Joined(session, participant)
    modifies RespondersOf(session.participants)`sent
    ensures session.View() == old(session.View())
    ensures session.Logged() == Extended(old(session.Logged()),
      IfNotSet(flags, flag, Protocol.BroadcastTo(session.View(), participant.id, m, session.View().components.Subscribers(typ))))
  {
    hide Extended, Sent, Sessions.Session.Logged, Sessions.Session.Members, Sessions.Session.EntityViews, Protocol.BroadcastTo,
      Store.Subscribers;
    if flag !in flags {
      var participantIDs := session.entityComponents.Notify(typ);
      assert AsSet(participantIDs) == session.View().components.Subscribers(typ);
      if participantIDs != [] {
        session.BroadcastTo(participant, m, participantIDs);
      } else {
        assert session.View().components.Subscribers(typ) == {};
        ExtendedByNone(session.Logged());
        NobodySent(session.View(), participant.id, m);
      }
    } else {
      ExtendedByNone(session.Logged());
    }
  }

  lemma NobodySent(s: Protocol.Session, pid: nat, m: Msg)
    ensures Protocol.BroadcastTo(s, pid, m, {}) == map[]
  {
  }

  lemma UpdateComponentIs(flags: set<Flag>, s: Protocol.Session, pid: nat, typ: nat, id: nat, data: Data)
    ensures typ == 0 || id == 0 || id !in s.entities ==> UpdateComponent(flags, s, pid, typ, id, data) == Result(s, map[])
    ensures typ != 0 && id != 0 && id in s.entities ==>
      var s', m := s.(components := s.components.Update(typ, id, data)), ComponentUpdateBroadcast(typ, id, data);
      UpdateComponent(flags, s, pid, typ, id, data)
      == Result(s', IfNotSet(flags, DisableComponentUpdateBroadcast, Protocol.BroadcastTo(s', pid, m, s'.components.Subscribers(typ))))
  {
  }

  method HandleEntityComponentUpdate(flags: set<Flag>, session: Sessions.Session, participant: Sessions.Participant, typ: nat, id: nat, data: Data)
    requires Joined(session, participant)
    modifies session.entityComponents`entityComponents, RespondersOf(session.participants)`sent
    ensures Joined(session, participant)
    ensures var result := UpdateComponent(flags, old(session.View()), participant.id, typ, id, data);
      session.View() == result.session && session.Logged() == Extended(old(session.Logged()), result.out)
  {
    hide *;
    Seated(session, participant);
    UpdateComponentIs(flags, session.View(), participant.id, typ, id, data);
    ExtendedByNone(session.Logged());
    if typ == 0 || id == 0 || session.EntityByID(id) == None {
      return;
    }
    session.Parts();
    var _ := session.entityComponents.Update(typ, id, data);
    session.Parts();
    NotifySubscribersUnless(flags, DisableComponentUpdateBroadcast, session, participant, typ, ComponentUpdateBroadcast(typ, id, data));
  }

  method HandleEntityComponentSubscribe(session: Sessions.Session, participant: Sessions.Participant, typ: nat)
    requires Joined(session, participant)
    modifies session.entityComponents`subscriptions, RespondersOf(session.participants)`sent
    ensures Joined(session, participant)
    ensures var result := SubscribeTo(old(session.View()), participant.id, typ);
      session.View() == result.session && session.Logged() == Extended(old(session.Logged()), result.out)
  {
    hide Sessions.Session.View, Sessions.Session.Logged, Sessions.Session.Valid, Joined, RespondersOf, EntityComponentStore.View, Extended,
      Then, Sent, Reply, IfNotSet, Protocol.BroadcastTo, Refuse, Store.Subscribe;
    Seated(session, participant);
    if typ == 0 {
      Deny(session, participant, BadRequest);
      return;
    }
    session.Parts();
    session.entityComponents.Fields();
    var ok := session.entityComponents.Subscribe(typ, participant.id);
    session.Parts();
    if !ok {
      Deny(session, participant, NotFound);
      return;
    }
    Respond(session, participant, SubscribeResponse);
  }

  method HandleEntityComponentUnsubscribe(session: Sessions.Session, participant: Sessions.Participant, typ: nat)
    requires Joined(session, participant)
    modifies session.entityComponents`subscriptions, RespondersOf(session.participants)`sent
    ensures Joined(session, participant)
    ensures var result := UnsubscribeFrom(old(session.View()), participant.id, typ);
      session.View() == result.session && session.Logged() == Extended(old(session.Logged()), result.out)
  {
    hide Sessions.Session.View, Sessions.Session.Logged, Sessions.Session.Valid, Joined, RespondersOf, EntityComponentStore.View, Extended,
      Then, Sent, Reply, IfNotSet, Protocol.BroadcastTo, Refuse, Store.Unsubscribe;
    Seated(session, participant);
    if typ == 0 {
      Deny(session, participant, BadRequest);
      return;
    }
    session.Parts();
    session.entityComponents.Unsubscribe(typ, participant.id);
    session.Parts();
    Respond(session, participant, UnsubscribeResponse);
  }

  method HandleEntityComponentList(session: Sessions.Session, participant: Sessions.Participant, typ: nat)
    requires Joined(session, participant)
    modifies RespondersOf(session.participants)`sent
    ensures Joined(session, participant)
    ensures var result := ListComponents(old(session.View()), participant.id, typ);
      session.View() == result.session && session.Logged() == Extended(old(session.Logged()), result.out)
  {
    hide Sessions.Session.View, Sessions.Session.Logged, Sessions.Session.Valid, Joined, RespondersOf, EntityComponentStore.View, Extended,
      Then, Sent, Reply, IfNotSet, Protocol.BroadcastTo, Refuse, Store.TypeComponents;
    Seated(session, participant);
    if typ == 0 {
      Deny(session, participant, BadRequest);
      return;
    }
    session.Parts();
    var list := session.entityComponents.List(typ);
    Respond(session, participant, ComponentListResponse(list));
  }
}
