/** Sessions as the objects that the server updates in place; Protocol.Session is what such an object holds. */
module Sessions {
  import opened Options
  import opened Ids
  import opened Components
  import opened EntityComponents
  import opened Protocol

  /** The sending end of a connection, and what went through it. */
  class Responder {
    const conn: nat
    var sent: seq<Msg>

    constructor (conn: nat)
      ensures this.conn == conn && sent == []
    {
      this.conn, sent := conn, [];
    }

    method Send(m: Msg)
      modifies this`sent
      ensures sent == old(sent) + [m]
    {
      sent := sent + [m];
    }
  }

  class Entity {
    const id: nat
    const participantID: nat
    const persist: bool
    const flag: int
    var pose: Pose

    constructor (id: nat, participantID: nat, persist: bool, flag: int)
      ensures this.id == id && View() == Protocol.Entity(participantID, persist, flag, NO_POSE)
    {
      this.id, this.participantID, this.persist, this.flag, pose := id, participantID, persist, flag, NO_POSE;
    }

    function View(): Protocol.Entity
      reads this`pose
    {
      Protocol.Entity(participantID, persist, flag, pose)
    }

    lemma Fields()
      ensures View().owner == participantID && View().persist == persist && View().flag == flag && View().pose == pose
    {
    }

    method SetPose(v: Pose)
      modifies this`pose
      ensures View() == old(View()).(pose := v)
    {
      pose := v;
    }
  }

  class Participant {
    const id: nat
    const responder: Responder
    var entityIDs: set<nat>

    constructor (id: nat, responder: Responder)
      ensures this.id == id && this.responder == responder && entityIDs == {}
    {
      this.id, this.responder, entityIDs := id, responder, {};
    }

    function View(): Protocol.Participant
      reads this`entityIDs
    {
      Protocol.Participant(responder.conn, entityIDs)
    }

    method AddEntity(e: Entity)
      modifies this`entityIDs
      ensures entityIDs == old(entityIDs) + {e.id}
    {
      entityIDs := entityIDs + {e.id};
    }

    method RemoveEntity(e: Entity)
      modifies this`entityIDs
      ensures entityIDs == old(entityIDs) - {e.id}
    {
      entityIDs := entityIDs - {e.id};
    }
  }

  /** The state of the vikja module: the latest action per entity and name. */
  class VikjaState {
    var entityActions: Actions

    constructor ()
      ensures entityActions == map[]
    {
      entityActions := map[];
    }

    method SetEntityAction(entity: nat, name: string, a: Action)
      modifies this`entityActions
      ensures entityActions == PutAction(old(entityActions), entity, name, a)
    {
      var actions: map<string, Action> := map[];
      if entity in entityActions {
        actions := entityActions[entity];
      }
      entityActions := entityActions[entity := actions[name := a]];
    }

    function EntityAction(entity: nat, name: string): (found: Option<Action>)
      reads this
      ensures found == None <==> entity !in entityActions || name !in entityActions[entity]
      ensures found.Some? ==> found.value == entityActions[entity][name]
    {
      if entity in entityActions && name in entityActions[entity] then Some(entityActions[entity][name]) else None
    }

    method RemoveEntityActions(entity: nat)
      modifies this`entityActions
      ensures entityActions == old(entityActions) - {entity}
    {
      entityActions := entityActions - {entity};
    }
  }

  /** The state of the odal module: one asset instance per entity. */
  class OdalState {
    const assetInstanceIDs: SequentialIDGenerator
    var assetInstances: map<nat, Asset>

    constructor ()
      ensures assetInstances == map[] && assetInstanceIDs.View() == NO_IDS && fresh(assetInstanceIDs)
    {
      assetInstanceIDs := new SequentialIDGenerator();
      assetInstances := map[];
    }

    method SetAssetInstance(entity: nat, asset: Asset)
      modifies this`assetInstances
      ensures assetInstances == old(assetInstances)[entity := asset]
    {
      assetInstances := assetInstances[entity := asset];
    }

    method RemoveAssetInstance(entity: nat)
      modifies this`assetInstances
      ensures assetInstances == old(assetInstances) - {entity}
    {
      assetInstances := assetInstances - {entity};
    }
  }

  /** What each participant was sent so far. */
  type Logs = map<nat, seq<Msg>>

  function Extended(logs: Logs, out: Outbox): Logs {
    map p | p in logs :: logs[p] + Sent(out, p)
  }

  /** Those in `ids` were sent one more message. */
  ghost predicate SentTo(logs: Logs, logs': Logs, m: Msg, ids: set<nat>) {
    logs'.Keys == logs.Keys && forall p :: p in logs ==> logs'[p] == logs[p] + if p in ids then [m] else []
  }

  lemma SentToNone(logs: Logs, m: Msg)
    ensures SentTo(logs, logs, m, {})
  {
  }

  lemma SentToOneMore(logs: Logs, logs': Logs, m: Msg, ids: set<nat>, p: nat)
    requires SentTo(logs, logs', m, ids) && p in logs && p !in ids
    ensures SentTo(logs, logs'[p := logs'[p] + [m]], m, ids + {p})
  {
  }

  lemma BroadcastSentTo(logs: Logs, logs': Logs, s: Protocol.Session, sender: nat, m: Msg, ids: set<nat>)
    requires SentTo(logs, logs', m, s.participants.Keys * ids - {sender}) && logs.Keys == s.participants.Keys
    ensures logs' == Extended(logs, Protocol.BroadcastTo(s, sender, m, ids))
    ensures ids == s.participants.Keys ==> logs' == Extended(logs, Protocol.Broadcast(s, sender, m))
  {
  }

  ghost function AsSet(ids: seq<nat>): set<nat> {
    set p | p in ids
  }

  lemma AsSetMeaning(ids: seq<nat>)
    ensures forall p :: p in AsSet(ids) <==> p in ids
  {
  }

  ghost function RespondersOf(participants: map<nat, Participant>): set<Responder> {
    set p | p in participants :: participants[p].responder
  }

  class Session {
    const id: nat
    const participantIDs: SequentialIDGenerator
    var participants: map<nat, Participant>
    const entityIDs: SequentialIDGenerator
    var entities: map<nat, Entity>
    const frameHandlerIDs: SequentialIDGenerator
    var frameHandlers: map<nat, nat>
    const entityComponents: EntityComponentStore
    const vikja: VikjaState
    const odal: OdalState

    constructor (id: nat)
      ensures this.id == id && Valid() && View() == NewSession(id) && Logged() == map[] && participants == map[]
      ensures fresh(Repr())
    {
      hide *;
      this.id := id;
      participantIDs := new SequentialIDGenerator();
      entityIDs := new SequentialIDGenerator();
      frameHandlerIDs := new SequentialIDGenerator();
      entityComponents := new EntityComponentStore();
      vikja := new VikjaState();
      odal := new OdalState();
      participants, entities, frameHandlers := map[], map[], map[];
      new;
      assert Separate() by { NewSeparate(); }
      NewView();
      NewRepr();
    }

    lemma NewSeparate()
      requires participantIDs !in [entityIDs, frameHandlerIDs, entityComponents.ids, odal.assetInstanceIDs]
      requires entityIDs !in [frameHandlerIDs, entityComponents.ids, odal.assetInstanceIDs]
      requires frameHandlerIDs !in [entityComponents.ids, odal.assetInstanceIDs]
      requires entityComponents.ids != odal.assetInstanceIDs
      ensures Separate()
    {
    }

    lemma NewView()
      requires participants == map[] && entities == map[] && frameHandlers == map[] && vikja.entityActions == map[]
      requires participantIDs.View() == entityIDs.View() == frameHandlerIDs.View() == odal.assetInstanceIDs.View() == NO_IDS
      requires entityComponents.View() == NEW_STORE && odal.assetInstances == map[]
      requires Separate()
      ensures View() == NewSession(id) && Valid() && Logged() == map[]
    {
    }

    lemma NewRepr()
      requires participants == map[] && entities == map[]
      ensures Repr() == {this, participantIDs, entityIDs, frameHandlerIDs, entityComponents, entityComponents.ids, vikja, odal,
                         odal.assetInstanceIDs}
    {
    }

    ghost function Generators(): seq<SequentialIDGenerator> {
      [participantIDs, entityIDs, frameHandlerIDs, entityComponents.ids, odal.assetInstanceIDs]
    }

    /** No two id generators are the same one. */
    ghost predicate Separate() {
      forall i, j :: 0 <= i < j < |Generators()| ==> Generators()[i] != Generators()[j]
    }

    /** Two participants never answer on one connection. */
    ghost predicate OwnResponders()
      reads this`participants
    {
      forall p, q :: p in participants && q in participants && participants[p].responder == participants[q].responder ==> p == q
    }

    /** Objects are kept under their own ids, and two participants never answer on one connection. */
    ghost predicate Valid()
      reads this`participants, this`entities
    {
      && Separate()
      && (forall p :: p in participants ==> participants[p].id == p)
      && OwnResponders()
      && (forall e :: e in entities ==> entities[e].id == e)
    }

    ghost function Members(): map<nat, Protocol.Participant>
      reads this`participants, participants.Values`entityIDs
    {
      map p | p in participants :: participants[p].View()
    }

    ghost function EntityViews(): map<nat, Protocol.Entity>
      reads this`entities, entities.Values`pose
    {
      map e | e in entities :: entities[e].View()
    }

    /** What the session holds. */
    ghost function View(): Protocol.Session
      reads this`participants, this`entities, this`frameHandlers, participants.Values`entityIDs, entities.Values`pose
      reads participantIDs, entityIDs, frameHandlerIDs, entityComponents, entityComponents.ids, vikja
      reads odal`assetInstances, odal.assetInstanceIDs
    {
      Protocol.Session(id, participantIDs.View(), Members(), entityIDs.View(), EntityViews(), frameHandlerIDs.View(),
                       frameHandlers, entityComponents.View(), vikja.entityActions, odal.assetInstanceIDs.View(),
                       odal.assetInstances)
    }

    ghost function Logged(): Logs
      reads this`participants, RespondersOf(participants)`sent
    {
      map p | p in participants :: participants[p].responder.sent
    }

    lemma SameKeys()
      ensures View().participants.Keys == participants.Keys && View().entities.Keys == entities.Keys && Logged().Keys == participants.Keys
      ensures forall e :: e in entities ==> View().entities[e] == entities[e].View()
      ensures View().actions == vikja.entityActions && View().assets == odal.assetInstances
      ensures View().assetIDs == odal.assetInstanceIDs.View() && View().components == entityComponents.View()
    {
    }

    /** What the session holds, part by part. */
    lemma Parts()
      ensures View() == Protocol.Session(id, participantIDs.View(), Members(), entityIDs.View(), EntityViews(),
                                         frameHandlerIDs.View(), frameHandlers, entityComponents.View(), vikja.entityActions,
                                         odal.assetInstanceIDs.View(), odal.assetInstances)
    {
    }

    lemma Apart()
      requires Valid()
      ensures participantIDs !in [entityIDs, frameHandlerIDs, entityComponents.ids, odal.assetInstanceIDs]
      ensures entityIDs !in [frameHandlerIDs, entityComponents.ids, odal.assetInstanceIDs]
      ensures frameHandlerIDs !in [entityComponents.ids, odal.assetInstanceIDs]
      ensures entityComponents.ids != odal.assetInstanceIDs
    {
      var g := Generators();
      assert g[0] == participantIDs && g[1] == entityIDs && g[2] == frameHandlerIDs;
      assert g[3] == entityComponents.ids && g[4] == odal.assetInstanceIDs;
    }

    lemma Keyed()
      requires Valid()
      ensures OwnResponders()
      ensures forall p :: p in participants ==> participants[p].id == p && participants[p].responder in RespondersOf(participants)
    {
    }

    /** Everything that the session may change. */
    ghost function Repr(): set<object>
      reads this`participants, this`entities
    {
      {this, participantIDs, entityIDs, frameHandlerIDs, entityComponents, entityComponents.ids, vikja, odal, odal.assetInstanceIDs}
      + participants.Values + entities.Values + RespondersOf(participants)
    }

    method NewParticipantID() returns (p: nat)
      requires Valid() && View().participantIDs.reusable == {}
      modifies participantIDs`currentID, participantIDs`reusableIDs
      ensures p == old(View()).participantIDs.current + 1
      ensures View() == old(View()).(participantIDs := old(View()).participantIDs.Take(p)) && Logged() == old(Logged())
    {
      hide Members, EntityViews, EntityComponentStore.View, Valid, IdPool.Take;
      Apart();
      p := participantIDs.New();
    }

    method NewEntityID() returns (e: nat)
      requires Valid() && View().entityIDs.reusable == {}
      modifies entityIDs`currentID, entityIDs`reusableIDs
      ensures e == old(View()).entityIDs.current + 1
      ensures View() == old(View()).(entityIDs := old(View()).entityIDs.Take(e)) && Logged() == old(Logged())
    {
      hide Members, EntityViews, EntityComponentStore.View, Valid, IdPool.Take;
      Apart();
      e := entityIDs.New();
    }

    method AddParticipant(p: Participant)
      requires Valid() && p.id !in participants && p.responder !in RespondersOf(participants)
      modifies this`participants
      ensures participants == old(participants)[p.id := p]
      ensures Valid() && Members() == old(Members())[p.id := p.View()] && View() == old(View()).(participants := Members())
      ensures Logged() == old(Logged())[p.id := p.responder.sent]
    {
      hide Separate, EntityViews, EntityComponentStore.View, SequentialIDGenerator.View;
      participants := participants[p.id := p];

    }

    method RemoveParticipant(p: Participant)
      requires Valid()
      modifies this`participants
      ensures participants == old(participants) - {p.id}
      ensures Valid() && Members() == old(Members()) - {p.id} && View() == old(View()).(participants := Members())
      ensures Logged() == old(Logged()) - {p.id}
    {
      hide Separate, EntityViews, EntityComponentStore.View, SequentialIDGenerator.View, Participant.View;
      participants := participants - {p.id};
    }

    method AddEntity(e: Entity)
      requires Valid()
      modifies this`entities
      ensures entities == old(entities)[e.id := e]
      ensures Valid() && EntityViews() == old(EntityViews())[e.id := e.View()] && View() == old(View()).(entities := EntityViews())
      ensures Logged() == old(Logged())
    {
      hide Separate, Members, EntityComponentStore.View, SequentialIDGenerator.View, Entity.View;
      entities := entities[e.id := e];
    }

    method RemoveEntity(e: Entity)
      requires Valid()
      modifies this`entities
      ensures entities == old(entities) - {e.id}
      ensures Valid() && EntityViews() == old(EntityViews()) - {e.id} && View() == old(View()).(entities := EntityViews())
      ensures Logged() == old(Logged())
    {
      hide Separate, Members, EntityComponentStore.View, SequentialIDGenerator.View, Entity.View;
      entities := entities - {e.id};
    }

    function EntityByID(entity: nat): (found: Option<Entity>)
      reads this`entities
      ensures found == None <==> entity !in entities
      ensures found.Some? ==> found.value == entities[entity]
    {
      if entity in entities then Some(entities[entity]) else None
    }

    /** Sending to one participant adds to its log only. */
    method SendTo(p: Participant, m: Msg)
      requires OwnResponders() && p.id in participants && participants[p.id] == p
      modifies p.responder`sent
      ensures Logged() == old(Logged())[p.id := old(Logged())[p.id] + [m]]
    {
      p.responder.Send(m);
    }

    /** Everyone but the sender is sent the message, once. */
    method Broadcast(sender: Participant, m: Msg)
      requires Valid() && (sender.id in participants ==> participants[sender.id] == sender)
      modifies RespondersOf(participants)`sent
      ensures Logged() == Extended(old(Logged()), Protocol.Broadcast(View(), sender.id, m))
    {
      hide *;
      ghost var logs, all := Logged(), participants.Keys;
      SameKeys();
      Keyed();
      SentToNone(logs, m);
      var rest, done := participants.Keys, {};
      while rest != {}
        modifies RespondersOf(participants)`sent
        invariant rest <= all && done == all - rest - {sender.id}
        invariant SentTo(logs, Logged(), m, done)
      {
        var k :| k in rest;
        rest := rest - {k};
        var p := participants[k];
        if p != sender {
          SentToOneMore(logs, Logged(), m, done, k);
          SendTo(p, m);
          done := done + {k};
        }
      }
      assert done == all * all - {sender.id};
      BroadcastSentTo(logs, Logged(), View(), sender.id, m, participants.Keys);
    }

    /** The participants with the given ids, without the ids that are no longer there. */
    method GetParticipantsByIDs(ids: seq<nat>) returns (found: seq<Participant>)
      requires Valid()
      ensures forall i :: 0 <= i < |found| ==>
        found[i].id in ids && found[i].id in participants && participants[found[i].id] == found[i]
      ensures forall p :: p in participants && p in ids ==> participants[p] in found
      ensures Logged() == old(Logged()) && View() == old(View())
    {
      found := [];
      for i := 0 to |ids|
        invariant forall k :: 0 <= k < |found| ==>
          found[k].id in ids && found[k].id in participants && participants[found[k].id] == found[k]
        invariant forall j :: 0 <= j < i && ids[j] in participants ==> participants[ids[j]] in found
      {
        if ids[i] in participants {
          found := found + [participants[ids[i]]];
        }
      }
    }

    /** Each listed participant but the sender is sent the message, once. */
    method SendEach(sender: Participant, m: Msg, found: seq<Participant>) returns (handled: set<nat>)
      requires Valid() && (sender.id in participants ==> participants[sender.id] == sender)
      requires forall i :: 0 <= i < |found| ==> found[i].id in participants && participants[found[i].id] == found[i]
      modifies RespondersOf(participants)`sent
      ensures SentTo(old(Logged()), Logged(), m, handled)
      ensures forall p :: p in handled <==> p in participants && p != sender.id && participants[p] in found
    {
      hide *;
      ghost var logs := Logged();
      SameKeys();
      Keyed();
      SentToNone(logs, m);
      handled := {};
      for i := 0 to |found|
        modifies RespondersOf(participants)`sent
        invariant forall p :: p in handled ==> p in participants && p != sender.id && participants[p] in found
        invariant forall j :: 0 <= j < i && found[j].id != sender.id ==> found[j].id in handled
        invariant SentTo(logs, Logged(), m, handled)
      {
        var p := found[i];
        if p != sender && p.id !in handled {
          SentToOneMore(logs, Logged(), m, handled, p.id);
          SendTo(p, m);
          handled := handled + {p.id};
        }
      }
    }

    /** Those of the given ids, however often given, are sent the message once, the sender excepted. */
    method BroadcastTo(sender: Participant, m: Msg, participantIDs: seq<nat>)
      requires Valid() && (sender.id in participants ==> participants[sender.id] == sender)
      modifies RespondersOf(participants)`sent
      ensures Logged() == Extended(old(Logged()), Protocol.BroadcastTo(View(), sender.id, m, AsSet(participantIDs)))
    {
      hide *;
      ghost var ids := AsSet(participantIDs);
      AsSetMeaning(participantIDs);
      SameKeys();
      Keyed();
      var found := GetParticipantsByIDs(participantIDs);
      var handled := SendEach(sender, m, found);
      SameKeys();
      assert handled == participants.Keys * ids - {sender.id};
      BroadcastSentTo(old(Logged()), Logged(), View(), sender.id, m, ids);
    }

    /** Registers a frame handler of the connection, and tells its id, by which CancelFrame removes it. */
    method HandleFrame(conn: nat) returns (frame: nat)
      requires Valid()
      modifies this`frameHandlers, frameHandlerIDs`currentID, frameHandlerIDs`reusableIDs
      ensures old(View()).frameIDs.CanPick(frame)
      ensures View() == old(View()).(frameIDs := old(View()).frameIDs.Take(frame),
                                     frameHandlers := old(frameHandlers)[frame := conn])
      ensures Logged() == old(Logged())
    {
      hide Members, EntityViews, EntityComponentStore.View, IdPool.Take, IdPool.CanPick;
      Apart();
      frame := frameHandlerIDs.New();
      frameHandlers := frameHandlers[frame := conn];
    }

    method CancelFrame(frame: nat)
      requires Valid()
      modifies this`frameHandlers, frameHandlerIDs`currentID, frameHandlerIDs`reusableIDs
      ensures View() == Protocol.CancelFrame(old(View()), frame)
    {
      hide Members, EntityViews, EntityComponentStore.View;
      Apart();
      frameHandlers := frameHandlers - {frame};
      frameHandlerIDs.Reuse(frame);
    }
  }
}
