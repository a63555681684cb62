/** One session as a value, and what each handled message does to it and sends. */
module Protocol {
  import opened Options
  import opened Ids
  import opened Components

  datatype Pose = Pose(px: real, py: real, pz: real, rx: real, ry: real, rz: real, rw: real)

  const NO_POSE := Pose(0.0, 0.0, 0.0, 0.0, 0.0, 0.0, 0.0)

  datatype Entity = Entity(owner: nat, persist: bool, flag: int, pose: Pose)

  /** A participant: the connection that answers for it, and the ids of the entities it added. */
  datatype Participant = Participant(conn: nat, entityIDs: set<nat>)

  datatype Action = Action(timestamp: int, data: Data)

  type Actions = map<nat, map<string, Action>>

  datatype Asset = Asset(id: nat, assetId: string, participant: nat)

  datatype Session = Session(
    id: nat,
    participantIDs: IdPool,
    participants: map<nat, Participant>,
    entityIDs: IdPool,
    entities: map<nat, Entity>,
    frameIDs: IdPool,
    frameHandlers: map<nat, nat>,
    components: Store,
    actions: Actions,
    assetIDs: IdPool,
    assets: map<nat, Asset>)

  function NewSession(id: nat): Session {
    Session(id, NO_IDS, map[], NO_IDS, map[], NO_IDS, map[], NEW_STORE, map[], NO_IDS, map[])
  }

  datatype Flag =
    | DisableSessionState | DisableParticipantJoinBroadcast | DisableParticipantLeaveBroadcast
    | DisableEntityAddBroadcast | DisableEntityDeleteBroadcast | DisableEntityUpdatePoseBroadcast
    | DisableComponentAddBroadcast | DisableComponentDeleteBroadcast | DisableComponentUpdateBroadcast

  /** A requested entity action; the timestamp may be missing from the message. */
  datatype ActionRequest = ActionRequest(entity: nat, name: string, timestamp: Option<int>, data: Data)

  datatype Request =
    | EntityAdd(persist: bool, flag: int, pose: Option<Pose>)
    | EntityDelete(entity: nat)
    | EntityUpdatePose(entity: nat, newPose: Pose)
    | TypeAdd(name: string)
    | ComponentAdd(typ: nat, entity: nat, data: Data)
    | ComponentDelete(typ: nat, entity: nat)
    | ComponentUpdate(typ: nat, entity: nat, data: Data)
    | Subscribe(typ: nat)
    | Unsubscribe(typ: nat)
    | ComponentList(typ: nat)
    | SetAction(action: Option<ActionRequest>)
    | AssetAdd(assetId: string, entity: nat)

  datatype ErrorCode = BadRequest | Unauthorized | NotFound | Conflict | SessionAlreadyJoined

  /** What clients see of an entity. */
  datatype EntityInfo = EntityInfo(owner: nat, flag: int, pose: Pose)

  datatype Msg =
    | Error(code: ErrorCode)
    | JoinResponse(globalID: string, participant: nat)
    | SessionState(participants: set<nat>, entities: map<nat, EntityInfo>, components: map<nat, map<nat, Data>>)
    | JoinBroadcast(participant: nat)
    | LeaveBroadcast(participant: nat)
    | EntityAddResponse(entity: nat)
    | EntityAddBroadcast(entity: nat, info: EntityInfo)
    | EntityDeleteResponse
    | EntityDeleteBroadcast(entity: nat)
    | PoseBroadcast(entity: nat, pose: Pose)
    | TypeAddResponse(typ: nat)
    | ComponentAddResponse
    | ComponentAddBroadcast(typ: nat, entity: nat, data: Data)
    | ComponentDeleteResponse
    | ComponentDeleteBroadcast(typ: nat, entity: nat)
    | ComponentUpdateBroadcast(typ: nat, entity: nat, data: Data)
    | SubscribeResponse
    | UnsubscribeResponse
    | ComponentListResponse(list: map<nat, Data>)
    | VikjaState(actions: Actions)
    | ActionResponse
    | ActionBroadcast(entity: nat, name: string, action: Action)
    | OdalState(assets: map<nat, Asset>)
    | AssetAddResponse(id: nat)
    | AssetAddBroadcast(entity: nat, asset: Asset)

  /** What each participant is sent, in order; a participant that is missing is sent nothing. */
  type Outbox = map<nat, seq<Msg>>

  function Sent(out: Outbox, p: nat): seq<Msg> {
    if p in out then out[p] else []
  }

  function Then(a: Outbox, b: Outbox): Outbox {
    map p | p in a.Keys + b.Keys :: Sent(a, p) + Sent(b, p)
  }

  /** A participant is sent first the one and then the other. */
  lemma SentThen(a: Outbox, b: Outbox, p: nat)
    ensures Sent(Then(a, b), p) == Sent(a, p) + Sent(b, p)
    ensures p in Then(a, b) <==> p in a || p in b
    ensures p in Then(a, b) ==> Then(a, b)[p] == Sent(Then(a, b), p)
  {
  }

  function Reply(p: nat, m: Msg): Outbox {
    map[p := [m]]
  }

  function Broadcast(s: Session, sender: nat, m: Msg): Outbox {
    map p | p in s.participants && p != sender :: [m]
  }

  function BroadcastTo(s: Session, sender: nat, m: Msg, ids: set<nat>): Outbox {
    map p | p in s.participants && p != sender && p in ids :: [m]
  }

  function IfNotSet(flags: set<Flag>, flag: Flag, out: Outbox): Outbox {
    if flag in flags then map[] else out
  }

  datatype Result = Result(session: Session, out: Outbox)

  function Refuse(s: Session, pid: nat, code: ErrorCode): Result {
    Result(s, Reply(pid, Error(code)))
  }

  function Info(e: Entity): EntityInfo {
    EntityInfo(e.owner, e.flag, e.pose)
  }

  function Infos(entities: map<nat, Entity>): map<nat, EntityInfo> {
    map e | e in entities :: Info(entities[e])
  }

  function AddEntity(flags: set<Flag>, s: Session, pid: nat, persist: bool, flag: int, pose: Option<Pose>): Result
    requires pid in s.participants
  {
    var id := s.entityIDs.current + 1;
    var entity := Entity(pid, persist, flag, if pose.Some? then pose.value else NO_POSE);
    var p := s.participants[pid];
    Result(s.(entityIDs := s.entityIDs.Take(id),
              entities := s.entities[id := entity],
              participants := s.participants[pid := p.(entityIDs := p.entityIDs + {id})]),
           Then(Reply(pid, EntityAddResponse(id)),
                IfNotSet(flags, DisableEntityAddBroadcast, Broadcast(s, pid, EntityAddBroadcast(id, Info(entity))))))
  }

  function DeleteEntity(flags: set<Flag>, s: Session, pid: nat, id: nat): Result
    requires pid in s.participants
  {
    if id !in s.entities then Refuse(s, pid, NotFound)
    else if s.entities[id].owner != pid then Refuse(s, pid, Unauthorized)
    else
      var p := s.participants[pid];
      Result(s.(components := s.components.DeleteByEntityID(id),
                entities := s.entities - {id},
                participants := s.participants[pid := p.(entityIDs := p.entityIDs - {id})]),
             Then(Reply(pid, EntityDeleteResponse),
                  IfNotSet(flags, DisableEntityDeleteBroadcast, Broadcast(s, pid, EntityDeleteBroadcast(id)))))
  }

  function UpdatePose(flags: set<Flag>, s: Session, pid: nat, id: nat, pose: Pose): Result
    requires pid in s.participants
  {
    if id !in s.entities || s.entities[id].owner != pid then Result(s, map[])
    else
      Result(s.(entities := s.entities[id := s.entities[id].(pose := pose)]),
             IfNotSet(flags, DisableEntityUpdatePoseBroadcast, Broadcast(s, pid, PoseBroadcast(id, pose))))
  }

  function AddType(s: Session, pid: nat, name: string): Result {
    if name == "" then Refuse(s, pid, BadRequest)
    else
      var (c, typ) := s.components.AddType(name);
      Result(s.(components := c), Reply(pid, TypeAddResponse(typ)))
  }

  function AddComponent(flags: set<Flag>, s: Session, pid: nat, typ: nat, id: nat, data: Data): Result {
    if typ == 0 || id == 0 then Refuse(s, pid, BadRequest)
    else if id !in s.entities || typ !in s.components.nameIndex then Refuse(s, pid, NotFound)
    else if s.components.Has(typ, id) then Refuse(s, pid, Conflict)
    else
      Result(s.(components := s.components.Put(typ, id, data)),
             Then(Reply(pid, ComponentAddResponse),
                  IfNotSet(flags, DisableComponentAddBroadcast, NotifyAll(s, pid, typ, ComponentAddBroadcast(typ, id, data)))))
  }

  /** Everyone is told about an added or deleted component, provided that anyone subscribes to its type. */
  function NotifyAll(s: Session, pid: nat, typ: nat, m: Msg): Outbox {
    if s.components.Subscribers(typ) == {} then map[] else Broadcast(s, pid, m)
  }

  function DeleteComponent(flags: set<Flag>, s: Session, pid: nat, typ: nat, id: nat): Result {
    if typ == 0 || id == 0 then Refuse(s, pid, BadRequest)
    else if id !in s.entities || !s.components.Has(typ, id) then Refuse(s, pid, NotFound)
    else
      Result(s.(components := s.components.Delete(typ, id)),
             Then(IfNotSet(flags, DisableComponentDeleteBroadcast, NotifyAll(s, pid, typ, ComponentDeleteBroadcast(typ, id))),
                  Reply(pid, ComponentDeleteResponse)))
  }

  /** The store ignores an update of a component that was never added; its subscribers are told all the same. */
  function UpdateComponent(flags: set<Flag>, s: Session, pid: nat, typ: nat, id: nat, data: Data): Result {
    if typ == 0 || id == 0 || id !in s.entities then Result(s, map[])
    else
      Result(s.(components := s.components.Update(typ, id, data)),
             IfNotSet(flags, DisableComponentUpdateBroadcast,
                      BroadcastTo(s, pid, ComponentUpdateBroadcast(typ, id, data), s.components.Subscribers(typ))))
  }

  function SubscribeTo(s: Session, pid: nat, typ: nat): Result {
    if typ == 0 then Refuse(s, pid, BadRequest)
    else if typ !in s.components.nameIndex then Refuse(s, pid, NotFound)
    else Result(s.(components := s.components.Subscribe(typ, pid)), Reply(pid, SubscribeResponse))
  }

  function UnsubscribeFrom(s: Session, pid: nat, typ: nat): Result {
    if typ == 0 then Refuse(s, pid, BadRequest)
    else Result(s.(components := s.components.Unsubscribe(typ, pid)), Reply(pid, UnsubscribeResponse))
  }

  /** What the session holds of a type, subscribed to or not. */
  function ListComponents(s: Session, pid: nat, typ: nat): Result {
    if typ == 0 then Refuse(s, pid, BadRequest) else Result(s, Reply(pid, ComponentListResponse(s.components.TypeComponents(typ))))
  }

  function PutAction(actions: Actions, id: nat, name: string, a: Action): Actions {
    actions[id := (if id in actions then actions[id] else map[])[name := a]]
  }

  /** An action is taken unless it is older than the one stored under its entity and name. */
  function SetEntityAction(s: Session, pid: nat, request: Option<ActionRequest>): Result {
    if request.None? || request.value.name == "" || request.value.timestamp.None? then Refuse(s, pid, BadRequest)
    else
      var r := request.value;
      if r.entity !in s.entities then Refuse(s, pid, BadRequest)
      else if r.entity in s.actions && r.name in s.actions[r.entity]
              && r.timestamp.value < s.actions[r.entity][r.name].timestamp then Refuse(s, pid, BadRequest)
      else
        var a := Action(r.timestamp.value, r.data);
        Result(s.(actions := PutAction(s.actions, r.entity, r.name, a)),
               Then(Reply(pid, ActionResponse), Broadcast(s, pid, ActionBroadcast(r.entity, r.name, a))))
  }

  function AddAsset(s: Session, pid: nat, assetId: string, id: nat): Result {
    if assetId == "" then Refuse(s, pid, BadRequest)
    else if id !in s.entities then Refuse(s, pid, NotFound)
    else if s.entities[id].owner != pid then Refuse(s, pid, Unauthorized)
    else
      var asset := Asset(s.assetIDs.current + 1, assetId, pid);
      Result(s.(assetIDs := s.assetIDs.Take(asset.id), assets := s.assets[id := asset]),
             Then(Reply(pid, AssetAddResponse(asset.id)), Broadcast(s, pid, AssetAddBroadcast(id, asset))))
  }

  /** After the base handler, the modules drop what they hold for an entity that is gone. */
  function DeleteInModules(s: Session, id: nat): Session {
    if id in s.entities then s else s.(actions := s.actions - {id}, assets := s.assets - {id})
  }

  /** One handled message of a participant: the base handler, then every module. */
  function Handle(flags: set<Flag>, s: Session, pid: nat, r: Request): Result
    requires pid in s.participants
  {
    match r
    case EntityAdd(persist, flag, pose) => AddEntity(flags, s, pid, persist, flag, pose)
    case EntityDelete(id) =>
      var base := DeleteEntity(flags, s, pid, id);
      Result(DeleteInModules(base.session, id), base.out)
    case EntityUpdatePose(id, pose) => UpdatePose(flags, s, pid, id, pose)
    case TypeAdd(name) => AddType(s, pid, name)
    case ComponentAdd(typ, id, data) => AddComponent(flags, s, pid, typ, id, data)
    case ComponentDelete(typ, id) => DeleteComponent(flags, s, pid, typ, id)
    case ComponentUpdate(typ, id, data) => UpdateComponent(flags, s, pid, typ, id, data)
    case Subscribe(typ) => SubscribeTo(s, pid, typ)
    case Unsubscribe(typ) => UnsubscribeFrom(s, pid, typ)
    case ComponentList(typ) => ListComponents(s, pid, typ)
    case SetAction(request) => SetEntityAction(s, pid, request)
    case AssetAdd(assetId, id) => AddAsset(s, pid, assetId, id)
  }

  /** A new participant of connection `conn`, its frame handler, and its first messages. */
  function Join(flags: set<Flag>, s: Session, conn: nat, globalID: string, frame: nat): Result {
    var pid := s.participantIDs.current + 1;
    var s' := s.(participantIDs := s.participantIDs.Take(pid),
                 participants := s.participants[pid := Participant(conn, {})],
                 frameIDs := s.frameIDs.Take(frame),
                 frameHandlers := s.frameHandlers[frame := conn]);
    Result(s', Then(Then(Reply(pid, JoinResponse(globalID, pid)),
                         IfNotSet(flags, DisableSessionState,
                                  Reply(pid, SessionState(s'.participants.Keys, Infos(s'.entities), s'.components.entityComponents)))),
                    IfNotSet(flags, DisableParticipantJoinBroadcast, Broadcast(s', pid, JoinBroadcast(pid)))))
  }

  /** The states the modules send after a join. */
  function ModuleStates(s: Session, pid: nat): Outbox {
    map[pid := [VikjaState(s.actions), OdalState(s.assets)]]
  }

  /** The entities that the modules forget when `pid` leaves. */
  function Forgotten(s: Session, pid: nat): set<nat>
    requires pid in s.participants
  {
    set e | e in s.participants[pid].entityIDs && (e !in s.entities || !s.entities[e].persist)
  }

  function DropOwned(flags: set<Flag>, s: Session, pid: nat, order: seq<nat>): Result
    decreases |order|
  {
    if order == [] then Result(s, map[])
    else
      var id := order[0];
      if id !in s.entities || s.entities[id].persist then DropOwned(flags, s, pid, order[1..])
      else
        var s' := s.(components := s.components.DeleteByEntityID(id), entities := s.entities - {id});
        var rest := DropOwned(flags, s', pid, order[1..]);
        Result(rest.session,
               Then(IfNotSet(flags, DisableEntityDeleteBroadcast, Broadcast(s, pid, EntityDeleteBroadcast(id))), rest.out))
  }

  function CancelFrame(s: Session, frame: nat): Session {
    s.(frameHandlers := s.frameHandlers - {frame}, frameIDs := s.frameIDs.Return(frame))
  }

  /** A participant leaves; `order` is the order in which its entities are visited. */
  function Leave(flags: set<Flag>, s: Session, pid: nat, order: seq<nat>, frame: nat): Result
    requires pid in s.participants
  {
    var forgotten := Forgotten(s, pid);
    var s1 := s.(actions := s.actions - forgotten, assets := s.assets - forgotten,
                 components := s.components.UnsubscribeByParticipant(pid));
    var drop := DropOwned(flags, s1, pid, order);
    var s2 := CancelFrame(drop.session, frame);
    var s3 := s2.(participants := s2.participants - {pid});
    Result(s3, Then(drop.out, IfNotSet(flags, DisableParticipantLeaveBroadcast, Broadcast(s3, pid, LeaveBroadcast(pid)))))
  }
}
