/** The handler of one connection, and the store of sessions that all handlers share. */
module Connections {
  import opened Options
  import opened Ids
  import opened Components
  import opened EntityComponents
  import opened Protocol
  import opened Sessions
  import opened Modules
  import opened Realtime
  import opened SessionStores
  import Arrival
  import Departure
  import Requests

  /** What the base handlers do, before the modules see the message. */
  ghost function Base(flags: set<Flag>, s: Protocol.Session, pid: nat, r: Request): Result
    requires pid in s.participants
  {
    match r
    case EntityDelete(id) => DeleteEntity(flags, s, pid, id)
    case SetAction(_) => Result(s, map[])
    case AssetAdd(_, _) => Result(s, map[])
    case _ => Handle(flags, s, pid, r)
  }

  /** No id of a participant, an entity, a component type or an asset was ever given back. */
  ghost predicate NoneReusable(s: Protocol.Session) {
    s.participantIDs.reusable == {} && s.entityIDs.reusable == {} && s.components.ids.reusable == {} && s.assetIDs.reusable == {}
  }

  method HandleEntityRequest(flags: set<Flag>, session: Sessions.Session, participant: Sessions.Participant, r: Request,
                             ghost vikja: VikjaModule, ghost odal: OdalModule)
    requires r.EntityAdd? || r.EntityDelete? || r.EntityUpdatePose?
    requires Joined(session, participant) && vikja.At(session, participant) && odal.At(session, participant)
    requires participant.id in session.View().participants && session.View().entityIDs.reusable == {}
    modifies session.entityIDs`currentID, session.entityIDs`reusableIDs, session`entities, participant`entityIDs
    modifies session.entities.Values`pose, session.entityComponents`entityComponents
    modifies RespondersOf(session.participants)`sent
    ensures Joined(session, participant) && vikja.At(session, participant) && odal.At(session, participant)
    ensures var result := Base(flags, old(session.View()), participant.id, r);
      session.View() == result.session && session.Logged() == Extended(old(session.Logged()), result.out)
  {
    hide *;
    BaseCases(flags, session.View(), participant.id, r);
    match r
    case EntityAdd(persist, flag, pose) => HandleEntityAdd(flags, session, participant, persist, flag, pose);
    case EntityDelete(id) => HandleEntityDelete(flags, session, participant, id);
    case EntityUpdatePose(id, pose) => HandleEntityUpdatePose(flags, session, participant, id, pose);
    case _ =>
  }

  method HandleComponentRequest(flags: set<Flag>, session: Sessions.Session, participant: Sessions.Participant, r: Request,
                                ghost vikja: VikjaModule, ghost odal: OdalModule)
    requires !r.EntityAdd? && !r.EntityDelete? && !r.EntityUpdatePose?
    requires Joined(session, participant) && vikja.At(session, participant) && odal.At(session, participant)
    requires participant.id in session.View().participants && session.View().components.ids.reusable == {}
    modifies session.entityComponents`nameIndex, session.entityComponents`idIndex
    modifies session.entityComponents`entityComponents, session.entityComponents`subscriptions
    modifies session.entityComponents.ids`currentID, session.entityComponents.ids`reusableIDs
    modifies RespondersOf(session.participants)`sent
    ensures Joined(session, participant) && vikja.At(session, participant) && odal.At(session, participant)
    ensures var result := Base(flags, old(session.View()), participant.id, r);
      session.View() == result.session && session.Logged() == Extended(old(session.Logged()), result.out)
  {
    hide *;
    BaseCases(flags, session.View(), participant.id, r);
    match r
    case TypeAdd(name) => HandleEntityComponentTypeAdd(session, participant, name);
    case ComponentAdd(typ, id, data) => HandleEntityComponentAdd(flags, session, participant, typ, id, data);
    case ComponentDelete(typ, id) => HandleEntityComponentDelete(flags, session, participant, typ, id);
    case ComponentUpdate(typ, id, data) => HandleEntityComponentUpdate(flags, session, participant, typ, id, data);
    case Subscribe(typ) => HandleEntityComponentSubscribe(session, participant, typ);
    case Unsubscribe(typ) => HandleEntityComponentUnsubscribe(session, participant, typ);
    case ComponentList(typ) => HandleEntityComponentList(session, participant, typ);
    case SetAction(_) => ExtendedByNone(session.Logged());
    case AssetAdd(_, _) => ExtendedByNone(session.Logged());
    case _ =>
  }

  method HandleBase(flags: set<Flag>, session: Sessions.Session, participant: Sessions.Participant, r: Request,
                    ghost vikja: VikjaModule, ghost odal: OdalModule)
    requires Joined(session, participant) && vikja.At(session, participant) && odal.At(session, participant)
    requires participant.id in session.View().participants && NoneReusable(session.View())
    modifies session.entityIDs`currentID, session.entityIDs`reusableIDs, session`entities, participant`entityIDs
    modifies session.entities.Values`pose, session.entityComponents`nameIndex, session.entityComponents`idIndex
    modifies session.entityComponents`entityComponents, session.entityComponents`subscriptions
    modifies session.entityComponents.ids`currentID, session.entityComponents.ids`reusableIDs
    modifies RespondersOf(session.participants)`sent
    ensures Joined(session, participant) && vikja.At(session, participant) && odal.At(session, participant)
    ensures var result := Base(flags, old(session.View()), participant.id, r);
      session.View() == result.session && session.Logged() == Extended(old(session.Logged()), result.out)
  {
    ReusableParts(session.View());
    hide *;
    if r.EntityAdd? || r.EntityDelete? || r.EntityUpdatePose? {
      HandleEntityRequest(flags, session, participant, r, vikja, odal);
    } else {
      HandleComponentRequest(flags, session, participant, r, vikja, odal);
    }
  }

  lemma ReusableParts(s: Protocol.Session)
    requires NoneReusable(s)
    ensures s.entityIDs.reusable == {} && s.components.ids.reusable == {} && s.assetIDs.reusable == {}
  {
  }

  lemma BaseCases(flags: set<Flag>, s: Protocol.Session, pid: nat, r: Request)
    requires pid in s.participants
    ensures Base(flags, s, pid, r) ==
      match r
      case EntityAdd(persist, flag, pose) => AddEntity(flags, s, pid, persist, flag, pose)
      case EntityDelete(id) => DeleteEntity(flags, s, pid, id)
      case EntityUpdatePose(id, pose) => UpdatePose(flags, s, pid, id, pose)
      case TypeAdd(name) => AddType(s, pid, name)
      case ComponentAdd(typ, id, data) => AddComponent(flags, s, pid, typ, id, data)
      case ComponentDelete(typ, id) => DeleteComponent(flags, s, pid, typ, id)
      case ComponentUpdate(typ, id, data) => UpdateComponent(flags, s, pid, typ, id, data)
      case Subscribe(typ) => SubscribeTo(s, pid, typ)
      case Unsubscribe(typ) => UnsubscribeFrom(s, pid, typ)
      case ComponentList(typ) => ListComponents(s, pid, typ)
      case SetAction(_) => Result(s, map[])
      case AssetAdd(_, _) => Result(s, map[])
  {
  }

  /** What the modules do after the base handlers; each drops what it holds for an entity that is gone. */
  ghost function ModulePass(s: Protocol.Session, pid: nat, r: Request): Result {
    match r
    case EntityDelete(id) => Result(DeleteInModules(s, id), map[])
    case SetAction(action) => SetEntityAction(s, pid, action)
    case AssetAdd(assetId, id) => AddAsset(s, pid, assetId, id)
    case _ => Result(s, map[])
  }

  /** The whole of a handled message: the base handlers, then the modules on what they left. */
  lemma HandleIs(flags: set<Flag>, s: Protocol.Session, pid: nat, r: Request)
    requires pid in s.participants
    ensures var base := Base(flags, s, pid, r);
      var pass := ModulePass(base.session, pid, r);
      base.session.assetIDs.reusable == s.assetIDs.reusable
      && Handle(flags, s, pid, r) == Result(pass.session, Then(base.out, pass.out))
  {
    hide Then, Protocol.Broadcast, Protocol.BroadcastTo, NotifyAll, Store.AddType, Store.Put, Store.Delete, Store.Update;
    Departure.ThenNothing(Base(flags, s, pid, r).out);
    Departure.ThenNothing(ModulePass(s, pid, r).out);
  }

  lemma ModulePassIs(s: Protocol.Session, pid: nat, r: Request)
    ensures r.EntityDelete? ==>
      var s' := if r.entity in s.entities then s else s.(actions := s.actions - {r.entity}, assets := s.assets - {r.entity});
      ModulePass(s, pid, r) == Result(s', map[])
    ensures r.SetAction? ==> ModulePass(s, pid, r) == SetEntityAction(s, pid, r.action)
    ensures r.AssetAdd? ==> ModulePass(s, pid, r) == AddAsset(s, pid, r.assetId, r.entity)
    ensures !r.EntityDelete? && !r.SetAction? && !r.AssetAdd? ==> ModulePass(s, pid, r) == Result(s, map[])
  {
  }

  method HandleWithModules(session: Sessions.Session, participant: Sessions.Participant, vikja: VikjaModule, odal: OdalModule, r: Request)
    requires Joined(session, participant) && vikja.At(session, participant) && odal.At(session, participant)
    requires session.View().assetIDs.reusable == {}
    modifies session.vikja`entityActions, session.odal`assetInstances
    modifies session.odal.assetInstanceIDs`currentID, session.odal.assetInstanceIDs`reusableIDs
    modifies RespondersOf(session.participants)`sent
    ensures Joined(session, participant)
    ensures var pass := ModulePass(old(session.View()), participant.id, r);
      session.View() == pass.session && session.Logged() == Extended(old(session.Logged()), pass.out)
  {
    hide *;
    Departure.AtMeans(vikja, odal, session, participant);
    ExtendedByNone(session.Logged());
    ModulePassIs(session.View(), participant.id, r);
    session.Parts();
    vikja.HandleMsg(r);
    session.Parts();
    odal.HandleMsg(r);
  }

  /** One handled message of a participant: the base handler and then every module, which is what Protocol.Handle says. */
  method HandleJoined(flags: set<Flag>, session: Sessions.Session, participant: Sessions.Participant,
                      vikja: VikjaModule, odal: OdalModule, r: Request, ghost s: Protocol.Session, ghost logs: Logs)
    requires Joined(session, participant) && vikja.At(session, participant) && odal.At(session, participant)
    requires s == session.View() && logs == session.Logged() && participant.id in s.participants && NoneReusable(s)
    modifies session.entityIDs`currentID, session.entityIDs`reusableIDs, session`entities
    modifies participant`entityIDs, session.entities.Values`pose
    modifies session.entityComponents`nameIndex, session.entityComponents`idIndex
    modifies session.entityComponents`entityComponents, session.entityComponents`subscriptions
    modifies session.entityComponents.ids`currentID, session.entityComponents.ids`reusableIDs
    modifies session.vikja`entityActions, session.odal`assetInstances
    modifies session.odal.assetInstanceIDs`currentID, session.odal.assetInstanceIDs`reusableIDs
    modifies RespondersOf(session.participants)`sent
    ensures Joined(session, participant)
    ensures session.View() == Handle(flags, s, participant.id, r).session
    ensures session.Logged() == Extended(logs, Handle(flags, s, participant.id, r).out)
  {
    ReusableParts(s);
    hide *;
    HandleIs(flags, s, participant.id, r);
    HandleBase(flags, session, participant, r, vikja, odal);
    ghost var base := Base(flags, s, participant.id, r);
    HandleWithModules(session, participant, vikja, odal, r);
    ExtendedThen(logs, base.out, ModulePass(base.session, participant.id, r).out);
  }

  /** Requests about components that are answered before it is checked whether a session is joined. */
  predicate Malformed(r: Request) {
    match r
    case TypeAdd(name) => name == ""
    case ComponentAdd(typ, id, _) => typ == 0 || id == 0
    case ComponentDelete(typ, id) => typ == 0 || id == 0
    case ComponentUpdate(typ, id, _) => typ == 0 || id == 0
    case Subscribe(typ) => typ == 0
    case Unsubscribe(typ) => typ == 0
    case ComponentList(typ) => typ == 0
    case _ => false
  }

  /** These are the requests that a participant would be refused as bad requests in any session; a malformed update is dropped. */
  lemma MalformedIff(flags: set<Flag>, s: Protocol.Session, pid: nat, r: Request)
    requires pid in s.participants
    ensures r.TypeAdd? || r.ComponentAdd? || r.ComponentDelete? || r.Subscribe? || r.Unsubscribe? || r.ComponentList? ==>
      (Malformed(r) <==> Sent(Handle(flags, s, pid, r).out, pid) == [Error(BadRequest)])
    ensures r.ComponentUpdate? ==>
      (Malformed(r) <==> forall t: Protocol.Session :: pid in t.participants ==> Handle(flags, t, pid, r) == Result(t, map[]))
    ensures r.EntityAdd? || r.EntityDelete? || r.EntityUpdatePose? || r.SetAction? || r.AssetAdd? ==> !Malformed(r)
  {
    hide Handle, Sent;
    match r
    case TypeAdd(name) =>
      NamedTypes(flags, s, pid, name);
    case ComponentAdd(typ, id, data) => Requests.ComponentAddMeaning(flags, s, pid, typ, id, data);
    case ComponentDelete(typ, id) => Requests.ComponentDeleteMeaning(flags, s, pid, typ, id);
    case ComponentUpdate(typ, id, data) => UpdateHeeded(flags, s, pid, typ, id, data);
    case Subscribe(typ) => Requests.SubscribeMeaning(flags, s, pid, typ);
    case Unsubscribe(typ) => Requests.UnsubscribeMeaning(flags, s, pid, typ);
    case ComponentList(typ) => Requests.ComponentListMeaning(flags, s, pid, typ);
    case _ =>
  }

  lemma NamedTypes(flags: set<Flag>, s: Protocol.Session, pid: nat, name: string)
    requires pid in s.participants
    ensures Sent(Handle(flags, s, pid, TypeAdd(name)).out, pid) == [Error(BadRequest)] <==> name == ""
  {
  }

  lemma UpdateHeeded(flags: set<Flag>, s: Protocol.Session, pid: nat, typ: nat, id: nat, data: Data)
    requires pid in s.participants
    ensures typ == 0 || id == 0 <==>
      forall t: Protocol.Session :: pid in t.participants ==> Handle(flags, t, pid, ComponentUpdate(typ, id, data)) == Result(t, map[])
  {
    var t := s.(entities := s.entities[id := Protocol.Entity(pid, true, 0, NO_POSE)],
                components := s.components.(entityComponents := map[typ := map[id := data + [0]]]));
    assert t.components.TypeComponents(typ)[id] == data + [0];
    if typ != 0 && id != 0 {
      assert Handle(flags, t, pid, ComponentUpdate(typ, id, data)).session.components.TypeComponents(typ)[id] == data != data + [0];
    }
  }

  lemma NoGenerator(session: Sessions.Session, ids: SequentialIDGenerator)
    requires ids !in session.Generators()
    ensures ids != session.participantIDs && ids != session.entityIDs && ids != session.frameHandlerIDs
    ensures ids != session.entityComponents.ids && ids != session.odal.assetInstanceIDs
  {
    var g := session.Generators();
    assert g[0] == session.participantIDs && g[1] == session.entityIDs && g[2] == session.frameHandlerIDs;
    assert g[3] == session.entityComponents.ids && g[4] == session.odal.assetInstanceIDs;
  }

  lemma OtherGenerator(session: Sessions.Session, ids: SequentialIDGenerator)
    requires ids != session.participantIDs && ids != session.entityIDs && ids != session.frameHandlerIDs
    requires ids != session.entityComponents.ids && ids != session.odal.assetInstanceIDs
    ensures ids !in session.Generators()
  {
  }

  /** A session that is given up keeps what it holds. */
  method GiveUp(sessions: SessionStore, session: Sessions.Session)
    requires sessions.Keyed() && sessions.Partitioned({}) && sessions.ids !in session.Generators()
    requires sessions.GlobalID(session) in sessions.sessions && sessions.sessions[sessions.GlobalID(session)] == session
    modifies sessions`sessions, sessions.ids`reusableIDs
    ensures sessions.Keyed() && sessions.Partitioned({}) && sessions.sessions == old(sessions.sessions) - {sessions.GlobalID(session)}
    ensures session.View() == old(session.View()) && session.Logged() == old(session.Logged())
  {
    hide *;
    NoGenerator(session, sessions.ids);
    KnownResponders(session);
    session.Parts();
    sessions.Remove(session);
    session.Parts();
  }

  /** The participant leaves, and the session is given up when nobody is left. */
  method DepartAndRemove(flags: set<Flag>, sessions: SessionStore, session: Sessions.Session, participant: Sessions.Participant,
                         vikja: VikjaModule, odal: OdalModule, frame: nat, ghost s: Protocol.Session, ghost logs: Logs)
    returns (ghost order: seq<nat>)
    requires Joined(session, participant) && vikja.At(session, participant) && odal.At(session, participant)
    requires s == session.View() && logs == session.Logged() && participant.id in s.participants
    requires sessions.Keyed() && sessions.Partitioned({})
    requires sessions.GlobalID(session) in sessions.sessions && sessions.sessions[sessions.GlobalID(session)] == session
    requires sessions.ids !in session.Generators()
    modifies session.vikja`entityActions, session.odal`assetInstances, session`entities
    modifies session.entityComponents`subscriptions, session.entityComponents`entityComponents
    modifies session`frameHandlers, session.frameHandlerIDs`currentID, session.frameHandlerIDs`reusableIDs, session`participants
    modifies RespondersOf(session.participants)`sent, sessions`sessions, sessions.ids`reusableIDs
    ensures forall id :: id in order <==> id in participant.entityIDs
    ensures session.View() == Leave(flags, s, participant.id, order, frame).session
    ensures session.Logged() == Extended(logs - {participant.id}, Leave(flags, s, participant.id, order, frame).out)
    ensures participant.responder.sent == old(participant.responder.sent)
    ensures session.participants == old(session.participants) - {participant.id}
    ensures sessions.Keyed() && sessions.Partitioned({})
    ensures sessions.sessions == if session.participants == map[] then old(sessions.sessions) - {sessions.GlobalID(session)} else old(sessions.sessions)
  {
    hide *;
    NoGenerator(session, sessions.ids);
    order := Departure.Depart(flags, session, participant, vikja, odal, frame);
    if session.participants == map[] {
      GiveUp(sessions, session);
    }
  }

  class RealtimeHandler {
    const flags: set<Flag>
    const responder: Responder
    const sessions: SessionStore
    const vikja: VikjaModule
    const odal: OdalModule
    var currentSession: Sessions.Session?
    var currentParticipant: Sessions.Participant?
    var stopFrameHandling: Option<nat>

    constructor (flags: set<Flag>, responder: Responder, sessions: SessionStore)
      ensures Valid() && currentSession == null
      ensures this.flags == flags && this.responder == responder && this.sessions == sessions && fresh(vikja) && fresh(odal)
    {
      this.flags, this.responder, this.sessions := flags, responder, sessions;
      vikja := new VikjaModule();
      odal := new OdalModule();
      currentSession, currentParticipant, stopFrameHandling := null, null, None;
    }

    /** The handler has a session exactly if it has a participant, and then it is one of that session's, answers on its own
        connection, and its modules are there too. */
    ghost predicate Valid()
      reads this, vikja, odal, if currentSession == null then {} else {currentSession}
    {
      && (currentSession == null <==> currentParticipant == null)
      && (currentSession != null ==>
            && Joined(currentSession, currentParticipant) && currentParticipant.responder == responder
            && vikja.At(currentSession, currentParticipant) && odal.At(currentSession, currentParticipant)
            && stopFrameHandling.Some?)
    }

    lemma Sitting()
      requires Valid()
      ensures currentSession == null <==> currentParticipant == null
      ensures currentSession != null ==>
        && Joined(currentSession, currentParticipant) && currentParticipant.responder == responder
        && vikja.At(currentSession, currentParticipant) && odal.At(currentSession, currentParticipant)
        && currentParticipant.id in currentSession.View().participants && stopFrameHandling.Some?
    {
      if currentSession != null {
        Seated(currentSession, currentParticipant);
      }
    }

    lemma Sits()
      requires currentSession != null && currentParticipant != null
      requires Joined(currentSession, currentParticipant) && currentParticipant.responder == responder
      requires vikja.At(currentSession, currentParticipant) && odal.At(currentSession, currentParticipant) && stopFrameHandling.Some?
      ensures Valid()
    {
    }

    /** A message of a connection that sits nowhere: malformed requests are refused, and nothing else happens. */
    method HandleUnjoined(r: Request) returns (ok: bool)
      requires currentSession == null
      modifies responder`sent
      ensures ok <==> Malformed(r) || r.SetAction? || r.AssetAdd?
      ensures responder.sent == old(responder.sent) + if Malformed(r) && !r.ComponentUpdate? then [Error(BadRequest)] else []
    {
      ok := Malformed(r) || r.SetAction? || r.AssetAdd?;
      if Malformed(r) && !r.ComponentUpdate? {
        responder.Send(Error(BadRequest));
      }
    }

    /** A message of a participant does to its session what Protocol.Handle says. */
    method HandleMessage(r: Request)
      requires Valid() && currentSession != null && currentParticipant != null
      requires currentParticipant.id in currentSession.View().participants && NoneReusable(currentSession.View())
      modifies currentSession.entityIDs`currentID, currentSession.entityIDs`reusableIDs, currentSession`entities
      modifies currentParticipant`entityIDs, currentSession.entities.Values`pose
      modifies currentSession.entityComponents`nameIndex, currentSession.entityComponents`idIndex
      modifies currentSession.entityComponents`entityComponents, currentSession.entityComponents`subscriptions
      modifies currentSession.entityComponents.ids`currentID, currentSession.entityComponents.ids`reusableIDs
      modifies currentSession.vikja`entityActions, currentSession.odal`assetInstances
      modifies currentSession.odal.assetInstanceIDs`currentID, currentSession.odal.assetInstanceIDs`reusableIDs
      modifies RespondersOf(currentSession.participants)`sent
      ensures Valid()
      ensures var result := Handle(flags, old(currentSession.View()), currentParticipant.id, r);
        currentSession.View() == result.session && currentSession.Logged() == Extended(old(currentSession.Logged()), result.out)
    {
      hide *;
      Sitting();
      HandleJoined(flags, currentSession, currentParticipant, vikja, odal, r, currentSession.View(), currentSession.Logged());
      Sits();
    }

    /** The handler's session is the one that the store holds under its global id. */
    ghost predicate Stored()
      reads this, sessions, if currentSession == null then {} else {currentSession}
    {
      currentSession != null ==>
        && sessions.GlobalID(currentSession) in sessions.sessions
        && sessions.sessions[sessions.GlobalID(currentSession)] == currentSession
        && sessions.ids !in currentSession.Generators()
    }

    /** The participant leaves, and the handler sits nowhere; the ghost parameters name what it sits in, and what that holds. */
    method LeaveSession(ghost session: Sessions.Session, ghost participant: Sessions.Participant, ghost s: Protocol.Session,
                        ghost logs: Logs, ghost frame: nat)
      returns (ghost order: seq<nat>, ghost result: Result)
      requires Valid() && Stored() && sessions.Keyed() && sessions.Partitioned({})
      requires currentSession == session && currentParticipant == participant && s == session.View() && logs == session.Logged()
      requires participant.id in s.participants && stopFrameHandling == Some(frame)
      modifies this`currentSession, this`currentParticipant, sessions`sessions, sessions.ids`reusableIDs
      modifies session.vikja`entityActions, session.odal`assetInstances, session`entities
      modifies session.entityComponents`subscriptions, session.entityComponents`entityComponents
      modifies session`frameHandlers, session.frameHandlerIDs`currentID, session.frameHandlerIDs`reusableIDs, session`participants
      modifies RespondersOf(session.participants)`sent
      ensures Valid() && currentSession == null && responder.sent == old(responder.sent)
      ensures forall id :: id in order <==> id in s.participants[participant.id].entityIDs
      ensures result == Leave(flags, s, participant.id, order, frame)
      ensures session.View() == result.session && session.Logged() == Extended(logs - {participant.id}, result.out)
      ensures session.participants == old(session.participants) - {participant.id}
      ensures sessions.Keyed() && sessions.Partitioned({})
      ensures sessions.sessions == if session.participants == map[] then old(sessions.sessions) - {sessions.GlobalID(session)} else old(sessions.sessions)
    {
      hide *;
      Sitting();
      Storing();
      Seated(session, participant);
      order := DepartAndRemove(flags, sessions, currentSession, currentParticipant, vikja, odal, stopFrameHandling.value, s, logs);
      result := Leave(flags, s, participant.id, order, frame);
      currentParticipant := null;
      currentSession := null;
      Away();
    }

    lemma Storing()
      requires Valid() && Stored() && currentSession != null
      ensures sessions.GlobalID(currentSession) in sessions.sessions
      ensures sessions.sessions[sessions.GlobalID(currentSession)] == currentSession
      ensures sessions.ids !in currentSession.Generators()
    {
    }

    lemma Away()
      requires currentSession == null && currentParticipant == null
      ensures Valid()
    {
    }

    /** A new session under an id that no stored session has. */
    method CreateSession() returns (session: Sessions.Session, ghost id: nat)
      requires sessions.Keyed() && sessions.Partitioned({})
      modifies sessions`sessions, sessions.ids`currentID, sessions.ids`reusableIDs
      ensures sessions.Keyed() && sessions.Partitioned({})
      ensures old(sessions.ids.View()).CanPick(id) && id !in old(sessions.LiveIDs()) && GlobalSessionID(sessions.serverID, id) !in old(sessions.sessions)
      ensures fresh(session) && fresh(session.Repr()) && session.Valid() && session.id == id
      ensures session.View() == NewSession(id) && session.Logged() == map[] && session.participants == map[]
      ensures sessions.sessions == old(sessions.sessions)[sessions.GlobalID(session) := session]
    {
      hide *;
      var sessionID := sessions.NewID();
      id := sessionID;
      session := new Sessions.Session(sessionID);
      KnownResponders(session);
      sessions.Add(session);
    }

    /** The connection enters the session, and its modules with it. */
    method EnterSession(session: Sessions.Session, ghost s: Protocol.Session, ghost logs: Logs)
      returns (ghost frame: nat, ghost joined: Result)
      requires session.Valid() && s == session.View() && logs == session.Logged()
      requires s.participantIDs.reusable == {} && s.participantIDs.current + 1 !in session.participants
      requires responder !in RespondersOf(session.participants)
      modifies this`currentSession, this`currentParticipant, this`stopFrameHandling
      modifies vikja`currentSession, vikja`currentParticipant, vikja`state, odal`currentSession, odal`currentParticipant, odal`state
      modifies session.participantIDs`currentID, session.participantIDs`reusableIDs, session`participants
      modifies session`frameHandlers, session.frameHandlerIDs`currentID, session.frameHandlerIDs`reusableIDs
      modifies RespondersOf(session.participants)`sent, responder`sent
      ensures Valid() && currentSession == session && stopFrameHandling == Some(frame) && s.frameIDs.CanPick(frame)
      ensures joined == Join(flags, s, responder.conn, sessions.GlobalID(session), frame)
      ensures session.View() == joined.session
      ensures session.Logged() == Extended(logs[s.participantIDs.current + 1 := old(responder.sent)],
                                           Then(joined.out, ModuleStates(joined.session, s.participantIDs.current + 1)))
    {
      hide *;
      var participant, frameID;
      participant, frameID, joined := Arrival.ArriveAndTell(flags, session, responder, sessions.GlobalID(session), s, logs);
      frame := frameID;
      Sit(session, participant, frameID);
      Sits();
    }

    /** The handler and its modules point at where the connection now is. */
    method Sit(session: Sessions.Session, participant: Sessions.Participant, frame: nat)
      requires Joined(session, participant)
      modifies this`currentSession, this`currentParticipant, this`stopFrameHandling
      modifies vikja`currentSession, vikja`currentParticipant, vikja`state, odal`currentSession, odal`currentParticipant, odal`state
      ensures currentSession == session && currentParticipant == participant && stopFrameHandling == Some(frame)
      ensures vikja.At(session, participant) && odal.At(session, participant) && Joined(session, participant)
      ensures session.View() == old(session.View()) && session.Logged() == old(session.Logged())
    {
      hide Sessions.Session.View, Joined;
      stopFrameHandling := Some(frame);
      currentSession := session;
      currentParticipant := participant;
      vikja.Init(session, participant);
      odal.Init(session, participant);
    }

    /** The participant leaves, which another session does not notice. */
    method LeaveBeside(ghost other: Option<Sessions.Session>, ghost session: Sessions.Session, ghost participant: Sessions.Participant,
                       ghost s: Protocol.Session, ghost logs: Logs, ghost frame: nat)
      returns (ghost order: seq<nat>, ghost result: Result)
      requires Valid() && Stored() && sessions.Keyed() && sessions.Partitioned({})
      requires currentSession == session && currentParticipant == participant && s == session.View() && logs == session.Logged()
      requires participant.id in s.participants && stopFrameHandling == Some(frame)
      requires other.Some? ==> Apart(session, other.value, sessions.ids) && other.value.Valid()
      modifies this`currentSession, this`currentParticipant, sessions`sessions, sessions.ids`reusableIDs
      modifies session.vikja`entityActions, session.odal`assetInstances, session`entities
      modifies session.entityComponents`subscriptions, session.entityComponents`entityComponents
      modifies session`frameHandlers, session.frameHandlerIDs`currentID, session.frameHandlerIDs`reusableIDs, session`participants
      modifies RespondersOf(session.participants)`sent
      ensures Valid() && currentSession == null && responder.sent == old(responder.sent)
      ensures forall id :: id in order <==> id in s.participants[participant.id].entityIDs
      ensures result == Leave(flags, s, participant.id, order, frame)
      ensures session.View() == result.session && session.Logged() == Extended(logs - {participant.id}, result.out)
      ensures session.participants == old(session.participants) - {participant.id}
      ensures sessions.Keyed() && sessions.Partitioned({})
      ensures sessions.sessions == if session.participants == map[] then old(sessions.sessions) - {sessions.GlobalID(session)} else old(sessions.sessions)
      ensures other.Some? ==>
        && other.value.View() == old(other.value.View()) && other.value.Logged() == old(other.value.Logged())
        && other.value.participants == old(other.value.participants) && other.value.entities == old(other.value.entities)
        && other.value.Valid()
    {
      hide *;
      if other.Some? {
        ApartMeans(session, other.value, sessions.ids);
        KnownResponders(other.value);
        other.value.Parts();
      }
      order, result := LeaveSession(session, participant, s, logs, frame);
      if other.Some? {
        other.value.Parts();
      }
    }

    /** Another session that this connection does not answer in, and that shares nothing with what a join changes. */
    ghost predicate Bystander(other: Sessions.Session, target: Option<Sessions.Session>)
      reads other`participants, if target.Some? then {target.value} else {}
    {
      && responder !in RespondersOf(other.participants) && sessions.ids !in other.Generators()
      && (target.Some? ==> Beside(target.value, other))
    }

    lemma BystanderMeans(other: Sessions.Session, target: Option<Sessions.Session>)
      requires Bystander(other, target)
      ensures responder !in RespondersOf(other.participants) && sessions.ids !in other.Generators()
      ensures target.Some? ==> Beside(target.value, other)
    {
    }

    /** The connection enters one session, which another one does not notice. */
    method EnterBeside(ghost other: Option<Sessions.Session>, session: Sessions.Session, ghost s: Protocol.Session, ghost logs: Logs)
      returns (ghost frame: nat, ghost joined: Result)
      requires session.Valid() && s == session.View() && logs == session.Logged()
      requires s.participantIDs.reusable == {} && s.participantIDs.current + 1 !in session.participants
      requires responder !in RespondersOf(session.participants)
      requires other.Some? ==> Beside(session, other.value) && responder !in RespondersOf(other.value.participants)
      modifies this`currentSession, this`currentParticipant, this`stopFrameHandling
      modifies vikja`currentSession, vikja`currentParticipant, vikja`state, odal`currentSession, odal`currentParticipant, odal`state
      modifies session.participantIDs`currentID, session.participantIDs`reusableIDs, session`participants
      modifies session`frameHandlers, session.frameHandlerIDs`currentID, session.frameHandlerIDs`reusableIDs
      modifies RespondersOf(session.participants)`sent, responder`sent
      ensures Valid() && currentSession == session && stopFrameHandling == Some(frame) && s.frameIDs.CanPick(frame)
      ensures joined == Join(flags, s, responder.conn, sessions.GlobalID(session), frame)
      ensures session.View() == joined.session
      ensures session.Logged() == Extended(logs[s.participantIDs.current + 1 := old(responder.sent)],
                                           Then(joined.out, ModuleStates(joined.session, s.participantIDs.current + 1)))
      ensures other.Some? ==> other.value.View() == old(other.value.View()) && other.value.Logged() == old(other.value.Logged())
    {
      hide *;
      if other.Some? {
        BesideMeans(session, other.value);
        KnownResponders(other.value);
        other.value.Parts();
      }
      frame, joined := EnterSession(session, s, logs);
      if other.Some? {
        other.value.Parts();
      }
    }

    /** A connection that sits nowhere asks for a session: the one under the global id, or a new one, or it is refused.
        The ghost parameters name what is under the global id, and what it holds, and another session. */
    method JoinStanding(globalID: string, ghost other: Option<Sessions.Session>,
                        ghost target: Option<Sessions.Session>, ghost s: Protocol.Session, ghost logs: Logs)
      returns (ghost frame: nat, ghost id: nat, ghost joined: Result)
      requires Valid() && currentSession == null && sessions.Keyed() && sessions.Partitioned({})
      requires target == sessions.GetByGlobalID(globalID)
      requires target.Some? ==> Open(target.value, s, logs)
      requires other.Some? ==> Bystander(other.value, target)
      modifies this`currentSession, this`currentParticipant, this`stopFrameHandling, responder`sent
      modifies sessions`sessions, sessions.ids`currentID, sessions.ids`reusableIDs
      modifies vikja`currentSession, vikja`currentParticipant, vikja`state, odal`currentSession, odal`currentParticipant, odal`state
      modifies if target.Some? then target.value.Repr() else {}
      ensures Valid() && Stored() && sessions.Keyed() && sessions.Partitioned({})
      ensures target.Some? ==>
        && sessions.sessions == old(sessions.sessions) && currentSession == target.value
        && joined == Join(flags, s, responder.conn, sessions.GlobalID(target.value), frame) && s.frameIDs.CanPick(frame)
        && target.value.View() == joined.session
        && target.value.Logged() == Extended(logs[s.participantIDs.current + 1 := old(responder.sent)],
                                             Then(joined.out, ModuleStates(joined.session, s.participantIDs.current + 1)))
      ensures target == None && globalID == "" ==>
        && old(sessions.ids.View()).CanPick(id) && id !in old(sessions.LiveIDs()) && currentSession != null && NO_IDS.CanPick(frame)
        && joined == Join(flags, NewSession(id), responder.conn, GlobalSessionID(sessions.serverID, id), frame)
        && currentSession.View() == joined.session
        && currentSession.Logged() == Extended(map[1 := old(responder.sent)], Then(joined.out, ModuleStates(joined.session, 1)))
        && sessions.sessions == old(sessions.sessions)[GlobalSessionID(sessions.serverID, id) := currentSession]
      ensures other.Some? ==> other.value.View() == old(other.value.View()) && other.value.Logged() == old(other.value.Logged())
      ensures target == None && globalID != "" ==>
        && currentSession == null && sessions.sessions == old(sessions.sessions)
        && responder.sent == old(responder.sent) + [Error(NotFound)]
    {
      hide *;
      frame, id, joined := 0, 0, Result(s, map[]);
      var found := sessions.GetByGlobalID(globalID);
      if found == None && globalID != "" {
        Sitting();
        SendBeside(other, target);
        Away();
        NotStored();
        return;
      }
      if found == None {
        id, frame, joined := JoinNew(other);
      } else {
        OpenMeans(found.value, s, logs);
        InRepr(found.value);
        if other.Some? {
          BystanderMeans(other.value, target);
        }
        NoGenerator(found.value, sessions.ids);
        sessions.KeyedAt(globalID);
        frame, joined := EnterBeside(other, found.value, s, logs);
        NowStored();
      }
    }

    lemma NotStored()
      requires currentSession == null
      ensures Stored()
    {
    }

    lemma NowStored()
      requires currentSession != null && sessions.GlobalID(currentSession) in sessions.sessions
      requires sessions.sessions[sessions.GlobalID(currentSession)] == currentSession && sessions.ids !in currentSession.Generators()
      ensures Stored()
    {
    }

    method SendBeside(ghost other: Option<Sessions.Session>, ghost target: Option<Sessions.Session>)
      requires other.Some? ==> Bystander(other.value, target)
      modifies responder`sent
      ensures responder.sent == old(responder.sent) + [Error(NotFound)]
      ensures other.Some? ==> other.value.View() == old(other.value.View()) && other.value.Logged() == old(other.value.Logged())
    {
      hide *;
      if other.Some? {
        BystanderMeans(other.value, target);
        KnownResponders(other.value);
      }
      responder.Send(Error(NotFound));
    }

    method JoinNew(ghost other: Option<Sessions.Session>) returns (ghost id: nat, ghost frame: nat, ghost joined: Result)
      requires Valid() && currentSession == null && sessions.Keyed() && sessions.Partitioned({})
      requires other.Some? ==> Bystander(other.value, None)
      modifies this`currentSession, this`currentParticipant, this`stopFrameHandling, responder`sent
      modifies sessions`sessions, sessions.ids`currentID, sessions.ids`reusableIDs
      modifies vikja`currentSession, vikja`currentParticipant, vikja`state, odal`currentSession, odal`currentParticipant, odal`state
      ensures Valid() && Stored() && sessions.Keyed() && sessions.Partitioned({})
      ensures old(sessions.ids.View()).CanPick(id) && id !in old(sessions.LiveIDs()) && currentSession != null
      ensures joined == Join(flags, NewSession(id), responder.conn, GlobalSessionID(sessions.serverID, id), frame)
      ensures currentSession.View() == joined.session && NO_IDS.CanPick(frame)
      ensures currentSession.Logged() == Extended(map[1 := old(responder.sent)], Then(joined.out, ModuleStates(joined.session, 1)))
      ensures sessions.sessions == old(sessions.sessions)[GlobalSessionID(sessions.serverID, id) := currentSession]
      ensures other.Some? ==> other.value.View() == old(other.value.View()) && other.value.Logged() == old(other.value.Logged())
    {
      hide *;
      if other.Some? {
        BystanderMeans(other.value, None);
        NoGenerator(other.value, sessions.ids);
        KnownResponders(other.value);
        other.value.Parts();
      }
      ghost var log := responder.sent;
      var session;
      session, id := CreateSession();
      NewSessionOpen(session, id);
      InRepr(session);
      GlobalIDIs(session);
      if other.Some? {
        other.value.Parts();
        NewBeside(session, other.value);
      }
      frame, joined := EnterBeside(other, session, NewSession(id), map[]);
      assert map[][1 := log] == map[1 := log];
      OtherGenerator(session, sessions.ids);
      NowStored();
    }

    /** A session without participants that shares no generator with another one. */
    lemma NewBeside(session: Sessions.Session, other: Sessions.Session)
      requires session != other && session.participants == map[]
      requires session.participantIDs != other.participantIDs && session.participantIDs != other.entityIDs
      requires session.participantIDs != other.frameHandlerIDs && session.participantIDs != other.entityComponents.ids
      requires session.participantIDs != other.odal.assetInstanceIDs
      requires session.frameHandlerIDs != other.participantIDs && session.frameHandlerIDs != other.entityIDs
      requires session.frameHandlerIDs != other.frameHandlerIDs && session.frameHandlerIDs != other.entityComponents.ids
      requires session.frameHandlerIDs != other.odal.assetInstanceIDs
      ensures Beside(session, other)
    {
    }

    lemma GlobalIDIs(session: Sessions.Session)
      ensures sessions.GlobalID(session) == GlobalSessionID(sessions.serverID, session.id)
    {
    }

    lemma NewSessionOpen(session: Sessions.Session, id: nat)
      requires session.View() == NewSession(id) && session.participants == map[]
      ensures session.View().participantIDs.reusable == {} && session.View().participantIDs.current == 0
      ensures session.View().frameIDs == NO_IDS && RespondersOf(session.participants) == {}
    {
    }

    /** A session that this connection may enter: it does not answer there yet, and the next participant id is unused. */
    ghost predicate Open(session: Sessions.Session, s: Protocol.Session, logs: Logs)
      reads *
    {
      && session.Valid() && s == session.View() && logs == session.Logged()
      && s.participantIDs.reusable == {} && s.participantIDs.current + 1 !in session.participants
      && responder !in RespondersOf(session.participants) && sessions.ids !in session.Generators()
    }

    lemma OpenMeans(session: Sessions.Session, s: Protocol.Session, logs: Logs)
      requires Open(session, s, logs)
      ensures session.Valid() && s == session.View() && logs == session.Logged()
      ensures s.participantIDs.reusable == {} && s.participantIDs.current + 1 !in session.participants
      ensures responder !in RespondersOf(session.participants) && sessions.ids !in session.Generators()
    {
    }

    /** The sessions that are stored after a departure from one. */
    ghost function StoredAfter(before: map<string, Sessions.Session>, session: Sessions.Session, left: Protocol.Session)
      : map<string, Sessions.Session>
    {
      if left.participants == map[] then before - {sessions.GlobalID(session)} else before
    }

    /** A connection asks for a session: it is told when it is there already, else it leaves where it is and joins; the
        modules send their states either way.
        The ghost parameters name where it sits and what is under the global id, and what these hold. */
    method HandleParticipantJoin(globalID: string, ghost session: Option<Sessions.Session>, ghost participant: Option<Sessions.Participant>,
                                 ghost own: Protocol.Session, ghost ownLogs: Logs,
                                 ghost target: Option<Sessions.Session>, ghost s: Protocol.Session, ghost logs: Logs)
      returns (ghost frame: nat, ghost id: nat, ghost joined: Result, ghost order: seq<nat>, ghost left: Result)
      requires Valid() && Stored() && sessions.Keyed() && sessions.Partitioned({})
      requires if currentSession == null then session == None && participant == None
               else session == Some(currentSession) && participant == Some(currentParticipant)
                    && own == currentSession.View() && ownLogs == currentSession.Logged()
      requires target == sessions.GetByGlobalID(globalID)
      requires target.Some? && target != session ==>
        Open(target.value, s, logs) && (session.Some? ==> Apart(session.value, target.value, sessions.ids))
      modifies this`currentSession, this`currentParticipant, this`stopFrameHandling, responder`sent
      modifies sessions`sessions, sessions.ids`currentID, sessions.ids`reusableIDs
      modifies vikja`currentSession, vikja`currentParticipant, vikja`state, odal`currentSession, odal`currentParticipant, odal`state
      modifies if session.Some? then session.value.Repr() else {}
      modifies if target.Some? then target.value.Repr() else {}
      ensures Valid() && Stored() && sessions.Keyed() && sessions.Partitioned({})
      ensures session.Some? && target == session ==>
        && currentSession == session.value && currentParticipant == participant.value && sessions.sessions == old(sessions.sessions)
        && session.value.View() == own
        && session.value.Logged() == Extended(ownLogs, Then(Reply(participant.value.id, Error(SessionAlreadyJoined)),
                                                            ModuleStates(own, participant.value.id)))
      ensures session.Some? && target != session ==>
        && participant.value.id in own.participants && old(stopFrameHandling).Some?
        && (forall e :: e in order <==> e in own.participants[participant.value.id].entityIDs)
        && left == Leave(flags, own, participant.value.id, order, old(stopFrameHandling).value)
        && session.value.View() == left.session && session.value.Logged() == Extended(ownLogs - {participant.value.id}, left.out)
      ensures target.Some? && target != session ==>
        && currentSession == target.value && s.frameIDs.CanPick(frame)
        && joined == Join(flags, s, responder.conn, globalID, frame) && target.value.View() == joined.session
        && target.value.Logged() == Extended(logs[s.participantIDs.current + 1 := old(responder.sent)],
                                             Then(joined.out, ModuleStates(joined.session, s.participantIDs.current + 1)))
        && sessions.sessions
           == if session == None then old(sessions.sessions) else StoredAfter(old(sessions.sessions), session.value, left.session)
      ensures target == None && globalID == "" ==>
        && currentSession != null && NO_IDS.CanPick(frame)
        && joined == Join(flags, NewSession(id), responder.conn, GlobalSessionID(sessions.serverID, id), frame)
        && currentSession.View() == joined.session
        && currentSession.Logged() == Extended(map[1 := old(responder.sent)], Then(joined.out, ModuleStates(joined.session, 1)))
        && var stored := if session == None then old(sessions.sessions) else StoredAfter(old(sessions.sessions), session.value, left.session);
           (forall key :: key in stored ==> stored[key].id != id)
           && sessions.sessions == stored[GlobalSessionID(sessions.serverID, id) := currentSession]
      ensures target == None && globalID != "" ==>
        && currentSession == null && responder.sent == old(responder.sent) + [Error(NotFound)]
        && sessions.sessions
           == if session == None then old(sessions.sessions) else StoredAfter(old(sessions.sessions), session.value, left.session)
    {
      hide *;
      Sitting();
      sessions.KeyedAt(globalID);
      frame, id, joined, order, left := 0, 0, Result(s, map[]), [], Result(own, map[]);
      if currentSession != null {
        Storing();
        InRepr(currentSession);
        JoinedResponder(currentSession, currentParticipant);
        if sessions.GlobalID(currentSession) == globalID {
          Respond(currentSession, currentParticipant, Error(SessionAlreadyJoined));
          Arrival.ModulesJoin(currentSession, currentParticipant);
          ExtendedThen(ownLogs, Reply(participant.value.id, Error(SessionAlreadyJoined)), ModuleStates(own, participant.value.id));
          Sits();
          return;
        }
        frame, id, joined, order, left :=
          Rejoin(globalID, session.value, participant.value, own, ownLogs, stopFrameHandling.value, target, s, logs);
      } else {
        sessions.Live();
        frame, id, joined := JoinStanding(globalID, None, target, s, logs);
      }
    }

    /** A connection leaves where it sits and joins another session. */
    method Rejoin(globalID: string, ghost session: Sessions.Session, ghost participant: Sessions.Participant,
                  ghost own: Protocol.Session, ghost ownLogs: Logs, ghost stop: nat,
                  ghost target: Option<Sessions.Session>, ghost s: Protocol.Session, ghost logs: Logs)
      returns (ghost frame: nat, ghost id: nat, ghost joined: Result, ghost order: seq<nat>, ghost left: Result)
      requires Valid() && Stored() && sessions.Keyed() && sessions.Partitioned({})
      requires currentSession == session && currentParticipant == participant && own == session.View() && ownLogs == session.Logged()
      requires participant.id in own.participants && stopFrameHandling == Some(stop)
      requires target == sessions.GetByGlobalID(globalID) && sessions.GlobalID(session) != globalID
      requires target.Some? ==> Open(target.value, s, logs) && Apart(session, target.value, sessions.ids)
      modifies this`currentSession, this`currentParticipant, this`stopFrameHandling, responder`sent
      modifies sessions`sessions, sessions.ids`currentID, sessions.ids`reusableIDs
      modifies vikja`currentSession, vikja`currentParticipant, vikja`state, odal`currentSession, odal`currentParticipant, odal`state
      modifies session.Repr(), if target.Some? then target.value.Repr() else {}
      ensures Valid() && Stored() && sessions.Keyed() && sessions.Partitioned({})
      ensures forall e :: e in order <==> e in own.participants[participant.id].entityIDs
      ensures left == Leave(flags, own, participant.id, order, stop)
      ensures session.View() == left.session && session.Logged() == Extended(ownLogs - {participant.id}, left.out)
      ensures target.Some? ==>
        && currentSession == target.value && s.frameIDs.CanPick(frame)
        && joined == Join(flags, s, responder.conn, sessions.GlobalID(target.value), frame) && target.value.View() == joined.session
        && target.value.Logged() == Extended(logs[s.participantIDs.current + 1 := old(responder.sent)],
                                             Then(joined.out, ModuleStates(joined.session, s.participantIDs.current + 1)))
        && sessions.sessions == StoredAfter(old(sessions.sessions), session, left.session)
      ensures target == None && globalID == "" ==>
        && currentSession != null && NO_IDS.CanPick(frame)
        && joined == Join(flags, NewSession(id), responder.conn, GlobalSessionID(sessions.serverID, id), frame)
        && currentSession.View() == joined.session
        && currentSession.Logged() == Extended(map[1 := old(responder.sent)], Then(joined.out, ModuleStates(joined.session, 1)))
        && var stored := StoredAfter(old(sessions.sessions), session, left.session);
           (forall key :: key in stored ==> stored[key].id != id)
           && sessions.sessions == stored[GlobalSessionID(sessions.serverID, id) := currentSession]
      ensures target == None && globalID != "" ==>
        && currentSession == null && responder.sent == old(responder.sent) + [Error(NotFound)]
        && sessions.sessions == StoredAfter(old(sessions.sessions), session, left.session)
    {
      hide *;
      Storing();
      RespondersLeft();
      InRepr(session);
      if target.Some? {
        ApartMeans(session, target.value, sessions.ids);
        NotInRepr(session, target.value);
      }
      ghost var members := session.participants;
      order, left := LeaveFor(globalID, session, participant, own, ownLogs, stop, target, s, logs);
      BystanderLeft(members, session, participant, target);
      sessions.Live();
      frame, id, joined := JoinStanding(globalID, Some(session), target, s, logs);
    }

    /** A departure that leaves the session that is asked for open. */
    method LeaveFor(globalID: string, ghost session: Sessions.Session, ghost participant: Sessions.Participant,
                    ghost own: Protocol.Session, ghost ownLogs: Logs, ghost stop: nat,
                    ghost target: Option<Sessions.Session>, ghost s: Protocol.Session, ghost logs: Logs)
      returns (ghost order: seq<nat>, ghost left: Result)
      requires Valid() && Stored() && sessions.Keyed() && sessions.Partitioned({})
      requires currentSession == session && currentParticipant == participant && own == session.View() && ownLogs == session.Logged()
      requires participant.id in own.participants && stopFrameHandling == Some(stop)
      requires target == sessions.GetByGlobalID(globalID) && sessions.GlobalID(session) != globalID
      requires target.Some? ==> Open(target.value, s, logs) && Apart(session, target.value, sessions.ids)
      modifies this`currentSession, this`currentParticipant, sessions`sessions, sessions.ids`reusableIDs
      modifies session.vikja`entityActions, session.odal`assetInstances, session`entities
      modifies session.entityComponents`subscriptions, session.entityComponents`entityComponents
      modifies session`frameHandlers, session.frameHandlerIDs`currentID, session.frameHandlerIDs`reusableIDs, session`participants
      modifies RespondersOf(session.participants)`sent
      ensures Valid() && currentSession == null && responder.sent == old(responder.sent)
      ensures forall e :: e in order <==> e in own.participants[participant.id].entityIDs
      ensures left == Leave(flags, own, participant.id, order, stop)
      ensures session.View() == left.session && session.Logged() == Extended(ownLogs - {participant.id}, left.out)
      ensures sessions.sessions == StoredAfter(old(sessions.sessions), session, left.session)
      ensures sessions.Keyed() && sessions.Partitioned({}) && target == sessions.GetByGlobalID(globalID)
      ensures target.Some? ==> Open(target.value, s, logs) && target.value.Repr() == old(target.value.Repr())
      ensures session.participants == old(session.participants) - {participant.id}
      ensures target.Some? ==> target.value.participants == old(target.value.participants)
    {
      hide *;
      if target.Some? {
        OpenMeans(target.value, s, logs);
        ApartMeans(session, target.value, sessions.ids);
      }
      ghost var stored := sessions.sessions;
      order, left := LeaveBeside(target, session, participant, own, ownLogs, stop);
      StoredAfterIs(stored, session, left.session);
      StillFound(stored, session, left.session, globalID, target);
      if target.Some? {
        MeansOpen(target.value, s, logs);
      }
    }

    lemma StoredAfterIs(before: map<string, Sessions.Session>, session: Sessions.Session, left: Protocol.Session)
      requires left == session.View()
      ensures StoredAfter(before, session, left) == if session.participants == map[] then before - {sessions.GlobalID(session)} else before
    {
      session.SameKeys();
    }

    lemma StillFound(before: map<string, Sessions.Session>, session: Sessions.Session, left: Protocol.Session, globalID: string,
                     target: Option<Sessions.Session>)
      requires sessions.sessions == StoredAfter(before, session, left) && sessions.GlobalID(session) != globalID
      requires target == None ==> globalID !in before
      requires target.Some? ==> globalID in before && target.value == before[globalID]
      ensures target == sessions.GetByGlobalID(globalID)
    {
    }

    lemma RespondersLeft()
      requires Valid() && currentSession != null
      ensures var members := currentSession.participants;
        RespondersOf(members - {currentParticipant.id}) == RespondersOf(members) - {responder}
    {
      RespondersWithout(currentSession.participants, currentParticipant);
    }

    lemma BystanderLeft(members: map<nat, Sessions.Participant>, session: Sessions.Session, participant: Sessions.Participant,
                        target: Option<Sessions.Session>)
      requires RespondersOf(session.participants) == RespondersOf(members) - {responder} && sessions.ids !in session.Generators()
      requires target.Some? ==>
        && session != target.value && RespondersOf(members) !! RespondersOf(target.value.participants)
        && target.value.participantIDs !in session.Generators() && target.value.frameHandlerIDs !in session.Generators()
      ensures Bystander(session, target)
    {
    }

    lemma MeansOpen(session: Sessions.Session, s: Protocol.Session, logs: Logs)
      requires session.Valid() && s == session.View() && logs == session.Logged()
      requires s.participantIDs.reusable == {} && s.participantIDs.current + 1 !in session.participants
      requires responder !in RespondersOf(session.participants) && sessions.ids !in session.Generators()
      ensures Open(session, s, logs)
    {
    }
  }

  lemma InRepr(session: Sessions.Session)
    ensures session in session.Repr() && session.participantIDs in session.Repr() && session.frameHandlerIDs in session.Repr()
    ensures session.entityIDs in session.Repr() && session.entityComponents.ids in session.Repr()
    ensures session.odal.assetInstanceIDs in session.Repr()
    ensures session.entityComponents in session.Repr() && session.vikja in session.Repr() && session.odal in session.Repr()
    ensures forall r :: r in RespondersOf(session.participants) ==> r in session.Repr()
  {
  }

  lemma NotInRepr(session: Sessions.Session, other: Sessions.Session)
    requires session != other
    ensures session !in other.Repr()
  {
  }

  /** A session that shares nothing with what entering another one changes. */
  ghost predicate Beside(entered: Sessions.Session, other: Sessions.Session)
    reads entered`participants, other`participants
  {
    && entered != other && entered.participantIDs !in other.Generators() && entered.frameHandlerIDs !in other.Generators()
    && RespondersOf(entered.participants) !! RespondersOf(other.participants)
  }

  lemma BesideMeans(entered: Sessions.Session, other: Sessions.Session)
    requires Beside(entered, other)
    ensures entered != other && RespondersOf(entered.participants) !! RespondersOf(other.participants)
    ensures entered.participantIDs != other.participantIDs && entered.participantIDs != other.entityIDs
    ensures entered.participantIDs != other.frameHandlerIDs && entered.participantIDs != other.entityComponents.ids
    ensures entered.participantIDs != other.odal.assetInstanceIDs
    ensures entered.frameHandlerIDs != other.participantIDs && entered.frameHandlerIDs != other.entityIDs
    ensures entered.frameHandlerIDs != other.frameHandlerIDs && entered.frameHandlerIDs != other.entityComponents.ids
    ensures entered.frameHandlerIDs != other.odal.assetInstanceIDs
  {
    NoGenerator(other, entered.participantIDs);
    NoGenerator(other, entered.frameHandlerIDs);
  }

  /** Nobody else answers on the connection of a participant that has left. */
  lemma RespondersWithout(members: map<nat, Sessions.Participant>, participant: Sessions.Participant)
    requires participant.id in members && members[participant.id] == participant
    requires forall p, q :: p in members && q in members && members[p].responder == members[q].responder ==> p == q
    ensures RespondersOf(members - {participant.id}) == RespondersOf(members) - {participant.responder}
  {
    var rest := members - {participant.id};
    forall r ensures r in RespondersOf(rest) <==> r in RespondersOf(members) && r != participant.responder {
      if r in RespondersOf(members) && r != participant.responder {
        var p :| p in members && members[p].responder == r;
        assert p in rest;
      }
    }
  }

  /** Two sessions, and the ids of the store, that share nothing that a departure from one or a join to the other changes. */
  ghost predicate Apart(session: Sessions.Session, other: Sessions.Session, ids: SequentialIDGenerator)
    reads session`participants, other`participants
  {
    && session != other && session.vikja != other.vikja && session.odal != other.odal
    && session.entityComponents != other.entityComponents && session.frameHandlerIDs !in other.Generators() && ids !in other.Generators()
    && other.participantIDs !in session.Generators() && other.frameHandlerIDs !in session.Generators()
    && RespondersOf(session.participants) !! RespondersOf(other.participants)
  }

  lemma ApartMeans(session: Sessions.Session, other: Sessions.Session, ids: SequentialIDGenerator)
    requires Apart(session, other, ids)
    ensures other.participantIDs !in session.Generators() && other.frameHandlerIDs !in session.Generators()
    ensures session != other && session.vikja != other.vikja && session.odal != other.odal
    ensures session.entityComponents != other.entityComponents && RespondersOf(session.participants) !! RespondersOf(other.participants)
    ensures session.frameHandlerIDs != other.participantIDs && session.frameHandlerIDs != other.entityIDs
    ensures session.frameHandlerIDs != other.frameHandlerIDs && session.frameHandlerIDs != other.entityComponents.ids
    ensures session.frameHandlerIDs != other.odal.assetInstanceIDs
    ensures ids != other.participantIDs && ids != other.entityIDs && ids != other.frameHandlerIDs
    ensures ids != other.entityComponents.ids && ids != other.odal.assetInstanceIDs
  {
    NoGenerator(other, session.frameHandlerIDs);
    NoGenerator(other, ids);
  }
}
