/** The vikja and odal modules of one connection: the session it refers to, the participant and the shared state. */
module Modules {
  import opened Options
  import opened Ids
  import opened Components
  import opened Protocol
  import opened EntityComponents
  import opened Sessions

  lemma ExtendedReply(logs: Logs, p: nat, m: Msg)
    requires p in logs
    ensures logs[p := logs[p] + [m]] == Extended(logs, Reply(p, m))
  {
    forall q | q in logs ensures logs[p := logs[p] + [m]][q] == Extended(logs, Reply(p, m))[q] {
      assert Sent(Reply(p, m), q) == if q == p then [m] else [];
    }
  }

  /** Who is there decides who is sent a broadcast. */
  lemma SameBroadcast(s: Protocol.Session, s': Protocol.Session, sender: nat, m: Msg)
    requires s'.participants.Keys == s.participants.Keys
    ensures Protocol.Broadcast(s', sender, m) == Protocol.Broadcast(s, sender, m)
  {
  }

  lemma ExtendedThen(logs: Logs, a: Outbox, b: Outbox)
    ensures Extended(Extended(logs, a), b) == Extended(logs, Then(a, b))
  {
    hide Then, Sent;
    forall p | p in logs ensures Extended(Extended(logs, a), b)[p] == Extended(logs, Then(a, b))[p] {
      SentThen(a, b, p);
      assert logs[p] + Sent(a, p) + Sent(b, p) == logs[p] + (Sent(a, p) + Sent(b, p));
    }
  }

  /** A participant object of a session object. */
  ghost predicate Joined(session: Sessions.Session, participant: Sessions.Participant)
    reads session`participants, session`entities
  {
    session.Valid() && participant.id in session.participants && session.participants[participant.id] == participant
  }

  lemma ActionAccepted(s: Protocol.Session, pid: nat, r: ActionRequest)
    requires r.name != "" && r.timestamp.Some? && r.entity in s.entities
    requires r.entity in s.actions && r.name in s.actions[r.entity] ==> s.actions[r.entity][r.name].timestamp <= r.timestamp.value
    ensures var a := Action(r.timestamp.value, r.data);
      SetEntityAction(s, pid, Some(r))
      == Result(s.(actions := PutAction(s.actions, r.entity, r.name, a)),
                Then(Reply(pid, ActionResponse), Protocol.Broadcast(s, pid, ActionBroadcast(r.entity, r.name, a))))
  {
  }

  lemma ActionRefused(s: Protocol.Session, pid: nat, request: Option<ActionRequest>)
    requires request.None? || request.value.name == "" || request.value.timestamp.None? || request.value.entity !in s.entities
             || (request.value.entity in s.actions && request.value.name in s.actions[request.value.entity]
                 && request.value.timestamp.value < s.actions[request.value.entity][request.value.name].timestamp)
    ensures SetEntityAction(s, pid, request) == Result(s, Reply(pid, Error(BadRequest)))
  {
  }

  lemma AssetRefused(s: Protocol.Session, pid: nat, assetId: string, id: nat, code: ErrorCode)
    requires if assetId == "" then code == BadRequest else if id !in s.entities then code == NotFound
             else s.entities[id].owner != pid && code == Unauthorized
    ensures AddAsset(s, pid, assetId, id) == Result(s, Reply(pid, Error(code)))
  {
  }

  lemma AssetAccepted(s: Protocol.Session, pid: nat, assetId: string, id: nat)
    requires assetId != "" && id in s.entities && s.entities[id].owner == pid
    ensures var asset := Asset(s.assetIDs.current + 1, assetId, pid);
      AddAsset(s, pid, assetId, id)
      == Result(s.(assetIDs := s.assetIDs.Take(asset.id), assets := s.assets[id := asset]),
                Then(Reply(pid, AssetAddResponse(asset.id)), Protocol.Broadcast(s, pid, AssetAddBroadcast(id, asset))))
  {
  }

  lemma JoinedResponder(session: Sessions.Session, participant: Sessions.Participant)
    requires Joined(session, participant)
    ensures participant.responder in RespondersOf(session.participants) && session.Valid()
  {
  }

  lemma KnownResponders(session: Sessions.Session)
    ensures forall r :: r in RespondersOf(session.participants) ==> exists p :: p in session.participants && session.participants[p].responder == r
  {
  }

  /** A reply is what the participant's own log ends with. */
  method Respond(session: Sessions.Session, participant: Sessions.Participant, m: Msg)
    requires Joined(session, participant)
    modifies participant.responder`sent
    ensures session.View() == old(session.View())
    ensures session.Logged() == Extended(old(session.Logged()), Reply(participant.id, m))
  {
    hide Extended, Sent, Sessions.Session.View;
    session.SameKeys();
    ExtendedReply(session.Logged(), participant.id, m);
    session.SendTo(participant, m);
  }

  /** A reply to the participant, and a broadcast to the others. */
  method RespondAndBroadcast(session: Sessions.Session, participant: Sessions.Participant, reply: Msg, m: Msg)
    requires Joined(session, participant)
    modifies RespondersOf(session.participants)`sent
    ensures session.View() == old(session.View())
    ensures session.Logged() == Extended(old(session.Logged()),
                                         Then(Reply(participant.id, reply), Protocol.Broadcast(session.View(), participant.id, m)))
  {
    hide Extended, Sent, Sessions.Session.View, Sessions.Session.Logged, Protocol.Broadcast, Then;
    session.Keyed();
    ghost var logs := session.Logged();
    Respond(session, participant, reply);
    session.Broadcast(participant, m);
    ExtendedThen(logs, Reply(participant.id, reply), Protocol.Broadcast(session.View(), participant.id, m));
  }

  class VikjaModule {
    var currentSession: Sessions.Session?
    var currentParticipant: Sessions.Participant?
    var state: VikjaState?

    constructor ()
      ensures currentParticipant == null
    {
      currentSession, currentParticipant, state := null, null, null;
    }

    method Init(s: Sessions.Session, p: Sessions.Participant)
      modifies this`currentSession, this`currentParticipant, this`state
      ensures At(s, p)
    {
      currentSession, currentParticipant, state := s, p, s.vikja;
    }

    predicate At(s: Sessions.Session, p: Sessions.Participant)
      reads this`currentSession, this`currentParticipant, this`state
    {
      currentSession == s && currentParticipant == p && state == s.vikja
    }

    method HandleEntityDelete(id: nat)
      requires currentSession != null && state == currentSession.vikja
      modifies state`entityActions
      ensures state.entityActions == if id in currentSession.entities then old(state.entityActions) else old(state.entityActions) - {id}
    {
      if currentSession.EntityByID(id) == None {
        state.RemoveEntityActions(id);
      }
    }

    method HandleSetEntityAction(request: Option<ActionRequest>)
      requires currentSession != null && currentParticipant != null
      requires Joined(currentSession, currentParticipant) && state == currentSession.vikja
      modifies state`entityActions, RespondersOf(currentSession.participants)`sent
      ensures var result := SetEntityAction(old(currentSession.View()), currentParticipant.id, request);
        currentSession.View() == result.session && currentSession.Logged() == Extended(old(currentSession.Logged()), result.out)
    {
      hide *;
      var session, participant := currentSession, currentParticipant;
      ghost var s := session.View();
      session.SameKeys();
      JoinedResponder(session, participant);
      if request.None? || request.value.name == "" || request.value.timestamp.None? {
        ActionRefused(s, participant.id, request);
        Respond(session, participant, Error(BadRequest));
        return;
      }
      var r := request.value;
      if session.EntityByID(r.entity) == None {
        ActionRefused(s, participant.id, request);
        Respond(session, participant, Error(BadRequest));
        return;
      }
      var latest := state.EntityAction(r.entity, r.name);
      if latest.Some? && r.timestamp.value < latest.value.timestamp {
        ActionRefused(s, participant.id, request);
        Respond(session, participant, Error(BadRequest));
        return;
      }
      var a := Action(r.timestamp.value, r.data);
      ActionAccepted(s, participant.id, r);
      StoreAction(session, r.entity, r.name, a);
      SameBroadcast(s, session.View(), participant.id, ActionBroadcast(r.entity, r.name, a));
      RespondAndBroadcast(session, participant, ActionResponse, ActionBroadcast(r.entity, r.name, a));
    }

    /** The session's state is the module's. */
    method StoreAction(session: Sessions.Session, entity: nat, name: string, a: Action)
      requires state == session.vikja
      modifies state`entityActions
      ensures session.View() == old(session.View()).(actions := PutAction(old(state.entityActions), entity, name, a))
      ensures session.Logged() == old(session.Logged())
    {
      hide Sessions.Session.Members, Sessions.Session.EntityViews, PutAction, EntityComponentStore.View,
        SequentialIDGenerator.View;
      state.SetEntityAction(entity, name, a);
    }

    method HandleMsg(r: Request)
      requires currentSession != null && currentParticipant != null
      requires Joined(currentSession, currentParticipant) && state == currentSession.vikja
      modifies state`entityActions, RespondersOf(currentSession.participants)`sent
      ensures var s := old(currentSession.View());
        && (r.SetAction? ==> var result := SetEntityAction(s, currentParticipant.id, r.action);
              currentSession.View() == result.session && currentSession.Logged() == Extended(old(currentSession.Logged()), result.out))
        && (r.EntityDelete? ==>
              currentSession.View() == (if r.entity in s.entities then s else s.(actions := s.actions - {r.entity})))
        && (!r.SetAction? && !r.EntityDelete? ==> currentSession.View() == s)
        && (!r.SetAction? ==> currentSession.Logged() == old(currentSession.Logged()))
    {
      hide *;
      match r
      case SetAction(action) => HandleSetEntityAction(action);
      case EntityDelete(id) =>
        KnownResponders(currentSession);
        currentSession.Parts();
        currentSession.SameKeys();
        HandleEntityDelete(id);
        currentSession.Parts();
      case _ =>
    }

    /** Forgets the actions of the leaving participant's transient entities, which the session still holds. */
    method HandleDisconnect()
      requires currentParticipant != null ==> currentSession != null && state == currentSession.vikja
      modifies (if currentParticipant == null then {} else {state})`entityActions
      ensures currentParticipant != null ==> state.entityActions == old(state.entityActions) - Gone(currentSession, currentParticipant)
    {
      if currentParticipant == null {
        return;
      }
      ghost var actions, gone := state.entityActions, {};
      var rest := currentParticipant.entityIDs;
      while rest != {}
        modifies state`entityActions
        invariant rest <= currentParticipant.entityIDs
        invariant gone == Gone(currentSession, currentParticipant) - rest
        invariant state.entityActions == actions - gone
      {
        var id :| id in rest;
        rest := rest - {id};
        var entity := currentSession.EntityByID(id);
        if entity.None? || !entity.value.persist {
          gone := gone + {id};
          state.RemoveEntityActions(id);
        }
      }
      assert gone == Gone(currentSession, currentParticipant);
    }
  }

  /** The entities of a participant that do not outlive its presence. */
  ghost function Gone(s: Sessions.Session, p: Sessions.Participant): set<nat>
    reads s`entities, p`entityIDs
  {
    set e | e in p.entityIDs && (e !in s.entities || !s.entities[e].persist)
  }

  class OdalModule {
    var currentSession: Sessions.Session?
    var currentParticipant: Sessions.Participant?
    var state: OdalState?

    constructor ()
      ensures currentParticipant == null
    {
      currentSession, currentParticipant, state := null, null, null;
    }

    method Init(s: Sessions.Session, p: Sessions.Participant)
      modifies this`currentSession, this`currentParticipant, this`state
      ensures At(s, p)
    {
      currentSession, currentParticipant, state := s, p, s.odal;
    }

    predicate At(s: Sessions.Session, p: Sessions.Participant)
      reads this`currentSession, this`currentParticipant, this`state
    {
      currentSession == s && currentParticipant == p && state == s.odal
    }

    method HandleEntityDelete(id: nat)
      requires currentSession != null && state == currentSession.odal
      modifies state`assetInstances
      ensures state.assetInstances == if id in currentSession.entities then old(state.assetInstances) else old(state.assetInstances) - {id}
    {
      if currentSession.EntityByID(id) == None {
        state.RemoveAssetInstance(id);
      }
    }

    method HandleAssetInstanceAdd(assetId: string, id: nat)
      requires currentSession != null && currentParticipant != null
      requires Joined(currentSession, currentParticipant) && state == currentSession.odal
      requires currentSession.View().assetIDs.reusable == {}
      modifies state`assetInstances, state.assetInstanceIDs`currentID, state.assetInstanceIDs`reusableIDs
      modifies RespondersOf(currentSession.participants)`sent
      ensures var result := AddAsset(old(currentSession.View()), currentParticipant.id, assetId, id);
        currentSession.View() == result.session && currentSession.Logged() == Extended(old(currentSession.Logged()), result.out)
    {
      hide *;
      var session, participant := currentSession, currentParticipant;
      ghost var s, pid := session.View(), participant.id;
      session.SameKeys();
      JoinedResponder(session, participant);
      if assetId == "" {
        AssetRefused(s, pid, assetId, id, BadRequest);
        Respond(session, participant, Error(BadRequest));
        return;
      }
      var entity := session.EntityByID(id);
      if entity == None {
        AssetRefused(s, pid, assetId, id, NotFound);
        Respond(session, participant, Error(NotFound));
        return;
      }
      entity.value.Fields();
      if entity.value.participantID != participant.id {
        AssetRefused(s, pid, assetId, id, Unauthorized);
        Respond(session, participant, Error(Unauthorized));
        return;
      }
      var asset := NewAsset(session, id, assetId, participant.id);
      AssetAccepted(s, pid, assetId, id);
      SameBroadcast(s, session.View(), pid, AssetAddBroadcast(id, asset));
      RespondAndBroadcast(session, participant, AssetAddResponse(asset.id), AssetAddBroadcast(id, asset));
    }

    method NewAsset(session: Sessions.Session, entity: nat, assetId: string, participant: nat) returns (asset: Asset)
      requires session.Valid() && state == session.odal && session.View().assetIDs.reusable == {}
      modifies state`assetInstances, state.assetInstanceIDs`currentID, state.assetInstanceIDs`reusableIDs
      ensures asset == Asset(old(session.View()).assetIDs.current + 1, assetId, participant)
      ensures session.View() == old(session.View()).(assetIDs := old(session.View()).assetIDs.Take(asset.id),
                                                     assets := old(session.View()).assets[entity := asset])
      ensures session.Logged() == old(session.Logged())
    {
      hide Sessions.Session.Members, Sessions.Session.EntityViews, EntityComponentStore.View;
      session.Apart();
      var assetID := state.assetInstanceIDs.New();
      asset := Asset(assetID, assetId, participant);
      state.SetAssetInstance(entity, asset);
    }

    method HandleMsg(r: Request)
      requires currentSession != null && currentParticipant != null
      requires Joined(currentSession, currentParticipant) && state == currentSession.odal
      requires currentSession.View().assetIDs.reusable == {}
      modifies state`assetInstances, state.assetInstanceIDs`currentID, state.assetInstanceIDs`reusableIDs
      modifies RespondersOf(currentSession.participants)`sent
      ensures var s := old(currentSession.View());
        && (r.AssetAdd? ==> var result := AddAsset(s, currentParticipant.id, r.assetId, r.entity);
              currentSession.View() == result.session && currentSession.Logged() == Extended(old(currentSession.Logged()), result.out))
        && (r.EntityDelete? ==>
              currentSession.View() == (if r.entity in s.entities then s else s.(assets := s.assets - {r.entity})))
        && (!r.AssetAdd? && !r.EntityDelete? ==> currentSession.View() == s)
        && (!r.AssetAdd? ==> currentSession.Logged() == old(currentSession.Logged()))
    {
      hide *;
      match r
      case AssetAdd(assetId, id) => HandleAssetInstanceAdd(assetId, id);
      case EntityDelete(id) =>
        KnownResponders(currentSession);
        currentSession.Parts();
        currentSession.SameKeys();
        HandleEntityDelete(id);
        currentSession.Parts();
      case _ =>
    }

    /** Forgets the assets of the leaving participant's transient entities, which the session still holds. */
    method HandleDisconnect()
      requires currentParticipant != null ==> currentSession != null && state == currentSession.odal
      modifies (if currentParticipant == null then {} else {state})`assetInstances
      ensures currentParticipant != null ==> state.assetInstances == old(state.assetInstances) - Gone(currentSession, currentParticipant)
    {
      if currentParticipant == null {
        return;
      }
      ghost var assets, gone := state.assetInstances, {};
      var rest := currentParticipant.entityIDs;
      while rest != {}
        invariant rest <= currentParticipant.entityIDs
        invariant gone == Gone(currentSession, currentParticipant) - rest
        invariant state.assetInstances == assets - gone
      {
        var id :| id in rest;
        rest := rest - {id};
        var entity := currentSession.EntityByID(id);
        if entity.None? || !entity.value.persist {
          gone := gone + {id};
          state.RemoveAssetInstance(id);
        }
      }
      assert gone == Gone(currentSession, currentParticipant);
    }
  }
}
