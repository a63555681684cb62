/** How a newcomer changes the session object it enters. */
module Arrival {
  import opened Ids
  import opened Components
  import opened EntityComponents
  import opened Protocol
  import opened Sessions
  import opened Modules
  import opened Realtime
  import SessionInvariant

  lemma JoinIs(flags: set<Flag>, s: Protocol.Session, conn: nat, globalID: string, frame: nat)
    ensures var pid, s' := s.participantIDs.current + 1, SessionInvariant.Joined(s, conn, frame);
      Join(flags, s, conn, globalID, frame)
      == Result(s', Then(Then(Reply(pid, JoinResponse(globalID, pid)), IfNotSet(flags, DisableSessionState, Reply(pid, StateOf(s')))),
                         IfNotSet(flags, DisableParticipantJoinBroadcast, Protocol.Broadcast(s', pid, JoinBroadcast(pid)))))
  {
  }

  function StateOf(s: Protocol.Session): Msg {
    SessionState(s.participants.Keys, Infos(s.entities), s.components.entityComponents)
  }

  /** A new participant of the connection, and its frame handler. */
  method Enter(session: Sessions.Session, responder: Responder) returns (participant: Sessions.Participant, frame: nat)
    requires session.Valid() && session.View().participantIDs.reusable == {} && responder !in RespondersOf(session.participants)
    requires session.View().participantIDs.current + 1 !in session.participants
    modifies session.participantIDs`currentID, session.participantIDs`reusableIDs, session`participants
    modifies session`frameHandlers, session.frameHandlerIDs`currentID, session.frameHandlerIDs`reusableIDs
    ensures fresh(participant) && participant.responder == responder && participant.entityIDs == {}
    ensures participant.id == old(session.View()).participantIDs.current + 1
    ensures session.participants == old(session.participants)[participant.id := participant]
    ensures Joined(session, participant) && old(session.View()).frameIDs.CanPick(frame)
    ensures session.View() == SessionInvariant.Joined(old(session.View()), responder.conn, frame)
    ensures session.Logged() == old(session.Logged())[participant.id := responder.sent]
  {
    hide Sessions.Session.View, Sessions.Session.Logged, Sessions.Session.Valid, Modules.Joined, RespondersOf, SequentialIDGenerator.View,
      Sessions.Session.Members, Sessions.Participant.View, IdPool.Take, IdPool.CanPick;
    ghost var s := session.View();
    KnownResponders(session);
    var pid := session.NewParticipantID();
    participant := new Sessions.Participant(pid, responder);
    NewcomerView(participant);
    session.Parts();
    session.AddParticipant(participant);
    session.Parts();
    frame := session.HandleFrame(responder.conn);
    Sits(session, participant);
  }

  lemma NewcomerView(participant: Sessions.Participant)
    requires participant.entityIDs == {}
    ensures participant.View() == Protocol.Participant(participant.responder.conn, {})
  {
  }

  /** What a newcomer is told of the session. */
  method TellState(flags: set<Flag>, session: Sessions.Session, participant: Sessions.Participant)
    requires Joined(session, participant)
    modifies participant.responder`sent
    ensures session.View() == old(session.View())
    ensures session.Logged() == Extended(old(session.Logged()), IfNotSet(flags, DisableSessionState, Reply(participant.id, StateOf(session.View()))))
  {
    hide Extended, Sent, Sessions.Session.Logged, Joined, SequentialIDGenerator.View;
    ExtendedByNone(session.Logged());
    if DisableSessionState !in flags {
      var infos := map e | e in session.entities :: Info(session.entities[e].View());
      session.SameKeys();
      assert infos == Infos(session.View().entities);
      assert StateOf(session.View()) == SessionState(session.participants.Keys, infos, session.entityComponents.entityComponents);
      Respond(session, participant, SessionState(session.participants.Keys, infos, session.entityComponents.entityComponents));
    }
  }

  /** A connection enters the session: what Protocol.Join says. */
  method Arrive(flags: set<Flag>, session: Sessions.Session, responder: Responder, globalID: string)
    returns (participant: Sessions.Participant, frame: nat)
    requires session.Valid() && session.View().participantIDs.reusable == {} && responder !in RespondersOf(session.participants)
    requires session.View().participantIDs.current + 1 !in session.participants
    modifies session.participantIDs`currentID, session.participantIDs`reusableIDs, session`participants
    modifies session`frameHandlers, session.frameHandlerIDs`currentID, session.frameHandlerIDs`reusableIDs
    modifies RespondersOf(session.participants)`sent, responder`sent
    ensures fresh(participant) && participant.responder == responder
    ensures participant.id == old(session.View()).participantIDs.current + 1
    ensures session.participants == old(session.participants)[participant.id := participant]
    ensures Joined(session, participant) && old(session.View()).frameIDs.CanPick(frame)
    ensures var result := Join(flags, old(session.View()), responder.conn, globalID, frame);
      session.View() == result.session
      && session.Logged() == Extended(old(session.Logged())[participant.id := old(responder.sent)], result.out)
  {
    hide *;
    ghost var s := session.View();
    ghost var members := session.participants;
    participant, frame := Enter(session, responder);
    JoinIs(flags, s, responder.conn, globalID, frame);
    OneMoreResponder(members, participant);
    ghost var logs, pid := session.Logged(), participant.id;
    Respond(session, participant, JoinResponse(globalID, participant.id));
    TellState(flags, session, participant);
    ghost var state := IfNotSet(flags, DisableSessionState, Reply(pid, StateOf(session.View())));
    ExtendedThen(logs, Reply(pid, JoinResponse(globalID, pid)), state);
    AnnounceArrival(flags, session, participant);
    ExtendedThen(logs, Then(Reply(pid, JoinResponse(globalID, pid)), state),
                 IfNotSet(flags, DisableParticipantJoinBroadcast, Protocol.Broadcast(session.View(), pid, JoinBroadcast(pid))));
  }

  lemma OneMoreResponder(members: map<nat, Sessions.Participant>, participant: Sessions.Participant)
    requires participant.id !in members
    ensures RespondersOf(members[participant.id := participant]) == RespondersOf(members) + {participant.responder}
  {
    var more := members[participant.id := participant];
    assert participant.id in more && more[participant.id] == participant;
    forall r ensures r in RespondersOf(more) <==> r in RespondersOf(members) || r == participant.responder {
      if r in RespondersOf(members) {
        var p :| p in members && members[p].responder == r;
        assert p in more && more[p].responder == r;
      }
    }
  }

  method AnnounceArrival(flags: set<Flag>, session: Sessions.Session, participant: Sessions.Participant)
    requires Joined(session, participant)
    modifies RespondersOf(session.participants)`sent
    ensures session.View() == old(session.View())
    ensures session.Logged() == Extended(old(session.Logged()), IfNotSet(flags, DisableParticipantJoinBroadcast,
      Protocol.Broadcast(session.View(), participant.id, JoinBroadcast(participant.id))))
  {
    hide *;
    BroadcastUnless(flags, DisableParticipantJoinBroadcast, session, participant, JoinBroadcast(participant.id));
  }

  /** The modules are told where they are, and send their states. */
  method ModulesJoin(session: Sessions.Session, participant: Sessions.Participant)
    requires Joined(session, participant)
    modifies participant.responder`sent
    ensures session.View() == old(session.View())
    ensures session.Logged() == Extended(old(session.Logged()), ModuleStates(session.View(), participant.id))
  {
    hide *;
    session.SameKeys();
    ghost var logs, pid := session.Logged(), participant.id;
    Respond(session, participant, VikjaState(session.vikja.entityActions));
    Respond(session, participant, OdalState(session.odal.assetInstances));
    ExtendedThen(logs, Reply(pid, VikjaState(session.vikja.entityActions)), Reply(pid, OdalState(session.odal.assetInstances)));
    TwoReplies(session.View(), pid);
  }

  lemma TwoReplies(s: Protocol.Session, pid: nat)
    ensures Then(Reply(pid, VikjaState(s.actions)), Reply(pid, OdalState(s.assets))) == ModuleStates(s, pid)
  {
    var a, b := Reply(pid, VikjaState(s.actions)), Reply(pid, OdalState(s.assets));
    assert Then(a, b).Keys == {pid} && Then(a, b)[pid] == [VikjaState(s.actions)] + [OdalState(s.assets)]
           == [VikjaState(s.actions), OdalState(s.assets)];
    assert Then(a, b) == ModuleStates(s, pid);
  }

  /** A connection enters the session, and is told the module states. */
  method ArriveAndTell(flags: set<Flag>, session: Sessions.Session, responder: Responder, globalID: string,
                       ghost s: Protocol.Session, ghost logs: Logs)
    returns (participant: Sessions.Participant, frame: nat, ghost joined: Result)
    requires session.Valid() && s == session.View() && logs == session.Logged()
    requires s.participantIDs.reusable == {} && s.participantIDs.current + 1 !in session.participants
    requires responder !in RespondersOf(session.participants)
    modifies session.participantIDs`currentID, session.participantIDs`reusableIDs, session`participants
    modifies session`frameHandlers, session.frameHandlerIDs`currentID, session.frameHandlerIDs`reusableIDs
    modifies RespondersOf(session.participants)`sent, responder`sent
    ensures participant.responder == responder && participant.id == s.participantIDs.current + 1 && s.frameIDs.CanPick(frame)
    ensures Joined(session, participant) && joined == Join(flags, s, responder.conn, globalID, frame)
    ensures session.View() == joined.session
    ensures session.Logged() == Extended(logs[participant.id := old(responder.sent)],
                                         Then(joined.out, ModuleStates(joined.session, participant.id)))
  {
    hide *;
    ghost var log := responder.sent;
    participant, frame := Arrive(flags, session, responder, globalID);
    joined := Join(flags, s, responder.conn, globalID, frame);
    ModulesJoin(session, participant);
    ExtendedThen(logs[participant.id := log], joined.out, ModuleStates(joined.session, participant.id));
  }
}
