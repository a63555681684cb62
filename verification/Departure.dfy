/** How a participant's departure changes the session object it sat in. */
module Departure {
  import opened Options
  import opened Ids
  import opened Components
  import opened EntityComponents
  import opened Protocol
  import opened Sessions
  import opened Modules
  import opened Realtime

  lemma ThenNothing(a: Outbox)
    ensures Then(a, map[]) == a && Then(map[], a) == a
  {
    forall p | p in a ensures Then(a, map[])[p] == a[p] && Then(map[], a)[p] == a[p] {
      assert Sent(a, p) == a[p] && Sent(map[], p) == [];
    }
  }

  lemma ThenAssociative(a: Outbox, b: Outbox, c: Outbox)
    ensures Then(Then(a, b), c) == Then(a, Then(b, c))
  {
    hide *;
    var l, r := Then(Then(a, b), c), Then(a, Then(b, c));
    forall p ensures (p in l <==> p in r) && (p in l ==> l[p] == r[p]) {
      SentThen(a, b, p);
      SentThen(b, c, p);
      SentThen(Then(a, b), c, p);
      SentThen(a, Then(b, c), p);
      assert Sent(a, p) + Sent(b, p) + Sent(c, p) == Sent(a, p) + (Sent(b, p) + Sent(c, p));
    }
  }

  /** What the visit of one owned entity does. */
  ghost function DropOne(flags: set<Flag>, s: Protocol.Session, pid: nat, id: nat): Result {
    if id !in s.entities || s.entities[id].persist then Result(s, map[])
    else
      Result(s.(components := s.components.DeleteByEntityID(id), entities := s.entities - {id}),
             IfNotSet(flags, DisableEntityDeleteBroadcast, Protocol.Broadcast(s, pid, EntityDeleteBroadcast(id))))
  }

  lemma DropFirst(flags: set<Flag>, s: Protocol.Session, pid: nat, order: seq<nat>)
    requires order != []
    ensures var one := DropOne(flags, s, pid, order[0]);
      var rest := DropOwned(flags, one.session, pid, order[1..]);
      DropOwned(flags, s, pid, order) == Result(rest.session, Then(one.out, rest.out))
  {
    hide Then;
    ThenNothing(DropOwned(flags, s, pid, order[1..]).out);
  }

  /** The entities may as well be visited one more at a time. */
  lemma {:induction false} DropOneMore(flags: set<Flag>, s: Protocol.Session, pid: nat, order: seq<nat>, id: nat)
    ensures var drop := DropOwned(flags, s, pid, order);
      var one := DropOne(flags, drop.session, pid, id);
      DropOwned(flags, s, pid, order + [id]) == Result(one.session, Then(drop.out, one.out))
    decreases |order|
  {
    hide DropOne, Then, DropOwned;
    DropFirst(flags, s, pid, order + [id]);
    if order == [] {
      assert order + [id] == [id] && [id][1..] == [];
      DropNone(flags, s, pid);
      DropNone(flags, DropOne(flags, s, pid, id).session, pid);
      ThenNothing(DropOne(flags, s, pid, id).out);
    } else {
      var first := DropOne(flags, s, pid, order[0]);
      assert (order + [id])[1..] == order[1..] + [id] && (order + [id])[0] == order[0];
      DropFirst(flags, s, pid, order);
      DropOneMore(flags, first.session, pid, order[1..], id);
      var rest := DropOwned(flags, first.session, pid, order[1..]);
      ThenAssociative(first.out, rest.out, DropOne(flags, rest.session, pid, id).out);
    }
  }

  lemma DropNone(flags: set<Flag>, s: Protocol.Session, pid: nat)
    ensures DropOwned(flags, s, pid, []) == Result(s, map[])
  {
  }

  lemma DropOneIs(flags: set<Flag>, s: Protocol.Session, pid: nat, id: nat)
    ensures id !in s.entities || s.entities[id].persist ==> DropOne(flags, s, pid, id) == Result(s, map[])
    ensures id in s.entities && !s.entities[id].persist ==>
      var s' := s.(components := s.components.DeleteByEntityID(id), entities := s.entities - {id});
      DropOne(flags, s, pid, id)
      == Result(s', IfNotSet(flags, DisableEntityDeleteBroadcast, Protocol.Broadcast(s', pid, EntityDeleteBroadcast(id))))
  {
    SameBroadcast(s, s.(components := s.components.DeleteByEntityID(id), entities := s.entities - {id}), pid, EntityDeleteBroadcast(id));
  }

  /** The visit of one entity of the leaving participant. */
  method VisitOwned(flags: set<Flag>, session: Sessions.Session, participant: Sessions.Participant, id: nat)
    requires Joined(session, participant)
    modifies session.entityComponents`entityComponents, session`entities, RespondersOf(session.participants)`sent
    ensures Joined(session, participant)
    ensures var one := DropOne(flags, old(session.View()), participant.id, id);
      session.View() == one.session && session.Logged() == Extended(old(session.Logged()), one.out)
  {
    hide *;
    Seated(session, participant);
    DropOneIs(flags, session.View(), participant.id, id);
    ExtendedByNone(session.Logged());
    var found := session.EntityByID(id);
    if found == None {
      return;
    }
    found.value.Fields();
    if found.value.persist {
      return;
    }
    session.Parts();
    session.entityComponents.DeleteByEntityID(id);
    session.Parts();
    session.RemoveEntity(found.value);
    Sits(session, participant);
    BroadcastUnless(flags, DisableEntityDeleteBroadcast, session, participant, EntityDeleteBroadcast(id));
  }

  /** The transient entities of the leaving participant go, in some order. */
  method DropEntities(flags: set<Flag>, session: Sessions.Session, participant: Sessions.Participant) returns (ghost order: seq<nat>)
    requires Joined(session, participant)
    modifies session.entityComponents`entityComponents, session`entities, RespondersOf(session.participants)`sent
    ensures Joined(session, participant) && forall id :: id in order <==> id in participant.entityIDs
    ensures var drop := DropOwned(flags, old(session.View()), participant.id, order);
      session.View() == drop.session && session.Logged() == Extended(old(session.Logged()), drop.out)
  {
    hide *;
    order := [];
    ghost var s, logs := session.View(), session.Logged();
    DropNone(flags, s, participant.id);
    ExtendedByNone(logs);
    var rest := participant.entityIDs;
    while rest != {}
      modifies session.entityComponents`entityComponents, session`entities, RespondersOf(session.participants)`sent
      invariant rest <= participant.entityIDs && Joined(session, participant)
      invariant forall id :: id in order <==> id in participant.entityIDs && id !in rest
      invariant session.View() == DropOwned(flags, s, participant.id, order).session
      invariant session.Logged() == Extended(logs, DropOwned(flags, s, participant.id, order).out)
    {
      var id :| id in rest;
      rest := rest - {id};
      DropOneMore(flags, s, participant.id, order, id);
      ExtendedThen(logs, DropOwned(flags, s, participant.id, order).out, DropOne(flags, session.View(), participant.id, id).out);
      VisitOwned(flags, session, participant, id);
      order := order + [id];
    }
  }

  /** The modules forget what they hold for the leaving participant's transient entities. */
  method DisconnectModules(vikja: VikjaModule, odal: OdalModule, session: Sessions.Session, participant: Sessions.Participant)
    requires Joined(session, participant) && vikja.At(session, participant) && odal.At(session, participant)
    requires participant.id in session.View().participants
    modifies session.vikja`entityActions, session.odal`assetInstances
    ensures var s := old(session.View()); var gone := Forgotten(s, participant.id);
      session.View() == s.(actions := s.actions - gone, assets := s.assets - gone)
    ensures session.Logged() == old(session.Logged())
  {
    hide *;
    Seated(session, participant);
    AtMeans(vikja, odal, session, participant);
    GoneIsForgotten(session, participant);
    session.Parts();
    vikja.HandleDisconnect();
    session.Parts();
    odal.HandleDisconnect();
    session.Parts();
  }

  lemma AtMeans(vikja: VikjaModule, odal: OdalModule, session: Sessions.Session, participant: Sessions.Participant)
    requires vikja.At(session, participant) && odal.At(session, participant)
    ensures vikja.currentSession == session && vikja.currentParticipant == participant && vikja.state == session.vikja
    ensures odal.currentSession == session && odal.currentParticipant == participant && odal.state == session.odal
  {
  }

  lemma GoneIsForgotten(session: Sessions.Session, participant: Sessions.Participant)
    requires Joined(session, participant) && participant.id in session.View().participants
    ensures Gone(session, participant) == Forgotten(session.View(), participant.id)
  {
    Seated(session, participant);
  }

  lemma LeaveIs(flags: set<Flag>, s: Protocol.Session, pid: nat, order: seq<nat>, frame: nat)
    requires pid in s.participants
    ensures var s1 := s.(actions := s.actions - Forgotten(s, pid), assets := s.assets - Forgotten(s, pid),
                         components := s.components.UnsubscribeByParticipant(pid));
      var drop := DropOwned(flags, s1, pid, order);
      var s2 := CancelFrame(drop.session, frame);
      var s3 := s2.(participants := s2.participants - {pid});
      Leave(flags, s, pid, order, frame)
      == Result(s3, Then(drop.out, IfNotSet(flags, DisableParticipantLeaveBroadcast, Protocol.Broadcast(s3, pid, LeaveBroadcast(pid)))))
  {
  }

  lemma {:induction false} DropsNotToldToLeaver(flags: set<Flag>, s: Protocol.Session, pid: nat, order: seq<nat>)
    ensures Sent(DropOwned(flags, s, pid, order).out, pid) == []
    decreases |order|
  {
    if order != [] {
      DropFirst(flags, s, pid, order);
      var one := DropOne(flags, s, pid, order[0]);
      DropsNotToldToLeaver(flags, one.session, pid, order[1..]);
      SentThen(one.out, DropOwned(flags, one.session, pid, order[1..]).out, pid);
    }
  }

  lemma ExtendedLess(logs: Logs, out: Outbox, pid: nat)
    requires pid in logs && Sent(out, pid) == []
    ensures Extended(logs, out) - {pid} == Extended(logs - {pid}, out)
    ensures Extended(logs, out)[pid] == logs[pid]
  {
  }

  /** The leaver's log is that of its responder. */
  lemma OwnLog(session: Sessions.Session, participant: Sessions.Participant)
    requires Joined(session, participant)
    ensures participant.id in session.Logged() && session.Logged()[participant.id] == participant.responder.sent
    ensures participant.responder !in RespondersOf(session.participants - {participant.id})
    ensures RespondersOf(session.participants - {participant.id}) <= RespondersOf(session.participants)
  {
  }

  method Announce(flags: set<Flag>, session: Sessions.Session, participant: Sessions.Participant, m: Msg)
    requires session.Valid() && participant.id !in session.participants
    modifies RespondersOf(session.participants)`sent
    ensures session.View() == old(session.View())
    ensures session.Logged() == Extended(old(session.Logged()), IfNotSet(flags, DisableParticipantLeaveBroadcast,
                                                                          Protocol.Broadcast(session.View(), participant.id, m)))
  {
    hide Extended, Sent, Sessions.Session.View, Sessions.Session.Logged, Protocol.Broadcast, RespondersOf;
    if DisableParticipantLeaveBroadcast !in flags {
      session.Broadcast(participant, m);
    } else {
      ExtendedByNone(session.Logged());
    }
  }

  /** The part of a departure that the leaver is still there for. */
  method Withdraw(flags: set<Flag>, session: Sessions.Session, participant: Sessions.Participant,
                  vikja: VikjaModule, odal: OdalModule)
    returns (ghost order: seq<nat>)
    requires Joined(session, participant) && participant.id in session.View().participants
    requires vikja.At(session, participant) && odal.At(session, participant)
    modifies session.vikja`entityActions, session.odal`assetInstances, session`entities
    modifies session.entityComponents`subscriptions, session.entityComponents`entityComponents
    modifies RespondersOf(session.participants)`sent
    ensures forall id :: id in order <==> id in participant.entityIDs
    ensures Joined(session, participant)
    ensures var s, pid := old(session.View()), participant.id;
      var s1 := s.(actions := s.actions - Forgotten(s, pid), assets := s.assets - Forgotten(s, pid),
                   components := s.components.UnsubscribeByParticipant(pid));
      var drop := DropOwned(flags, s1, pid, order);
      session.View() == drop.session && session.Logged() == Extended(old(session.Logged()), drop.out)
  {
    hide *;
    Seated(session, participant);
    DisconnectModules(vikja, odal, session, participant);
    session.Parts();
    session.entityComponents.UnsubscribeByParticipant(participant.id);
    session.Parts();
    order := DropEntities(flags, session, participant);
  }

  /** A participant leaves the session: what Protocol.Leave says, for the order in which its entities were visited. */
  method Depart(flags: set<Flag>, session: Sessions.Session, participant: Sessions.Participant,
                vikja: VikjaModule, odal: OdalModule, frame: nat)
    returns (ghost order: seq<nat>)
    requires Joined(session, participant) && participant.id in session.View().participants
    requires vikja.At(session, participant) && odal.At(session, participant)
    modifies session.vikja`entityActions, session.odal`assetInstances, session`entities
    modifies session.entityComponents`subscriptions, session.entityComponents`entityComponents
    modifies session`frameHandlers, session.frameHandlerIDs`currentID, session.frameHandlerIDs`reusableIDs, session`participants
    modifies RespondersOf(session.participants)`sent
    ensures forall id :: id in order <==> id in participant.entityIDs
    ensures session.Valid() && session.participants == old(session.participants) - {participant.id}
    ensures participant.id in old(session.View()).participants
    ensures var result := Leave(flags, old(session.View()), participant.id, order, frame);
      session.View() == result.session && session.Logged() == Extended(old(session.Logged()) - {participant.id}, result.out)
    ensures participant.responder.sent == old(participant.responder.sent)
  {
    hide *;
    ghost var s, logs, pid := session.View(), session.Logged(), participant.id;
    OwnLog(session, participant);
    order := Withdraw(flags, session, participant, vikja, odal);
    LeaveIs(flags, s, pid, order, frame);
    ghost var s1 := s.(actions := s.actions - Forgotten(s, pid), assets := s.assets - Forgotten(s, pid),
                       components := s.components.UnsubscribeByParticipant(pid));
    ghost var drop := DropOwned(flags, s1, pid, order);
    DropsNotToldToLeaver(flags, s1, pid, order);
    ExtendedLess(logs, drop.out, pid);
    OwnLog(session, participant);
    Seated(session, participant);
    session.CancelFrame(frame);
    session.Parts();
    session.RemoveParticipant(participant);
    Announce(flags, session, participant, LeaveBroadcast(participant.id));
    ExtendedThen(logs - {pid}, drop.out, IfNotSet(flags, DisableParticipantLeaveBroadcast,
                                                  Protocol.Broadcast(session.View(), pid, LeaveBroadcast(pid))));
  }
}
