/** What a join and a departure come to: what changes in the session and what does not, and who is sent what. */
module Membership {
  import opened Options
  import opened Ids
  import opened Components
  import opened Protocol
  import opened SessionInvariant
  import opened Requests

  /** What clients are told of the entities. */
  ghost predicate Describes(infos: map<nat, EntityInfo>, entities: map<nat, Entity>) {
    && infos.Keys == entities.Keys
    && forall e :: e in entities ==> infos[e] == EntityInfo(entities[e].owner, entities[e].flag, entities[e].pose)
  }

  /** The messages of a newcomer: the response, the state of the session unless the feature flag is set, and those of the modules. */
  ghost predicate Welcomes(ms: seq<Msg>, flags: set<Flag>, s: Session, pid: nat, globalID: string) {
    var k := if DisableSessionState in flags then 1 else 2;
    && |ms| == k + 2 && ms[0] == JoinResponse(globalID, pid)
    && (k == 2 ==>
          && ms[1].SessionState? && ms[1].participants == s.participants.Keys
          && Describes(ms[1].entities, s.entities) && ms[1].components == s.components.entityComponents)
    && ms[k] == VikjaState(s.actions) && ms[k + 1] == OdalState(s.assets)
  }

  /** A newcomer gets a participant id that was never used and a frame handler of its own; it is told of the session as it now is,
      and everyone else of the newcomer, unless the feature flag is set. Nothing else changes. */
  lemma JoinMeaning(flags: set<Flag>, s: Session, conn: nat, globalID: string, frame: nat)
    requires Valid(s) && s.frameIDs.CanPick(frame) && conn !in Conns(s.participants)
    ensures var joined, pid := Join(flags, s, conn, globalID, frame), s.participantIDs.current + 1;
      var s', out := joined.session, Then(joined.out, ModuleStates(joined.session, pid));
      && pid !in s.participants && frame !in s.frameHandlers && s'.frameIDs.Partitions(s.frameHandlers.Keys + {frame})
      && s' == s.(participants := s.participants[pid := Participant(conn, {})], participantIDs := IdPool(pid, {}),
                  frameHandlers := s.frameHandlers[frame := conn], frameIDs := s'.frameIDs)
      && Welcomes(Sent(out, pid), flags, s', pid, globalID)
      && (forall q :: q != pid ==>
            Sent(out, q) == if q in s.participants && DisableParticipantJoinBroadcast !in flags then [JoinBroadcast(pid)] else [])
  {
    hide Owned, Referring, Connected, Then, Broadcast, Infos, Welcomes;
    JoinKeepsValid(flags, s, conn, globalID, frame);
    JoinPartition(s, frame);
    JoinTellsNewcomer(flags, s, conn, globalID, frame);
    JoinTellsOthers(flags, s, conn, globalID, frame);
  }

  lemma JoinPartition(s: Session, frame: nat)
    requires Connected(s) && s.frameIDs.CanPick(frame)
    ensures s.frameIDs.Take(frame).Partitions(s.frameHandlers.Keys + {frame})
  {
    TakeKeepsPartition(s.frameIDs, s.frameHandlers.Keys, frame);
  }

  lemma JoinTellsNewcomer(flags: set<Flag>, s: Session, conn: nat, globalID: string, frame: nat)
    ensures var joined, pid := Join(flags, s, conn, globalID, frame), s.participantIDs.current + 1;
      Welcomes(Sent(Then(joined.out, ModuleStates(joined.session, pid)), pid), flags, joined.session, pid, globalID)
  {
    hide Then;
    var joined, pid := Join(flags, s, conn, globalID, frame), s.participantIDs.current + 1;
    var s' := joined.session;
    var response := Reply(pid, JoinResponse(globalID, pid));
    var state := IfNotSet(flags, DisableSessionState,
                          Reply(pid, SessionState(s'.participants.Keys, Infos(s'.entities), s'.components.entityComponents)));
    var news := IfNotSet(flags, DisableParticipantJoinBroadcast, Broadcast(s', pid, JoinBroadcast(pid)));
    assert joined.out == Then(Then(response, state), news);
    SentThen(joined.out, ModuleStates(s', pid), pid);
    SentThen(Then(response, state), news, pid);
    SentThen(response, state, pid);
    assert Sent(news, pid) == [];
  }

  lemma JoinTellsOthers(flags: set<Flag>, s: Session, conn: nat, globalID: string, frame: nat)
    ensures var joined, pid := Join(flags, s, conn, globalID, frame), s.participantIDs.current + 1;
      forall q :: q != pid ==>
        Sent(Then(joined.out, ModuleStates(joined.session, pid)), q)
        == if q in s.participants && DisableParticipantJoinBroadcast !in flags then [JoinBroadcast(pid)] else []
  {
    hide Infos;
  }

  /** One delete broadcast for each dropped entity, and no other message. */
  ghost predicate Deletes(ms: seq<Msg>, dropped: set<nat>) {
    forall m :: multiset(ms)[m] == if m.EntityDeleteBroadcast? && m.entity in dropped then 1 else 0
  }

  lemma DeletesOneMore(ms: seq<Msg>, dropped: set<nat>, id: nat)
    requires Deletes(ms, dropped) && id !in dropped
    ensures Deletes([EntityDeleteBroadcast(id)] + ms, dropped + {id})
  {
    assert multiset([EntityDeleteBroadcast(id)] + ms) == multiset{EntityDeleteBroadcast(id)} + multiset(ms);
  }

  /** The visited transient entities go with their components, whatever the order, and everyone but the leaver is told of each of
      them once, unless the feature flag is set. */
  lemma {:induction false} DropMeaning(flags: set<Flag>, s: Session, pid: nat, order: seq<nat>)
    ensures var result, dropped := DropOwned(flags, s, pid, order), Dropped(s, order);
      && result.session == s.(entities := s.entities - dropped, components := result.session.components)
      && WithoutAll(s.components, dropped, result.session.components)
      && (forall q :: q in s.participants && q != pid && DisableEntityDeleteBroadcast !in flags ==> Deletes(Sent(result.out, q), dropped))
      && (forall q :: q !in s.participants || q == pid || DisableEntityDeleteBroadcast in flags ==> Sent(result.out, q) == [])
    decreases |order|
  {
    hide Then, Broadcast, WithoutAll, Deletes;
    var dropped := Dropped(s, order);
    if order == [] {
      assert s.entities - dropped == s.entities;
      assert dropped == {};
      NothingDropped(s.components);
    } else {
      var id := order[0];
      if id !in s.entities || s.entities[id].persist {
        DropMeaning(flags, s, pid, order[1..]);
        assert dropped == Dropped(s, order[1..]);
      } else {
        var t := s.(components := s.components.DeleteByEntityID(id), entities := s.entities - {id});
        var rest := DropOwned(flags, t, pid, order[1..]);
        DropMeaning(flags, t, pid, order[1..]);
        assert dropped == Dropped(t, order[1..]) + {id};
        assert t.entities - Dropped(t, order[1..]) == s.entities - dropped;
        OneMoreWithout(s.components, id, Dropped(t, order[1..]), rest.session.components);
        OneMoreTold(flags, s, pid, id, rest.out, Dropped(t, order[1..]));
      }
    }
  }

  /** The same store but for the components of some entities, which are gone. */
  ghost predicate WithoutAll(c: Store, gone: set<nat>, c': Store) {
    && c' == c.(entityComponents := c'.entityComponents)
    && forall t, e :: ComponentAt(c', t, e) == if e in gone then None else ComponentAt(c, t, e)
  }

  lemma NothingDropped(c: Store)
    ensures WithoutAll(c, {}, c) && Deletes([], {})
  {
  }

  lemma OneMoreWithout(c: Store, id: nat, gone: set<nat>, c': Store)
    requires WithoutAll(c.DeleteByEntityID(id), gone, c')
    ensures WithoutAll(c, gone + {id}, c')
  {
    forall t, e ensures ComponentAt(c.DeleteByEntityID(id), t, e) == if e == id then None else ComponentAt(c, t, e) {
    }
  }

  lemma OneMoreTold(flags: set<Flag>, s: Session, pid: nat, id: nat, out: Outbox, gone: set<nat>)
    requires id !in gone
    requires forall q :: q in s.participants && q != pid && DisableEntityDeleteBroadcast !in flags ==> Deletes(Sent(out, q), gone)
    requires forall q :: q !in s.participants || q == pid || DisableEntityDeleteBroadcast in flags ==> Sent(out, q) == []
    ensures var all := Then(IfNotSet(flags, DisableEntityDeleteBroadcast, Broadcast(s, pid, EntityDeleteBroadcast(id))), out);
      && (forall q :: q in s.participants && q != pid && DisableEntityDeleteBroadcast !in flags ==> Deletes(Sent(all, q), gone + {id}))
      && (forall q :: q !in s.participants || q == pid || DisableEntityDeleteBroadcast in flags ==> Sent(all, q) == [])
  {
    hide Then, Deletes;
    var news := IfNotSet(flags, DisableEntityDeleteBroadcast, Broadcast(s, pid, EntityDeleteBroadcast(id)));
    forall q ensures Sent(Then(news, out), q) == Sent(news, q) + Sent(out, q) {
      SentThen(news, out, q);
    }
    forall q | q in s.participants && q != pid && DisableEntityDeleteBroadcast !in flags
      ensures Deletes(Sent(Then(news, out), q), gone + {id})
    {
      DeletesOneMore(Sent(out, q), gone, id);
    }
  }

  /** A leaver takes along its transient entities with all that belongs to them, its subscriptions and its frame handler; its
      persistent entities stay. Everyone else is told of each entity that goes, and then of the leaver, unless the feature flags
      are set; the leaver is told nothing. */
  lemma LeaveMeaning(flags: set<Flag>, s: Session, pid: nat, order: seq<nat>, frame: nat)
    requires Valid(s) && pid in s.participants && (forall id :: id in order <==> id in s.participants[pid].entityIDs)
    requires frame in s.frameHandlers && s.frameHandlers[frame] == s.participants[pid].conn
    ensures var result := Leave(flags, s, pid, order, frame);
      var s', gone := result.session, set e | e in s.entities && s.entities[e].owner == pid && !s.entities[e].persist;
      && s' == s.(participants := s.participants - {pid}, entities := s.entities - gone,
                  actions := s.actions - gone, assets := s.assets - gone,
                  components := s'.components, frameHandlers := s.frameHandlers - {frame}, frameIDs := s'.frameIDs)
      && s'.frameIDs.current == s.frameIDs.current && s'.frameIDs.Partitions(s.frameHandlers.Keys - {frame})
      && (forall t, e :: ComponentAt(s'.components, t, e) == if e in gone then None else ComponentAt(s.components, t, e))
      && (forall t :: s'.components.Subscribers(t) == s.components.Subscribers(t) - {pid})
      && s'.components == s.components.(entityComponents := s'.components.entityComponents, subscriptions := s'.components.subscriptions)
      && (forall q :: q !in s.participants || q == pid ==> Sent(result.out, q) == [])
      && (forall q :: q in s.participants && q != pid ==> Parts(Sent(result.out, q), flags, pid, gone))
  {
    hide Then, Broadcast, DropOwned, Store.Refers, Connected, IdsIssued, WithoutAll, Deletes, Parts;
    var s1 := s.(actions := s.actions - Forgotten(s, pid), assets := s.assets - Forgotten(s, pid),
                 components := s.components.UnsubscribeByParticipant(pid));
    var gone := set e | e in s.entities && s.entities[e].owner == pid && !s.entities[e].persist;
    var drop := DropOwned(flags, s1, pid, order);
    DropMeaning(flags, s1, pid, order);
    assert Dropped(s1, order) == gone == Forgotten(s, pid);
    FrameReturned(s, frame);
    StoreLeft(s.components, pid, gone, drop.session.components);
    LeaveTold(flags, s, pid, order, frame, drop, gone);
  }

  /** What one of the others is sent. */
  ghost predicate Parts(ms: seq<Msg>, flags: set<Flag>, pid: nat, gone: set<nat>) {
    var k := if DisableParticipantLeaveBroadcast in flags then |ms| else |ms| - 1;
    && 0 <= k
    && (k < |ms| ==> ms[k] == LeaveBroadcast(pid))
    && (if DisableEntityDeleteBroadcast in flags then k == 0 else Deletes(ms[..k], gone))
  }

  lemma FrameReturned(s: Session, frame: nat)
    requires Connected(s) && frame in s.frameHandlers
    ensures s.frameIDs.Return(frame).Partitions(s.frameHandlers.Keys - {frame}) && s.frameIDs.Return(frame).current == s.frameIDs.current
  {
    ReturnKeepsPartition(s.frameIDs, s.frameHandlers.Keys, frame);
  }

  lemma StoreLeft(c: Store, pid: nat, gone: set<nat>, c': Store)
    requires WithoutAll(c.UnsubscribeByParticipant(pid), gone, c')
    ensures forall t, e :: ComponentAt(c', t, e) == if e in gone then None else ComponentAt(c, t, e)
    ensures forall t :: c'.Subscribers(t) == c.Subscribers(t) - {pid}
    ensures c' == c.(entityComponents := c'.entityComponents, subscriptions := c'.subscriptions)
  {
    forall t, e ensures ComponentAt(c.UnsubscribeByParticipant(pid), t, e) == ComponentAt(c, t, e) {
    }
  }

  lemma LeaveTold(flags: set<Flag>, s: Session, pid: nat, order: seq<nat>, frame: nat, drop: Result, gone: set<nat>)
    requires pid in s.participants
    requires var s1 := s.(actions := s.actions - Forgotten(s, pid), assets := s.assets - Forgotten(s, pid),
                          components := s.components.UnsubscribeByParticipant(pid));
      drop == DropOwned(flags, s1, pid, order) && drop.session.participants == s.participants
    requires forall q :: q in s.participants && q != pid && DisableEntityDeleteBroadcast !in flags ==> Deletes(Sent(drop.out, q), gone)
    requires forall q :: q !in s.participants || q == pid || DisableEntityDeleteBroadcast in flags ==> Sent(drop.out, q) == []
    ensures var out := Leave(flags, s, pid, order, frame).out;
      && (forall q :: q !in s.participants || q == pid ==> Sent(out, q) == [])
      && (forall q :: q in s.participants && q != pid ==> Parts(Sent(out, q), flags, pid, gone))
  {
    hide Then, DropOwned, Deletes;
    var result := Leave(flags, s, pid, order, frame);
    var news := IfNotSet(flags, DisableParticipantLeaveBroadcast, Broadcast(result.session, pid, LeaveBroadcast(pid)));
    assert result.out == Then(drop.out, news) && result.session.participants.Keys == s.participants.Keys - {pid};
    forall q ensures Sent(result.out, q) == Sent(drop.out, q) + Sent(news, q) {
      SentThen(drop.out, news, q);
    }
    forall q | q in s.participants && q != pid ensures Parts(Sent(result.out, q), flags, pid, gone) {
      var ms, k := Sent(result.out, q), |Sent(drop.out, q)|;
      assert ms[..k] == Sent(drop.out, q);
    }
  }
}
