/** What a subscriber of a component type knows of the components of that type. */
module Subscribers {
  import opened Options
  import opened Ids
  import opened Components
  import opened Protocol
  import opened SessionInvariant
  import opened Replicas

  type Known = map<nat, Data>

  /** A subscriber that receives one message; an update of a component it does not know is ignored. */
  function Hear(known: Known, typ: nat, m: Msg): Known {
    match m
    case ComponentAddBroadcast(t, e, data) => if t == typ then known[e := data] else known
    case ComponentDeleteBroadcast(t, e) => if t == typ then known - {e} else known
    case ComponentUpdateBroadcast(t, e, data) => if t == typ && e in known then known[e := data] else known
    case EntityDeleteBroadcast(e) => known - {e}
    case _ => known
  }

  function HearAll(known: Known, typ: nat, ms: seq<Msg>): Known
    decreases |ms|
  {
    if ms == [] then known else HearAll(Hear(known, typ, ms[0]), typ, ms[1..])
  }

  /** A subscriber that is answered; updates are never answered. */
  function HearOwn(known: Known, typ: nat, request: Request, ms: seq<Msg>): Known {
    match request
    case ComponentAdd(t, e, data) => if t == typ && ms == [ComponentAddResponse] then known[e := data] else known
    case ComponentDelete(t, e) => if t == typ && ms == [ComponentDeleteResponse] then known - {e} else known
    case ComponentUpdate(t, e, data) => if t == typ && e in known then known[e := data] else known
    case EntityDelete(e) => if ms == [EntityDeleteResponse] then known - {e} else known
    case _ => known
  }

  lemma HearOne(known: Known, typ: nat, m: Msg)
    ensures HearAll(known, typ, [m]) == Hear(known, typ, m) && HearAll(known, typ, []) == known
  {
    assert HearAll(Hear(known, typ, m), typ, [m][1..]) == Hear(known, typ, m);
  }

  lemma {:induction false} HearConcat(known: Known, typ: nat, a: seq<Msg>, b: seq<Msg>)
    ensures HearAll(known, typ, a + b) == HearAll(HearAll(known, typ, a), typ, b)
    decreases |a|
  {
    if a == [] {
      assert a + b == b;
    } else {
      assert (a + b)[1..] == a[1..] + b && (a + b)[0] == a[0];
      HearConcat(Hear(known, typ, a[0]), typ, a[1..], b);
    }
  }

  /** A client that knew the components of the type before the event of `pid` knows them after it. */
  ghost predicate Told(s: Session, pid: nat, request: Request, result: Result, q: nat, typ: nat) {
    var known, ms := s.components.TypeComponents(typ), Sent(result.out, q);
    (if q == pid then HearOwn(known, typ, request, ms) else HearAll(known, typ, ms)) == result.session.components.TypeComponents(typ)
  }

  /** A reply to the sender and one message to each subscriber besides. */
  ghost predicate Answers(out: Outbox, pid: nat, q: nat, reply: Msg, m: Msg) {
    Sent(out, q) == if q == pid then [reply] else [m]
  }

  lemma NotifyAnswers(s: Session, pid: nat, typ: nat, q: nat, reply: Msg, m: Msg)
    requires q in s.participants && q in s.components.Subscribers(typ)
    ensures Answers(Then(Reply(pid, reply), NotifyAll(s, pid, typ, m)), pid, q, reply, m)
    ensures Answers(Then(NotifyAll(s, pid, typ, m), Reply(pid, reply)), pid, q, reply, m)
  {
  }

  lemma AddTells(s: Session, pid: nat, t: nat, id: nat, data: Data, q: nat, typ: nat)
    requires q in s.participants && q in s.components.Subscribers(typ)
    ensures Told(s, pid, ComponentAdd(t, id, data), AddComponent({}, s, pid, t, id, data), q, typ)
  {
    hide Sent, Then, NotifyAll, HearAll;
    var result, m := AddComponent({}, s, pid, t, id, data), ComponentAddBroadcast(t, id, data);
    var known := s.components.TypeComponents(typ);
    HearOne(known, typ, m);
    if t == 0 || id == 0 || id !in s.entities || t !in s.components.nameIndex || s.components.Has(t, id) {
      Refused(s, pid, q);
    } else if t == typ {
      NotifyAnswers(s, pid, t, q, ComponentAddResponse, m);
    } else {
      Elsewhere(s, pid, t, q, ComponentAddResponse, m, known, typ);
    }
  }

  lemma Refused(s: Session, pid: nat, q: nat)
    ensures forall code :: Sent(Refuse(s, pid, code).out, q) == if q == pid then [Error(code)] else []
  {
  }

  /** News of another type change nothing, whether they are sent or not. */
  lemma Elsewhere(s: Session, pid: nat, t: nat, q: nat, reply: Msg, m: Msg, known: Known, typ: nat)
    requires Hear(known, typ, m) == known
    ensures var a, b := Then(Reply(pid, reply), NotifyAll(s, pid, t, m)), Then(NotifyAll(s, pid, t, m), Reply(pid, reply));
      && (q != pid ==> HearAll(known, typ, Sent(a, q)) == known && HearAll(known, typ, Sent(b, q)) == known)
      && (q == pid ==> Sent(a, q) == [reply] && Sent(b, q) == [reply])
  {
    hide HearAll;
    HearOne(known, typ, m);
    if q != pid {
      var sent := Sent(NotifyAll(s, pid, t, m), q);
      assert sent == [] || sent == [m];
      assert Sent(Then(Reply(pid, reply), NotifyAll(s, pid, t, m)), q) == [] + sent == sent;
      assert Sent(Then(NotifyAll(s, pid, t, m), Reply(pid, reply)), q) == sent + [] == sent;
    }
  }

  lemma DeleteTells(s: Session, pid: nat, t: nat, id: nat, q: nat, typ: nat)
    requires q in s.participants && q in s.components.Subscribers(typ)
    ensures Told(s, pid, ComponentDelete(t, id), DeleteComponent({}, s, pid, t, id), q, typ)
  {
    hide Sent, Then, NotifyAll, HearAll;
    var m, known := ComponentDeleteBroadcast(t, id), s.components.TypeComponents(typ);
    HearOne(known, typ, m);
    if t == 0 || id == 0 || id !in s.entities || !s.components.Has(t, id) {
      Refused(s, pid, q);
    } else if t == typ {
      NotifyAnswers(s, pid, t, q, ComponentDeleteResponse, m);
    } else {
      Elsewhere(s, pid, t, q, ComponentDeleteResponse, m, known, typ);
    }
  }

  lemma KnownEntities(s: Session, typ: nat, q: nat)
    requires s.components.Refers(s.entities.Keys, s.participants.Keys) && IdsIssued(s) && q in s.components.Subscribers(typ)
    ensures typ != 0 && forall e :: e in s.components.TypeComponents(typ) ==> e != 0 && e in s.entities
  {
  }

  lemma UpdateSent(s: Session, pid: nat, m: Msg, ids: set<nat>, q: nat)
    requires q in s.participants
    ensures Sent(BroadcastTo(s, pid, m, ids), q) == if q != pid && q in ids then [m] else []
  {
  }

  lemma UpdateTells(s: Session, pid: nat, t: nat, id: nat, data: Data, q: nat, typ: nat)
    requires s.components.Refers(s.entities.Keys, s.participants.Keys) && IdsIssued(s)
    requires q in s.participants && q in s.components.Subscribers(typ)
    ensures Told(s, pid, ComponentUpdate(t, id, data), UpdateComponent({}, s, pid, t, id, data), q, typ)
  {
    hide HearAll, Sent, BroadcastTo, Store.Refers, IdsIssued, Store.Subscribers;
    var m, known := ComponentUpdateBroadcast(t, id, data), s.components.TypeComponents(typ);
    HearOne(known, typ, m);
    if t == 0 || id == 0 || id !in s.entities {
      KnownEntities(s, typ, q);
      NothingSent(q);
    } else {
      UpdateSent(s, pid, m, s.components.Subscribers(t), q);
    }
  }

  lemma EntityDeleteTells(s: Session, pid: nat, id: nat, q: nat, typ: nat)
    requires pid in s.participants && q in s.participants
    ensures Told(s, pid, EntityDelete(id), Handle({}, s, pid, EntityDelete(id)), q, typ)
  {
    hide Sent, Then, Broadcast, HearAll;
    var m, known := EntityDeleteBroadcast(id), s.components.TypeComponents(typ);
    HearOne(known, typ, m);
    if id in s.entities && s.entities[id].owner == pid {
      BroadcastReply(s, pid, m, EntityDeleteResponse);
      if q != pid {
        BroadcastSent(s, pid, m, Reply(pid, EntityDeleteResponse), q);
      }
    } else {
      Refused(s, pid, q);
    }
  }

  /** A subscriber of a type that knows exactly its components goes on doing so through every handled message. */
  lemma HandleTells(s: Session, pid: nat, r: Request, q: nat, typ: nat)
    requires Valid(s) && pid in s.participants && q in s.participants && q in s.components.Subscribers(typ)
    ensures Told(s, pid, r, Handle({}, s, pid, r), q, typ)
  {
    hide Owned, IdsIssued, Connected, ModulesRefer, Store.Refers, AddComponent, DeleteComponent, UpdateComponent, DeleteEntity,
      DeleteInModules, HearAll;
    match r
    case ComponentAdd(t, id, data) => AddTells(s, pid, t, id, data, q, typ);
    case ComponentDelete(t, id) => DeleteTells(s, pid, t, id, q, typ);
    case ComponentUpdate(t, id, data) => UpdateTells(s, pid, t, id, data, q, typ);
    case EntityDelete(id) => EntityDeleteTells(s, pid, id, q, typ);
    case _ => OtherTells(s, pid, r, q, typ);
  }

  predicate AboutComponents(r: Request) {
    r.ComponentAdd? || r.ComponentDelete? || r.ComponentUpdate? || r.EntityDelete?
  }

  predicate Neutral(m: Msg) {
    !m.ComponentAddBroadcast? && !m.ComponentDeleteBroadcast? && !m.ComponentUpdateBroadcast? && !m.EntityDeleteBroadcast?
  }

  lemma {:induction false} NeutralHeard(known: Known, typ: nat, ms: seq<Msg>)
    requires forall m :: m in ms ==> Neutral(m)
    ensures HearAll(known, typ, ms) == known
    decreases |ms|
  {
    if ms != [] {
      assert Neutral(ms[0]);
      NeutralHeard(known, typ, ms[1..]);
    }
  }

  lemma OtherTells(s: Session, pid: nat, r: Request, q: nat, typ: nat)
    requires pid in s.participants && !AboutComponents(r)
    ensures Told(s, pid, r, Handle({}, s, pid, r), q, typ)
  {
    OtherNeutral(s, pid, r, q);
    OtherKeepsComponents(s, pid, r, typ);
    NeutralHeard(s.components.TypeComponents(typ), typ, Sent(Handle({}, s, pid, r).out, q));
    hide Handle, HearAll, Sent;
  }

  lemma OtherKeepsComponents(s: Session, pid: nat, r: Request, typ: nat)
    requires pid in s.participants && !AboutComponents(r)
    ensures Handle({}, s, pid, r).session.components.TypeComponents(typ) == s.components.TypeComponents(typ)
  {
    hide Then, Broadcast;
  }

  lemma NeutralThen(reply: Msg, s: Session, pid: nat, m: Msg, q: nat)
    requires Neutral(reply) && Neutral(m)
    ensures forall x :: x in Sent(Then(Reply(pid, reply), Broadcast(s, pid, m)), q) ==> Neutral(x)
  {
  }

  lemma OtherNeutral(s: Session, pid: nat, r: Request, q: nat)
    requires pid in s.participants && !AboutComponents(r)
    ensures forall m :: m in Sent(Handle({}, s, pid, r).out, q) ==> Neutral(m)
  {
    hide Then, Store.AddType, Store.Subscribe, Store.Unsubscribe;
    match r
    case EntityAdd(persist, flag, pose) =>
      var id := s.entityIDs.current + 1;
      var e := Protocol.Entity(pid, persist, flag, if pose.Some? then pose.value else NO_POSE);
      NeutralThen(EntityAddResponse(id), s, pid, EntityAddBroadcast(id, Info(e)), q);
    case SetAction(request) =>
      if request.Some? && request.value.timestamp.Some? {
        var a := request.value;
        NeutralThen(ActionResponse, s, pid, ActionBroadcast(a.entity, a.name, Action(a.timestamp.value, a.data)), q);
      }
    case AssetAdd(assetId, id) =>
      var asset := Asset(s.assetIDs.current + 1, assetId, pid);
      NeutralThen(AssetAddResponse(asset.id), s, pid, AssetAddBroadcast(id, asset), q);
    case _ =>
  }

  /** The delete broadcasts of a departure take away what the dropped entities had, in any order. */
  lemma {:induction false} DropTells(s: Session, pid: nat, order: seq<nat>, q: nat, typ: nat)
    requires q in s.participants && q != pid
    ensures var result := DropOwned({}, s, pid, order);
      HearAll(s.components.TypeComponents(typ), typ, Sent(result.out, q)) == result.session.components.TypeComponents(typ)
    decreases |order|
  {
    hide Broadcast, Sent, Then, HearAll;
    var known := s.components.TypeComponents(typ);
    if order == [] {
      NothingSent(q);
      HearOne(known, typ, LeaveBroadcast(pid));
    } else {
      var id := order[0];
      if id !in s.entities || s.entities[id].persist {
        DropTells(s, pid, order[1..], q, typ);
      } else {
        var t := s.(components := s.components.DeleteByEntityID(id), entities := s.entities - {id});
        DropOneSent(s, pid, order, q);
        var ms := Sent(DropOwned({}, t, pid, order[1..]).out, q);
        HearConcat(known, typ, [EntityDeleteBroadcast(id)], ms);
        HearOne(known, typ, EntityDeleteBroadcast(id));
        DropTells(t, pid, order[1..], q, typ);
      }
    }
  }

  lemma NothingSent(q: nat)
    ensures Sent(map[], q) == []
  {
  }

  /** And through every departure of another participant. */
  lemma LeaveTells(s: Session, pid: nat, order: seq<nat>, frame: nat, q: nat, typ: nat)
    requires pid in s.participants && q in s.participants && q != pid
    ensures var result := Leave({}, s, pid, order, frame);
      HearAll(s.components.TypeComponents(typ), typ, Sent(result.out, q)) == result.session.components.TypeComponents(typ)
  {
    hide Broadcast, Sent, Then, HearAll, DropOwned;
    var s1 := s.(actions := s.actions - Forgotten(s, pid), assets := s.assets - Forgotten(s, pid),
                 components := s.components.UnsubscribeByParticipant(pid));
    var drop, result := DropOwned({}, s1, pid, order), Leave({}, s, pid, order, frame);
    var known, m := s.components.TypeComponents(typ), LeaveBroadcast(pid);
    DropTells(s1, pid, order, q, typ);
    LeaveSent(drop.out, result.session, pid, q, m);
    if Sent(result.out, q) != Sent(drop.out, q) {
      HearConcat(known, typ, Sent(drop.out, q), [m]);
      HearOne(drop.session.components.TypeComponents(typ), typ, m);
    }
  }

  lemma LeaveSent(out: Outbox, s: Session, pid: nat, q: nat, m: Msg)
    ensures Sent(Then(out, Broadcast(s, pid, m)), q) == Sent(out, q) || Sent(Then(out, Broadcast(s, pid, m)), q) == Sent(out, q) + [m]
  {
    var sent := Sent(Broadcast(s, pid, m), q);
    assert sent == [] || sent == [m];
    assert Sent(Then(out, Broadcast(s, pid, m)), q) == Sent(out, q) + sent;
  }

  /** A newcomer is told all components with the session state; the others learn nothing new about them. */
  lemma JoinTells(s: Session, conn: nat, globalID: string, frame: nat, q: nat, typ: nat)
    requires s.participantIDs.current + 1 !in s.participants && q in s.participants
    ensures var result, pid := Join({}, s, conn, globalID, frame), s.participantIDs.current + 1;
      && HearAll(s.components.TypeComponents(typ), typ, Sent(result.out, q)) == result.session.components.TypeComponents(typ)
      && Sent(result.out, pid)[1..] == [SessionState(result.session.participants.Keys, Infos(result.session.entities),
                                                     result.session.components.entityComponents)]
  {
    hide Broadcast, Infos, HearAll, Sent, Then;
    JoinSent(s, conn, globalID, frame);
    HearOne(s.components.TypeComponents(typ), typ, JoinBroadcast(s.participantIDs.current + 1));
  }

  /** What a client knows of component types: those it subscribes to, and the components of those that it has listed since. */
  datatype Watch = Watch(types: set<nat>, known: map<nat, Known>)

  const NO_WATCH := Watch({}, map[])

  /** A client that is sent what others caused. */
  function Overhear(w: Watch, ms: seq<Msg>): Watch {
    w.(known := map t | t in w.known :: HearAll(w.known[t], t, ms))
  }

  /** A client that is answered: a listed type is known from then on, provided that it was subscribed to before. */
  function Answer(w: Watch, request: Request, ms: seq<Msg>): Watch {
    match request
    case Subscribe(t) => if ms == [SubscribeResponse] then w.(types := w.types + {t}) else w
    case Unsubscribe(t) => if ms == [UnsubscribeResponse] then Watch(w.types - {t}, w.known - {t}) else w
    case ComponentList(t) =>
      if |ms| == 1 && ms[0].ComponentListResponse? && t in w.types then w.(known := w.known[t := ms[0].list]) else w
    case _ => w.(known := map t | t in w.known :: HearOwn(w.known[t], t, request, ms))
  }

  /** The client knows what it subscribes to, and of each type it knows exactly what the session holds. */
  ghost predicate Informed(s: Session, q: nat, w: Watch) {
    && (forall t :: t in w.types <==> q in s.components.Subscribers(t))
    && (forall t :: t in w.known ==> t in w.types && w.known[t] == s.components.TypeComponents(t))
  }

  lemma SubscriptionsKept(s: Session, pid: nat, r: Request)
    requires pid in s.participants && !r.Subscribe? && !r.Unsubscribe?
    ensures Handle({}, s, pid, r).session.components.subscriptions == s.components.subscriptions
  {
    hide Then, Broadcast, BroadcastTo, NotifyAll, IfNotSet, Info;
  }

  /** Only its own requests change what a participant subscribes to. */
  ghost predicate SubscribesAfter(s: Session, pid: nat, r: Request, q: nat, t: nat) {
    if q == pid && r == Subscribe(t) && t != 0 && t in s.components.nameIndex then true
    else if q == pid && r == Unsubscribe(t) && t != 0 then false
    else q in s.components.Subscribers(t)
  }

  lemma SubscriptionAfter(s: Session, pid: nat, r: Request, q: nat, t: nat)
    requires pid in s.participants
    ensures q in Handle({}, s, pid, r).session.components.Subscribers(t) <==> SubscribesAfter(s, pid, r, q, t)
  {
    hide AddEntity, DeleteEntity, DeleteInModules, UpdatePose, AddType, AddComponent, DeleteComponent, UpdateComponent,
      SetEntityAction, AddAsset, ListComponents;
    if !r.Subscribe? && !r.Unsubscribe? {
      SubscriptionsKept(s, pid, r);
    }
  }

  lemma HandleInforms(s: Session, pid: nat, r: Request, q: nat, w: Watch)
    requires Valid(s) && pid in s.participants && q in s.participants && Informed(s, q, w)
    ensures var result := Handle({}, s, pid, r);
      var ms := Sent(result.out, q);
      Informed(result.session, q, if q == pid then Answer(w, r, ms) else Overhear(w, ms))
  {
    hide Valid, Handle, HearAll, HearOwn, Sent, Store.Subscribers, Store.TypeComponents;
    var result := Handle({}, s, pid, r);
    forall t ensures q in result.session.components.Subscribers(t) <==> SubscribesAfter(s, pid, r, q, t) {
      SubscriptionAfter(s, pid, r, q, t);
    }
    forall t | t in w.known ensures Told(s, pid, r, result, q, t) {
      HandleTells(s, pid, r, q, t);
    }
    if q == pid && (r.Subscribe? || r.Unsubscribe? || r.ComponentList?) {
      OwnAnswers(s, pid, r);
    }
  }

  /** The answers to requests about subscriptions. */
  lemma OwnAnswers(s: Session, pid: nat, r: Request)
    requires pid in s.participants
    ensures var ms := Sent(Handle({}, s, pid, r).out, pid);
      && (r.Subscribe? ==> (ms == [SubscribeResponse] <==> r.typ != 0 && r.typ in s.components.nameIndex))
      && (r.Unsubscribe? ==> (ms == [UnsubscribeResponse] <==> r.typ != 0))
      && (r.ComponentList? ==> ms == if r.typ == 0 then [Error(BadRequest)]
                                     else [ComponentListResponse(s.components.TypeComponents(r.typ))])
    ensures r.Subscribe? || r.Unsubscribe? || r.ComponentList? ==>
      forall t :: Handle({}, s, pid, r).session.components.TypeComponents(t) == s.components.TypeComponents(t)
  {
  }

  /** From a subscription, the answer to a list request brings everything there is of the type. */
  lemma ListInforms(s: Session, pid: nat, typ: nat, w: Watch)
    requires Valid(s) && pid in s.participants && Informed(s, pid, w) && typ in w.types
    ensures var result := Handle({}, s, pid, ComponentList(typ));
      var w' := Answer(w, ComponentList(typ), Sent(result.out, pid));
      typ in w'.known && w'.known[typ] == result.session.components.TypeComponents(typ) == s.components.TypeComponents(typ)
  {
    KnownEntities(s, typ, pid);
    OwnAnswers(s, pid, ComponentList(typ));
  }

  /** Of the types it subscribes to, a client comes to know one by listing it and loses it by giving up the subscription. */
  lemma KnownAfter(s: Session, pid: nat, r: Request, w: Watch, typ: nat)
    requires Valid(s) && pid in s.participants && Informed(s, pid, w) && typ in w.types
    ensures var w' := Answer(w, r, Sent(Handle({}, s, pid, r).out, pid));
      typ in w'.known <==> r == ComponentList(typ) || (typ in w.known && r != Unsubscribe(typ))
  {
    hide Handle, Sent, HearOwn, IdsIssued, Owned, Connected, ModulesRefer, Store.Refers, Store.Subscribers,
      Store.TypeComponents;
    KnownEntities(s, typ, pid);
    if r.Subscribe? || r.Unsubscribe? || r.ComponentList? {
      OwnAnswers(s, pid, r);
    }
  }

  lemma {:induction false} DropKeepsSubscribers(s: Session, pid: nat, order: seq<nat>, t: nat)
    ensures DropOwned({}, s, pid, order).session.components.Subscribers(t) == s.components.Subscribers(t)
    decreases |order|
  {
    hide Broadcast, Then;
    if order != [] {
      var id := order[0];
      if id !in s.entities || s.entities[id].persist {
        DropKeepsSubscribers(s, pid, order[1..], t);
      } else {
        DropKeepsSubscribers(s.(components := s.components.DeleteByEntityID(id), entities := s.entities - {id}), pid, order[1..], t);
      }
    }
  }

  lemma LeaveKeepsSubscription(s: Session, pid: nat, order: seq<nat>, frame: nat, q: nat, t: nat)
    requires pid in s.participants && q != pid
    ensures q in Leave({}, s, pid, order, frame).session.components.Subscribers(t) <==> q in s.components.Subscribers(t)
  {
    hide Then, Broadcast, DropOwned;
    var s1 := s.(actions := s.actions - Forgotten(s, pid), assets := s.assets - Forgotten(s, pid),
                 components := s.components.UnsubscribeByParticipant(pid));
    DropKeepsSubscribers(s1, pid, order, t);
  }

  lemma LeaveInforms(s: Session, pid: nat, order: seq<nat>, frame: nat, q: nat, w: Watch)
    requires pid in s.participants && q in s.participants && q != pid && Informed(s, q, w)
    ensures var result := Leave({}, s, pid, order, frame); Informed(result.session, q, Overhear(w, Sent(result.out, q)))
  {
    hide Leave, HearAll, Store.Subscribers, Store.TypeComponents;
    var result := Leave({}, s, pid, order, frame);
    forall t ensures q in result.session.components.Subscribers(t) <==> q in s.components.Subscribers(t) {
      LeaveKeepsSubscription(s, pid, order, frame, q, t);
    }
    forall t | t in w.known
      ensures HearAll(s.components.TypeComponents(t), t, Sent(result.out, q)) == result.session.components.TypeComponents(t)
    {
      LeaveTells(s, pid, order, frame, q, t);
    }
  }

  /** A newcomer subscribes to nothing; the others go on knowing what they knew. */
  lemma JoinInforms(s: Session, conn: nat, globalID: string, frame: nat, q: nat, w: Watch)
    requires Valid(s) && s.participantIDs.current + 1 !in s.participants
    ensures var result, pid := Join({}, s, conn, globalID, frame), s.participantIDs.current + 1;
      && (q in s.participants && Informed(s, q, w) ==> Informed(result.session, q, Overhear(w, Sent(result.out, q))))
      && forall ms :: Informed(result.session, pid, Overhear(NO_WATCH, ms))
  {
    hide Then, Broadcast, Infos, HearAll, IdsIssued, Owned, ModulesRefer, Connected;
    var result := Join({}, s, conn, globalID, frame);
    assert result.session.components == s.components;
    if q in s.participants && Informed(s, q, w) {
      forall t | t in w.known
        ensures HearAll(s.components.TypeComponents(t), t, Sent(result.out, q)) == result.session.components.TypeComponents(t)
      {
        JoinTells(s, conn, globalID, frame, q, t);
      }
    }
  }

  /** Nothing is learned from no messages, nor from those about participants and module states. */
  lemma NothingHeard(w: Watch, ms: seq<Msg>)
    requires forall m :: m in ms ==> Neutral(m)
    ensures Overhear(w, ms) == w
  {
    hide HearAll;
    forall t | t in w.known ensures HearAll(w.known[t], t, ms) == w.known[t] {
      NeutralHeard(w.known[t], t, ms);
    }
  }

  /** A fresh subscription alone tells nothing: components from before it are missed until they are listed. */
  lemma FreshSubscriberKnowsNothing(s: Session, adder: nat, q: nat, typ: nat, entity: nat, data: Data)
    requires Valid(s) && adder in s.participants && q in s.participants && adder != q
    requires typ in s.components.nameIndex && entity in s.entities && !s.components.Has(typ, entity)
    requires s.components.Subscribers(typ) == {}
    ensures var added := Handle({}, s, adder, ComponentAdd(typ, entity, data));
      var subscribed := Handle({}, added.session, q, Subscribe(typ));
      && Sent(added.out, q) == [] && Sent(subscribed.out, q) == [SubscribeResponse]
      && q in subscribed.session.components.Subscribers(typ)
      && subscribed.session.components.TypeComponents(typ) == s.components.TypeComponents(typ)[entity := data] != map[]
  {
    hide Owned, ModulesRefer, Connected;
    assert entity in s.components.TypeComponents(typ)[entity := data];
  }
}
