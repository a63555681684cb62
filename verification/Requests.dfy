/** What each request comes to: what changes in the session and what does not, and who is sent what. */
module Requests {
  import opened Options
  import opened Ids
  import opened Components
  import opened Protocol
  import opened SessionInvariant

  /** The sender is sent `answer`, those who hear of it `news`, and nobody else anything. */
  ghost predicate Tells(out: Outbox, pid: nat, answer: seq<Msg>, hearers: set<nat>, news: Msg) {
    && pid !in hearers && Sent(out, pid) == answer
    && forall q :: q != pid ==> Sent(out, q) == if q in hearers then [news] else []
  }

  /** Nothing changes, and the sender alone is told why. */
  ghost predicate Refused(result: Result, s: Session, pid: nat, code: ErrorCode) {
    result.session == s && forall q :: Sent(result.out, q) == if q == pid then [Error(code)] else []
  }

  ghost predicate Silent(result: Result, s: Session) {
    result.session == s && forall q :: Sent(result.out, q) == []
  }

  function Others(s: Session, pid: nat): set<nat> {
    s.participants.Keys - {pid}
  }

  function Unless(flags: set<Flag>, flag: Flag, hearers: set<nat>): set<nat> {
    if flag in flags then {} else hearers
  }

  lemma RefuseRefuses(s: Session, pid: nat, code: ErrorCode)
    ensures Refused(Refuse(s, pid, code), s, pid, code)
  {
  }

  lemma ReplyAndNews(flags: set<Flag>, flag: Flag, s: Session, pid: nat, reply: Msg, m: Msg)
    ensures Tells(Then(Reply(pid, reply), IfNotSet(flags, flag, Broadcast(s, pid, m))), pid, [reply],
                  Unless(flags, flag, Others(s, pid)), m)
    ensures Tells(Then(Reply(pid, reply), Broadcast(s, pid, m)), pid, [reply], Others(s, pid), m)
    ensures Tells(IfNotSet(flags, flag, Broadcast(s, pid, m)), pid, [], Unless(flags, flag, Others(s, pid)), m)
    ensures Tells(Reply(pid, reply), pid, [reply], {}, m)
  {
  }

  lemma ReplyAndNotice(flags: set<Flag>, flag: Flag, s: Session, pid: nat, typ: nat, reply: Msg, m: Msg)
    ensures var hearers := Unless(flags, flag, if s.components.Subscribers(typ) == {} then {} else Others(s, pid));
      && Tells(Then(Reply(pid, reply), IfNotSet(flags, flag, NotifyAll(s, pid, typ, m))), pid, [reply], hearers, m)
      && Tells(Then(IfNotSet(flags, flag, NotifyAll(s, pid, typ, m)), Reply(pid, reply)), pid, [reply], hearers, m)
  {
  }

  /** A new entity under an id that was never used, owned by the sender, as the request says; no pose means all zeros. Everyone
      else is told, unless the feature flag is set. */
  lemma EntityAddMeaning(flags: set<Flag>, s: Session, pid: nat, persist: bool, flag: int, pose: Option<Pose>)
    requires Valid(s) && pid in s.participants
    ensures var result := Handle(flags, s, pid, EntityAdd(persist, flag, pose));
      var s', id := result.session, s.entityIDs.current + 1;
      var p := if pose.Some? then pose.value else Pose(0.0, 0.0, 0.0, 0.0, 0.0, 0.0, 0.0);
      && id !in s.entities && s'.entities.Keys == s.entities.Keys + {id}
      && (forall e :: e in s.entities ==> s'.entities[e] == s.entities[e])
      && s'.entities[id].owner == pid && s'.entities[id].persist == persist && s'.entities[id].flag == flag && s'.entities[id].pose == p
      && s'.participants.Keys == s.participants.Keys
      && (forall q :: q in s.participants ==>
            && s'.participants[q].conn == s.participants[q].conn
            && s'.participants[q].entityIDs == if q == pid then s.participants[q].entityIDs + {id} else s.participants[q].entityIDs)
      && s' == s.(entities := s'.entities, participants := s'.participants, entityIDs := IdPool(id, {}))
      && Tells(result.out, pid, [EntityAddResponse(id)], Unless(flags, DisableEntityAddBroadcast, Others(s, pid)),
               EntityAddBroadcast(id, EntityInfo(pid, flag, p)))
  {
    hide Tells, Then, Broadcast, IfNotSet, Reply, Owned, Referring, Connected;
    var id := s.entityIDs.current + 1;
    var e := Entity(pid, persist, flag, if pose.Some? then pose.value else NO_POSE);
    ReplyAndNews(flags, DisableEntityAddBroadcast, s, pid, EntityAddResponse(id), EntityAddBroadcast(id, Info(e)));
  }

  /** Only the owner deletes an entity. What belonged to it goes with it: its components, actions and asset; nothing else goes. */
  lemma EntityDeleteMeaning(flags: set<Flag>, s: Session, pid: nat, id: nat)
    requires Valid(s) && pid in s.participants
    ensures var result := Handle(flags, s, pid, EntityDelete(id));
      var s' := result.session;
      && (id !in s.entities ==> Refused(result, s, pid, NotFound))
      && (id in s.entities && s.entities[id].owner != pid ==> Refused(result, s, pid, Unauthorized))
      && (id in s.entities && s.entities[id].owner == pid ==>
            && s'.entities == s.entities - {id} && s'.actions == s.actions - {id} && s'.assets == s.assets - {id}
            && Without(s.components, id, s'.components)
            && s'.participants.Keys == s.participants.Keys
            && (forall q :: q in s.participants ==>
                  && s'.participants[q].conn == s.participants[q].conn
                  && s'.participants[q].entityIDs == s.participants[q].entityIDs - {id})
            && s' == s.(entities := s'.entities, actions := s'.actions, assets := s'.assets, components := s'.components,
                        participants := s'.participants)
            && Tells(result.out, pid, [EntityDeleteResponse], Unless(flags, DisableEntityDeleteBroadcast, Others(s, pid)),
                     EntityDeleteBroadcast(id)))
  {
    hide Tells, Then, Broadcast, IfNotSet, Reply, Refuse, Refused, Connected, IdsIssued, Without,
      Store.DeleteByEntityID, Store.Refers;
    ReplyAndNews(flags, DisableEntityDeleteBroadcast, s, pid, EntityDeleteResponse, EntityDeleteBroadcast(id));
    RefuseRefuses(s, pid, NotFound);
    RefuseRefuses(s, pid, Unauthorized);
    DeletedWithout(s.components, id);
    assert id !in s.entities ==> s.actions - {id} == s.actions && s.assets - {id} == s.assets;
  }

  /** The same store but for the components of one entity, which are gone. */
  ghost predicate Without(c: Store, entity: nat, c': Store) {
    && c' == c.(entityComponents := c'.entityComponents)
    && forall t, e :: (c'.Has(t, e) <==> c.Has(t, e) && e != entity)
                      && (c'.Has(t, e) ==> c'.TypeComponents(t)[e] == c.TypeComponents(t)[e])
  }

  lemma DeletedWithout(c: Store, entity: nat)
    ensures Without(c, entity, c.DeleteByEntityID(entity))
  {
  }

  /** Only the owner moves an entity; a pose of anyone else is dropped without a word. */
  lemma UpdatePoseMeaning(flags: set<Flag>, s: Session, pid: nat, id: nat, pose: Pose)
    requires pid in s.participants
    ensures var result := Handle(flags, s, pid, EntityUpdatePose(id, pose));
      var s' := result.session;
      if id in s.entities && s.entities[id].owner == pid then
        && s'.entities.Keys == s.entities.Keys && s'.entities[id] == s.entities[id].(pose := pose)
        && (forall e :: e in s.entities && e != id ==> s'.entities[e] == s.entities[e])
        && s' == s.(entities := s'.entities)
        && Tells(result.out, pid, [], Unless(flags, DisableEntityUpdatePoseBroadcast, Others(s, pid)), PoseBroadcast(id, pose))
      else Silent(result, s)
  {
    hide Tells, Broadcast, IfNotSet;
    ReplyAndNews(flags, DisableEntityUpdatePoseBroadcast, s, pid, EntityDeleteResponse, PoseBroadcast(id, pose));
  }

  /** A name is answered with the id it is registered under, which is the old one if it has one, and else one that was never used;
      nobody else hears of it. The empty name is refused. */
  lemma TypeAddMeaning(flags: set<Flag>, s: Session, pid: nat, name: string)
    requires Valid(s) && pid in s.participants
    ensures var result := Handle(flags, s, pid, TypeAdd(name));
      var c, c' := s.components, result.session.components;
      && (name == "" ==> Refused(result, s, pid, BadRequest))
      && (name != "" ==>
            && Sent(result.out, pid) != [] && Sent(result.out, pid)[0].TypeAddResponse?
            && var t := Sent(result.out, pid)[0].typ;
               && Tells(result.out, pid, [TypeAddResponse(t)], {}, TypeAddResponse(t))
               && t in c'.nameIndex && c'.nameIndex[t] == name && name in c'.idIndex && c'.idIndex[name] == t
               && (name in c.idIndex ==> result.session == s)
               && (name !in c.idIndex ==>
                     && t !in c.nameIndex && t == c.ids.current + 1
                     && c'.nameIndex == c.nameIndex[t := name] && c'.idIndex == c.idIndex[name := t]
                     && result.session == s.(components := c.(ids := IdPool(t, {}), nameIndex := c'.nameIndex, idIndex := c'.idIndex))))
  {
    hide Owned, IdsIssued, Connected, ModulesRefer;
    RefuseRefuses(s, pid, BadRequest);
  }

  /** The component `e` of type `t`, if there is one. */
  function ComponentAt(c: Store, t: nat, e: nat): Option<Data> {
    if c.Has(t, e) then Some(c.TypeComponents(t)[e]) else None
  }

  /** The same store but for one component. */
  ghost predicate Changed(c: Store, typ: nat, entity: nat, value: Option<Data>, c': Store) {
    && c' == c.(entityComponents := c'.entityComponents)
    && forall t, e :: ComponentAt(c', t, e) == if t == typ && e == entity then value else ComponentAt(c, t, e)
  }

  /** A component is added to a live entity under a registered type, unless it has one already. All others hear of it as soon as
      anyone subscribes to the type. */
  lemma ComponentAddMeaning(flags: set<Flag>, s: Session, pid: nat, typ: nat, id: nat, data: Data)
    requires pid in s.participants
    ensures var result := Handle(flags, s, pid, ComponentAdd(typ, id, data));
      if typ == 0 || id == 0 then Refused(result, s, pid, BadRequest)
      else if id !in s.entities || typ !in s.components.nameIndex then Refused(result, s, pid, NotFound)
      else if ComponentAt(s.components, typ, id).Some? then Refused(result, s, pid, Conflict)
      else
        && Changed(s.components, typ, id, Some(data), result.session.components)
        && result.session == s.(components := result.session.components)
        && Tells(result.out, pid, [ComponentAddResponse],
                 Unless(flags, DisableComponentAddBroadcast, if s.components.Subscribers(typ) == {} then {} else Others(s, pid)),
                 ComponentAddBroadcast(typ, id, data))
  {
    hide Tells, Then, NotifyAll, IfNotSet, Reply, Refuse, Refused, Store.Subscribers;
    RefuseRefuses(s, pid, BadRequest);
    RefuseRefuses(s, pid, NotFound);
    RefuseRefuses(s, pid, Conflict);
    ReplyAndNotice(flags, DisableComponentAddBroadcast, s, pid, typ, ComponentAddResponse, ComponentAddBroadcast(typ, id, data));
  }

  lemma ComponentDeleteMeaning(flags: set<Flag>, s: Session, pid: nat, typ: nat, id: nat)
    requires pid in s.participants
    ensures var result := Handle(flags, s, pid, ComponentDelete(typ, id));
      if typ == 0 || id == 0 then Refused(result, s, pid, BadRequest)
      else if id !in s.entities || ComponentAt(s.components, typ, id) == None then Refused(result, s, pid, NotFound)
      else
        && Changed(s.components, typ, id, None, result.session.components)
        && result.session == s.(components := result.session.components)
        && Tells(result.out, pid, [ComponentDeleteResponse],
                 Unless(flags, DisableComponentDeleteBroadcast, if s.components.Subscribers(typ) == {} then {} else Others(s, pid)),
                 ComponentDeleteBroadcast(typ, id))
  {
    hide Tells, Then, NotifyAll, IfNotSet, Reply, Refuse, Refused, Store.Subscribers;
    RefuseRefuses(s, pid, BadRequest);
    RefuseRefuses(s, pid, NotFound);
    ReplyAndNotice(flags, DisableComponentDeleteBroadcast, s, pid, typ, ComponentDeleteResponse, ComponentDeleteBroadcast(typ, id));
  }

  /** An update is never answered. It replaces a component that is there; of a live entity the subscribers hear it either way. */
  lemma ComponentUpdateMeaning(flags: set<Flag>, s: Session, pid: nat, typ: nat, id: nat, data: Data)
    requires pid in s.participants
    ensures var result, had := Handle(flags, s, pid, ComponentUpdate(typ, id, data)), ComponentAt(s.components, typ, id);
      if typ == 0 || id == 0 || id !in s.entities then Silent(result, s)
      else
        && Changed(s.components, typ, id, if had.Some? then Some(data) else None, result.session.components)
        && result.session == s.(components := result.session.components)
        && Tells(result.out, pid, [],
                 Unless(flags, DisableComponentUpdateBroadcast, s.components.Subscribers(typ) * Others(s, pid)),
                 ComponentUpdateBroadcast(typ, id, data))
  {
    hide Store.Subscribers;
  }

  /** The same store but for the subscribers of one type. */
  ghost predicate Resubscribed(c: Store, typ: nat, subscribers: set<nat>, c': Store) {
    && c' == c.(subscriptions := c'.subscriptions)
    && forall t :: c'.Subscribers(t) == if t == typ then subscribers else c.Subscribers(t)
  }

  lemma SubscribeMeaning(flags: set<Flag>, s: Session, pid: nat, typ: nat)
    requires pid in s.participants
    ensures var result := Handle(flags, s, pid, Subscribe(typ));
      if typ == 0 then Refused(result, s, pid, BadRequest)
      else if typ !in s.components.nameIndex then Refused(result, s, pid, NotFound)
      else
        && Resubscribed(s.components, typ, s.components.Subscribers(typ) + {pid}, result.session.components)
        && result.session == s.(components := result.session.components)
        && Tells(result.out, pid, [SubscribeResponse], {}, SubscribeResponse)
  {
  }

  lemma UnsubscribeMeaning(flags: set<Flag>, s: Session, pid: nat, typ: nat)
    requires pid in s.participants
    ensures var result := Handle(flags, s, pid, Unsubscribe(typ));
      if typ == 0 then Refused(result, s, pid, BadRequest)
      else
        && Resubscribed(s.components, typ, s.components.Subscribers(typ) - {pid}, result.session.components)
        && result.session == s.(components := result.session.components)
        && Tells(result.out, pid, [UnsubscribeResponse], {}, UnsubscribeResponse)
  {
  }

  /** A list names every component of the type with its data, and no others; asking changes nothing. */
  lemma ComponentListMeaning(flags: set<Flag>, s: Session, pid: nat, typ: nat)
    requires pid in s.participants
    ensures var result := Handle(flags, s, pid, ComponentList(typ));
      if typ == 0 then Refused(result, s, pid, BadRequest)
      else
        && result.session == s && Sent(result.out, pid) != [] && Sent(result.out, pid)[0].ComponentListResponse?
        && var list := Sent(result.out, pid)[0].list;
           && Tells(result.out, pid, [ComponentListResponse(list)], {}, ComponentListResponse(list))
           && forall e :: ComponentAt(s.components, typ, e) == if e in list then Some(list[e]) else None
  {
  }

  /** The action that is stored of an entity under a name. */
  function ActionAt(actions: Actions, entity: nat, name: string): Option<Action> {
    if entity in actions && name in actions[entity] then Some(actions[entity][name]) else None
  }

  /** An action is refused if it is incomplete, its entity is not there, or a later one is stored; else it replaces the one stored. */
  lemma SetActionMeaning(flags: set<Flag>, s: Session, pid: nat, request: Option<ActionRequest>)
    requires pid in s.participants
    ensures var result := Handle(flags, s, pid, SetAction(request));
      if request == None || request.value.name == "" || request.value.timestamp == None || request.value.entity !in s.entities
         || (ActionAt(s.actions, request.value.entity, request.value.name).Some?
             && request.value.timestamp.value < ActionAt(s.actions, request.value.entity, request.value.name).value.timestamp)
      then Refused(result, s, pid, BadRequest)
      else
        var r := request.value;
        var a := Action(r.timestamp.value, r.data);
        && (forall e, name :: ActionAt(result.session.actions, e, name) ==
              if e == r.entity && name == r.name then Some(a) else ActionAt(s.actions, e, name))
        && result.session.actions.Keys == s.actions.Keys + {r.entity} && result.session == s.(actions := result.session.actions)
        && Tells(result.out, pid, [ActionResponse], Others(s, pid), ActionBroadcast(r.entity, r.name, a))
  {
    hide Tells, Then, Broadcast, Reply, Refused, Refuse;
    RefuseRefuses(s, pid, BadRequest);
    if request.Some? && request.value.timestamp.Some? {
      var r := request.value;
      ReplyAndNews(flags, DisableEntityAddBroadcast, s, pid, ActionResponse,
                   ActionBroadcast(r.entity, r.name, Action(r.timestamp.value, r.data)));
    }
  }

  /** Only the owner gives an entity an asset, under an id that was never used; it replaces the asset the entity had. */
  lemma AssetAddMeaning(flags: set<Flag>, s: Session, pid: nat, assetId: string, id: nat)
    requires Valid(s) && pid in s.participants
    ensures var result := Handle(flags, s, pid, AssetAdd(assetId, id));
      if assetId == "" then Refused(result, s, pid, BadRequest)
      else if id !in s.entities then Refused(result, s, pid, NotFound)
      else if s.entities[id].owner != pid then Refused(result, s, pid, Unauthorized)
      else
        var asset := Asset(s.assetIDs.current + 1, assetId, pid);
        && (forall e :: e in s.assets ==> s.assets[e].id != asset.id)
        && result.session == s.(assetIDs := IdPool(asset.id, {}), assets := s.assets[id := asset])
        && Tells(result.out, pid, [AssetAddResponse(asset.id)], Others(s, pid), AssetAddBroadcast(id, asset))
  {
    hide Tells, Then, Broadcast, Reply, Refused, Refuse, Owned, Connected, Store.Refers;
    RefuseRefuses(s, pid, BadRequest);
    RefuseRefuses(s, pid, NotFound);
    RefuseRefuses(s, pid, Unauthorized);
    var asset := Asset(s.assetIDs.current + 1, assetId, pid);
    ReplyAndNews(flags, DisableEntityAddBroadcast, s, pid, AssetAddResponse(asset.id), AssetAddBroadcast(id, asset));
  }
}
