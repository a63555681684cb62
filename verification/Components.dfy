/** The entity component store as a value: types indexed both ways, components per type and entity, subscribers. */
module Components {
  import opened Ids

  type Data = seq<int>

  datatype AddError = TypeNotAdded | AlreadyAdded

  datatype Store = Store(
    ids: IdPool,
    nameIndex: map<nat, string>,
    idIndex: map<string, nat>,
    entityComponents: map<nat, map<nat, Data>>,
    subscriptions: map<nat, set<nat>>)
  {
    function AddType(name: string): (Store, nat) {
      if name in idIndex then (this, idIndex[name])
      else
        var id := ids.current + 1;
        (this.(ids := ids.Take(id), nameIndex := nameIndex[id := name], idIndex := idIndex[name := id]), id)
    }

    function TypeComponents(typ: nat): map<nat, Data> {
      if typ in entityComponents then entityComponents[typ] else map[]
    }

    predicate Has(typ: nat, entity: nat) {
      entity in TypeComponents(typ)
    }

    function Put(typ: nat, entity: nat, data: Data): Store {
      this.(entityComponents := entityComponents[typ := TypeComponents(typ)[entity := data]])
    }

    function Delete(typ: nat, entity: nat): Store {
      if typ in entityComponents then
        this.(entityComponents := entityComponents[typ := entityComponents[typ] - {entity}])
      else this
    }

    function DeleteByEntityID(entity: nat): Store {
      this.(entityComponents := map typ | typ in entityComponents :: entityComponents[typ] - {entity})
    }

    function Update(typ: nat, entity: nat, data: Data): Store {
      if Has(typ, entity) then Put(typ, entity, data) else this
    }

    function Subscribers(typ: nat): set<nat> {
      if typ in subscriptions then subscriptions[typ] else {}
    }

    function Subscribe(typ: nat, participant: nat): Store
      requires typ in nameIndex
    {
      this.(subscriptions := subscriptions[typ := Subscribers(typ) + {participant}])
    }

    function Unsubscribe(typ: nat, participant: nat): Store {
      if typ in subscriptions then this.(subscriptions := subscriptions[typ := subscriptions[typ] - {participant}]) else this
    }

    function UnsubscribeByParticipant(participant: nat): Store {
      this.(subscriptions := map typ | typ in subscriptions :: subscriptions[typ] - {participant})
    }

    /** The two type indexes are inverse to each other, and hold issued ids only. */
    ghost predicate TypesIndexed() {
      && ids.reusable == {}
      && (forall id :: id in nameIndex ==> 1 <= id <= ids.current && nameIndex[id] in idIndex && idIndex[nameIndex[id]] == id)
      && (forall name :: name in idIndex ==> idIndex[name] in nameIndex && nameIndex[idIndex[name]] == name)
    }

    /** Components and subscriptions refer to registered types, live entities and current participants only. */
    ghost predicate Refers(entities: set<nat>, participants: set<nat>) {
      && TypesIndexed()
      && (forall typ :: typ in entityComponents ==> typ in nameIndex && entityComponents[typ].Keys <= entities)
      && (forall typ :: typ in subscriptions ==> typ in nameIndex && subscriptions[typ] <= participants)
    }
  }

  const NEW_STORE := Store(NO_IDS, map[], map[], map[], map[])

  /** Registering a name twice gives the same id, and different names never share one. */
  lemma AddTypeKeeps(c: Store, name: string, entities: set<nat>, participants: set<nat>)
    requires c.Refers(entities, participants)
    ensures var (c', id) := c.AddType(name);
      && c'.Refers(entities, participants)
      && c'.nameIndex.Keys == c.nameIndex.Keys + {id} && c'.nameIndex[id] == name
      && c'.AddType(name) == (c', id)
      && (forall other :: other in c.idIndex ==> c'.idIndex[other] == c.idIndex[other])
  {
  }

  lemma DeleteEntityKeeps(c: Store, entity: nat, entities: set<nat>, participants: set<nat>)
    requires c.Refers(entities, participants)
    ensures c.DeleteByEntityID(entity).Refers(entities - {entity}, participants)
    ensures forall typ, e :: c.DeleteByEntityID(entity).Has(typ, e) <==> c.Has(typ, e) && e != entity
  {
  }

  lemma UnsubscribeKeeps(c: Store, participant: nat, entities: set<nat>, participants: set<nat>)
    requires c.Refers(entities, participants)
    ensures c.UnsubscribeByParticipant(participant).Refers(entities, participants - {participant})
  {
  }

  lemma PutKeeps(c: Store, typ: nat, entity: nat, data: Data, entities: set<nat>, participants: set<nat>)
    requires c.Refers(entities, participants) && typ in c.nameIndex && entity in entities
    ensures c.Put(typ, entity, data).Refers(entities, participants)
  {
  }

  lemma DeleteKeeps(c: Store, typ: nat, entity: nat, entities: set<nat>, participants: set<nat>)
    requires c.Refers(entities, participants)
    ensures c.Delete(typ, entity).Refers(entities, participants)
  {
  }

  lemma UpdateKeeps(c: Store, typ: nat, entity: nat, data: Data, entities: set<nat>, participants: set<nat>)
    requires c.Refers(entities, participants)
    ensures c.Update(typ, entity, data).Refers(entities, participants)
  {
    if c.Has(typ, entity) {
      PutKeeps(c, typ, entity, data, entities, participants);
    }
  }

  lemma SubscribeKeeps(c: Store, typ: nat, participant: nat, entities: set<nat>, participants: set<nat>)
    requires c.Refers(entities, participants) && typ in c.nameIndex && participant in participants
    ensures c.Subscribe(typ, participant).Refers(entities, participants)
  {
  }

  lemma UnsubscribeKeepsOne(c: Store, typ: nat, participant: nat, entities: set<nat>, participants: set<nat>)
    requires c.Refers(entities, participants)
    ensures c.Unsubscribe(typ, participant).Refers(entities, participants)
  {
  }

  lemma RefersMore(c: Store, entities: set<nat>, participants: set<nat>, entities': set<nat>, participants': set<nat>)
    requires c.Refers(entities, participants) && entities <= entities' && participants <= participants'
    ensures c.Refers(entities', participants')
  {
  }
}
