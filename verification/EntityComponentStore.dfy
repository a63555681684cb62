/** The entity component store that sessions update in place; each method does what Components.Store says. */
module EntityComponents {
  import opened Options
  import opened Ids
  import opened Components

  class EntityComponentStore {
    const ids: SequentialIDGenerator
    var nameIndex: map<nat, string>
    var idIndex: map<string, nat>
    var entityComponents: map<nat, map<nat, Data>>
    var subscriptions: map<nat, set<nat>>

    constructor ()
      ensures View() == NEW_STORE && fresh(ids)
    {
      ids := new SequentialIDGenerator();
      nameIndex, idIndex, entityComponents, subscriptions := map[], map[], map[], map[];
    }

    function View(): Store
      reads this, ids`currentID, ids`reusableIDs
    {
      Store(ids.View(), nameIndex, idIndex, entityComponents, subscriptions)
    }

    lemma Fields()
      ensures View().nameIndex == nameIndex && View().ids.reusable == ids.reusableIDs
    {
    }

    method AddType(name: string) returns (id: nat)
      requires ids.reusableIDs == {}
      modifies this`nameIndex, this`idIndex, ids`currentID, ids`reusableIDs
      ensures (View(), id) == old(View()).AddType(name)
    {
      if name in idIndex {
        id := idIndex[name];
        return;
      }
      id := ids.New();
      nameIndex := nameIndex[id := name];
      idIndex := idIndex[name := id];
    }

    method Add(typ: nat, entity: nat, data: Data) returns (error: Option<AddError>)
      modifies this`entityComponents
      ensures error == if typ !in nameIndex then Some(TypeNotAdded) else if old(View()).Has(typ, entity) then Some(AlreadyAdded) else None
      ensures View() == if error == None then old(View()).Put(typ, entity, data) else old(View())
    {
      if typ !in nameIndex {
        error := Some(TypeNotAdded);
        return;
      }
      if typ !in entityComponents {
        entityComponents := entityComponents[typ := map[]];
      }
      if entity in entityComponents[typ] {
        error := Some(AlreadyAdded);
        return;
      }
      var ecs: map<nat, Data> := entityComponents[typ][entity := data];
      entityComponents := entityComponents[typ := ecs];
      error := None;
    }

    method Delete(typ: nat, entity: nat) returns (ok: bool)
      modifies this`entityComponents
      ensures ok == old(View()).Has(typ, entity)
      ensures View() == if ok then old(View()).Delete(typ, entity) else old(View())
    {
      if typ !in entityComponents {
        ok := false;
        return;
      }
      ok := entity in entityComponents[typ];
      assert !ok ==> entityComponents[typ] - {entity} == entityComponents[typ];
      entityComponents := entityComponents[typ := entityComponents[typ] - {entity}];
    }

    method DeleteByEntityID(entity: nat)
      modifies this`entityComponents
      ensures View() == old(View()).DeleteByEntityID(entity)
    {
      var rest := entityComponents.Keys;
      while rest != {}
        invariant rest <= entityComponents.Keys == old(entityComponents).Keys
        invariant forall typ :: typ in entityComponents ==>
          entityComponents[typ] == if typ in rest then old(entityComponents)[typ] else old(entityComponents)[typ] - {entity}
      {
        var typ :| typ in rest;
        rest := rest - {typ};
        entityComponents := entityComponents[typ := entityComponents[typ] - {entity}];
      }
    }

    method Update(typ: nat, entity: nat, data: Data) returns (ok: bool)
      modifies this`entityComponents
      ensures ok == old(View()).Has(typ, entity)
      ensures View() == old(View()).Update(typ, entity, data)
    {
      if typ !in entityComponents {
        return false;
      }
      if entity !in entityComponents[typ] {
        return false;
      }
      var ecs: map<nat, Data> := entityComponents[typ][entity := data];
      entityComponents := entityComponents[typ := ecs];
      ok := true;
    }

    method Subscribe(typ: nat, participant: nat) returns (ok: bool)
      modifies this`subscriptions
      ensures ok == (typ in nameIndex)
      ensures View() == if ok then old(View()).Subscribe(typ, participant) else old(View())
    {
      if typ !in nameIndex {
        ok := false;
        return;
      }
      if typ !in subscriptions {
        subscriptions := subscriptions[typ := {}];
      }
      subscriptions := subscriptions[typ := subscriptions[typ] + {participant}];
      ok := true;
    }

    method Unsubscribe(typ: nat, participant: nat)
      modifies this`subscriptions
      ensures View() == old(View()).Unsubscribe(typ, participant)
    {
      if typ !in subscriptions {
        return;
      }
      subscriptions := subscriptions[typ := subscriptions[typ] - {participant}];
    }

    method UnsubscribeByParticipant(participant: nat)
      modifies this`subscriptions
      ensures View() == old(View()).UnsubscribeByParticipant(participant)
    {
      var rest := subscriptions.Keys;
      while rest != {}
        invariant rest <= subscriptions.Keys == old(subscriptions).Keys
        invariant forall typ :: typ in subscriptions ==>
          subscriptions[typ] == if typ in rest then old(subscriptions)[typ] else old(subscriptions)[typ] - {participant}
      {
        var typ :| typ in rest;
        rest := rest - {typ};
        subscriptions := subscriptions[typ := subscriptions[typ] - {participant}];
      }
    }

    /** The components of a type. */
    method List(typ: nat) returns (list: map<nat, Data>)
      ensures list == View().TypeComponents(typ)
    {
      list := map[];
      if typ !in entityComponents || entityComponents[typ] == map[] {
        return;
      }
      var rest := entityComponents[typ].Keys;
      while rest != {}
        invariant rest <= entityComponents[typ].Keys && list.Keys == entityComponents[typ].Keys - rest
        invariant forall e :: e in list ==> list[e] == entityComponents[typ][e]
      {
        var e :| e in rest;
        rest := rest - {e};
        list := list[e := entityComponents[typ][e]];
      }
    }

    /** The subscribers that a change of a component is to be told to, in some order. */
    method Notify(typ: nat) returns (participantIDs: seq<nat>)
      ensures forall p :: p in participantIDs <==> p in View().Subscribers(typ)
    {
      participantIDs := [];
      if typ !in subscriptions {
        return;
      }
      var rest := subscriptions[typ];
      while rest != {}
        invariant rest <= subscriptions[typ]
        invariant forall p :: p in participantIDs <==> p in subscriptions[typ] && p !in rest
      {
        var p :| p in rest;
        rest := rest - {p};
        participantIDs := participantIDs + [p];
      }
    }
  }
}
