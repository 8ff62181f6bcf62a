/** Registering services and the relations their methods resolve (knit.go:113-208). */
module Registries {
  import opened Wrappers
  import Names
  import opened Protobuf
  import opened Response
  import opened Meaning
  import opened Schemas

  /** A relation annotation on a method; config is what getRelationConfig makes of the method: the message type the
      relation belongs to and its field, or a reason why the method is no resolver. */
  datatype Annotation = Annotation(name: string, config: Result<RelationConfig, string>)

  datatype RelationConfig = RelationConfig(base: TypeName, descriptor: Field, takesParams: bool)

  /** A method of a service; responseKnown says whether its response type can be resolved where that is required. */
  datatype MethodDesc = MethodDesc(name: string, output: TypeName, responseKnown: bool, annotation: Option<Annotation>)

  datatype RegistryError =
    | NoRoute | AlreadyRegistered(name: string) | UnknownResponse(name: string) | NoRelationName(name: string)
    | InvalidResolver(reason: string) | HidesField(relation: RelationId) | AlreadyDefined(relation: RelationId)

  datatype Registered = Registered(methods: map<string, MethodDesc>, relations: Relations)

  const EMPTY := Registered(map[], map[])

  // ----- what registering does

  function RelationsOf(relations: Relations, typ: TypeName): map<string, Relation> {
    if typ in relations then relations[typ] else map[]
  }

  /** addRelation */
  function WithRelation(types: Types, r: Registered, rpc: string, name: string, config: RelationConfig)
    : (Registered, Option<RegistryError>)
  {
    var id := RelationId(config.base, Names.Camel(name));
    if FieldFor(types, id.base, id.name).Some? then (r, Some(HidesField(id)))
    else if id.name in RelationsOf(r.relations, id.base) then (r, Some(AlreadyDefined(id)))
    else
      var relation := Relation(id.name, rpc, config.descriptor, config.takesParams);
      (r.(relations := r.relations[id.base := RelationsOf(r.relations, id.base)[id.name := relation]]), None)
  }

  /** One method of a service: registered first, then its relation, so that a bad annotation leaves the method. */
  function WithMethod(types: Types, r: Registered, m: MethodDesc): (Registered, Option<RegistryError>) {
    if m.name in r.methods then (r, Some(AlreadyRegistered(m.name)))
    else if !m.responseKnown then (r, Some(UnknownResponse(m.name)))
    else
      var r2 := r.(methods := r.methods[m.name := m]);
      match m.annotation
      case None => (r2, None)
      case Some(a) =>
        if a.name == "" then (r2, Some(NoRelationName(m.name)))
        else
          match a.config
          case Err(reason) => (r2, Some(InvalidResolver(reason)))
          case Ok(config) => WithRelation(types, r2, m.name, a.name, config)
  }

  /** A service's methods in order, up to the first that fails. */
  function WithMethods(types: Types, r: Registered, ms: seq<MethodDesc>): (Registered, Option<RegistryError>)
    decreases |ms|
  {
    if ms == [] then (r, None)
    else
      var step := WithMethod(types, r, ms[0]);
      if step.1.Some? then step else WithMethods(types, step.0, ms[1..])
  }

  datatype Service = Service(hasRoute: bool, methods: seq<MethodDesc>)

  function WithService(types: Types, r: Registered, svc: Service): (Registered, Option<RegistryError>) {
    if !svc.hasRoute then (r, Some(NoRoute)) else WithMethods(types, r, svc.methods)
  }

  /** The registry after calls to AddService, whether they fail or not. */
  function History(types: Types, services: seq<Service>): Registered {
    if services == [] then EMPTY
    else WithService(types, History(types, services[..|services| - 1]), services[|services| - 1]).0
  }

  // ----- which methods are complained about

  predicate Has(r: Registered, id: RelationId) { id.base in r.relations && id.name in r.relations[id.base] }

  predicate Defines(m: MethodDesc, id: RelationId) {
    && m.annotation.Some? && m.annotation.value.config.Ok?
    && m.annotation.value.config.value.base == id.base && Names.Camel(m.annotation.value.name) == id.name
  }

  /** A method of this name is in the registry or comes before method i of the service. */
  predicate NameTaken(r: Registered, ms: seq<MethodDesc>, i: nat, name: string)
    requires i <= |ms|
  {
    name in r.methods || exists j :: 0 <= j < i && ms[j].name == name
  }

  predicate RelationTaken(r: Registered, ms: seq<MethodDesc>, i: nat, id: RelationId)
    requires i <= |ms|
  {
    Has(r, id) || exists j :: 0 <= j < i && Defines(ms[j], id)
  }

  /** What is wrong with method i of a service, given the registry before the call and the methods before it. */
  function Complaint(types: Types, r: Registered, ms: seq<MethodDesc>, i: nat): Option<RegistryError>
    requires i < |ms|
  {
    var m := ms[i];
    if NameTaken(r, ms, i, m.name) then Some(AlreadyRegistered(m.name))
    else if !m.responseKnown then Some(UnknownResponse(m.name))
    else
      match m.annotation
      case None => None
      case Some(Annotation("", _)) => Some(NoRelationName(m.name))
      case Some(Annotation(_, Err(reason))) => Some(InvalidResolver(reason))
      case Some(Annotation(name, Ok(config))) =>
        var id := RelationId(config.base, Names.Camel(name));
        if FieldFor(types, id.base, id.name).Some? then Some(HidesField(id))
        else if RelationTaken(r, ms, i, id) then Some(AlreadyDefined(id))
        else None
  }

  /** The first n methods are registered with their relations; if there is an error, it is about the next one, which
      is registered too if only its annotation is wrong; nothing else is new. */
  ghost predicate AddedFirst(types: Types, r: Registered, ms: seq<MethodDesc>, n: nat, r2: Registered,
                             error: Option<RegistryError>)
  {
    && n <= |ms| && (forall i :: 0 <= i < n ==> Complaint(types, r, ms, i).None?)
    && (if n < |ms| then error.Some? && error == Complaint(types, r, ms, n) else error.None?)
    && var registered := if error.None? || error.value.AlreadyRegistered? || error.value.UnknownResponse? then n
                         else n + 1;
       && (forall name :: name in r2.methods <==> NameTaken(r, ms, registered, name))
       && (forall id :: Has(r2, id) <==> RelationTaken(r, ms, n, id))
  }

  class Registry {
    const types: Types
    var methods: map<string, MethodDesc>
    var relations: Relations

    constructor (types: Types)
      ensures this.types == types && Contents() == EMPTY
    {
      this.types, methods, relations := types, map[], map[];
    }

    function Contents(): Registered
      reads this
    {
      Registered(methods, relations)
    }

    method AddService(svc: Service) returns (error: Option<RegistryError>)
      modifies this
      ensures (Contents(), error) == WithService(types, old(Contents()), svc)
      ensures !svc.hasRoute ==> error == Some(NoRoute) && Contents() == old(Contents())
      ensures svc.hasRoute ==> exists n :: AddedFirst(types, old(Contents()), svc.methods, n, Contents(), error)
    {
      hide FieldFor, Names.Camel, WithMethod, AddedFirst;
      if !svc.hasRoute {
        return Some(NoRoute);
      }
      for i := 0 to |svc.methods|
        invariant WithMethods(types, old(Contents()), svc.methods) == WithMethods(types, Contents(), svc.methods[i..])
      {
        var m := svc.methods[i];
        assert svc.methods[i..][0] == m && svc.methods[i..][1..] == svc.methods[i + 1..];
        error := AddMethod(m);
        if error.Some? {
          ghost var n := AddsExactly(types, old(Contents()), svc.methods);
          return;
        }
      }
      error := None;
      ghost var n := AddsExactly(types, old(Contents()), svc.methods);
    }

    method AddMethod(m: MethodDesc) returns (error: Option<RegistryError>)
      modifies this
      ensures (Contents(), error) == WithMethod(types, old(Contents()), m)
    {
      hide FieldFor, Names.Camel;
      if m.name in methods {
        return Some(AlreadyRegistered(m.name));
      }
      if !m.responseKnown {
        return Some(UnknownResponse(m.name));
      }
      methods := methods[m.name := m];
      if m.annotation.None? {
        return None;
      }
      var a := m.annotation.value;
      if a.name == "" {
        return Some(NoRelationName(m.name));
      }
      if a.config.Err? {
        return Some(InvalidResolver(a.config.error));
      }
      error := AddRelation(m.name, a.name, a.config.value);
    }

    method AddRelation(rpc: string, name: string, config: RelationConfig) returns (error: Option<RegistryError>)
      modifies this`relations
      ensures (Contents(), error) == WithRelation(types, old(Contents()), rpc, name, config)
    {
      hide Names.Camel, Names.Lookup;
      var relationName := Names.CamelCase(name);
      var id := RelationId(config.base, relationName);
      var at := Names.FieldWithCamelCaseName(NamesOf(FieldsOf(types, config.base)), relationName);
      if at >= 0 {
        return Some(HidesField(id));
      }
      var others := if config.base in relations then relations[config.base] else map[];
      if relationName in others {
        return Some(AlreadyDefined(id));
      }
      var relation := Relation(relationName, rpc, config.descriptor, config.takesParams);
      relations := relations[config.base := others[relationName := relation]];
      error := None;
    }
  }

  // ----- what a call registers and when it fails

  lemma FirstTaken(r: Registered, ms: seq<MethodDesc>)
    requires ms != []
    ensures forall name :: NameTaken(r, ms, 0, name) <==> name in r.methods
    ensures forall name :: NameTaken(r, ms, 1, name) <==> name in r.methods || name == ms[0].name
    ensures forall id :: RelationTaken(r, ms, 0, id) <==> Has(r, id)
    ensures forall id :: RelationTaken(r, ms, 1, id) <==> Has(r, id) || Defines(ms[0], id)
  {
    hide Defines;
    forall id ensures RelationTaken(r, ms, 1, id) <==> Has(r, id) || Defines(ms[0], id) {
      assert Defines(ms[0], id) ==> Defines(ms[0], id) && 0 <= 0 < 1;
    }
  }

  lemma RelationExactly(types: Types, r: Registered, m: MethodDesc)
    requires m.annotation.Some? && m.annotation.value.config.Ok?
    ensures var a := m.annotation.value;
            var id := RelationId(a.config.value.base, Names.Camel(a.name));
            var (r2, error) := WithRelation(types, r, m.name, a.name, a.config.value);
            && r2.methods == r.methods
            && error == (if FieldFor(types, id.base, id.name).Some? then Some(HidesField(id))
                         else if Has(r, id) then Some(AlreadyDefined(id)) else None)
            && forall other :: Has(r2, other) <==> Has(r, other) || (error.None? && Defines(m, other))
  {
    hide FieldFor, Names.Camel;
  }

  /** Adding one method, said of a service that begins with it. */
  lemma MethodExactly(types: Types, r: Registered, ms: seq<MethodDesc>)
    requires ms != []
    ensures var (r2, error) := WithMethod(types, r, ms[0]);
            && error == Complaint(types, r, ms, 0)
            && (forall name :: name in r2.methods <==>
                  NameTaken(r, ms, if error.Some? && (error.value.AlreadyRegistered? || error.value.UnknownResponse?)
                                   then 0 else 1, name))
            && (forall id :: Has(r2, id) <==> RelationTaken(r, ms, if error.Some? then 0 else 1, id))
  {
    hide FieldFor, Names.Camel, WithRelation, NameTaken, RelationTaken;
    var m := ms[0];
    FirstTaken(r, ms);
    if m.annotation.Some? && m.annotation.value.config.Ok? {
      RelationExactly(types, r.(methods := r.methods[m.name := m]), m);
    }
  }

  /** Once the first method is registered, the others are complained about as if it had always been. */
  lemma ComplaintStays(types: Types, r: Registered, ms: seq<MethodDesc>, r2: Registered, i: nat)
    requires 0 < i < |ms| && WithMethod(types, r, ms[0]) == (r2, None)
    ensures Complaint(types, r2, ms[1..], i - 1) == Complaint(types, r, ms, i)
  {
    hide FieldFor, Names.Camel, WithMethod, NameTaken, RelationTaken;
    TakenStays(types, r, ms, r2, i);
  }

  lemma TakenStays(types: Types, r: Registered, ms: seq<MethodDesc>, r2: Registered, i: nat)
    requires 0 < i <= |ms| && WithMethod(types, r, ms[0]) == (r2, None)
    ensures forall name :: NameTaken(r2, ms[1..], i - 1, name) <==> NameTaken(r, ms, i, name)
    ensures forall id :: RelationTaken(r2, ms[1..], i - 1, id) <==> RelationTaken(r, ms, i, id)
  {
    hide FieldFor, Names.Camel, WithMethod, Defines, Complaint;
    MethodExactly(types, r, ms);
    assert ms == [ms[0]] + ms[1..];
    forall name ensures NameTaken(r2, ms[1..], i - 1, name) <==> NameTaken(r, ms, i, name) {
      if name !in r.methods && exists j :: 0 <= j < i && ms[j].name == name {
        var j :| 0 <= j < i && ms[j].name == name;
        if j > 0 {
          assert ms[1..][j - 1].name == name;
        }
      }
    }
    forall id ensures RelationTaken(r2, ms[1..], i - 1, id) <==> RelationTaken(r, ms, i, id) {
      if exists j :: 0 <= j < i && Defines(ms[j], id) {
        var j :| 0 <= j < i && Defines(ms[j], id);
        if j > 0 {
          assert Defines(ms[1..][j - 1], id);
        }
      }
    }
  }

  lemma AddedRest(types: Types, r: Registered, ms: seq<MethodDesc>, r2: Registered, rest: nat, r3: Registered,
                  error: Option<RegistryError>)
    requires ms != [] && WithMethod(types, r, ms[0]) == (r2, None)
    requires AddedFirst(types, r2, ms[1..], rest, r3, error)
    ensures AddedFirst(types, r, ms, rest + 1, r3, error)
  {
    hide FieldFor, Names.Camel, WithMethod, NameTaken, RelationTaken, Complaint, Has;
    MethodExactly(types, r, ms);
    var n := rest + 1;
    forall i | 0 < i < |ms| ensures Complaint(types, r2, ms[1..], i - 1) == Complaint(types, r, ms, i) {
      ComplaintStays(types, r, ms, r2, i);
    }
    forall i | 0 <= i < n ensures Complaint(types, r, ms, i).None? {
      if i > 0 {
        assert Complaint(types, r2, ms[1..], i - 1).None?;
      }
    }
    TakenStays(types, r, ms, r2, n);
    if n < |ms| {
      assert Complaint(types, r, ms, n) == Complaint(types, r2, ms[1..], rest);
      TakenStays(types, r, ms, r2, n + 1);
    }
  }

  /** A call registers a service's methods up to the first that is complained about, and fails with that complaint. */
  lemma {:induction false} AddsExactly(types: Types, r: Registered, ms: seq<MethodDesc>) returns (n: nat)
    ensures AddedFirst(types, r, ms, n, WithMethods(types, r, ms).0, WithMethods(types, r, ms).1)
    decreases |ms|
  {
    hide FieldFor, Names.Camel, WithMethod, NameTaken, RelationTaken, Complaint, Has;
    n := 0;
    if ms == [] {
      NothingTaken(r);
    } else {
      var (r2, error) := WithMethod(types, r, ms[0]);
      MethodExactly(types, r, ms);
      if error.None? {
        hide AddedFirst;
        var rest := AddsExactly(types, r2, ms[1..]);
        n := rest + 1;
        AddedRest(types, r, ms, r2, rest, WithMethods(types, r2, ms[1..]).0, WithMethods(types, r2, ms[1..]).1);
      }
    }
  }

  lemma NothingTaken(r: Registered)
    ensures forall name :: NameTaken(r, [], 0, name) <==> name in r.methods
    ensures forall id :: RelationTaken(r, [], 0, id) <==> Has(r, id)
  {
  }

  // ----- what stays true over every history of calls

  /** Relation names have no underscore and belong to no field of their message; each relation is resolved by the
      method it was registered from. */
  ghost predicate Consistent(types: Types, r: Registered) {
    forall typ, name :: typ in r.relations && name in r.relations[typ] ==> RelationSound(types, r, typ, name)
  }

  ghost predicate RelationSound(types: Types, r: Registered, typ: TypeName, name: string)
    requires typ in r.relations && name in r.relations[typ]
  {
    && Names.UnderscoreFree(name) && FieldFor(types, typ, name).None?
    && r.relations[typ][name].name == name
    && ResolvedBy(r, typ, name, r.relations[typ][name])
  }

  ghost predicate ResolvedBy(r: Registered, typ: TypeName, name: string, relation: Relation) {
    && relation.rpc in r.methods && r.methods[relation.rpc].annotation.Some?
    && var a := r.methods[relation.rpc].annotation.value;
       && Names.Camel(a.name) == name
       && a.config == Ok(RelationConfig(typ, relation.descriptor, relation.takesParams))
  }

  /** Everything registered in the first is still there, the same, in the second. */
  ghost predicate Extends(r: Registered, r2: Registered) {
    && (forall name :: name in r.methods ==> name in r2.methods && r2.methods[name] == r.methods[name])
    && (forall typ, name :: typ in r.relations && name in r.relations[typ] ==>
          typ in r2.relations && name in r2.relations[typ] && r2.relations[typ][name] == r.relations[typ][name])
  }

  lemma RelationStep(types: Types, r: Registered, m: MethodDesc, a: Annotation, config: RelationConfig)
    requires Consistent(types, r) && m.name in r.methods && r.methods[m.name] == m
    requires m.annotation == Some(a) && a.config == Ok(config)
    ensures var (r2, error) := WithRelation(types, r, m.name, a.name, config);
            && Consistent(types, r2) && Extends(r, r2)
            && (error.None? ==>
                  config.base in r2.relations && Names.Camel(a.name) in r2.relations[config.base]
                  && r2.relations[config.base][Names.Camel(a.name)].rpc == m.name)
  {
    hide FieldFor, Names.Camel;
    Names.CamelHasNoUnderscore(a.name);
    var (r2, error) := WithRelation(types, r, m.name, a.name, config);
    forall typ, name | typ in r2.relations && name in r2.relations[typ] ensures RelationSound(types, r2, typ, name) {
      if typ in r.relations && name in r.relations[typ] {
        assert RelationSound(types, r, typ, name) && r2.relations[typ][name] == r.relations[typ][name];
      }
    }
  }

  lemma MethodAdded(types: Types, r: Registered, m: MethodDesc)
    requires Consistent(types, r) && m.name !in r.methods
    ensures var r2 := r.(methods := r.methods[m.name := m]); Consistent(types, r2) && Extends(r, r2)
  {
    hide FieldFor, Names.Camel;
    var r2 := r.(methods := r.methods[m.name := m]);
    forall typ, name | typ in r2.relations && name in r2.relations[typ] ensures RelationSound(types, r2, typ, name) {
      assert RelationSound(types, r, typ, name);
    }
  }

  /** The method is registered and, if it is annotated, so is its relation. */
  ghost predicate Present(r: Registered, m: MethodDesc) {
    && m.name in r.methods && r.methods[m.name] == m
    && (m.annotation.Some? ==>
          && m.annotation.value.config.Ok?
          && var base, name := m.annotation.value.config.value.base, Names.Camel(m.annotation.value.name);
             base in r.relations && name in r.relations[base] && r.relations[base][name].rpc == m.name)
  }

  lemma MethodStep(types: Types, r: Registered, m: MethodDesc)
    requires Consistent(types, r)
    ensures var (r2, error) := WithMethod(types, r, m);
            Consistent(types, r2) && Extends(r, r2) && (error.None? ==> Present(r2, m))
  {
    hide FieldFor, Names.Camel, WithRelation, Consistent;
    if m.name !in r.methods {
      var r2 := r.(methods := r.methods[m.name := m]);
      MethodAdded(types, r, m);
      if m.annotation.Some? && m.annotation.value.config.Ok? {
        RelationStep(types, r2, m, m.annotation.value, m.annotation.value.config.value);
      }
    }
  }

  lemma {:induction false} MethodsStep(types: Types, r: Registered, ms: seq<MethodDesc>)
    requires Consistent(types, r)
    ensures var (r2, error) := WithMethods(types, r, ms);
            Consistent(types, r2) && Extends(r, r2) && (error.None? ==> forall m :: m in ms ==> Present(r2, m))
    decreases |ms|
  {
    hide FieldFor, Names.Camel, WithMethod, Consistent;
    if ms != [] {
      MethodStep(types, r, ms[0]);
      var step := WithMethod(types, r, ms[0]);
      if step.1.None? {
        MethodsStep(types, step.0, ms[1..]);
      }
    }
  }

  /** After any calls to AddService, failed ones included, the registry is consistent. */
  lemma {:induction false} AlwaysConsistent(types: Types, services: seq<Service>)
    ensures Consistent(types, History(types, services))
  {
    hide Consistent, WithMethods;
    if services == [] {
      assert Consistent(types, EMPTY) by { NothingInconsistent(types); }
    } else {
      var before, svc := History(types, services[..|services| - 1]), services[|services| - 1];
      AlwaysConsistent(types, services[..|services| - 1]);
      MethodsStep(types, before, svc.methods);
    }
  }

  lemma NothingInconsistent(types: Types)
    ensures Consistent(types, EMPTY)
  {
  }

  /** No call ever replaces or removes what earlier calls registered. */
  lemma {:induction false} NothingReplaced(types: Types, services: seq<Service>, k: nat)
    requires k <= |services|
    ensures Extends(History(types, services[..k]), History(types, services))
  {
    hide Consistent, WithMethods;
    if k == |services| {
      assert services[..k] == services;
    } else {
      var init := services[..|services| - 1];
      NothingReplaced(types, init, k);
      assert init[..k] == services[..k];
      AlwaysConsistent(types, init);
      MethodsStep(types, History(types, init), services[|services| - 1].methods);
    }
  }

  /** A call that succeeds has registered every method of its service, with every relation. */
  lemma SuccessRegistersAll(types: Types, services: seq<Service>, svc: Service)
    requires WithService(types, History(types, services), svc).1.None?
    ensures forall m :: m in svc.methods ==> Present(History(types, services + [svc]), m)
  {
    hide Consistent, WithMethods, Present;
    AlwaysConsistent(types, services);
    MethodsStep(types, History(types, services), svc.methods);
    assert (services + [svc])[..|services|] == services;
  }

  /** Whatever is registered can be asked for: a mask entry with a relation's name selects that relation, never a
      field in its place, and is refused only for parameters it does not take. */
  lemma RelationsSelectable(types: Types, services: seq<Service>, w: World, typ: TypeName, entry: Mask)
    requires w.types == types && w.relations == History(types, services).relations
    requires typ in w.relations && entry.name in w.relations[typ]
    ensures var r := w.relations[typ][entry.name];
            DescriptorFor(w, typ, entry)
            == if !r.takesParams && entry.params.Some? then Err(ParamsNotTaken(entry.name)) else Ok(r.descriptor)
  {
    hide FieldFor, Names.Camel, ResolvedBy;
    AlwaysConsistent(types, services);
    assert RelationSound(types, History(types, services), typ, entry.name);
  }

  /** And a name with an underscore never selects a relation. */
  lemma UnderscoreSelectsNoRelation(types: Types, services: seq<Service>, w: World, typ: TypeName, entry: Mask)
    requires w.types == types && w.relations == History(types, services).relations
    requires !Names.UnderscoreFree(entry.name)
    ensures DescriptorFor(w, typ, entry).Ok? <==> Names.Snake(entry.name) in NamesOf(FieldsOf(types, typ))
  {
    hide Names.Lookup, Names.Camel, ResolvedBy, Names.UnderscoreFree;
    AlwaysConsistent(types, services);
    Names.LookupWithUnderscore(NamesOf(FieldsOf(types, typ)), entry.name);
  }
}
