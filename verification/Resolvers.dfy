/** The resolver behind a relation (relation.go:126-172): one RPC for a whole batch, answers matched to entities by
    position. */
module Resolvers {
  import opened Wrappers
  import opened Protobuf
  import opened Response
  import opened Meaning
  import opened Stitching

  /** A relation served remotely: the fields of its request that takes the bases and of its response that holds the
      wrappers, the field inside a wrapper, the default of that field if it is a message, the parameters as a request
      message, and the RPC, which is told the operations so far. */
  datatype Remote = Remote(basesField: string, valuesField: string, descriptor: Field, empty: Msg,
                           parse: Option<Params> -> Msg, rpc: (seq<string>, Msg) -> Result<Msg, string>)
  {
    /** The request for a batch: every parameter field as it is, and the bases in order. */
    ghost predicate IsRequest(key: GroupKey, bases: seq<Msg>, request: Msg) {
      var params := parse(key.params);
      && request.typ == params.typ && request.json == params.json
      && request.fields.Keys == params.fields.Keys + {basesField}
      && (forall name :: name in params.fields && name != basesField ==> request.fields[name] == params.fields[name])
      && request.fields[basesField].Many?
      && var list := request.fields[basesField].elems;
         |list| == |bases| && forall i :: 0 <= i < |bases| ==> list[i] == Nested(bases[i])
    }

    /** The value in a wrapper: its field as set or, if unset, the field's default. */
    ghost predicate IsValue(wrapper: Element, v: Option<Val>) {
      v == Some(if wrapper.Nested? && descriptor.name in wrapper.msg.fields then wrapper.msg.fields[descriptor.name]
                else if descriptor.shape.Singular? && IsMessage(descriptor.kind) then One(Nested(empty))
                else ZeroOf(descriptor))
    }

    /** The answer to a batch: an error if the RPC fails or returns the wrong number of values, else the value in each
        wrapper, in order. */
    ghost predicate IsAnswer(key: GroupKey, bases: seq<Msg>, request: Msg, answer: Result<seq<Option<Val>>, string>) {
      match rpc(key.meta.operations, request)
      case Err(e) => answer == Err(e)
      case Ok(response) =>
        if valuesField !in response.fields || !response.fields[valuesField].Many? then
          if bases == [] then answer == Ok([]) else answer.Err?
        else
          var wrappers := response.fields[valuesField].elems;
          if |wrappers| != |bases| then answer.Err?
          else
            answer.Ok? && |answer.value| == |bases|
            && forall i :: 0 <= i < |bases| ==> IsValue(wrappers[i], answer.value[i])
    }

    /** What reflection returns for the relation's field: the value, or the field's default. */
    function Get(wrapper: Element): Val {
      if wrapper.Nested? && descriptor.name in wrapper.msg.fields then wrapper.msg.fields[descriptor.name]
      else if descriptor.shape.Singular? && IsMessage(descriptor.kind) then One(Nested(empty))
      else ZeroOf(descriptor)
    }

    method Resolve(key: GroupKey, bases: seq<Msg>) returns (answer: Result<seq<Option<Val>>, string>)
      ensures exists request :: IsRequest(key, bases, request) && IsAnswer(key, bases, request, answer)
    {
      var basesList: seq<Element> := [];
      for i := 0 to |bases|
        invariant |basesList| == i && forall j :: 0 <= j < i ==> basesList[j] == Nested(bases[j])
      {
        basesList := basesList + [Nested(bases[i])];
      }
      var params := parse(key.params);
      var request := params.(fields := params.fields[basesField := Many(basesList)]);
      assert IsRequest(key, bases, request);
      var response := rpc(key.meta.operations, request);
      if response.Err? {
        answer := Err(response.error);
        assert IsAnswer(key, bases, request, answer);
        return;
      }
      var fields := response.value.fields;
      var wrappers := if valuesField in fields && fields[valuesField].Many? then fields[valuesField].elems else [];
      if |wrappers| != |bases| {
        answer := Err("wrong number of results returned");
        assert IsAnswer(key, bases, request, answer);
        return;
      }
      var results: seq<Option<Val>> := [];
      for i := 0 to |wrappers|
        invariant |results| == i && forall j :: 0 <= j < i ==> IsValue(wrappers[j], results[j])
      {
        results := results + [Some(Get(wrappers[i]))];
      }
      answer := Ok(results);
      assert IsAnswer(key, bases, request, answer);
    }
  }

  /** A resolver that answers every batch as Resolve does. */
  ghost predicate Resolves(remote: Remote, resolver: Resolver, id: RelationId) {
    forall key: GroupKey, bases: seq<Msg> :: key.relation == id ==>
      exists request ::
        remote.IsRequest(key, bases, request) && remote.IsAnswer(key, bases, request, resolver(key, bases))
  }

  /** The contract of a resolver RPC: the wrapper at each position is the one its base gets. */
  ghost predicate Positional(remote: Remote, wrapper: (GroupKey, Msg) -> Element) {
    forall key, bases, request ::
      remote.IsRequest(key, bases, request) && remote.rpc(key.meta.operations, request).Ok? ==>
        var fields := remote.rpc(key.meta.operations, request).value.fields;
        remote.valuesField in fields && fields[remote.valuesField].Many? ==>
          var wrappers := fields[remote.valuesField].elems;
          |wrappers| == |bases| ==> forall i :: 0 <= i < |bases| ==> wrappers[i] == wrapper(key, bases[i])
  }

  /** If every resolver RPC keeps to it, resolvers that answer as above give each entity of a batch the value it would
      get alone; that value is never absent. */
  lemma PositionalIsPointwise(w: World, remotes: map<RelationId, Remote>, wrapper: (GroupKey, Msg) -> Element,
                              resolver: Resolver)
    requires forall id :: id in remotes ==> Positional(remotes[id], wrapper) && Resolves(remotes[id], resolver, id)
    requires forall key: GroupKey, m: Msg :: key.relation in remotes ==>
               remotes[key.relation].IsValue(wrapper(key, m), w.one(key, m))
    requires forall key: GroupKey, bases: seq<Msg> :: key.relation !in remotes ==> resolver(key, bases).Err?
    ensures Pointwise(w, resolver)
  {
    forall key, entities | resolver(key, entities).Ok? && |resolver(key, entities).value| == |entities|
      ensures forall i :: 0 <= i < |entities| ==> resolver(key, entities).value[i] == w.one(key, entities[i])
    {
      var remote := remotes[key.relation];
      assert Resolves(remote, resolver, key.relation) && Positional(remote, wrapper);
      var request :| remote.IsRequest(key, entities, request)
        && remote.IsAnswer(key, entities, request, resolver(key, entities));
      forall i | 0 <= i < |entities| ensures resolver(key, entities).value[i] == w.one(key, entities[i]) {
        assert remote.IsValue(wrapper(key, entities[i]), w.one(key, entities[i]));
      }
    }
  }
}
