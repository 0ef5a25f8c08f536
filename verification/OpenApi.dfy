/** The compatibility check between two OpenAPI documents: which changes it reports as breaking. */
module OpenApi {
  import opened Base

  type Object = map<string, Json>

  /** A decoded YAML value; `Other` stands for numbers, dates and mappings with keys that are not strings. */
  datatype Json = Null | Bool(b: bool) | Text(s: string) | List(items: seq<Json>) | Mapping(fields: map<string,
      Json>) | Other(n: int)

  // ------------------------------------------------------------------------- lookups

  /** mapValue: None plays the nil map. */
  function MapValue(v: Json): Option<Object> {
    if v.Mapping? then Some(v.fields) else None
  }

  function Get(o: Option<Object>, key: string): Json {
    if o.Some? && key in o.value then o.value[key] else Null
  }

  function Fields(o: Option<Object>): Object {
    if o.Some? then o.value else map[]
  }

  predicate Flag(v: Json) {
    v.Bool? && v.b
  }

  predicate Listed(v: Json, name: string) {
    v.List? && Text(name) in v.items
  }

  function Identity(parameter: Option<Object>): Option<string> {
    var name, place := Get(parameter, "name"), Get(parameter, "in");
    if name.Text? && place.Text? then Some(name.s + " in " + place.s) else None
  }

  /** parameterMap: a later parameter of the same identity replaces an earlier one. */
  function ParameterMap(items: seq<Json>): map<string, Object>
  {
    if items == [] then map[]
    else
      var before := ParameterMap(items[..|items| - 1]);
      var parameter := MapValue(items[|items| - 1]);
      if Identity(parameter).Some? then before[Identity(parameter).value := Fields(parameter)] else before
  }

  function Parameters(v: Json): map<string, Object> {
    if v.List? then ParameterMap(v.items) else map[]
  }

  // --------------------------------------------------------- what counts as compatible

  /** The demands on one schema, its properties aside. */
  ghost predicate Agrees(base: Option<Object>, current: Option<Object>) {
    base.Some? ==>
      && current.Some?
      && (Get(base, "$ref").Text? ==> Get(current, "$ref") == Get(base, "$ref"))
      && (Get(base, "type").Text? ==> Get(current, "type") == Get(base, "type"))
      && (forall name :: Listed(Get(base, "required"), name) ==> Listed(Get(current, "required"), name))
  }

  function Properties(schema: Json): (r: Object)
    ensures forall name :: name in r ==> r[name] < schema
  {
    Fields(MapValue(Get(MapValue(schema), "properties")))
  }

  /** Schemas are compared as values; one that is not a mapping plays the nil schema. */
  ghost predicate SchemaOk(base: Json, current: Json)
    decreases base
  {
    && Agrees(MapValue(base), MapValue(current))
    && (forall name :: name in Properties(base) ==>
         name in Properties(current) && SchemaOk(Properties(base)[name], Properties(current)[name]))
  }

  function SchemaOf(media: Json): Json {
    Get(MapValue(media), "schema")
  }

  ghost predicate ResponseOk(base: Option<Object>, current: Option<Object>) {
    var before, after := Fields(MapValue(Get(base, "content"))), Fields(MapValue(Get(current, "content")));
    forall m :: m in before ==> m in after && SchemaOk(SchemaOf(before[m]), SchemaOf(after[m]))
  }

  ghost predicate ParametersOk(before: map<string, Object>, after: map<string, Object>) {
    forall id :: id in before ==>
        id in after && (Flag(Get(Some(after[id]), "required")) ==> Flag(Get(Some(before[id]), "required")))
  }

  ghost predicate RequestOk(base: Option<Object>, current: Option<Object>) {
    base.Some? ==> current.Some? && (Flag(Get(current, "required")) ==> Flag(Get(base, "required")))
  }

  ghost predicate ResponsesOk(before: Object, after: Object) {
    forall status :: status in before ==>
        status in after && ResponseOk(MapValue(before[status]), MapValue(after[status]))
  }

  ghost predicate OperationOk(base: Option<Object>, current: Option<Object>) {
    && ParametersOk(Parameters(Get(base, "parameters")), Parameters(Get(current, "parameters")))
    && RequestOk(MapValue(Get(base, "requestBody")), MapValue(Get(current, "requestBody")))
    && ResponsesOk(Fields(MapValue(Get(base, "responses"))), Fields(MapValue(Get(current, "responses"))))
  }

  predicate IsOperation(method_: string) {
    method_ in {"delete", "get", "head", "options", "patch", "post", "put", "trace"}
  }

  ghost predicate ItemOk(before: Object, after: Object) {
    forall m :: m in before && IsOperation(m) ==> m in after && OperationOk(MapValue(before[m]), MapValue(after[m]))
  }

  ghost predicate PathsOk(before: Object, after: Object) {
    forall p :: p in before ==> p in after && ItemOk(Fields(MapValue(before[p])), Fields(MapValue(after[p])))
  }

  ghost predicate Compatible(base: Object, current: Object) {
    && MapValue(Get(Some(base), "paths")).Some? && MapValue(Get(Some(current), "paths")).Some?
    && PathsOk(Fields(MapValue(Get(Some(base), "paths"))), Fields(MapValue(Get(Some(current), "paths"))))
  }

  datatype Problem =
    | SchemaRemoved(at: seq<string>)
    | ReferenceChanged(at: seq<string>)
    | TypeChanged(at: seq<string>)
    | RequiredRemoved(at: seq<string>, name: string)
    | PropertyRemoved(at: seq<string>, name: string)
    | MediaTypeRemoved(at: seq<string>, name: string)
    | ParameterRemoved(at: seq<string>, name: string)
    | ParameterRequired(at: seq<string>, name: string)
    | BodyRemoved(at: seq<string>)
    | BodyRequired(at: seq<string>)
    | ResponseRemoved(at: seq<string>, name: string)
    | OperationRemoved(at: seq<string>, name: string)
    | PathRemoved(name: string)

  // --------------------------------------------------------- what is reported, and where

  /** Problem `p` is there between the two schemas found at `at`, or between two of their properties. */
  ghost predicate BreaksSchema(p: Problem, at: seq<string>, base: Json, current: Json)
    decreases base
  {
    && base.Mapping?
    && if !current.Mapping? then p == SchemaRemoved(at)
       else || BreaksHere(p, at, MapValue(base), MapValue(current))
            || (p.PropertyRemoved? && p.at == at && p.name in Properties(base) && p.name !in Properties(current))
            || exists name :: name in Properties(base) && name in Properties(current)
                           && BreaksSchema(p, at + [name], Properties(base)[name], Properties(current)[name])
  }

  /** The reference or the type is another one, or a required name no longer is. */
  ghost predicate BreaksHere(p: Problem, at: seq<string>, base: Option<Object>, current: Option<Object>) {
    || (p == ReferenceChanged(at) && Get(base, "$ref").Text? && Get(current, "$ref") != Get(base, "$ref"))
    || (p == TypeChanged(at) && Get(base, "type").Text? && Get(current, "type") != Get(base, "type"))
    || (&& p.RequiredRemoved? && p.at == at && Listed(Get(base, "required"), p.name)
        && !Listed(Get(current, "required"), p.name))
  }

  ghost predicate BreaksResponse(p: Problem, at: seq<string>, base: Option<Object>, current: Option<Object>) {
    var before, after := Fields(MapValue(Get(base, "content"))), Fields(MapValue(Get(current, "content")));
    || (p.MediaTypeRemoved? && p.at == at && p.name in before && p.name !in after)
    || exists m :: m in before && m in after && BreaksSchema(p, at, SchemaOf(before[m]), SchemaOf(after[m]))
  }

  /** A parameter is gone, or one that was optional is required. */
  ghost predicate BreaksParameters(
      p: Problem, at: seq<string>, before: map<string, Object>, after: map<string, Object>) {
    || (p.ParameterRemoved? && p.at == at && p.name in before && p.name !in after)
    || (&& p.ParameterRequired? && p.at == at && p.name in before && p.name in after
        && !Flag(Get(Some(before[p.name]), "required")) && Flag(Get(Some(after[p.name]), "required")))
  }

  /** The body is gone, or was optional and is required. */
  ghost predicate BreaksRequest(p: Problem, at: seq<string>, base: Option<Object>, current: Option<Object>) {
    || (p == BodyRemoved(at) && base.Some? && current == None)
    || (&& p == BodyRequired(at) && base.Some? && !Flag(Get(base, "required")) && Flag(Get(current, "required")))
  }

  ghost predicate BreaksResponses(p: Problem, at: seq<string>, before: Object, after: Object) {
    || (p.ResponseRemoved? && p.at == at && p.name in before && p.name !in after)
    || exists k :: k in before && k in after
                && BreaksResponse(p, at + [k], MapValue(before[k]), MapValue(after[k]))
  }

  ghost predicate BreaksOperation(p: Problem, at: seq<string>, base: Option<Object>, current: Option<Object>) {
    || BreaksParameters(p, at, Parameters(Get(base, "parameters")), Parameters(Get(current, "parameters")))
    || BreaksRequest(p, at, MapValue(Get(base, "requestBody")), MapValue(Get(current, "requestBody")))
    || BreaksResponses(p, at, Fields(MapValue(Get(base, "responses"))), Fields(MapValue(Get(current, "responses"))))
  }

  ghost predicate BreaksItem(p: Problem, at: seq<string>, before: Object, after: Object) {
    || (p.OperationRemoved? && p.at == at && IsOperation(p.name) && p.name in before && p.name !in after)
    || exists m :: m in before && m in after && IsOperation(m)
                && BreaksOperation(p, at + [m], MapValue(before[m]), MapValue(after[m]))
  }

  ghost predicate BreaksPaths(p: Problem, before: Object, after: Object) {
    || (p.PathRemoved? && p.name in before && p.name !in after)
    || exists k :: k in before && k in after
                && BreaksItem(p, [k], Fields(MapValue(before[k])), Fields(MapValue(after[k])))
  }

  // ------------------------------------------------ compatible is that nothing is to report

  ghost predicate Unbroken(at: seq<string>, base: Json, current: Json) {
    forall p :: !BreaksSchema(p, at, base, current)
  }

  lemma SchemaOkIffUnbroken(at: seq<string>, base: Json, current: Json)
    ensures SchemaOk(base, current) <==> Unbroken(at, base, current)
  {
    if SchemaOk(base, current) {
      forall p ensures !BreaksSchema(p, at, base, current) { CleanSchemaIsUnbroken(p, at, base, current); }
    }
    if Unbroken(at, base, current) && !SchemaOk(base, current) {
      var p := SchemaBreak(at, base, current);
      assert false;
    }
  }

  lemma {:induction false} CleanSchemaIsUnbroken(p: Problem, at: seq<string>, base: Json, current: Json)
    requires SchemaOk(base, current)
    ensures !BreaksSchema(p, at, base, current)
    decreases base
  {
    forall name | name in Properties(base)
      ensures !BreaksSchema(p, at + [name], Properties(base)[name], Properties(current)[name])
    {
      CleanSchemaIsUnbroken(p, at + [name], Properties(base)[name], Properties(current)[name]);
    }
  }

  /** Where schemas are not compatible there is a problem. */
  lemma {:induction false} SchemaBreak(at: seq<string>, base: Json, current: Json) returns (p: Problem)
    requires !SchemaOk(base, current)
    ensures BreaksSchema(p, at, base, current)
    decreases base
  {
    if !Agrees(MapValue(base), MapValue(current)) {
      p := HereBreak(at, base, current);
    } else {
      var name :| name in Properties(base)
               && !(name in Properties(current) && SchemaOk(Properties(base)[name], Properties(current)[name]));
      if name !in Properties(current) {
        p := PropertyRemoved(at, name);
      } else {
        p := SchemaBreak(at + [name], Properties(base)[name], Properties(current)[name]);
      }
    }
  }

  lemma HereBreak(at: seq<string>, base: Json, current: Json) returns (p: Problem)
    requires !Agrees(MapValue(base), MapValue(current))
    ensures BreaksSchema(p, at, base, current)
  {
    var b, c := MapValue(base), MapValue(current);
    if c == None {
      p := SchemaRemoved(at);
    } else if Get(b, "$ref").Text? && Get(c, "$ref") != Get(b, "$ref") {
      p := ReferenceChanged(at);
      assert BreaksHere(p, at, b, c);
    } else if Get(b, "type").Text? && Get(c, "type") != Get(b, "type") {
      p := TypeChanged(at);
      assert BreaksHere(p, at, b, c);
    } else {
      var name :| Listed(Get(b, "required"), name) && !Listed(Get(c, "required"), name);
      p := RequiredRemoved(at, name);
      assert BreaksHere(p, at, b, c);
    }
  }

  lemma ResponseOkIffUnbroken(at: seq<string>, base: Option<Object>, current: Option<Object>)
    ensures ResponseOk(base, current) <==> forall p :: !BreaksResponse(p, at, base, current)
  {
    var before, after := Fields(MapValue(Get(base, "content"))), Fields(MapValue(Get(current, "content")));
    forall m | m in before && m in after
      ensures SchemaOk(SchemaOf(before[m]), SchemaOf(after[m])) <==>
              Unbroken(at, SchemaOf(before[m]), SchemaOf(after[m]))
    {
      SchemaOkIffUnbroken(at, SchemaOf(before[m]), SchemaOf(after[m]));
    }
    if !ResponseOk(base, current) {
      var m :| m in before && !(m in after && SchemaOk(SchemaOf(before[m]), SchemaOf(after[m])));
      if m !in after {
        assert BreaksResponse(MediaTypeRemoved(at, m), at, base, current);
      } else {
        var p :| BreaksSchema(p, at, SchemaOf(before[m]), SchemaOf(after[m]));
        assert BreaksResponse(p, at, base, current);
      }
    }
  }

  lemma ParametersOkIffUnbroken(at: seq<string>, before: map<string, Object>, after: map<string, Object>)
    ensures ParametersOk(before, after) <==> forall p :: !BreaksParameters(p, at, before, after)
  {
    if !ParametersOk(before, after) {
      var id :| id in before && !(id in after
          && (Flag(Get(Some(after[id]), "required")) ==> Flag(Get(Some(before[id]), "required"))));
      var p := if id in after then ParameterRequired(at, id) else ParameterRemoved(at, id);
      assert BreaksParameters(p, at, before, after);
    }
  }

  lemma RequestOkIffUnbroken(at: seq<string>, base: Option<Object>, current: Option<Object>)
    ensures RequestOk(base, current) <==> forall p :: !BreaksRequest(p, at, base, current)
  {
    if !RequestOk(base, current) {
      assert BreaksRequest(if current == None then BodyRemoved(at) else BodyRequired(at), at, base, current);
    }
  }

  lemma ResponsesOkIffUnbroken(at: seq<string>, before: Object, after: Object)
    ensures ResponsesOk(before, after) <==> forall p :: !BreaksResponses(p, at, before, after)
  {
    forall k | k in before && k in after
      ensures ResponseOk(MapValue(before[k]), MapValue(after[k])) <==>
              forall p :: !BreaksResponse(p, at + [k], MapValue(before[k]), MapValue(after[k]))
    {
      ResponseOkIffUnbroken(at + [k], MapValue(before[k]), MapValue(after[k]));
    }
    if !ResponsesOk(before, after) {
      var k :| k in before && !(k in after && ResponseOk(MapValue(before[k]), MapValue(after[k])));
      if k !in after {
        assert BreaksResponses(ResponseRemoved(at, k), at, before, after);
      } else {
        var p :| BreaksResponse(p, at + [k], MapValue(before[k]), MapValue(after[k]));
        assert BreaksResponses(p, at, before, after);
      }
    }
  }

  lemma OperationOkIffUnbroken(at: seq<string>, base: Option<Object>, current: Option<Object>)
    ensures OperationOk(base, current) <==> forall p :: !BreaksOperation(p, at, base, current)
  {
    var a, b := Parameters(Get(base, "parameters")), Parameters(Get(current, "parameters"));
    var c, d := MapValue(Get(base, "requestBody")), MapValue(Get(current, "requestBody"));
    var e, f := Fields(MapValue(Get(base, "responses"))), Fields(MapValue(Get(current, "responses")));
    ParametersOkIffUnbroken(at, a, b);
    RequestOkIffUnbroken(at, c, d);
    ResponsesOkIffUnbroken(at, e, f);
    if p :| BreaksParameters(p, at, a, b) || BreaksRequest(p, at, c, d) || BreaksResponses(p, at, e, f) {
      assert BreaksOperation(p, at, base, current);
    }
  }

  lemma ItemOkIffUnbroken(at: seq<string>, before: Object, after: Object)
    ensures ItemOk(before, after) <==> forall p :: !BreaksItem(p, at, before, after)
  {
    forall m | m in before && m in after
      ensures OperationOk(MapValue(before[m]), MapValue(after[m])) <==>
              forall p :: !BreaksOperation(p, at + [m], MapValue(before[m]), MapValue(after[m]))
    {
      OperationOkIffUnbroken(at + [m], MapValue(before[m]), MapValue(after[m]));
    }
    if !ItemOk(before, after) {
      var m :| m in before && IsOperation(m) && !(m in after && OperationOk(MapValue(before[m]), MapValue(after[m])));
      if m !in after {
        assert BreaksItem(OperationRemoved(at, m), at, before, after);
      } else {
        var p :| BreaksOperation(p, at + [m], MapValue(before[m]), MapValue(after[m]));
        assert BreaksItem(p, at, before, after);
      }
    }
  }

  lemma PathsOkIffUnbroken(before: Object, after: Object)
    ensures PathsOk(before, after) <==> forall p :: !BreaksPaths(p, before, after)
  {
    forall k | k in before && k in after
      ensures ItemOk(Fields(MapValue(before[k])), Fields(MapValue(after[k]))) <==>
              forall p :: !BreaksItem(p, [k], Fields(MapValue(before[k])), Fields(MapValue(after[k])))
    {
      ItemOkIffUnbroken([k], Fields(MapValue(before[k])), Fields(MapValue(after[k])));
    }
    if !PathsOk(before, after) {
      var k :| k in before && !(k in after && ItemOk(Fields(MapValue(before[k])), Fields(MapValue(after[k]))));
      if k !in after {
        assert BreaksPaths(PathRemoved(k), before, after);
      } else {
        var p :| BreaksItem(p, [k], Fields(MapValue(before[k])), Fields(MapValue(after[k])));
        assert BreaksPaths(p, before, after);
      }
    }
  }

  // --------------------------------------------------------------------- the checker

  /** stringSet: the strings of a list. */
  method StringSet(v: Json) returns (names: set<string>)
    ensures forall n :: n in names <==> Listed(v, n)
  {
    names := {};
    if v.List? {
      for i := 0 to |v.items|
        invariant forall n :: n in names <==> Text(n) in v.items[..i]
      {
        assert v.items[..i + 1] == v.items[..i] + [v.items[i]];
        if v.items[i].Text? { names := names + {v.items[i].s}; }
      }
      assert v.items[..|v.items|] == v.items;
    }
  }

  predicate Identifies(item: Json, id: string) {
    Identity(MapValue(item)) == Some(id)
  }

  /** The position of the last item with this identity, -1 if there is none. */
  function LastOf(items: seq<Json>, id: string): (i: int)
    ensures -1 <= i < |items|
    ensures i >= 0 ==> Identifies(items[i], id)
    ensures forall j :: i < j < |items| ==> !Identifies(items[j], id)
  {
    if items == [] then -1
    else if Identifies(items[|items| - 1], id) then |items| - 1
    else LastOf(items[..|items| - 1], id)
  }

  lemma {:induction false} LastParameterWins(items: seq<Json>, id: string)
    ensures id in ParameterMap(items) <==> LastOf(items, id) >= 0
    ensures id in ParameterMap(items) ==> ParameterMap(items)[id] == Fields(MapValue(items[LastOf(items, id)]))
  {
    if items == [] {
    } else {
      LastParameterWins(items[..|items| - 1], id);
    }
  }

  /** An identity is in the map exactly if some item has it, and its value is the last such item. */
  method BuildParameterMap(v: Json) returns (m: map<string, Object>)
    ensures m == Parameters(v)
    ensures forall id :: id in m <==> v.List? && LastOf(v.items, id) >= 0
    ensures forall id :: id in m ==> v.List? && m[id] == Fields(MapValue(v.items[LastOf(v.items, id)]))
  {
    m := map[];
    if v.List? {
      for i := 0 to |v.items|
        invariant m == ParameterMap(v.items[..i])
      {
        assert v.items[..i + 1][..i] == v.items[..i];
        var parameter := MapValue(v.items[i]);
        if Identity(parameter).Some? { m := m[Identity(parameter).value := Fields(parameter)]; }
      }
      assert v.items[..|v.items|] == v.items;
      forall id
        ensures id in m <==> LastOf(v.items, id) >= 0
        ensures id in m ==> m[id] == Fields(MapValue(v.items[LastOf(v.items, id)]))
      {
        LastParameterWins(v.items, id);
      }
    }
  }

  /** Reports exactly the problems there are, hence none exactly if the schemas are compatible at every depth. */
  method CompareSchema(at: seq<string>, baseValue: Json, currentValue: Json) returns (problems: seq<Problem>)
    ensures forall p :: p in problems <==> BreaksSchema(p, at, baseValue, currentValue)
    ensures problems == [] <==> SchemaOk(baseValue, currentValue)
    decreases baseValue, 1
  {
    SchemaOkIffUnbroken(at, baseValue, currentValue);
    problems := [];
    var base, current := MapValue(baseValue), MapValue(currentValue);
    if base == None { return; }
    if current == None {
      problems := [SchemaRemoved(at)];
    } else {
      var here := CompareHere(at, base, current);
      var nested := CompareProperties(at, baseValue, currentValue);
      problems := here + nested;
    }
    assert problems == [] <==> forall p :: p !in problems by { if problems != [] { assert problems[0] in problems; } }
  }

  method CompareHere(at: seq<string>, base: Option<Object>, current: Option<Object>) returns (problems: seq<Problem>)
    ensures forall p :: p in problems <==> BreaksHere(p, at, base, current)
  {
    problems := [];
    if Get(base, "$ref").Text?
        && Get(current, "$ref") != Get(base, "$ref") { problems := problems + [ReferenceChanged(at)]; }
    if Get(base, "type").Text?
        && Get(current, "type") != Get(base, "type") { problems := problems + [TypeChanged(at)]; }
    var baseRequired := StringSet(Get(base, "required"));
    var currentRequired := StringSet(Get(current, "required"));
    var missing := CompareRequired(at, baseRequired, currentRequired);
    problems := problems + missing;
  }

  method CompareProperties(at: seq<string>, base: Json, current: Json) returns (problems: seq<Problem>)
    requires base.Mapping? && current.Mapping?
    ensures forall p :: p in problems <==>
              || (p.PropertyRemoved? && p.at == at && p.name in Properties(base) && p.name !in Properties(current))
              || exists name :: name in Properties(base) && name in Properties(current)
                             && BreaksSchema(p, at + [name], Properties(base)[name], Properties(current)[name])
    decreases base, 0
  {
    var before, after := Properties(base), Properties(current);
    problems := [];
    var todo := before.Keys;
    while todo != {}
      invariant todo <= before.Keys
      invariant forall p :: p in problems <==>
                  || (p.PropertyRemoved? && p.at == at && p.name in before && p.name !in todo && p.name !in after)
                  || exists name :: name in before && name !in todo && name in after
                                 && BreaksSchema(p, at + [name], before[name], after[name])
      decreases todo
    {
      var name :| name in todo;
      todo := todo - {name};
      if name !in after {
        problems := problems + [PropertyRemoved(at, name)];
      } else {
        var inner := CompareSchema(at + [name], before[name], after[name]);
        problems := problems + inner;
      }
    }
  }

  method CompareRequired(at: seq<string>, before: set<string>, after: set<string>) returns (problems: seq<Problem>)
    ensures forall p :: p in problems <==> p.RequiredRemoved? && p.at == at && p.name in before && p.name !in after
  {
    problems := [];
    var todo := before;
    while todo != {}
      invariant todo <= before
      invariant forall p :: p in problems <==>
                  p.RequiredRemoved? && p.at == at && p.name in before && p.name !in todo && p.name !in after
      decreases todo
    {
      var name :| name in todo;
      todo := todo - {name};
      if name !in after { problems := problems + [RequiredRemoved(at, name)]; }
    }
  }

  method CompareResponse(at: seq<string>, base: Option<Object>, current: Option<Object>)
    returns (problems: seq<Problem>)
    ensures forall p :: p in problems <==> BreaksResponse(p, at, base, current)
    ensures problems == [] <==> ResponseOk(base, current)
  {
    ResponseOkIffUnbroken(at, base, current);
    var before, after := Fields(MapValue(Get(base, "content"))), Fields(MapValue(Get(current, "content")));
    problems := [];
    var todo := before.Keys;
    while todo != {}
      invariant todo <= before.Keys
      invariant forall p :: p in problems <==>
                  || (p.MediaTypeRemoved? && p.at == at && p.name in before && p.name !in todo && p.name !in after)
                  || exists m :: m in before && m !in todo && m in after
                              && BreaksSchema(p, at, SchemaOf(before[m]), SchemaOf(after[m]))
      decreases todo
    {
      var m :| m in todo;
      todo := todo - {m};
      if m !in after {
        problems := problems + [MediaTypeRemoved(at, m)];
      } else {
        var inner := CompareSchema(at, SchemaOf(before[m]), SchemaOf(after[m]));
        problems := problems + inner;
      }
    }
    assert problems == [] <==> forall p :: p !in problems by { if problems != [] { assert problems[0] in problems; } }
  }

  method CompareParameters(at: seq<string>, before: map<string, Object>, after: map<string, Object>)
    returns (problems: seq<Problem>)
    ensures forall p :: p in problems <==> BreaksParameters(p, at, before, after)
  {
    problems := [];
    var todo := before.Keys;
    while todo != {}
      invariant todo <= before.Keys
      invariant forall p :: p in problems <==>
                  BreaksParameters(p, at, before, after) && p.name !in todo
      decreases todo
    {
      var id :| id in todo;
      todo := todo - {id};
      if id !in after {
        problems := problems + [ParameterRemoved(at, id)];
      } else if !Flag(Get(Some(before[id]), "required")) && Flag(Get(Some(after[id]), "required")) {
        problems := problems + [ParameterRequired(at, id)];
      }
    }
  }

  method CompareResponses(at: seq<string>, before: Object, after: Object) returns (problems: seq<Problem>)
    ensures forall p :: p in problems <==> BreaksResponses(p, at, before, after)
  {
    problems := [];
    var todo := before.Keys;
    while todo != {}
      invariant todo <= before.Keys
      invariant forall p :: p in problems <==>
                  || (p.ResponseRemoved? && p.at == at && p.name in before && p.name !in todo && p.name !in after)
                  || exists k :: k in before && k !in todo && k in after
                              && BreaksResponse(p, at + [k], MapValue(before[k]), MapValue(after[k]))
      decreases todo
    {
      var status :| status in todo;
      todo := todo - {status};
      if status !in after {
        problems := problems + [ResponseRemoved(at, status)];
      } else {
        var inner := CompareResponse(at + [status], MapValue(before[status]), MapValue(after[status]));
        problems := problems + inner;
      }
    }
  }

  method CompareOperation(at: seq<string>, base: Option<Object>, current: Option<Object>)
    returns (problems: seq<Problem>)
    ensures forall p :: p in problems <==> BreaksOperation(p, at, base, current)
    ensures problems == [] <==> OperationOk(base, current)
  {
    OperationOkIffUnbroken(at, base, current);
    var before := BuildParameterMap(Get(base, "parameters"));
    var after := BuildParameterMap(Get(current, "parameters"));
    problems := CompareParameters(at, before, after);
    var baseRequest, currentRequest := MapValue(Get(base, "requestBody")), MapValue(Get(current, "requestBody"));
    if baseRequest.Some? && currentRequest == None {
      problems := problems + [BodyRemoved(at)];
    } else if baseRequest.Some? && !Flag(Get(baseRequest, "required")) && Flag(Get(currentRequest, "required")) {
      problems := problems + [BodyRequired(at)];
    }
    var responses := CompareResponses(at, Fields(MapValue(Get(base, "responses"))),
        Fields(MapValue(Get(current, "responses"))));
    problems := problems + responses;
    assert problems == [] <==> forall p :: p !in problems by { if problems != [] { assert problems[0] in problems; } }
  }

  method CompareItem(at: seq<string>, before: Object, after: Object) returns (problems: seq<Problem>)
    ensures forall p :: p in problems <==> BreaksItem(p, at, before, after)
  {
    problems := [];
    var todo := before.Keys;
    while todo != {}
      invariant todo <= before.Keys
      invariant forall p :: p in problems <==>
                  || (&& p.OperationRemoved? && p.at == at && IsOperation(p.name) && p.name in before && p.name !in todo
                      && p.name !in after)
                  || exists m :: m in before && m !in todo && m in after && IsOperation(m)
                              && BreaksOperation(p, at + [m], MapValue(before[m]), MapValue(after[m]))
      decreases todo
    {
      var m :| m in todo;
      todo := todo - {m};
      if IsOperation(m) {
        if m !in after {
          problems := problems + [OperationRemoved(at, m)];
        } else {
          var inner := CompareOperation(at + [m], MapValue(before[m]), MapValue(after[m]));
          problems := problems + inner;
        }
      }
    }
  }

  /** None where a document defines no paths; otherwise exactly the problems there are. */
  method CompareDocuments(base: Object, current: Object) returns (problems: Option<seq<Problem>>)
    ensures problems == None <==>
            MapValue(Get(Some(base), "paths")) == None || MapValue(Get(Some(current), "paths")) == None
    ensures problems.Some? ==> forall p :: p in problems.value <==>
              BreaksPaths(p, Fields(MapValue(Get(Some(base), "paths"))), Fields(MapValue(Get(Some(current), "paths"))))
    ensures problems == Some([]) <==> Compatible(base, current)
  {
    var basePaths, currentPaths := MapValue(Get(Some(base), "paths")), MapValue(Get(Some(current), "paths"));
    if basePaths == None || currentPaths == None { return None; }
    var before, after := basePaths.value, currentPaths.value;
    PathsOkIffUnbroken(before, after);
    var found: seq<Problem> := [];
    var todo := before.Keys;
    while todo != {}
      invariant todo <= before.Keys
      invariant forall p :: p in found <==>
                  || (p.PathRemoved? && p.name in before && p.name !in todo && p.name !in after)
                  || exists k :: k in before && k !in todo && k in after
                              && BreaksItem(p, [k], Fields(MapValue(before[k])), Fields(MapValue(after[k])))
      decreases todo
    {
      var p :| p in todo;
      todo := todo - {p};
      if p !in after {
        found := found + [PathRemoved(p)];
      } else {
        var inner := CompareItem([p], Fields(MapValue(before[p])), Fields(MapValue(after[p])));
        found := found + inner;
      }
    }
    assert found == [] <==> forall p :: p !in found by { if found != [] { assert found[0] in found; } }
    return Some(found);
  }

  // ------------------------------------------------------- what a clean report amounts to

  /** Does the schema have the nested property named by `path`? */
  predicate Has(schema: Json, path: seq<string>)
    decreases |path|
  {
    path == [] || (path[0] in Properties(schema) && Has(Properties(schema)[path[0]], path[1..]))
  }

  function Sub(schema: Json, path: seq<string>): Json
    requires Has(schema, path)
    decreases |path|
  {
    if path == [] then schema else Sub(Properties(schema)[path[0]], path[1..])
  }

  /** The current schema has the nested property and agrees with the base there. */
  ghost predicate KeepsPath(base: Json, current: Json, path: seq<string>) {
    Has(base, path) ==> Has(current, path) && Agrees(MapValue(Sub(base, path)), MapValue(Sub(current, path)))
  }

  lemma {:induction false} CleanSchemaKeepsPath(base: Json, current: Json, path: seq<string>)
    requires SchemaOk(base, current)
    ensures KeepsPath(base, current, path)
    decreases |path|
  {
    if path != [] && path[0] in Properties(base) {
      CleanSchemaKeepsPath(Properties(base)[path[0]], Properties(current)[path[0]], path[1..]);
    }
  }

  lemma {:induction false} KeptPathsAreClean(base: Json, current: Json)
    requires forall path :: KeepsPath(base, current, path)
    ensures SchemaOk(base, current)
    decreases base
  {
    assert KeepsPath(base, current, []);
    forall name | name in Properties(base)
        ensures name in Properties(current) && SchemaOk(Properties(base)[name], Properties(current)[name]) {
      assert KeepsPath(base, current, [name]);
      assert [name][1..] == [];
      assert Has(base, [name]);
      forall path ensures KeepsPath(Properties(base)[name], Properties(current)[name], path) {
        assert ([name] + path)[1..] == path;
        assert KeepsPath(base, current, [name] + path);
      }
      KeptPathsAreClean(Properties(base)[name], Properties(current)[name]);
    }
  }

  /** A schema is reported clean exactly when, at every depth, every nested property survives and agrees. */
  lemma SchemaOkMeansPathwise(base: Json, current: Json)
    ensures SchemaOk(base, current) <==> forall path :: KeepsPath(base, current, path)
  {
    if SchemaOk(base, current) {
      forall path ensures KeepsPath(base, current, path) { CleanSchemaKeepsPath(base, current, path); }
    }
    if forall path :: KeepsPath(base, current, path) {
      KeptPathsAreClean(base, current);
    }
  }

  lemma {:induction false} SchemaReflexive(a: Json)
    ensures SchemaOk(a, a)
    decreases a
  {
    forall name | name in Properties(a) ensures SchemaOk(Properties(a)[name], Properties(a)[name]) {
      SchemaReflexive(Properties(a)[name]);
    }
  }

  lemma {:induction false} SchemaTransitive(a: Json, b: Json, c: Json)
    requires SchemaOk(a, b) && SchemaOk(b, c)
    ensures SchemaOk(a, c)
    decreases a
  {
    forall name | name in Properties(a)
        ensures name in Properties(c) && SchemaOk(Properties(a)[name], Properties(c)[name]) {
      SchemaTransitive(Properties(a)[name], Properties(b)[name], Properties(c)[name]);
    }
  }

  lemma ResponseTransitive(a: Option<Object>, b: Option<Object>, c: Option<Object>)
    requires ResponseOk(a, b) && ResponseOk(b, c)
    ensures ResponseOk(a, c)
  {
    var x, y, z := Fields(MapValue(Get(a, "content"))), Fields(MapValue(Get(b, "content"))),
        Fields(MapValue(Get(c, "content")));
    forall m | m in x ensures m in z && SchemaOk(SchemaOf(x[m]), SchemaOf(z[m])) {
      SchemaTransitive(SchemaOf(x[m]), SchemaOf(y[m]), SchemaOf(z[m]));
    }
  }

  lemma OperationTransitive(a: Option<Object>, b: Option<Object>, c: Option<Object>)
    requires OperationOk(a, b) && OperationOk(b, c)
    ensures OperationOk(a, c)
  {
    var x, y, z := Fields(MapValue(Get(a, "responses"))), Fields(MapValue(Get(b, "responses"))),
        Fields(MapValue(Get(c, "responses")));
    forall k | k in x ensures k in z && ResponseOk(MapValue(x[k]), MapValue(z[k])) {
      ResponseTransitive(MapValue(x[k]), MapValue(y[k]), MapValue(z[k]));
    }
  }

  lemma ItemTransitive(a: Object, b: Object, c: Object)
    requires ItemOk(a, b) && ItemOk(b, c)
    ensures ItemOk(a, c)
  {
    forall m | m in a && IsOperation(m) ensures m in c && OperationOk(MapValue(a[m]), MapValue(c[m])) {
      OperationTransitive(MapValue(a[m]), MapValue(b[m]), MapValue(c[m]));
    }
  }

  lemma OperationReflexive(a: Option<Object>)
    ensures OperationOk(a, a)
  {
    forall k | k in Fields(MapValue(Get(a, "responses")))
      ensures ResponseOk(MapValue(Fields(MapValue(Get(a, "responses")))[k]),
              MapValue(Fields(MapValue(Get(a, "responses")))[k]))
    {
      var r := MapValue(Fields(MapValue(Get(a, "responses")))[k]);
      var content := Fields(MapValue(Get(r, "content")));
      forall m | m in content
          ensures SchemaOk(SchemaOf(content[m]), SchemaOf(content[m])) { SchemaReflexive(SchemaOf(content[m])); }
    }
  }

  /** Every document that defines paths is compatible with itself. */
  lemma CompatibleReflexive(a: Object)
    ensures Compatible(a, a) <==> MapValue(Get(Some(a), "paths")).Some?
  {
    var paths := Fields(MapValue(Get(Some(a), "paths")));
    forall p | p in paths ensures ItemOk(Fields(MapValue(paths[p])), Fields(MapValue(paths[p]))) {
      var item := Fields(MapValue(paths[p]));
      forall m | m in item
          ensures OperationOk(MapValue(item[m]), MapValue(item[m])) { OperationReflexive(MapValue(item[m])); }
    }
  }

  /** Checking release by release is enough: clean steps from A to B and from B to C make a clean step from A to C. */
  lemma CompatibleTransitive(a: Object, b: Object, c: Object)
    requires Compatible(a, b) && Compatible(b, c)
    ensures Compatible(a, c)
  {
    var x, y, z := Fields(MapValue(Get(Some(a), "paths"))), Fields(MapValue(Get(Some(b), "paths"))),
        Fields(MapValue(Get(Some(c), "paths")));
    forall p | p in x ensures p in z && ItemOk(Fields(MapValue(x[p])), Fields(MapValue(z[p]))) {
      ItemTransitive(Fields(MapValue(x[p])), Fields(MapValue(y[p])), Fields(MapValue(z[p])));
    }
  }
}
