/** The rewriting of OpenAPI 3.1 schemas to 3.0: the code, on JSON documents. */
module Schema {

  /** A JSON string. The words that the rewriting or a schema's meaning mentions are constructors of their own; Word is
      any other string. */
  datatype Text =
    | Type | Enum | Const | AnyOf | AllOf | Items | Properties | Required | AdditionalProperties
    | Minimum | Maximum | ExclusiveMinimum | ExclusiveMaximum | Nullable | Ref
    | Title | Description | Default | Examples
    | NullName | BooleanName | IntegerName | NumberName | StringName | ArrayName | ObjectName
    | Word(w: string)

  datatype Json =
    | JNull
    | JBool(b: bool)
    | JNum(n: real)
    | JStr(s: Text)
    | JArr(items: seq<Json>)
    | JObj(fields: Fields)

  type Fields = map<Text, Json>

  const NULL_SCHEMA := JObj(map[Type := JStr(NullName)])

  // ---------- the rewriting ----------

  /** isinstance(value, int | float); Python's booleans are integers. */
  predicate IsNumber(value: Json) {
    value.JNum? || value.JBool?
  }

  /** A numeric exclusive bound becomes an inclusive one with a boolean beside it. */
  function BoundStep(node: Fields, exclusive: Text, inclusive: Text): Fields {
    if exclusive in node && IsNumber(node[exclusive]) then
      (node - {exclusive})[inclusive := node[exclusive]][exclusive := JBool(true)]
    else node
  }

  function NotNull(items: seq<Json>): seq<Json> {
    if items == [] then []
    else if items[0] == NULL_SCHEMA then NotNull(items[1..])
    else [items[0]] + NotNull(items[1..])
  }

  /** anyOf lists the null type. */
  predicate AnyOfNull(node: Fields) {
    AnyOf in node && node[AnyOf].JArr? && NULL_SCHEMA in node[AnyOf].items
  }

  /** A single remaining object is merged into the node; several stay an anyOf. */
  function Merged(base: Fields, remaining: seq<Json>): Fields {
    if |remaining| == 1 && remaining[0].JObj? then base + remaining[0].fields
    else if remaining != [] then base[AnyOf := JArr(remaining)]
    else base
  }

  /** anyOf with a null member becomes nullable. */
  function NullStep(node: Fields): Fields {
    if AnyOfNull(node) then Merged(node - {AnyOf}, NotNull(node[AnyOf].items))[Nullable := JBool(true)] else node
  }

  function ConstStep(node: Fields): Fields {
    if Const in node then (node - {Const})[Enum := JArr([node[Const]])] else node
  }

  function Bounds(node: Fields): Fields {
    BoundStep(BoundStep(node, ExclusiveMinimum, Minimum), ExclusiveMaximum, Maximum)
  }

  /** The node as it stands before its children are rewritten. */
  function Prepared(node: Fields): Fields {
    ConstStep(NullStep(Bounds(node)))
  }

  /** A reference with siblings moves into an allOf; a sibling allOf then takes its place. */
  function WrapRef(result: Fields): Json {
    if Ref in result && |result| > 1 then
      JObj(map[AllOf := JArr([JObj(map[Ref := result[Ref]])])] + (result - {Ref}))
    else JObj(result)
  }

  function Downgrade(node: Json): Json
    decreases Depth(node), 1
  {
    match node
    case JArr(items) =>
      ItemsShallower(items);
      JArr(seq(|items|, i requires 0 <= i < |items| => Downgrade(items[i])))
    case JObj(fields) =>
      PreparedShallower(fields);
      WrapRef(DowngradeEach(Prepared(fields), Depth(node)))
    case _ => node
  }

  /** The comprehension over the node's items; bound is the node's depth. */
  function DowngradeEach(node: Fields, ghost bound: nat): Fields
    requires Within(node, bound)
    decreases bound, 0
  {
    map k | k in node :: Downgrade(node[k])
  }

  // ---------- why it terminates ----------

  ghost function Deepest(depths: set<nat>): nat {
    if depths == {} then 0
    else
      var d :| d in depths;
      var rest := Deepest(depths - {d});
      if d > rest then d else rest
  }

  lemma {:induction false} DeepestIsMost(depths: set<nat>, x: nat)
    requires x in depths
    ensures x <= Deepest(depths)
  {
    var d :| d in depths && Deepest(depths) == var rest := Deepest(depths - {d}); if d > rest then d else rest;
    if x != d {
      DeepestIsMost(depths - {d}, x);
    }
  }

  lemma {:induction false} DeepestAtMost(depths: set<nat>, n: nat)
    requires forall x :: x in depths ==> x <= n
    ensures Deepest(depths) <= n
  {
    if depths != {} {
      var d :| d in depths && Deepest(depths) == var rest := Deepest(depths - {d}); if d > rest then d else rest;
      DeepestAtMost(depths - {d}, n);
    }
  }

  ghost function Depth(j: Json): nat {
    match j
    case JArr(items) => 1 + Deepest(set i | 0 <= i < |items| :: Depth(items[i]))
    case JObj(fields) => 2 + Deepest(set k | k in fields :: Depth(fields[k]))
    case _ => 0
  }

  ghost predicate Within(node: Fields, n: nat) {
    forall k :: k in node ==> Depth(node[k]) < n
  }

  lemma ItemsShallower(items: seq<Json>)
    ensures forall i :: 0 <= i < |items| ==> Depth(items[i]) < Depth(JArr(items))
  {
    var depths := set i | 0 <= i < |items| :: Depth(items[i]);
    forall i | 0 <= i < |items| ensures Depth(items[i]) < Depth(JArr(items)) {
      DeepestIsMost(depths, Depth(items[i]));
    }
  }

  lemma FieldsShallower(fields: Fields)
    ensures Within(fields, Depth(JObj(fields)) - 1)
  {
    var depths := set k | k in fields :: Depth(fields[k]);
    forall k | k in fields ensures Depth(fields[k]) < Depth(JObj(fields)) - 1 {
      DeepestIsMost(depths, Depth(fields[k]));
    }
  }

  lemma ItemsBounded(items: seq<Json>, n: nat)
    requires forall i :: 0 <= i < |items| ==> Depth(items[i]) < n
    ensures Depth(JArr(items)) <= n + (if items == [] then 1 else 0)
  {
    var depths := set i | 0 <= i < |items| :: Depth(items[i]);
    if items != [] {
      assert Depth(items[0]) < n;
      DeepestAtMost(depths, n - 1);
    } else {
      assert depths == {};
    }
  }

  lemma {:induction false} NotNullMembers(items: seq<Json>)
    ensures forall x :: x in NotNull(items) <==> x in items && x != NULL_SCHEMA
  {
    if items != [] {
      NotNullMembers(items[1..]);
      assert items == [items[0]] + items[1..];
    }
  }

  lemma NotNullShallower(items: seq<Json>)
    requires NotNull(items) != []
    ensures Depth(JArr(NotNull(items))) <= Depth(JArr(items))
  {
    var rest := NotNull(items);
    NotNullMembers(items);
    ItemsShallower(items);
    forall i | 0 <= i < |rest| ensures Depth(rest[i]) < Depth(JArr(items)) {
      assert rest[i] in rest;
      var j :| 0 <= j < |items| && items[j] == rest[i];
    }
    ItemsBounded(rest, Depth(JArr(items)));
  }

  lemma MergedWithin(base: Fields, remaining: seq<Json>, n: nat)
    requires Within(base, n) && (remaining != [] ==> Depth(JArr(remaining)) < n)
    ensures Within(Merged(base, remaining), n)
  {
    if |remaining| == 1 && remaining[0].JObj? {
      ItemsShallower(remaining);
      FieldsShallower(remaining[0].fields);
    }
  }

  lemma NullStepWithin(node: Fields, n: nat)
    requires Within(node, n)
    ensures Within(NullStep(node), n)
  {
    if AnyOfNull(node) {
      var remaining := NotNull(node[AnyOf].items);
      if remaining != [] {
        NotNullShallower(node[AnyOf].items);
      }
      MergedWithin(node - {AnyOf}, remaining, n);
      assert Depth(JBool(true)) < n by {
        assert AnyOf in node && Depth(node[AnyOf]) < n;
      }
    }
  }

  lemma BoundStepWithin(node: Fields, exclusive: Text, inclusive: Text, n: nat)
    requires Within(node, n)
    ensures Within(BoundStep(node, exclusive, inclusive), n)
  {
  }

  lemma ConstStepWithin(node: Fields, n: nat)
    requires Within(node, n)
    ensures Within(ConstStep(node), n + 1)
  {
    if Const in node {
      ItemsBounded([node[Const]], n);
    }
  }

  lemma PreparedShallower(fields: Fields)
    ensures Within(Prepared(fields), Depth(JObj(fields)))
  {
    var n := Depth(JObj(fields)) - 1;
    FieldsShallower(fields);
    BoundStepWithin(fields, ExclusiveMinimum, Minimum, n);
    BoundStepWithin(BoundStep(fields, ExclusiveMinimum, Minimum), ExclusiveMaximum, Maximum, n);
    NullStepWithin(Bounds(fields), n);
    ConstStepWithin(NullStep(Bounds(fields)), n);
  }

  // ---------- the code itself ----------

  /** The key-by-key changes to one dictionary. */
  method PrepareNode(node: Fields) returns (fields: Fields)
    ensures fields == Prepared(node)
  {
    fields := node;
    if ExclusiveMinimum in fields && IsNumber(fields[ExclusiveMinimum]) {
      var low := fields[ExclusiveMinimum];
      fields := fields - {ExclusiveMinimum};
      fields := fields[Minimum := low];
      fields := fields[ExclusiveMinimum := JBool(true)];
    }
    if ExclusiveMaximum in fields && IsNumber(fields[ExclusiveMaximum]) {
      var high := fields[ExclusiveMaximum];
      fields := fields - {ExclusiveMaximum};
      fields := fields[Maximum := high];
      fields := fields[ExclusiveMaximum := JBool(true)];
    }
    assert fields == Bounds(node);
    if AnyOfNull(fields) {
      var remaining := NotNull(fields[AnyOf].items);
      fields := fields - {AnyOf};
      if |remaining| == 1 && remaining[0].JObj? {
        fields := fields + remaining[0].fields;
      } else if remaining != [] {
        fields := fields[AnyOf := JArr(remaining)];
      }
      fields := fields[Nullable := JBool(true)];
    }
    assert fields == NullStep(Bounds(node));
    if Const in fields {
      var only := fields[Const];
      fields := fields - {Const};
      fields := fields[Enum := JArr([only])];
    }
  }

  method FinishNode(node: Fields) returns (r: Json)
    ensures r == WrapRef(node)
  {
    var result := node;
    if Ref in result && |result| > 1 {
      var ref := result[Ref];
      result := result - {Ref};
      return JObj(map[AllOf := JArr([JObj(map[Ref := ref])])] + result);
    }
    r := JObj(result);
  }

  /** _downgrade_schema: the dictionary is changed key by key, then rebuilt with its values rewritten. */
  method DowngradeSchema(node: Json) returns (r: Json)
    ensures r == Downgrade(node)
    decreases Depth(node), 1
  {
    if node.JArr? {
      r := DowngradeItems(node.items);
    } else if node.JObj? {
      var fields := PrepareNode(node.fields);
      PreparedShallower(node.fields);
      var result := DowngradeFields(fields, Depth(node));
      r := FinishNode(result);
    } else {
      r := node;
    }
  }

  method DowngradeItems(items: seq<Json>) returns (r: Json)
    ensures r == Downgrade(JArr(items))
    decreases Depth(JArr(items)), 0
  {
    ItemsShallower(items);
    var done: seq<Json> := [];
    for i := 0 to |items|
      invariant |done| == i && forall j :: 0 <= j < i ==> done[j] == Downgrade(items[j])
    {
      var item := DowngradeSchema(items[i]);
      done := done + [item];
    }
    r := JArr(done);
  }

  method DowngradeFields(node: Fields, ghost bound: nat) returns (result: Fields)
    requires Within(node, bound)
    ensures result == DowngradeEach(node, bound)
    decreases bound, 0
  {
    result := map[];
    var todo := node.Keys;
    while todo != {}
      invariant todo <= node.Keys && result.Keys == node.Keys - todo
      invariant forall k :: k in result ==> result[k] == Downgrade(node[k])
      decreases |todo|
    {
      var k :| k in todo;
      var value := DowngradeSchema(node[k]);
      result := result[k := value];
      todo := todo - {k};
    }
  }
}
