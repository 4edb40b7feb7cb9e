/** The rewriting keeps what every emitted schema accepts, and its output is free of 3.1-only constructs. */
module SchemaPreserved {
  import opened Schema
  import opened SchemaMeaning

  lemma {:induction false} PlainKept(x: Json)
    requires Plain(x)
    ensures Downgrade(x) == x
  {
    if x.JArr? {
      forall i | 0 <= i < |x.items| ensures Downgrade(x.items[i]) == x.items[i] {
        PlainKept(x.items[i]);
      }
    }
  }

  lemma {:induction false} NullAccepts(v: Json, m: Meaning)
    ensures Accepts(V31, NULL_SCHEMA, v, m) <==> v.JNull?
  {
    assert Type in NULL_SCHEMA.fields && NULL_SCHEMA.fields[Type] == JStr(NullName);
    if v.JNull? {
      assert AllHold(V31, V31, NULL_SCHEMA, v, m);
    } else {
      assert !Holds(V31, V31, Type, JStr(NullName), SiblingsOf(NULL_SCHEMA.fields), v, m);
    }
  }

  // ---------- a prepared node ----------

  /** The prepared node under 3.0 rules, its subschemas still under 3.1's. */
  ghost predicate Mixed(p: Fields, v: Json, m: Meaning) {
    (IsTrue(p, Nullable) && v.JNull?) || AllHold(V30, V31, JObj(p), v, m)
  }

  /** What preparing leaves at a key. */
  predicate PreparedField(k: Text, x: Json) {
    match k
    case Nullable => x == JBool(true)
    case ExclusiveMinimum => x == JBool(true)
    case ExclusiveMaximum => x == JBool(true)
    case _ => FieldOk(k, x, false)
  }

  predicate PreparedNode(p: Fields) {
    && Const !in p && !(Ref in p && AllOf in p)
    && forall k :: k in p ==> PreparedField(k, p[k])
  }

  /** Keywords without a dialect of their own mean the same under either. */
  lemma {:induction false} SameRule(k: Text, x: Json, a: Siblings, b: Siblings, v: Json, m: Meaning)
    requires k !in {Minimum, Maximum, ExclusiveMinimum, ExclusiveMaximum, Const} && a.declared == b.declared
    ensures Holds(V30, V31, k, x, a, v, m) == Holds(V31, V31, k, x, b, v, m)
  {
  }

  /** Keys that assert nothing. */
  predicate Free(k: Text) {
    Annotation(k) || k == Nullable
  }

  /** What preparing a node without a nullable anyOf does to each key that asserts something. */
  ghost predicate Rewritten(node: Fields, p: Fields) {
    && (forall k :: !Free(k) && k !in {Const, Enum, Minimum, Maximum, ExclusiveMinimum, ExclusiveMaximum} ==>
          (k in p <==> k in node) && (k in node ==> p[k] == node[k]))
    && Const !in p
    && (Const in node ==> Enum in p && p[Enum] == JArr([node[Const]]))
    && (Const !in node ==> (Enum in p <==> Enum in node) && (Enum in node ==> p[Enum] == node[Enum]))
    && BoundRewritten(node, p, ExclusiveMinimum, Minimum)
    && BoundRewritten(node, p, ExclusiveMaximum, Maximum)
  }

  ghost predicate BoundRewritten(node: Fields, p: Fields, exclusive: Text, inclusive: Text) {
    && (exclusive in p <==> exclusive in node)
    && (if exclusive in node then p[exclusive] == JBool(true) && inclusive in p && p[inclusive] == node[exclusive]
        else (inclusive in p <==> inclusive in node) && (inclusive in node ==> p[inclusive] == node[inclusive]))
  }

  lemma {:induction false} PlainPrepared(node: Fields)
    requires Emitted(JObj(node)) && !AnyOfNull(node)
    ensures Rewritten(node, Prepared(node)) && Nullable !in Prepared(node)
  {
    assert ExclusiveMinimum in node ==> FieldOk(ExclusiveMinimum, node[ExclusiveMinimum], true);
    assert ExclusiveMaximum in node ==> FieldOk(ExclusiveMaximum, node[ExclusiveMaximum], true);
    StepsRewrite(node);
  }

  lemma {:induction false} StepsRewrite(node: Fields)
    requires ExclusiveMinimum in node ==> node[ExclusiveMinimum].JNum?
    requires ExclusiveMaximum in node ==> node[ExclusiveMaximum].JNum?
    requires !AnyOfNull(node) && Nullable !in node
    ensures Rewritten(node, Prepared(node)) && Nullable !in Prepared(node)
  {
    assert NullStep(Bounds(node)) == Bounds(node);
  }

  lemma {:induction false} RewrittenSiblings(node: Fields, p: Fields)
    requires Rewritten(node, p)
    ensures SiblingsOf(p).declared == SiblingsOf(node).declared
    ensures SiblingsOf(p).exclusiveLow == (ExclusiveMinimum in node)
    ensures SiblingsOf(p).exclusiveHigh == (ExclusiveMaximum in node)
  {
  }

  lemma {:induction false} ConstRule(x: Json, a: Siblings, b: Siblings, v: Json, m: Meaning)
    ensures Holds(V30, V31, Enum, JArr([x]), a, v, m) == Holds(V31, V31, Const, x, b, v, m)
  {
  }

  lemma {:induction false} LowRule(x: Json, a: Siblings, b: Siblings, v: Json, m: Meaning)
    ensures Holds(V30, V31, Minimum, x, a, v, m)
         == Holds(V31, V31, if a.exclusiveLow then ExclusiveMinimum else Minimum, x, b, v, m)
  {
  }

  lemma {:induction false} HighRule(x: Json, a: Siblings, b: Siblings, v: Json, m: Meaning)
    ensures Holds(V30, V31, Maximum, x, a, v, m)
         == Holds(V31, V31, if a.exclusiveHigh then ExclusiveMaximum else Maximum, x, b, v, m)
  {
  }

  lemma {:induction false} ExclusiveRule(k: Text, x: Json, a: Siblings, v: Json, m: Meaning)
    requires k == ExclusiveMinimum || k == ExclusiveMaximum
    ensures Holds(V30, V31, k, x, a, v, m)
  {
  }

  lemma {:induction false} FreeRule(own: Dialect, k: Text, x: Json, c: Siblings, v: Json, m: Meaning)
    requires Free(k)
    ensures Holds(own, V31, k, x, c, v, m)
  {
  }

  /** The original's key behind a key of the rewritten node. */
  function Origin(node: Fields, k: Text): Text {
    if k == Enum && Const in node then Const
    else if k == Minimum && ExclusiveMinimum in node then ExclusiveMinimum
    else if k == Maximum && ExclusiveMaximum in node then ExclusiveMaximum
    else k
  }

  lemma {:induction false} SameAssertion(node: Fields, p: Fields, v: Json, m: Meaning, k: Text)
    requires Rewritten(node, p) && k in p && k != ExclusiveMinimum && k != ExclusiveMaximum && !Free(k)
    ensures var o := Origin(node, k);
            o in node && Holds(V30, V31, k, p[k], SiblingsOf(p), v, m) == Holds(V31, V31, o, node[o], SiblingsOf(node), v, m)
  {
    RewrittenSiblings(node, p);
    if k == Minimum {
      LowRule(p[k], SiblingsOf(p), SiblingsOf(node), v, m);
    } else if k == Maximum {
      HighRule(p[k], SiblingsOf(p), SiblingsOf(node), v, m);
    } else if k == Enum && Const in node {
      ConstRule(node[Const], SiblingsOf(p), SiblingsOf(node), v, m);
    } else {
      SameRule(k, p[k], SiblingsOf(p), SiblingsOf(node), v, m);
    }
  }

  /** Where a key of the original ends up. */
  function Target(o: Text): Text {
    match o
    case Const => Enum
    case ExclusiveMinimum => Minimum
    case ExclusiveMaximum => Maximum
    case _ => o
  }

  lemma {:induction false} TargetOrigin(node: Fields, p: Fields, o: Text)
    requires Rewritten(node, p) && NoDoubles(node) && o in node && !Free(o)
    ensures !Free(Target(o)) && Target(o) in p && Target(o) != ExclusiveMinimum && Target(o) != ExclusiveMaximum
    ensures Origin(node, Target(o)) == o
  {
  }

  lemma {:induction false} PlainMeans(node: Fields, v: Json, m: Meaning)
    requires Emitted(JObj(node)) && !AnyOfNull(node)
    ensures Mixed(Prepared(node), v, m) == Accepts(V31, JObj(node), v, m)
    ensures PreparedNode(Prepared(node))
  {
    var p := Prepared(node);
    PlainPrepared(node);
    RewrittenIsPrepared(node, p);
    RewrittenMeans(node, p, v, m);
  }

  lemma {:induction false} RewrittenMeans(node: Fields, p: Fields, v: Json, m: Meaning)
    requires Rewritten(node, p) && NoDoubles(node)
    ensures AllHold(V30, V31, JObj(p), v, m) == AllHold(V31, V31, JObj(node), v, m)
  {
    if AllHold(V30, V31, JObj(p), v, m) {
      forall o | o in node ensures Holds(V31, V31, o, node[o], SiblingsOf(node), v, m) {
        if Free(o) {
          FreeRule(V31, o, node[o], SiblingsOf(node), v, m);
        } else {
          TargetOrigin(node, p, o);
          SameAssertion(node, p, v, m, Target(o));
        }
      }
    }
    if AllHold(V31, V31, JObj(node), v, m) {
      forall k | k in p ensures Holds(V30, V31, k, p[k], SiblingsOf(p), v, m) {
        if k == ExclusiveMinimum || k == ExclusiveMaximum {
          ExclusiveRule(k, p[k], SiblingsOf(p), v, m);
        } else if Free(k) {
          FreeRule(V30, k, p[k], SiblingsOf(p), v, m);
        } else {
          SameAssertion(node, p, v, m, k);
        }
      }
    }
  }

  /** The rewritten node of an emitted one, whatever free keys were added. */
  lemma {:induction false} RewrittenIsPrepared(node: Fields, p: Fields)
    requires Emitted(JObj(node)) && !AnyOfNull(node) && Rewritten(node, p)
    requires Nullable in p ==> p[Nullable] == JBool(true)
    ensures PreparedNode(p)
  {
    forall k | k in p ensures PreparedField(k, p[k]) {
      if Free(k) {
        FreePrepared(k, p[k]);
      } else {
        KeyPrepared(node, p, k);
      }
    }
  }

  lemma {:induction false} KeyPrepared(node: Fields, p: Fields, k: Text)
    requires Emitted(JObj(node)) && !AnyOfNull(node) && Rewritten(node, p) && k in p && !Free(k)
    ensures PreparedField(k, p[k])
  {
    if k == AnyOf {
      assert FieldOk(AnyOf, node[AnyOf], true);
      NoNullMember(node[AnyOf]);
    } else if k != ExclusiveMinimum && k != ExclusiveMaximum {
      var o := Origin(node, k);
      OriginOf(node, p, k);
      assert FieldOk(o, node[o], true);
      OriginPrepared(k, o, node[o]);
    }
  }

  lemma {:induction false} OriginOf(node: Fields, p: Fields, k: Text)
    requires Rewritten(node, p) && k in p && !Free(k) && k != ExclusiveMinimum && k != ExclusiveMaximum
    ensures var o := Origin(node, k);
            o in node && Target(o) == k && p[k] == if o == Const then JArr([node[o]]) else node[o]
  {
  }

  lemma {:induction false} OriginPrepared(k: Text, o: Text, x: Json)
    requires FieldOk(o, x, true) && k == Target(o) && k != AnyOf && !Free(k)
    requires k != ExclusiveMinimum && k != ExclusiveMaximum
    ensures PreparedField(k, if o == Const then JArr([x]) else x)
  {
    if o == Const {
      assert Plain(JArr([x]));
    }
  }

  lemma {:induction false} NoNullMember(x: Json)
    requires FieldOk(AnyOf, x, true) && NULL_SCHEMA !in x.items
    ensures FieldOk(AnyOf, x, false)
  {
    forall i | 0 <= i < |x.items| ensures Emitted(x.items[i]) {
      assert x.items[i] in x.items;
    }
  }

  // ---------- a node with a nullable anyOf ----------

  ghost predicate Takes(x: Json, v: Json, m: Meaning) {
    Accepts(V31, x, v, m)
  }

  ghost predicate SomeTakes(items: seq<Json>, v: Json, m: Meaning) {
    exists i :: 0 <= i < |items| && Takes(items[i], v, m)
  }

  lemma {:induction false} AnyOfTakes(own: Dialect, x: Json, c: Siblings, v: Json, m: Meaning)
    requires x.JArr?
    ensures Holds(own, V31, AnyOf, x, c, v, m) == SomeTakes(x.items, v, m)
  {
    if Holds(own, V31, AnyOf, x, c, v, m) {
      var i :| 0 <= i < |x.items| && Accepts(V31, x.items[i], v, m);
      assert Takes(x.items[i], v, m);
    }
    if i :| 0 <= i < |x.items| && Takes(x.items[i], v, m) {
      assert Accepts(V31, x.items[i], v, m);
    }
  }

  lemma {:induction false} NullableAnyOf(items: seq<Json>, v: Json, m: Meaning)
    requires NULL_SCHEMA in items
    ensures SomeTakes(items, v, m) <==> v.JNull? || SomeTakes(NotNull(items), v, m)
  {
    var rest := NotNull(items);
    NotNullMembers(items);
    NullAccepts(v, m);
    if i :| 0 <= i < |items| && Takes(items[i], v, m) && items[i] != NULL_SCHEMA {
      assert items[i] in rest;
      var j :| 0 <= j < |rest| && rest[j] == items[i];
    }
    if j :| 0 <= j < |rest| && Takes(rest[j], v, m) {
      assert rest[j] in items;
      var i :| 0 <= i < |items| && items[i] == rest[j];
    }
    var i :| 0 <= i < |items| && items[i] == NULL_SCHEMA;
    assert Takes(items[i], v, m) == v.JNull?;
  }

  lemma {:induction false} OnlyAnyOf(own: Dialect, node: Fields, v: Json, m: Meaning)
    requires AnyOf in node && node[AnyOf].JArr? && forall k :: k in node ==> k == AnyOf || Free(k)
    ensures AllHold(own, V31, JObj(node), v, m) == SomeTakes(node[AnyOf].items, v, m)
  {
    var c := SiblingsOf(node);
    forall k | k in node && k != AnyOf ensures Holds(own, V31, k, node[k], c, v, m) {
      FreeRule(own, k, node[k], c, v, m);
    }
    AnyOfTakes(own, node[AnyOf], c, v, m);
  }

  lemma {:induction false} RemainingEmitted(node: Fields)
    requires Emitted(JObj(node)) && AnyOfNull(node)
    ensures forall i :: 0 <= i < |NotNull(node[AnyOf].items)| ==> Emitted(NotNull(node[AnyOf].items)[i])
  {
    var items := node[AnyOf].items;
    var rest := NotNull(items);
    NotNullMembers(items);
    assert FieldOk(AnyOf, node[AnyOf], true);
    forall i | 0 <= i < |rest| ensures Emitted(rest[i]) {
      assert rest[i] in rest;
      var j :| 0 <= j < |items| && items[j] == rest[i];
    }
  }

  lemma {:induction false} NoBounds(node: Fields)
    requires forall k :: k in node ==> k == AnyOf || Annotation(k)
    ensures Bounds(node) == node
  {
  }

  /** One member remains: it is merged. */
  lemma {:induction false} MergedMeans(node: Fields, g: Fields, v: Json, m: Meaning)
    requires AnyOfNull(node) && NotNull(node[AnyOf].items) == [JObj(g)]
    requires forall k :: k in node ==> k == AnyOf || Annotation(k)
    requires Emitted(JObj(g)) && Mergeable(g)
    ensures var p := Prepared(node);
            && PreparedNode(p) && IsTrue(p, Nullable)
            && AllHold(V30, V31, JObj(p), v, m) == Accepts(V31, JObj(g), v, m)
  {
    NoBounds(node);
    MergedRewrites(node, g);
    RewrittenIsPrepared(g, Prepared(node));
    RewrittenMeans(g, Prepared(node), v, m);
  }

  lemma {:induction false} MergedRewrites(node: Fields, g: Fields)
    requires AnyOfNull(node) && NotNull(node[AnyOf].items) == [JObj(g)] && Bounds(node) == node
    requires forall k :: k in node ==> k == AnyOf || Annotation(k)
    requires Mergeable(g) && NoDoubles(g)
    ensures Rewritten(g, Prepared(node)) && IsTrue(Prepared(node), Nullable)
  {
    var q := ((node - {AnyOf}) + g)[Nullable := JBool(true)];
    assert NullStep(node) == q;
    ConstRewrites(g, q);
  }

  /** Adding free keys to g and rewriting const rewrites g. */
  lemma {:induction false} ConstRewrites(g: Fields, q: Fields)
    requires ExclusiveMinimum !in g && ExclusiveMaximum !in g && IsTrue(q, Nullable)
    requires forall k :: !Free(k) ==> (k in q <==> k in g) && (k in g ==> q[k] == g[k])
    ensures Rewritten(g, ConstStep(q)) && IsTrue(ConstStep(q), Nullable)
  {
  }

  /** Several remain: they stay an anyOf. */
  lemma {:induction false} StillAnyOf(node: Fields, rest: seq<Json>, v: Json, m: Meaning)
    requires AnyOfNull(node) && rest == NotNull(node[AnyOf].items) && |rest| > 1
    requires forall k :: k in node ==> k == AnyOf || Annotation(k)
    requires forall i :: 0 <= i < |rest| ==> Emitted(rest[i])
    ensures var p := Prepared(node);
            PreparedNode(p) && IsTrue(p, Nullable) && AllHold(V30, V31, JObj(p), v, m) == SomeTakes(rest, v, m)
  {
    var q := (node - {AnyOf})[AnyOf := JArr(rest)][Nullable := JBool(true)];
    NoBounds(node);
    StillAnyOfPrepared(node, rest, q);
    AnyOfNode(q, rest);
    OnlyAnyOf(V30, q, v, m);
  }

  lemma {:induction false} StillAnyOfPrepared(node: Fields, rest: seq<Json>, q: Fields)
    requires AnyOfNull(node) && rest == NotNull(node[AnyOf].items) && |rest| > 1 && Bounds(node) == node
    requires forall k :: k in node ==> k == AnyOf || Annotation(k)
    requires q == (node - {AnyOf})[AnyOf := JArr(rest)][Nullable := JBool(true)]
    ensures Prepared(node) == q && IsTrue(q, Nullable)
    ensures AnyOf in q && q[AnyOf] == JArr(rest) && forall k :: k in q ==> k == AnyOf || Free(k)
  {
    assert NullStep(node) == q;
  }

  lemma {:induction false} AnyOfNode(q: Fields, rest: seq<Json>)
    requires AnyOf in q && q[AnyOf] == JArr(rest) && IsTrue(q, Nullable)
    requires forall k :: k in q ==> k == AnyOf || Free(k)
    requires forall i :: 0 <= i < |rest| ==> Emitted(rest[i])
    ensures PreparedNode(q)
  {
    assert FieldOk(AnyOf, q[AnyOf], false);
    forall k | k in q && k != AnyOf ensures PreparedField(k, q[k]) {
      FreePrepared(k, q[k]);
    }
  }

  lemma {:induction false} FreePrepared(k: Text, x: Json)
    requires Free(k) && (k == Nullable ==> x == JBool(true))
    ensures PreparedField(k, x)
  {
  }

  lemma {:induction false} NullableMeans(node: Fields, v: Json, m: Meaning)
    requires Emitted(JObj(node)) && AnyOfNull(node)
    ensures Mixed(Prepared(node), v, m) == Accepts(V31, JObj(node), v, m)
    ensures PreparedNode(Prepared(node))
  {
    RemainingEmitted(node);
    RemainingMeans(node, NotNull(node[AnyOf].items), v, m);
  }

  lemma {:induction false} RemainingMeans(node: Fields, rest: seq<Json>, v: Json, m: Meaning)
    requires AnyOfNull(node) && rest == NotNull(node[AnyOf].items) && NullableShape(node)
    requires forall i :: 0 <= i < |rest| ==> Emitted(rest[i])
    ensures Mixed(Prepared(node), v, m) == AllHold(V31, V31, JObj(node), v, m)
    ensures PreparedNode(Prepared(node))
  {
    OnlyAnyOf(V31, node, v, m);
    NullableAnyOf(node[AnyOf].items, v, m);
    if |rest| == 1 {
      assert rest == [JObj(rest[0].fields)] && Emitted(rest[0]);
      MergedMeans(node, rest[0].fields, v, m);
      OneTakes(rest[0], v, m);
    } else {
      StillAnyOf(node, rest, v, m);
    }
  }

  lemma {:induction false} OneTakes(x: Json, v: Json, m: Meaning)
    ensures SomeTakes([x], v, m) == Accepts(V31, x, v, m)
  {
    assert SomeTakes([x], v, m) == Takes([x][0], v, m);
  }

  /** Preparing a node changes nothing it means, once 3.0's rules read it. */
  lemma {:induction false} PreparedMeans(node: Fields, v: Json, m: Meaning)
    requires Emitted(JObj(node))
    ensures Mixed(Prepared(node), v, m) == Accepts(V31, JObj(node), v, m)
    ensures PreparedNode(Prepared(node))
  {
    if AnyOfNull(node) {
      NullableMeans(node, v, m);
    } else {
      PlainMeans(node, v, m);
    }
  }

  // ---------- rewriting the children, and wrapping a reference ----------

  lemma {:induction false} EachDowngraded(p: Fields, bound: nat)
    requires Within(p, bound)
    ensures DowngradeEach(p, bound).Keys == p.Keys
    ensures forall k :: k in p ==> DowngradeEach(p, bound)[k] == Downgrade(p[k])
  {
  }

  lemma {:induction false} PropertiesDowngraded(x: Json)
    requires FieldOk(Properties, x, false)
    ensures var y := Downgrade(x);
            && y.JObj? && y.fields.Keys == x.fields.Keys
            && forall p :: p in x.fields ==> y.fields[p] == Downgrade(x.fields[p])
  {
    var q := x.fields;
    forall p | p in q ensures q[p].JObj? {
      assert Emitted(q[p]);
    }
    assert Bounds(q) == q && NullStep(q) == q && ConstStep(q) == q;
    PreparedShallower(q);
    EachDowngraded(q, Depth(x));
  }

  /** What the rewritten keyword asserts under 3.0 is what it asserted. */
  lemma {:induction false} KeywordKept(k: Text, x: Json, c: Siblings, v: Json, m: Meaning)
    requires PreparedField(k, x) && k != Const
    ensures Holds(V30, V30, k, Downgrade(x), c, v, m) == Holds(V30, V31, k, x, c, v, m)
    decreases Depth(x), 5
  {
    if Applicator(k) {
      ApplicatorKept(k, x, c, v, m);
    } else {
      LeafKept(k, x, c, v, m);
    }
  }

  lemma {:induction false} LeafKept(k: Text, x: Json, c: Siblings, v: Json, m: Meaning)
    requires PreparedField(k, x) && k != Const && !Applicator(k)
    ensures Holds(V30, V30, k, Downgrade(x), c, v, m) == Holds(V30, V31, k, x, c, v, m)
  {
    if Free(k) || k == ExclusiveMinimum || k == ExclusiveMaximum {
      NothingAsserted(k, x, Downgrade(x), c, v, m);
    } else {
      OtherPlain(k, x);
      PlainKept(x);
      NoSubschemas(k, x, c, v, m);
    }
  }

  lemma {:induction false} ApplicatorKept(k: Text, x: Json, c: Siblings, v: Json, m: Meaning)
    requires PreparedField(k, x) && Applicator(k)
    ensures Holds(V30, V30, k, Downgrade(x), c, v, m) == Holds(V30, V31, k, x, c, v, m)
    decreases Depth(x), 4
  {
    ApplicatorOk(k, x);
    if k == AnyOf || k == AllOf {
      MembersKept(k, x, c, v, m);
    } else if k == Items {
      ItemsKept(x, c, v, m);
    } else if k == Properties {
      PropertiesKept(x, c, v, m);
    } else {
      AdditionalKept(x, c, v, m);
    }
  }

  predicate Applicator(k: Text) {
    k in {AnyOf, AllOf, Items, Properties, AdditionalProperties}
  }

  lemma {:induction false} ApplicatorOk(k: Text, x: Json)
    requires PreparedField(k, x) && Applicator(k)
    ensures FieldOk(k, x, false)
  {
  }

  lemma {:induction false} NothingAsserted(k: Text, x: Json, y: Json, c: Siblings, v: Json, m: Meaning)
    requires Free(k) || k == ExclusiveMinimum || k == ExclusiveMaximum
    ensures Holds(V30, V30, k, y, c, v, m) && Holds(V30, V31, k, x, c, v, m)
  {
  }

  lemma {:induction false} OtherPlain(k: Text, x: Json)
    requires PreparedField(k, x) && !Applicator(k) && !Free(k)
    ensures Plain(x)
  {
  }

  lemma {:induction false} NoSubschemas(k: Text, x: Json, c: Siblings, v: Json, m: Meaning)
    requires !Applicator(k)
    ensures Holds(V30, V30, k, x, c, v, m) == Holds(V30, V31, k, x, c, v, m)
  {
  }

  lemma {:induction false} MembersKept(k: Text, x: Json, c: Siblings, v: Json, m: Meaning)
    requires (k == AnyOf || k == AllOf) && FieldOk(k, x, false)
    ensures Holds(V30, V30, k, Downgrade(x), c, v, m) == Holds(V30, V31, k, x, c, v, m)
    decreases Depth(x), 3
  {
    ItemsShallower(x.items);
    var y := Downgrade(x);
    forall i | 0 <= i < |x.items| ensures Accepts(V30, y.items[i], v, m) == Accepts(V31, x.items[i], v, m) {
      Preserved(x.items[i], v, m);
    }
  }

  lemma {:induction false} ItemsKept(x: Json, c: Siblings, v: Json, m: Meaning)
    requires FieldOk(Items, x, false)
    ensures Holds(V30, V30, Items, Downgrade(x), c, v, m) == Holds(V30, V31, Items, x, c, v, m)
    decreases Depth(x), 3
  {
    if v.JArr? {
      forall i | 0 <= i < |v.items| ensures Accepts(V30, Downgrade(x), v.items[i], m) == Accepts(V31, x, v.items[i], m) {
        Preserved(x, v.items[i], m);
      }
    }
  }

  lemma {:induction false} PropertiesKept(x: Json, c: Siblings, v: Json, m: Meaning)
    requires FieldOk(Properties, x, false)
    ensures Holds(V30, V30, Properties, Downgrade(x), c, v, m) == Holds(V30, V31, Properties, x, c, v, m)
    decreases Depth(x), 3
  {
    PropertiesDowngraded(x);
    FieldsShallower(x.fields);
    if v.JObj? {
      forall p | p in x.fields && p in v.fields
        ensures Accepts(V30, Downgrade(x).fields[p], v.fields[p], m) == Accepts(V31, x.fields[p], v.fields[p], m)
      {
        Preserved(x.fields[p], v.fields[p], m);
      }
    }
  }

  lemma {:induction false} AdditionalKept(x: Json, c: Siblings, v: Json, m: Meaning)
    requires FieldOk(AdditionalProperties, x, false)
    ensures Holds(V30, V30, AdditionalProperties, Downgrade(x), c, v, m)
         == Holds(V30, V31, AdditionalProperties, x, c, v, m)
    decreases Depth(x), 3
  {
    if v.JObj? && !x.JBool? {
      forall p | p in v.fields ensures Accepts(V30, Downgrade(x), v.fields[p], m) == Accepts(V31, x, v.fields[p], m) {
        Preserved(x, v.fields[p], m);
      }
    }
  }

  lemma {:induction false} FlagKept(p: Fields, each: Fields, k: Text)
    requires each.Keys == p.Keys && (k in p ==> each[k] == Downgrade(p[k]))
    requires k in p ==> p[k] == JBool(true)
    ensures IsTrue(each, k) == IsTrue(p, k)
  {
  }

  lemma {:induction false} DeclaredKept(p: Fields, each: Fields)
    requires each.Keys == p.Keys && (Properties in p ==> each[Properties] == Downgrade(p[Properties]))
    requires Properties in p ==> FieldOk(Properties, p[Properties], false)
    ensures SiblingsOf(each).declared == SiblingsOf(p).declared
  {
    if Properties in p {
      PropertiesDowngraded(p[Properties]);
    }
  }

  lemma {:induction false} EachSiblings(p: Fields, each: Fields)
    requires PreparedNode(p) && each.Keys == p.Keys && forall k :: k in p ==> each[k] == Downgrade(p[k])
    ensures SiblingsOf(each) == SiblingsOf(p) && IsTrue(each, Nullable) == IsTrue(p, Nullable)
  {
    PreparedFlags(p);
    DeclaredKept(p, each);
    FlagKept(p, each, ExclusiveMinimum);
    FlagKept(p, each, ExclusiveMaximum);
    FlagKept(p, each, Nullable);
  }

  lemma {:induction false} PreparedFlags(p: Fields)
    requires PreparedNode(p)
    ensures Properties in p ==> FieldOk(Properties, p[Properties], false)
    ensures ExclusiveMinimum in p ==> p[ExclusiveMinimum] == JBool(true)
    ensures ExclusiveMaximum in p ==> p[ExclusiveMaximum] == JBool(true)
    ensures Nullable in p ==> p[Nullable] == JBool(true)
  {
    if Properties in p {
      PreparedAt(p, Properties);
    }
    if ExclusiveMinimum in p {
      PreparedAt(p, ExclusiveMinimum);
    }
    if ExclusiveMaximum in p {
      PreparedAt(p, ExclusiveMaximum);
    }
    if Nullable in p {
      PreparedAt(p, Nullable);
    }
  }

  lemma {:induction false} PreparedAt(p: Fields, k: Text)
    requires PreparedNode(p) && k in p
    ensures PreparedField(k, p[k])
  {
  }

  lemma {:induction false} EachMeans(p: Fields, each: Fields, v: Json, m: Meaning, bound: nat)
    requires PreparedNode(p) && Within(p, bound)
    requires each.Keys == p.Keys && forall k :: k in p ==> each[k] == Downgrade(p[k])
    ensures AllHold(V30, V30, JObj(each), v, m) == AllHold(V30, V31, JObj(p), v, m)
    decreases bound, 0
  {
    EachSiblings(p, each);
    forall k | k in p
      ensures Holds(V30, V30, k, each[k], SiblingsOf(each), v, m) == Holds(V30, V31, k, p[k], SiblingsOf(p), v, m)
    {
      KeywordKept(k, p[k], SiblingsOf(p), v, m);
    }
  }

  lemma {:induction false} LoneReference(r: Json, v: Json, m: Meaning)
    ensures Accepts(V30, JObj(map[Ref := r]), v, m) == RefHolds(r, v, m)
  {
  }

  lemma {:induction false} AllOfOne(x: Json, c: Siblings, v: Json, m: Meaning)
    ensures Holds(V30, V30, AllOf, JArr([x]), c, v, m) == Accepts(V30, x, v, m)
  {
    assert JArr([x]).items[0] == x;
  }

  /** Wrapping a reference beside its siblings keeps all of them in force. */
  lemma {:induction false} WrapMeans(node: Fields, v: Json, m: Meaning)
    requires !(Ref in node && AllOf in node)
    ensures Accepts(V30, WrapRef(node), v, m) <==>
            (IsTrue(node, Nullable) && v.JNull?) || AllHold(V30, V30, JObj(node), v, m)
  {
    if Ref in node && |node| == 1 {
      LoneMeans(node, v, m);
    } else if Ref in node {
      var w := map[AllOf := JArr([JObj(map[Ref := node[Ref]])])] + (node - {Ref});
      assert |node| > 1 by {
        assert node.Keys != {};
      }
      assert WrapRef(node) == JObj(w);
      WrappedMeans(node, w, v, m);
    }
  }

  lemma {:induction false} LoneMeans(node: Fields, v: Json, m: Meaning)
    requires Ref in node && |node| == 1
    ensures WrapRef(node) == JObj(node) && !IsTrue(node, Nullable)
    ensures Accepts(V30, JObj(node), v, m) == AllHold(V30, V30, JObj(node), v, m)
  {
    LoneNode(node);
    RefIsRule(node[Ref], SiblingsOf(node), v, m);
    assert AllHold(V30, V30, JObj(node), v, m) == Holds(V30, V30, Ref, node[Ref], SiblingsOf(node), v, m);
  }

  lemma {:induction false} LoneNode(node: Fields)
    requires Ref in node && |node| == 1
    ensures forall k :: k in node <==> k == Ref
  {
    var rest := node.Keys - {Ref};
    assert |rest| == 0;
    assert node.Keys == {Ref} + rest;
  }

  lemma {:induction false} WrappedMeans(node: Fields, w: Fields, v: Json, m: Meaning)
    requires Ref in node && AllOf !in node
    requires w == map[AllOf := JArr([JObj(map[Ref := node[Ref]])])] + (node - {Ref})
    ensures AllHold(V30, V30, JObj(w), v, m) == AllHold(V30, V30, JObj(node), v, m)
    ensures IsTrue(w, Nullable) == IsTrue(node, Nullable) && Ref !in w
  {
    var c := SiblingsOf(node);
    WrappedKeys(node, w);
    LoneReference(node[Ref], v, m);
    AllOfOne(JObj(map[Ref := node[Ref]]), c, v, m);
    RefIsRule(node[Ref], c, v, m);
    MovedKey(node, w, c, v, m);
  }

  lemma {:induction false} RefIsRule(x: Json, c: Siblings, v: Json, m: Meaning)
    ensures Holds(V30, V30, Ref, x, c, v, m) == RefHolds(x, v, m)
  {
  }

  lemma {:induction false} WrappedKeys(node: Fields, w: Fields)
    requires Ref in node && AllOf !in node
    requires w == map[AllOf := JArr([JObj(map[Ref := node[Ref]])])] + (node - {Ref})
    ensures forall k :: k != Ref && k != AllOf ==> (k in w <==> k in node) && (k in w ==> w[k] == node[k])
    ensures Ref !in w && AllOf in w && w[AllOf] == JArr([JObj(map[Ref := node[Ref]])])
    ensures SiblingsOf(w) == SiblingsOf(node) && IsTrue(w, Nullable) == IsTrue(node, Nullable)
  {
  }

  /** Two nodes that differ only in a reference here and an equivalent allOf there. */
  lemma {:induction false} MovedKey(node: Fields, w: Fields, c: Siblings, v: Json, m: Meaning)
    requires Ref in node && AllOf !in node && Ref !in w && AllOf in w
    requires forall k :: k != Ref && k != AllOf ==> (k in w <==> k in node) && (k in w ==> w[k] == node[k])
    requires SiblingsOf(node) == c == SiblingsOf(w)
    requires Holds(V30, V30, AllOf, w[AllOf], c, v, m) == Holds(V30, V30, Ref, node[Ref], c, v, m)
    ensures AllHold(V30, V30, JObj(w), v, m) == AllHold(V30, V30, JObj(node), v, m)
  {
    if AllHold(V30, V30, JObj(w), v, m) {
      forall k | k in node ensures Holds(V30, V30, k, node[k], c, v, m) {
        assert k != Ref ==> k in w && Holds(V30, V30, k, w[k], c, v, m);
      }
    }
    if AllHold(V30, V30, JObj(node), v, m) {
      forall k | k in w ensures Holds(V30, V30, k, w[k], c, v, m) {
        assert k != AllOf ==> k in node && Holds(V30, V30, k, node[k], c, v, m);
      }
    }
  }

  /** Rewriting the values of a prepared node, and wrapping it, keeps what it means. */
  lemma {:induction false} PreparedKept(node: Fields, v: Json, m: Meaning)
    requires PreparedNode(Prepared(node))
    ensures Accepts(V30, Downgrade(JObj(node)), v, m) == Mixed(Prepared(node), v, m)
    decreases Depth(JObj(node)), 1
  {
    var p := Prepared(node);
    var bound := Depth(JObj(node));
    PreparedShallower(node);
    var each := DowngradeEach(p, bound);
    EachDowngraded(p, bound);
    EachSiblings(p, each);
    EachMeans(p, each, v, m, bound);
    WrapMeans(each, v, m);
  }

  /** The rewritten schema accepts, in 3.0, exactly the values the emitted one accepts in 3.1. */
  lemma {:induction false} Preserved(s: Json, v: Json, m: Meaning)
    requires Emitted(s)
    ensures Accepts(V30, Downgrade(s), v, m) == Accepts(V31, s, v, m)
    decreases Depth(s), 2
  {
    PreparedMeans(s.fields, v, m);
    PreparedKept(s.fields, v, m);
  }

  /** Any meaning of the references that satisfies a set of 3.1 definitions satisfies their rewritten forms in 3.0, and
      conversely: recursive definitions keep what they accept. */
  lemma {:induction false} DefinitionsKept(definitions: map<Text, Json>, m: Meaning)
    requires forall n :: n in definitions ==> Emitted(definitions[n])
    ensures (forall n, v :: n in definitions ==> m.refs(n, v) == Accepts(V31, definitions[n], v, m)) <==>
            (forall n, v :: n in definitions ==> m.refs(n, v) == Accepts(V30, Downgrade(definitions[n]), v, m))
  {
    forall n, v | n in definitions
      ensures Accepts(V30, Downgrade(definitions[n]), v, m) == Accepts(V31, definitions[n], v, m)
    {
      Preserved(definitions[n], v, m);
    }
  }

  // ---------- the output is 3.0 ----------

  lemma {:induction false} PreparedIsPrepared(node: Fields)
    requires Emitted(JObj(node))
    ensures PreparedNode(Prepared(node))
  {
    PreparedMeans(node, JNull, Meaning((_, _) => true, (_, _, _) => true));
  }

  lemma {:induction false} MembersIs30(items: seq<Json>)
    requires forall i :: 0 <= i < |items| ==> Emitted(items[i])
    ensures var y := Downgrade(JArr(items));
            y.JArr? && forall i :: 0 <= i < |y.items| ==> Is30(y.items[i])
    decreases Depth(JArr(items)), 2
  {
    ItemsShallower(items);
    forall i | 0 <= i < |items| ensures Is30(Downgrade(items[i])) {
      OutputIs30(items[i]);
    }
  }

  lemma {:induction false} FieldIs30(k: Text, x: Json)
    requires PreparedField(k, x)
    ensures Field30(k, Downgrade(x))
    decreases Depth(x), 3
  {
    if k == AnyOf || k == AllOf {
      ApplicatorOk(k, x);
      MembersIs30(x.items);
    } else if k == Items || (k == AdditionalProperties && !x.JBool?) {
      ApplicatorOk(k, x);
      OutputIs30(x);
    } else if k == Properties {
      ApplicatorOk(k, x);
      PropertiesIs30(x);
    } else {
      LeafIs30(k, x);
    }
  }

  lemma {:induction false} PropertiesIs30(x: Json)
    requires FieldOk(Properties, x, false)
    ensures Field30(Properties, Downgrade(x))
    decreases Depth(x), 2
  {
    PropertiesDowngraded(x);
    FieldsShallower(x.fields);
    forall p | p in x.fields ensures Is30(Downgrade(x).fields[p]) {
      OutputIs30(x.fields[p]);
    }
  }

  lemma {:induction false} LeafIs30(k: Text, x: Json)
    requires PreparedField(k, x) && (!Applicator(k) || (k == AdditionalProperties && x.JBool?))
    ensures Field30(k, Downgrade(x))
  {
  }

  /** The rewritten schema has no const, no numeric exclusive bound, no null type and no reference with siblings. */
  lemma {:induction false} OutputIs30(s: Json)
    requires Emitted(s)
    ensures Is30(Downgrade(s))
    decreases Depth(s), 1
  {
    var p := Prepared(s.fields);
    PreparedIsPrepared(s.fields);
    PreparedShallower(s.fields);
    var each := DowngradeEach(p, Depth(s));
    EachDowngraded(p, Depth(s));
    forall k | k in each ensures Field30(k, each[k]) {
      FieldIs30(k, p[k]);
    }
    WrapIs30(each);
  }

  lemma {:induction false} WrapIs30(node: Fields)
    requires Const !in node && !(Ref in node && AllOf in node) && forall k :: k in node ==> Field30(k, node[k])
    ensures Is30(WrapRef(node))
  {
    if Ref in node && |node| > 1 {
      var w := map[AllOf := JArr([JObj(map[Ref := node[Ref]])])] + (node - {Ref});
      assert WrapRef(node) == JObj(w);
      WrappedKeys(node, w);
      AllOfIs30(node[Ref]);
    } else if Ref in node {
      assert |node| == 1 by {
        assert node.Keys != {};
      }
    }
  }

  lemma {:induction false} AllOfIs30(r: Json)
    ensures Field30(AllOf, JArr([JObj(map[Ref := r])]))
  {
    var one := map[Ref := r];
    assert one.Keys == {Ref};
    assert |one| == 1;
    assert Is30(JObj(one));
  }
}
