/** Beyond the emitted fragment: whether, and exactly when, the rewriting keeps what a schema accepts that has two bounds
    on one side, const beside enum, a nullable of its own, more than annotations beside a nullable anyOf, a member of
    one that cannot be merged, nothing but null in one, a property named like a keyword, or a reference beside an
    allOf. */
module SchemaLimits {
  import opened Schema
  import opened SchemaMeaning
  import opened SchemaPreserved
  import opened SchemaRepeats

  /** The rewritten schema decides this value as s does. */
  ghost predicate Same(s: Json, v: Json, m: Meaning) {
    Accepts(V30, Downgrade(s), v, m) == Accepts(V31, s, v, m)
  }

  /** A node whose prepared values hold no objects is only prepared and wrapped. */
  lemma {:induction false} FlatNode(node: Fields, p: Fields)
    requires p == Prepared(node) && forall k :: k in p ==> Plain(p[k])
    ensures Downgrade(JObj(node)) == WrapRef(p)
  {
    PreparedShallower(node);
    EachDowngraded(p, Depth(JObj(node)));
    forall k | k in p ensures Downgrade(p[k]) == p[k] {
      PlainKept(p[k]);
    }
    assert DowngradeEach(p, Depth(JObj(node))) == p;
  }

  lemma {:induction false} OneKey(d: Dialect, node: Fields, k: Text, v: Json, m: Meaning)
    requires node.Keys == {k}
    ensures AllHold(d, d, JObj(node), v, m) == Holds(d, d, k, node[k], SiblingsOf(node), v, m)
  {
  }

  lemma {:induction false} BoundKeys(d: Dialect, node: Fields, v: Json, m: Meaning)
    requires node.Keys == {Minimum, ExclusiveMinimum}
    ensures AllHold(d, d, JObj(node), v, m) <==>
            && Holds(d, d, Minimum, node[Minimum], SiblingsOf(node), v, m)
            && Holds(d, d, ExclusiveMinimum, node[ExclusiveMinimum], SiblingsOf(node), v, m)
  {
    assert Minimum in node && ExclusiveMinimum in node;
  }

  // ---------- bounds ----------

  lemma {:induction false} LowStep(node: Fields, low: Json, p: Fields)
    requires node.Keys <= {Minimum, ExclusiveMinimum} && ExclusiveMinimum in node && node[ExclusiveMinimum] == low
    requires IsNumber(low) && p == map[Minimum := low, ExclusiveMinimum := JBool(true)]
    ensures Prepared(node) == p
  {
    assert BoundStep(node, ExclusiveMinimum, Minimum) == p;
  }

  lemma {:induction false} LowPrepared(node: Fields, low: Json)
    requires node.Keys <= {Minimum, ExclusiveMinimum} && ExclusiveMinimum in node && node[ExclusiveMinimum] == low
    requires IsNumber(low)
    ensures Downgrade(JObj(node)) == JObj(map[Minimum := low, ExclusiveMinimum := JBool(true)])
  {
    var p := map[Minimum := low, ExclusiveMinimum := JBool(true)];
    LowStep(node, low, p);
    FlatNode(node, p);
  }

  /** The rewriting is not idempotent: a second pass takes the boolean it wrote for a number. */
  lemma {:induction false} NotIdempotent(bound: real)
    ensures var s := JObj(map[ExclusiveMinimum := JNum(bound)]);
            && Downgrade(s) == JObj(map[Minimum := JNum(bound), ExclusiveMinimum := JBool(true)])
            && Downgrade(Downgrade(s)) == JObj(map[Minimum := JBool(true), ExclusiveMinimum := JBool(true)])
  {
    LowPrepared(map[ExclusiveMinimum := JNum(bound)], JNum(bound));
    LowPrepared(map[Minimum := JNum(bound), ExclusiveMinimum := JBool(true)], JBool(true));
  }

  lemma {:induction false} BothBounds(node: Fields, low: real, bound: real, v: Json, m: Meaning)
    requires node == map[Minimum := JNum(low), ExclusiveMinimum := JNum(bound)]
    ensures Accepts(V31, JObj(node), v, m) <==> (v.JNum? ==> v.n >= low && v.n > bound)
  {
    BoundKeys(V31, node, v, m);
  }

  lemma {:induction false} StrictBound(node: Fields, bound: real, v: Json, m: Meaning)
    requires node == map[Minimum := JNum(bound), ExclusiveMinimum := JBool(true)]
    ensures Accepts(V30, JObj(node), v, m) <==> (v.JNum? ==> v.n > bound)
  {
    BoundKeys(V30, node, v, m);
  }

  lemma {:induction false} LowBounds(low: real, bound: real, v: Json, m: Meaning)
    ensures var s := JObj(map[Minimum := JNum(low), ExclusiveMinimum := JNum(bound)]);
            && (Accepts(V31, s, v, m) <==> (v.JNum? ==> v.n >= low && v.n > bound))
            && (Accepts(V30, Downgrade(s), v, m) <==> (v.JNum? ==> v.n > bound))
  {
    var node := map[Minimum := JNum(low), ExclusiveMinimum := JNum(bound)];
    var after := map[Minimum := JNum(bound), ExclusiveMinimum := JBool(true)];
    LowPrepared(node, JNum(bound));
    BothBounds(node, low, bound, v, m);
    StrictBound(after, bound, v, m);
  }

  /** With an inclusive and an exclusive lower bound at one node, the inclusive one is lost: the meaning survives exactly
      when it was the weaker of the two. */
  lemma {:induction false} DoubleLowerBound(low: real, bound: real, m: Meaning)
    ensures var s := JObj(map[Minimum := JNum(low), ExclusiveMinimum := JNum(bound)]);
            (forall v :: Same(s, v, m)) <==> low <= bound
  {
    var s := JObj(map[Minimum := JNum(low), ExclusiveMinimum := JNum(bound)]);
    if low <= bound {
      forall v ensures Same(s, v, m) {
        LowBounds(low, bound, v, m);
      }
    } else {
      var v := JNum((low + bound) / 2.0);
      LowBounds(low, bound, v, m);
      assert !Same(s, v, m);
    }
  }

  lemma {:induction false} HighStep(node: Fields, high: Json, p: Fields)
    requires node.Keys == {Maximum, ExclusiveMaximum} && node[ExclusiveMaximum] == high && high.JNum?
    requires p == map[Maximum := high, ExclusiveMaximum := JBool(true)]
    ensures Prepared(node) == p
  {
    assert BoundStep(node, ExclusiveMinimum, Minimum) == node;
    assert BoundStep(node, ExclusiveMaximum, Maximum) == p;
  }

  lemma {:induction false} HighPrepared(node: Fields, high: Json)
    requires node.Keys == {Maximum, ExclusiveMaximum} && node[ExclusiveMaximum] == high && high.JNum?
    ensures Downgrade(JObj(node)) == JObj(map[Maximum := high, ExclusiveMaximum := JBool(true)])
  {
    var p := map[Maximum := high, ExclusiveMaximum := JBool(true)];
    HighStep(node, high, p);
    FlatNode(node, p);
  }

  lemma {:induction false} HighKeys(d: Dialect, node: Fields, v: Json, m: Meaning)
    requires node.Keys == {Maximum, ExclusiveMaximum}
    ensures AllHold(d, d, JObj(node), v, m) <==>
            && Holds(d, d, Maximum, node[Maximum], SiblingsOf(node), v, m)
            && Holds(d, d, ExclusiveMaximum, node[ExclusiveMaximum], SiblingsOf(node), v, m)
  {
    assert Maximum in node && ExclusiveMaximum in node;
  }

  lemma {:induction false} BothHigh(node: Fields, high: real, bound: real, v: Json, m: Meaning)
    requires node == map[Maximum := JNum(high), ExclusiveMaximum := JNum(bound)]
    ensures Accepts(V31, JObj(node), v, m) <==> (v.JNum? ==> v.n <= high && v.n < bound)
  {
    HighKeys(V31, node, v, m);
  }

  lemma {:induction false} StrictHigh(node: Fields, bound: real, v: Json, m: Meaning)
    requires node == map[Maximum := JNum(bound), ExclusiveMaximum := JBool(true)]
    ensures Accepts(V30, JObj(node), v, m) <==> (v.JNum? ==> v.n < bound)
  {
    HighKeys(V30, node, v, m);
  }

  lemma {:induction false} HighBounds(high: real, bound: real, v: Json, m: Meaning)
    ensures var s := JObj(map[Maximum := JNum(high), ExclusiveMaximum := JNum(bound)]);
            && (Accepts(V31, s, v, m) <==> (v.JNum? ==> v.n <= high && v.n < bound))
            && (Accepts(V30, Downgrade(s), v, m) <==> (v.JNum? ==> v.n < bound))
  {
    var node := map[Maximum := JNum(high), ExclusiveMaximum := JNum(bound)];
    HighPrepared(node, JNum(bound));
    BothHigh(node, high, bound, v, m);
    StrictHigh(map[Maximum := JNum(bound), ExclusiveMaximum := JBool(true)], bound, v, m);
  }

  /** The same on the other side. */
  lemma {:induction false} DoubleUpperBound(high: real, bound: real, m: Meaning)
    ensures var s := JObj(map[Maximum := JNum(high), ExclusiveMaximum := JNum(bound)]);
            (forall v :: Same(s, v, m)) <==> high >= bound
  {
    var s := JObj(map[Maximum := JNum(high), ExclusiveMaximum := JNum(bound)]);
    if high >= bound {
      forall v ensures Same(s, v, m) {
        HighBounds(high, bound, v, m);
      }
    } else {
      var v := JNum((high + bound) / 2.0);
      HighBounds(high, bound, v, m);
      assert !Same(s, v, m);
    }
  }

  // ---------- const ----------

  lemma {:induction false} ConstDowngraded(node: Fields, c: Json, items: seq<Json>)
    requires Plain(c) && node == map[Const := c, Enum := JArr(items)]
    ensures Downgrade(JObj(node)) == JObj(map[Enum := JArr([c])])
  {
    var after := map[Enum := JArr([c])];
    assert Bounds(node) == node && NullStep(node) == node;
    assert Prepared(node) == after;
    FlatNode(node, after);
  }

  lemma {:induction false} BothConst(node: Fields, c: Json, items: seq<Json>, v: Json, m: Meaning)
    requires node == map[Const := c, Enum := JArr(items)]
    ensures Accepts(V31, JObj(node), v, m) <==> v == c && v in items
  {
    var d := SiblingsOf(node);
    assert node.Keys == {Const, Enum} && Const in node && Enum in node;
    assert AllHold(V31, V31, JObj(node), v, m) <==>
           Holds(V31, V31, Const, c, d, v, m) && Holds(V31, V31, Enum, JArr(items), d, v, m);
  }

  lemma {:induction false} OneValue(node: Fields, c: Json, v: Json, m: Meaning)
    requires node == map[Enum := JArr([c])]
    ensures Accepts(V30, JObj(node), v, m) <==> v == c
  {
    OneKey(V30, node, Enum, v, m);
  }

  lemma {:induction false} ConstMeans(c: Json, items: seq<Json>, v: Json, m: Meaning)
    requires Plain(c)
    ensures var s := JObj(map[Const := c, Enum := JArr(items)]);
            && (Accepts(V31, s, v, m) <==> v == c && v in items)
            && (Accepts(V30, Downgrade(s), v, m) <==> v == c)
  {
    var node := map[Const := c, Enum := JArr(items)];
    ConstDowngraded(node, c, items);
    BothConst(node, c, items, v, m);
    OneValue(map[Enum := JArr([c])], c, v, m);
  }

  /** const beside enum: the enum is overwritten, which changes nothing exactly when it lists the constant. */
  lemma {:induction false} ConstBesideEnum(c: Json, items: seq<Json>, m: Meaning)
    requires Plain(c)
    ensures var s := JObj(map[Const := c, Enum := JArr(items)]);
            (forall v :: Same(s, v, m)) <==> c in items
  {
    var s := JObj(map[Const := c, Enum := JArr(items)]);
    if c in items {
      forall v ensures Same(s, v, m) {
        ConstMeans(c, items, v, m);
      }
    } else {
      ConstMeans(c, items, c, m);
      assert !Same(s, c, m);
    }
  }

  // ---------- null let in ----------

  /** A node prepared like an emitted one, but made nullable, accepts null and what that one accepts. */
  lemma {:induction false} MadeNullable(node: Fields, u: Fields, v: Json, m: Meaning)
    requires Emitted(JObj(u)) && !AnyOfNull(u) && Prepared(node) == Prepared(u)[Nullable := JBool(true)]
    ensures Accepts(V30, Downgrade(JObj(node)), v, m) <==> v.JNull? || Accepts(V31, JObj(u), v, m)
  {
    MadePrepared(u, Prepared(node), v, m);
    PreparedKept(node, v, m);
  }

  lemma {:induction false} MadePrepared(u: Fields, q: Fields, v: Json, m: Meaning)
    requires Emitted(JObj(u)) && !AnyOfNull(u) && q == Prepared(u)[Nullable := JBool(true)]
    ensures PreparedNode(q) && (Mixed(q, v, m) <==> v.JNull? || Accepts(V31, JObj(u), v, m))
  {
    PlainPrepared(u);
    NullableRewrites(u, Prepared(u), q);
    RewrittenIsPrepared(u, q);
    RewrittenMeans(u, q, v, m);
  }

  lemma {:induction false} NullableRewrites(u: Fields, p: Fields, q: Fields)
    requires Rewritten(u, p) && q == p[Nullable := JBool(true)]
    ensures Rewritten(u, q) && IsTrue(q, Nullable)
  {
  }

  lemma {:induction false} AddedNullable(n: Fields)
    requires !AnyOfNull(n)
    ensures var node := n[Nullable := JBool(true)];
            Prepared(node) == Prepared(n)[Nullable := JBool(true)]
  {
    var node := n[Nullable := JBool(true)];
    assert Bounds(node) == Bounds(n)[Nullable := JBool(true)];
    assert NullStep(Bounds(n)) == Bounds(n) && NullStep(Bounds(node)) == Bounds(node);
  }

  lemma {:induction false} UnknownNullable(n: Fields, v: Json, m: Meaning)
    requires Nullable !in n
    ensures Accepts(V31, JObj(n[Nullable := JBool(true)]), v, m) == Accepts(V31, JObj(n), v, m)
  {
    var node := n[Nullable := JBool(true)];
    assert SiblingsOf(node) == SiblingsOf(n);
    FreeRule(V31, Nullable, node[Nullable], SiblingsOf(node), v, m);
    assert forall k :: k in n ==> k in node && node[k] == n[k];
    assert forall k :: k in node && k != Nullable ==> k in n;
  }

  /** A schema that already says nullable, a word 3.1 does not know, keeps its meaning exactly when it accepts null. */
  lemma {:induction false} NullableAlready(n: Fields, m: Meaning)
    requires Emitted(JObj(n)) && !AnyOfNull(n)
    ensures var s := JObj(n[Nullable := JBool(true)]);
            (forall v :: Same(s, v, m)) <==> Accepts(V31, JObj(n), JNull, m)
  {
    var node := n[Nullable := JBool(true)];
    AddedNullable(n);
    forall v
      ensures Accepts(V30, Downgrade(JObj(node)), v, m) <==> v.JNull? || Accepts(V31, JObj(n), v, m)
      ensures Accepts(V31, JObj(node), v, m) == Accepts(V31, JObj(n), v, m)
    {
      MadeNullable(node, n, v, m);
      UnknownNullable(n, v, m);
    }
    SameButNull(JObj(node), JObj(n), m);
  }

  lemma {:induction false} SameButNull(s: Json, n: Json, m: Meaning)
    requires forall v :: Accepts(V30, Downgrade(s), v, m) <==> v.JNull? || Accepts(V31, n, v, m)
    requires forall v :: Accepts(V31, s, v, m) == Accepts(V31, n, v, m)
    ensures (forall v :: Same(s, v, m)) <==> Accepts(V31, n, JNull, m)
  {
    assert Same(s, JNull, m) <==> Accepts(V31, n, JNull, m);
    if Accepts(V31, n, JNull, m) {
      forall v ensures Same(s, v, m) {
        assert Accepts(V31, s, v, m) == Accepts(V31, n, v, m);
      }
    }
  }

  // ---------- more than annotations beside a nullable anyOf ----------

  /** An anyOf beside other keywords: both must hold. */
  lemma {:induction false} BesideAnyOf(n: Fields, items: seq<Json>, v: Json, m: Meaning)
    requires AnyOf !in n
    ensures Accepts(V31, JObj(n[AnyOf := JArr(items)]), v, m) <==> Accepts(V31, JObj(n), v, m) && SomeTakes(items, v, m)
  {
    var node := n[AnyOf := JArr(items)];
    assert SiblingsOf(node) == SiblingsOf(n);
    AnyOfTakes(V31, node[AnyOf], SiblingsOf(node), v, m);
    assert forall k :: k in n ==> k in node && node[k] == n[k];
    assert forall k :: k in node && k != AnyOf ==> k in n;
  }

  lemma {:induction false} StayApart(node: Fields, b: Fields, rest: seq<Json>)
    requires AnyOfNull(node) && node - {AnyOf} == b && NotNull(node[AnyOf].items) == rest && |rest| > 1
    ensures NullStep(node) == b[AnyOf := JArr(rest)][Nullable := JBool(true)]
  {
  }

  lemma {:induction false} SeveralPrepared(n: Fields, items: seq<Json>)
    requires AnyOf !in n && NULL_SCHEMA in items && |NotNull(items)| > 1
    ensures var node, u := n[AnyOf := JArr(items)], n[AnyOf := JArr(NotNull(items))];
            !AnyOfNull(u) && Prepared(node) == Prepared(u)[Nullable := JBool(true)]
  {
    var rest := NotNull(items);
    var node, u := n[AnyOf := JArr(items)], n[AnyOf := JArr(rest)];
    NotNullMembers(items);
    BoundsBeside(n, JArr(items));
    BoundsBeside(n, JArr(rest));
    assert NullStep(Bounds(u)) == Bounds(u);
    StayApart(Bounds(node), Bounds(n), rest);
    ConstNullable(Bounds(u));
  }

  lemma {:induction false} RestEmitted(n: Fields, rest: seq<Json>)
    requires Emitted(JObj(n)) && AnyOf !in n && NULL_SCHEMA !in rest
    requires forall i :: 0 <= i < |rest| ==> Emitted(rest[i])
    ensures Emitted(JObj(n[AnyOf := JArr(rest)]))
  {
    var u := n[AnyOf := JArr(rest)];
    assert FieldOk(AnyOf, u[AnyOf], true);
    forall k | k in u && k != AnyOf ensures FieldOk(k, u[k], true) {
      assert FieldOk(k, n[k], true);
    }
  }

  /** Keywords beside an anyOf of null and several members: null gets past them, so the meaning survives exactly when
      they accept null. */
  lemma {:induction false} BesideNullable(n: Fields, items: seq<Json>, m: Meaning)
    requires Emitted(JObj(n)) && AnyOf !in n && NULL_SCHEMA in items && |NotNull(items)| > 1
    requires forall i :: 0 <= i < |NotNull(items)| ==> Emitted(NotNull(items)[i])
    ensures var s := JObj(n[AnyOf := JArr(items)]);
            (forall v :: Same(s, v, m)) <==> Accepts(V31, JObj(n), JNull, m)
  {
    var rest := NotNull(items);
    var node, u := n[AnyOf := JArr(items)], n[AnyOf := JArr(rest)];
    NotNullMembers(items);
    RestEmitted(n, rest);
    SeveralPrepared(n, items);
    forall v
      ensures Accepts(V30, Downgrade(JObj(node)), v, m) <==>
              v.JNull? || (Accepts(V31, JObj(n), v, m) && SomeTakes(rest, v, m))
      ensures Accepts(V31, JObj(node), v, m) <==> Accepts(V31, JObj(n), v, m) && (v.JNull? || SomeTakes(rest, v, m))
    {
      MadeNullable(node, u, v, m);
      BesideAnyOf(n, rest, v, m);
      BesideAnyOf(n, items, v, m);
      NullableAnyOf(items, v, m);
    }
    NullGetsPast(JObj(node), JObj(n), rest, m);
  }

  lemma {:induction false} NullGetsPast(s: Json, n: Json, rest: seq<Json>, m: Meaning)
    requires forall v :: Accepts(V30, Downgrade(s), v, m) <==> v.JNull? || (Accepts(V31, n, v, m) && SomeTakes(rest, v, m))
    requires forall v :: Accepts(V31, s, v, m) <==> Accepts(V31, n, v, m) && (v.JNull? || SomeTakes(rest, v, m))
    ensures (forall v :: Same(s, v, m)) <==> Accepts(V31, n, JNull, m)
  {
    assert Same(s, JNull, m) <==> Accepts(V31, n, JNull, m);
    if Accepts(V31, n, JNull, m) {
      forall v ensures Same(s, v, m) {
        assert Accepts(V31, s, v, m) <==> Accepts(V31, n, v, m) && (v.JNull? || SomeTakes(rest, v, m));
      }
    }
  }

  /** The two nodes share no keyword, and neither declares properties for the other. */
  predicate Separate(n: Fields, g: Fields) {
    && n.Keys !! g.Keys
    && !(Properties in n && AdditionalProperties in g) && !(Properties in g && AdditionalProperties in n)
  }

  lemma {:induction false} SameRule31(k: Text, x: Json, a: Siblings, b: Siblings, v: Json, m: Meaning)
    requires k == AdditionalProperties ==> a.declared == b.declared
    ensures Holds(V31, V31, k, x, a, v, m) == Holds(V31, V31, k, x, b, v, m)
  {
  }

  lemma {:induction false} PartHolds(n: Fields, u: Fields, v: Json, m: Meaning)
    requires forall k :: k in n ==> k in u && u[k] == n[k]
    requires AdditionalProperties in n ==> (Properties in u <==> Properties in n)
    ensures forall k :: k in n ==> Holds(V31, V31, k, n[k], SiblingsOf(n), v, m) == Holds(V31, V31, k, u[k], SiblingsOf(u), v, m)
  {
    forall k | k in n
      ensures Holds(V31, V31, k, n[k], SiblingsOf(n), v, m) == Holds(V31, V31, k, u[k], SiblingsOf(u), v, m)
    {
      SameRule31(k, n[k], SiblingsOf(n), SiblingsOf(u), v, m);
    }
  }

  lemma {:induction false} SeparateMeans(n: Fields, g: Fields, v: Json, m: Meaning)
    requires Separate(n, g)
    ensures Accepts(V31, JObj(n + g), v, m) <==> Accepts(V31, JObj(n), v, m) && Accepts(V31, JObj(g), v, m)
  {
    PartHolds(n, n + g, v, m);
    PartHolds(g, n + g, v, m);
  }

  lemma {:induction false} BoundsBeside(n: Fields, x: Json)
    requires AnyOf !in n
    ensures Bounds(n[AnyOf := x]) == Bounds(n)[AnyOf := x] && Bounds(n[AnyOf := x]) - {AnyOf} == Bounds(n)
  {
  }

  lemma {:induction false} OneMerged(node: Fields, b: Fields, g: Fields)
    requires AnyOfNull(node) && node - {AnyOf} == b && NotNull(node[AnyOf].items) == [JObj(g)]
    ensures NullStep(node) == (b + g)[Nullable := JBool(true)]
  {
  }

  lemma {:induction false} ConstNullable(u: Fields)
    ensures ConstStep(u[Nullable := JBool(true)]) == ConstStep(u)[Nullable := JBool(true)]
  {
  }

  lemma {:induction false} MergedPrepared(n: Fields, g: Fields, items: seq<Json>)
    requires AnyOf !in n && NULL_SCHEMA in items && NotNull(items) == [JObj(g)] && Mergeable(g) && n.Keys !! g.Keys
    requires NoDoubles(n + g)
    ensures !AnyOfNull(n + g)
    ensures Prepared(n[AnyOf := JArr(items)]) == Prepared(n + g)[Nullable := JBool(true)]
  {
    var node, u := n[AnyOf := JArr(items)], n + g;
    assert AnyOf in u ==> u[AnyOf] == g[AnyOf];
    BoundsOfMerged(n, g);
    BoundsBeside(n, JArr(items));
    assert NullStep(Bounds(u)) == Bounds(u);
    OneMerged(Bounds(node), Bounds(n), g);
    ConstNullable(Bounds(u));
  }

  lemma {:induction false} BoundOfMerged(n: Fields, g: Fields, exclusive: Text, inclusive: Text)
    requires n.Keys !! g.Keys && exclusive !in g && (exclusive in n ==> inclusive !in g)
    ensures BoundStep(n + g, exclusive, inclusive) == BoundStep(n, exclusive, inclusive) + g
    ensures BoundStep(n, exclusive, inclusive).Keys !! g.Keys
  {
  }

  lemma {:induction false} BoundsOfMerged(n: Fields, g: Fields)
    requires Mergeable(g) && n.Keys !! g.Keys && NoDoubles(n + g)
    ensures Bounds(n + g) == Bounds(n) + g
    ensures AnyOf in Bounds(n + g) <==> AnyOf in n + g
    ensures AnyOf in n + g ==> Bounds(n + g)[AnyOf] == (n + g)[AnyOf]
  {
    MergedBoundKeys(n, g);
    BoundOfMerged(n, g, ExclusiveMinimum, Minimum);
    var low := BoundStep(n, ExclusiveMinimum, Minimum);
    assert ExclusiveMaximum in low <==> ExclusiveMaximum in n;
    BoundOfMerged(low, g, ExclusiveMaximum, Maximum);
    BoundsKeepAnyOf(n + g);
  }

  lemma {:induction false} MergedBoundKeys(n: Fields, g: Fields)
    requires NoDoubles(n + g)
    ensures ExclusiveMinimum in n ==> Minimum !in g
    ensures ExclusiveMaximum in n ==> Maximum !in g
  {
    assert Minimum in g ==> Minimum in n + g;
    assert Maximum in g ==> Maximum in n + g;
    assert ExclusiveMinimum in n ==> ExclusiveMinimum in n + g;
    assert ExclusiveMaximum in n ==> ExclusiveMaximum in n + g;
  }

  lemma {:induction false} BoundsKeepAnyOf(u: Fields)
    ensures AnyOf in Bounds(u) <==> AnyOf in u
    ensures AnyOf in u ==> Bounds(u)[AnyOf] == u[AnyOf]
  {
  }

  /** Keywords beside an anyOf of null and one member that is merged with them: again the meaning survives exactly when
      they accept null. */
  lemma {:induction false} BesideMerged(n: Fields, g: Fields, items: seq<Json>, m: Meaning)
    requires Emitted(JObj(n + g)) && Separate(n, g) && Mergeable(g)
    requires AnyOf !in n && NULL_SCHEMA in items && NotNull(items) == [JObj(g)]
    ensures var s := JObj(n[AnyOf := JArr(items)]);
            (forall v :: Same(s, v, m)) <==> Accepts(V31, JObj(n), JNull, m)
  {
    var node, u := n[AnyOf := JArr(items)], n + g;
    MergedPrepared(n, g, items);
    forall v
      ensures Accepts(V30, Downgrade(JObj(node)), v, m) <==>
              v.JNull? || (Accepts(V31, JObj(n), v, m) && SomeTakes([JObj(g)], v, m))
      ensures Accepts(V31, JObj(node), v, m) <==>
              Accepts(V31, JObj(n), v, m) && (v.JNull? || SomeTakes([JObj(g)], v, m))
    {
      MadeNullable(node, u, v, m);
      SeparateMeans(n, g, v, m);
      OneTakes(JObj(g), v, m);
      BesideAnyOf(n, items, v, m);
      NullableAnyOf(items, v, m);
    }
    NullGetsPast(JObj(node), JObj(n), [JObj(g)], m);
  }

  lemma {:induction false} MinimumMeans(bound: real, v: Json, m: Meaning)
    ensures var s := JObj(map[Minimum := JNum(bound)]);
            Accepts(V31, s, v, m) <==> (v.JNum? ==> v.n >= bound)
  {
    OneKey(V31, map[Minimum := JNum(bound)], Minimum, v, m);
  }

  lemma {:induction false} SharedPrepared(outer: real, inner: real, items: seq<Json>)
    requires NULL_SCHEMA in items && NotNull(items) == [JObj(map[Minimum := JNum(inner)])]
    ensures Prepared(map[Minimum := JNum(outer), AnyOf := JArr(items)])
         == Prepared(map[Minimum := JNum(inner)])[Nullable := JBool(true)]
  {
    var node, g := map[Minimum := JNum(outer), AnyOf := JArr(items)], map[Minimum := JNum(inner)];
    assert Bounds(node) == node && Bounds(g) == g && Prepared(g) == g;
    assert (node - {AnyOf}) + g == g;
    assert NullStep(node) == g[Nullable := JBool(true)];
  }

  /** A keyword on both: the member's takes the place of the outer one. Of two lower bounds the meaning survives exactly
      when the outer was the weaker. */
  lemma {:induction false} SharedMinimum(outer: real, inner: real, items: seq<Json>, m: Meaning)
    requires NULL_SCHEMA in items && NotNull(items) == [JObj(map[Minimum := JNum(inner)])]
    ensures var s := JObj(map[Minimum := JNum(outer), AnyOf := JArr(items)]);
            (forall v :: Same(s, v, m)) <==> outer <= inner
  {
    var s := JObj(map[Minimum := JNum(outer), AnyOf := JArr(items)]);
    if outer <= inner {
      forall v ensures Same(s, v, m) {
        SharedMeans(outer, inner, items, v, m);
      }
    } else {
      SharedMeans(outer, inner, items, JNum(inner), m);
      assert !Same(s, JNum(inner), m);
    }
  }

  lemma {:induction false} SharedMeans(outer: real, inner: real, items: seq<Json>, v: Json, m: Meaning)
    requires NULL_SCHEMA in items && NotNull(items) == [JObj(map[Minimum := JNum(inner)])]
    ensures var s := JObj(map[Minimum := JNum(outer), AnyOf := JArr(items)]);
            && (Accepts(V30, Downgrade(s), v, m) <==> (v.JNum? ==> v.n >= inner))
            && (Accepts(V31, s, v, m) <==> (v.JNum? ==> v.n >= outer && v.n >= inner))
  {
    var n, g := map[Minimum := JNum(outer)], map[Minimum := JNum(inner)];
    assert n[AnyOf := JArr(items)] == map[Minimum := JNum(outer), AnyOf := JArr(items)];
    SharedPrepared(outer, inner, items);
    MadeNullable(n[AnyOf := JArr(items)], g, v, m);
    MinimumMeans(outer, v, m);
    MinimumMeans(inner, v, m);
    BesideAnyOf(n, items, v, m);
    NullableAnyOf(items, v, m);
    OneTakes(JObj(g), v, m);
  }

  // ---------- nullable anyOf ----------

  lemma {:induction false} NullOnlyDowngraded(node: Fields)
    requires node == map[AnyOf := JArr([NULL_SCHEMA])]
    ensures Downgrade(JObj(node)) == JObj(map[Nullable := JBool(true)])
  {
    var p := map[Nullable := JBool(true)];
    assert [NULL_SCHEMA][1..] == [];
    assert NotNull([NULL_SCHEMA]) == [];
    assert NULL_SCHEMA in node[AnyOf].items;
    assert Bounds(node) == node;
    assert NullStep(node) == p;
    assert Prepared(node) == p;
    FlatNode(node, p);
  }

  lemma {:induction false} NullOnlyMeans(node: Fields, v: Json, m: Meaning)
    requires node == map[AnyOf := JArr([NULL_SCHEMA])]
    ensures Accepts(V31, JObj(node), v, m) <==> v.JNull?
  {
    OnlyAnyOf(V31, node, v, m);
    OneTakes(NULL_SCHEMA, v, m);
    NullAccepts(v, m);
  }

  /** A nullable anyOf with nothing else in it accepts only null; rewritten it accepts everything. */
  lemma {:induction false} NullOnly(v: Json, m: Meaning)
    ensures var s := JObj(map[AnyOf := JArr([NULL_SCHEMA])]);
            (Accepts(V31, s, v, m) <==> v.JNull?) && Accepts(V30, Downgrade(s), v, m)
  {
    var node := map[AnyOf := JArr([NULL_SCHEMA])];
    NullOnlyDowngraded(node);
    NullOnlyMeans(node, v, m);
    NullableAlone(map[Nullable := JBool(true)], v, m);
  }

  lemma {:induction false} NullableAlone(node: Fields, v: Json, m: Meaning)
    requires node.Keys == {Nullable}
    ensures Accepts(V30, JObj(node), v, m)
  {
    OneKey(V30, node, Nullable, v, m);
  }

  lemma {:induction false} MemberMerged(node: Fields, g: Fields)
    requires JObj(g) != NULL_SCHEMA && node == map[AnyOf := JArr([JObj(g), NULL_SCHEMA])]
    ensures AnyOfNull(node) && NotNull(node[AnyOf].items) == [JObj(g)]
    ensures NullStep(node) == g[Nullable := JBool(true)]
  {
    var items := [JObj(g), NULL_SCHEMA];
    NotNullPair(JObj(g));
    assert items[1] == NULL_SCHEMA && NULL_SCHEMA in items;
    assert (node - {AnyOf}) + g == g;
  }

  lemma {:induction false} NotNullPair(x: Json)
    requires x != NULL_SCHEMA
    ensures NotNull([x, NULL_SCHEMA]) == [x]
  {
    assert [x, NULL_SCHEMA][1..] == [NULL_SCHEMA] && [NULL_SCHEMA][1..] == [];
    assert NotNull([NULL_SCHEMA]) == NotNull([NULL_SCHEMA][1..]) == [];
  }

  lemma {:induction false} OptionalMeans(node: Fields, g: Fields, v: Json, m: Meaning)
    requires JObj(g) != NULL_SCHEMA && node == map[AnyOf := JArr([JObj(g), NULL_SCHEMA])]
    ensures Accepts(V31, JObj(node), v, m) <==> v.JNull? || Accepts(V31, JObj(g), v, m)
  {
    MemberMerged(node, g);
    OnlyAnyOf(V31, node, v, m);
    NullableAnyOf(node[AnyOf].items, v, m);
    OneTakes(JObj(g), v, m);
  }

  predicate Exclusive(k: Text) {
    k == ExclusiveMinimum || k == ExclusiveMaximum
  }

  /** v is on the right side of the exclusive bound, if it is a number. */
  predicate Beyond(k: Text, bound: real, v: Json) {
    v.JNum? ==> if k == ExclusiveMinimum then v.n > bound else v.n < bound
  }

  lemma {:induction false} BoundAdds(rest: Fields, k: Text, bound: real, v: Json, m: Meaning)
    requires Exclusive(k) && k !in rest
    ensures Accepts(V31, JObj(rest[k := JNum(bound)]), v, m) <==>
            Accepts(V31, JObj(rest), v, m) && Beyond(k, bound, v)
  {
    var g := rest[k := JNum(bound)];
    PartHolds(rest, g, v, m);
    assert Holds(V31, V31, k, g[k], SiblingsOf(g), v, m) <==> Beyond(k, bound, v);
    assert forall o :: o in g ==> o == k || o in rest;
    assert forall o :: o in rest ==> o in g;
  }

  /** 3.0 knows no numeric exclusive bound. */
  lemma {:induction false} NumberIgnored(f: Fields, k: Text, bound: real, v: Json, m: Meaning)
    requires Exclusive(k) && k !in f && Ref !in f
    ensures Accepts(V30, JObj(f[k := JNum(bound)]), v, m) == Accepts(V30, JObj(f), v, m)
  {
    var g := f[k := JNum(bound)];
    assert SiblingsOf(g) == SiblingsOf(f);
    assert IsTrue(g, Nullable) == IsTrue(f, Nullable);
    assert Holds(V30, V30, k, g[k], SiblingsOf(g), v, m);
    assert forall o :: o in g ==> o == k || o in f;
    assert forall o :: o in f ==> o in g && g[o] == f[o];
  }

  lemma {:induction false} WrapBeside(e: Fields, k: Text, x: Json)
    requires Exclusive(k) && k !in e && Nullable in e
    ensures var w := WrapRef(e);
            w.JObj? && k !in w.fields && Ref !in w.fields && WrapRef(e[k := x]) == JObj(w.fields[k := x])
  {
    if Ref in e {
      var wrapped := map[AllOf := JArr([JObj(map[Ref := e[Ref]])])];
      TwoKeys(e, Ref, Nullable);
      TwoKeys(e[k := x], Ref, Nullable);
      assert (e[k := x] - {Ref}) == (e - {Ref})[k := x];
      assert wrapped + (e[k := x] - {Ref}) == (wrapped + (e - {Ref}))[k := x];
    }
  }

  lemma TwoKeys(e: Fields, a: Text, b: Text)
    requires a in e && b in e && a != b
    ensures |e| > 1
  {
    assert {a, b} <= e.Keys;
    var others := e.Keys - {a};
    assert b in others;
    assert |e.Keys| == |others| + 1;
  }

  lemma {:induction false} MergedPlain(node: Fields, g: Fields, items: seq<Json>)
    requires node == map[AnyOf := JArr(items)] && NULL_SCHEMA in items && NotNull(items) == [JObj(g)]
    ensures Prepared(node) == ConstStep(g[Nullable := JBool(true)])
  {
    assert Bounds(node) == node;
    assert (node - {AnyOf}) + g == g;
    assert NullStep(node) == g[Nullable := JBool(true)];
  }

  lemma {:induction false} ConstBeside(u: Fields, k: Text, x: Json)
    requires Exclusive(k)
    ensures ConstStep(u[k := x]) == ConstStep(u)[k := x]
  {
  }

  lemma {:induction false} NullableBeside(rest: Fields, k: Text, x: Json)
    requires Exclusive(k)
    ensures rest[k := x][Nullable := JBool(true)] == rest[Nullable := JBool(true)][k := x]
  {
  }

  lemma {:induction false} ConstKeys(u: Fields)
    ensures Nullable in u ==> Nullable in ConstStep(u)
    ensures forall k :: Exclusive(k) && k !in u ==> k !in ConstStep(u)
  {
  }

  lemma {:induction false} MergedBoundPrepared(node: Fields, other: Fields, rest: Fields, k: Text, x: Json,
                                               items: seq<Json>, others: seq<Json>)
    requires Exclusive(k) && k !in rest && node == map[AnyOf := JArr(items)] && other == map[AnyOf := JArr(others)]
    requires NULL_SCHEMA in items && NotNull(items) == [JObj(rest[k := x])]
    requires NULL_SCHEMA in others && NotNull(others) == [JObj(rest)]
    ensures Prepared(node) == Prepared(other)[k := x] && k !in Prepared(other) && Nullable in Prepared(other)
  {
    MergedPlain(node, rest[k := x], items);
    MergedPlain(other, rest, others);
    NullableBeside(rest, k, x);
    ConstBeside(rest[Nullable := JBool(true)], k, x);
    ConstKeys(rest[Nullable := JBool(true)]);
  }

  lemma {:induction false} EachBeside(p: Fields, q: Fields, k: Text, x: Json, deep: nat, shallow: nat)
    requires Within(p, deep) && Within(q, shallow) && k !in q && p == q[k := x] && Plain(x)
    ensures DowngradeEach(p, deep) == DowngradeEach(q, shallow)[k := x]
  {
    EachDowngraded(p, deep);
    EachDowngraded(q, shallow);
    PlainKept(x);
  }

  lemma {:induction false} BoundStays(node: Fields, other: Fields, k: Text, x: Json)
    requires Exclusive(k) && k !in Prepared(other) && Nullable in Prepared(other) && Plain(x)
    requires Prepared(node) == Prepared(other)[k := x]
    ensures var d := Downgrade(JObj(other));
            && d.JObj? && k !in d.fields && Ref !in d.fields && Downgrade(JObj(node)) == JObj(d.fields[k := x])
  {
    var deep, shallow := Depth(JObj(node)), Depth(JObj(other));
    PreparedShallower(node);
    PreparedShallower(other);
    EachBeside(Prepared(node), Prepared(other), k, x, deep, shallow);
    EachDowngraded(Prepared(other), shallow);
    WrapBeside(DowngradeEach(Prepared(other), shallow), k, x);
  }

  /** Every value the rest of the member accepts is beyond the bound anyway. */
  ghost predicate Redundant(rest: Fields, k: Text, bound: real, v: Json, m: Meaning) {
    Accepts(V31, JObj(rest), v, m) ==> Beyond(k, bound, v)
  }

  lemma {:induction false} MergedBoundAfter(rest: Fields, k: Text, bound: real, items: seq<Json>, v: Json, m: Meaning)
    requires Exclusive(k) && k !in rest && Emitted(JObj(rest)) && Mergeable(rest)
    requires NULL_SCHEMA in items && NotNull(items) == [JObj(rest[k := JNum(bound)])]
    ensures Accepts(V30, Downgrade(JObj(map[AnyOf := JArr(items)])), v, m) <==> v.JNull? || Accepts(V31, JObj(rest), v, m)
  {
    var others := [JObj(rest), NULL_SCHEMA];
    var node, other := map[AnyOf := JArr(items)], map[AnyOf := JArr(others)];
    NullNotEmitted();
    NotNullPair(JObj(rest));
    assert others[1] == NULL_SCHEMA;
    MergedBoundPrepared(node, other, rest, k, JNum(bound), items, others);
    BoundStays(node, other, k, JNum(bound));
    NumberIgnored(Downgrade(JObj(other)).fields, k, bound, v, m);
    Optional30(rest, other, others, v, m);
  }

  lemma {:induction false} MergedBoundBefore(rest: Fields, k: Text, bound: real, items: seq<Json>, v: Json, m: Meaning)
    requires Exclusive(k) && k !in rest
    requires NULL_SCHEMA in items && NotNull(items) == [JObj(rest[k := JNum(bound)])]
    ensures Accepts(V31, JObj(map[AnyOf := JArr(items)]), v, m) <==>
            v.JNull? || (Accepts(V31, JObj(rest), v, m) && Beyond(k, bound, v))
  {
    OnlyAnyOf(V31, map[AnyOf := JArr(items)], v, m);
    NullableAnyOf(items, v, m);
    OneTakes(JObj(rest[k := JNum(bound)]), v, m);
    BoundAdds(rest, k, bound, v, m);
  }

  lemma {:induction false} Optional30(rest: Fields, other: Fields, others: seq<Json>, v: Json, m: Meaning)
    requires Emitted(JObj(rest)) && Mergeable(rest) && other == map[AnyOf := JArr(others)]
    requires NULL_SCHEMA in others && NotNull(others) == [JObj(rest)]
    ensures Accepts(V30, Downgrade(JObj(other)), v, m) <==> v.JNull? || Accepts(V31, JObj(rest), v, m)
  {
    var none: Fields := map[];
    assert none + rest == rest && none[AnyOf := JArr(others)] == other;
    MergedPrepared(none, rest, others);
    MadeNullable(other, rest, v, m);
  }

  /** The exclusive bound of a merged member is missed, on either side: the meaning survives exactly when the rest of the
      member accepts only numbers beyond the bound. */
  lemma {:induction false} MergedBound(rest: Fields, k: Text, bound: real, items: seq<Json>, m: Meaning)
    requires Exclusive(k) && k !in rest && Emitted(JObj(rest)) && Mergeable(rest)
    requires NULL_SCHEMA in items && NotNull(items) == [JObj(rest[k := JNum(bound)])]
    ensures var s := JObj(map[AnyOf := JArr(items)]);
            (forall v :: Same(s, v, m)) <==> (forall v :: Redundant(rest, k, bound, v, m))
  {
    var s := JObj(map[AnyOf := JArr(items)]);
    forall v ensures Same(s, v, m) <==> Redundant(rest, k, bound, v, m) {
      MergedBoundAfter(rest, k, bound, items, v, m);
      MergedBoundBefore(rest, k, bound, items, v, m);
    }
  }

  /** So the optional positive number comes out accepting its bound. */
  lemma {:induction false} MergedBoundIsMissed(bound: real, m: Meaning)
    ensures var s := JObj(map[AnyOf := JArr([JObj(map[ExclusiveMinimum := JNum(bound)]), NULL_SCHEMA])]);
            !Accepts(V31, s, JNum(bound), m) && Accepts(V30, Downgrade(s), JNum(bound), m)
  {
    var rest: Fields := map[];
    var g := map[ExclusiveMinimum := JNum(bound)];
    var items := [JObj(g), NULL_SCHEMA];
    assert rest[ExclusiveMinimum := JNum(bound)] == g;
    assert Type !in g && Type in NULL_SCHEMA.fields;
    NotNullPair(JObj(g));
    assert items[1] == NULL_SCHEMA;
    MergedBoundAfter(rest, ExclusiveMinimum, bound, items, JNum(bound), m);
    MergedBoundBefore(rest, ExclusiveMinimum, bound, items, JNum(bound), m);
  }

  lemma {:induction false} NestedPrepared(inner: Fields, node: Fields, x: Json)
    requires inner == map[AnyOf := JArr([x, NULL_SCHEMA])] && node == map[AnyOf := JArr([JObj(inner), NULL_SCHEMA])]
    ensures Prepared(node) == inner[Nullable := JBool(true)]
  {
    assert Type !in inner && Type in NULL_SCHEMA.fields;
    MemberMerged(node, inner);
    assert Bounds(node) == node;
  }

  lemma {:induction false} PairDowngraded(x: Json)
    ensures Downgrade(JArr([x, NULL_SCHEMA])) == JArr([Downgrade(x), NULL_SCHEMA])
  {
    NullSchemaKept();
    PairMembers([x, NULL_SCHEMA], x);
  }

  lemma {:induction false} PairMembers(items: seq<Json>, x: Json)
    requires |items| == 2 && items[0] == x && Downgrade(items[1]) == NULL_SCHEMA
    ensures Downgrade(JArr(items)) == JArr([Downgrade(x), NULL_SCHEMA])
  {
    var y := Downgrade(JArr(items));
    assert |y.items| == 2 && y.items[0] == Downgrade(x) && y.items[1] == NULL_SCHEMA;
    assert y.items == [Downgrade(x), NULL_SCHEMA];
  }

  lemma {:induction false} NestedDowngraded(inner: Fields, node: Fields, x: Json)
    requires inner == map[AnyOf := JArr([x, NULL_SCHEMA])] && node == map[AnyOf := JArr([JObj(inner), NULL_SCHEMA])]
    ensures var d := Downgrade(JObj(node));
            && d.JObj? && d.fields.Keys == {AnyOf, Nullable} && d.fields[AnyOf] == JArr([Downgrade(x), NULL_SCHEMA])
            && IsTrue(d.fields, Nullable)
  {
    NestedPrepared(inner, node, x);
    PairDowngraded(x);
    PreparedShallower(node);
    EachDowngraded(Prepared(node), Depth(JObj(node)));
  }

  lemma {:induction false} NullSchemaKept()
    ensures Downgrade(NULL_SCHEMA) == NULL_SCHEMA
  {
    assert NULL_SCHEMA.fields.Keys == {Type};
    assert Prepared(NULL_SCHEMA.fields) == NULL_SCHEMA.fields;
    FlatNode(NULL_SCHEMA.fields, NULL_SCHEMA.fields);
  }

  lemma {:induction false} NullSchema30(v: Json, m: Meaning)
    ensures Accepts(V30, NULL_SCHEMA, v, m) <==> v.JNull?
  {
    OneKey(V30, NULL_SCHEMA.fields, Type, v, m);
  }

  lemma {:induction false} PairAccepts(y: Json, c: Siblings, v: Json, m: Meaning)
    ensures Holds(V30, V30, AnyOf, JArr([y, NULL_SCHEMA]), c, v, m) <==> v.JNull? || Accepts(V30, y, v, m)
  {
    NullSchema30(v, m);
    var items := [y, NULL_SCHEMA];
    assert items[0] == y && items[1] == NULL_SCHEMA;
    assert |items| == 2;
  }

  lemma {:induction false} StillLists(node: Fields, y: Json, v: Json, m: Meaning)
    requires node.Keys == {AnyOf, Nullable} && node[AnyOf] == JArr([y, NULL_SCHEMA]) && IsTrue(node, Nullable)
    ensures Accepts(V30, JObj(node), v, m) <==> v.JNull? || Accepts(V30, y, v, m)
  {
    PairAccepts(y, SiblingsOf(node), v, m);
    assert AnyOf in node && Nullable in node;
    assert AllHold(V30, V30, JObj(node), v, m) <==> Holds(V30, V30, AnyOf, node[AnyOf], SiblingsOf(node), v, m);
  }

  lemma {:induction false} NullTypeLeft(node: Fields, y: Json)
    requires AnyOf in node && node[AnyOf] == JArr([y, NULL_SCHEMA])
    ensures !Is30(JObj(node))
  {
    NullIsNot30();
    assert node[AnyOf].items[1] == NULL_SCHEMA;
    assert !Field30(AnyOf, node[AnyOf]);
  }

  /** A nullable anyOf directly inside another keeps its meaning, but its null type stays in the output, where 3.0 knows
      none. */
  lemma {:induction false} NestedNullable(x: Json, v: Json, m: Meaning)
    requires Emitted(x)
    ensures var s := JObj(map[AnyOf := JArr([JObj(map[AnyOf := JArr([x, NULL_SCHEMA])]), NULL_SCHEMA])]);
            Accepts(V30, Downgrade(s), v, m) == Accepts(V31, s, v, m) && !Is30(Downgrade(s))
  {
    var inner := map[AnyOf := JArr([x, NULL_SCHEMA])];
    var node := map[AnyOf := JArr([JObj(inner), NULL_SCHEMA])];
    NullNotEmitted();
    NestedDowngraded(inner, node, x);
    StillLists(Downgrade(JObj(node)).fields, Downgrade(x), v, m);
    NullTypeLeft(Downgrade(JObj(node)).fields, Downgrade(x));
    Preserved(x, v, m);
    OptionalMeans(inner, x.fields, v, m);
    assert Type !in inner && Type in NULL_SCHEMA.fields;
    OptionalMeans(node, inner, v, m);
  }

  lemma NullNotEmitted()
    ensures !Emitted(NULL_SCHEMA)
  {
    assert Type in NULL_SCHEMA.fields && !FieldOk(Type, NULL_SCHEMA.fields[Type], true);
  }

  // ---------- names taken for keywords ----------

  lemma {:induction false} ConstPropertyGone(named: Fields, node: Fields, demand: Json)
    requires named == map[Const := demand] && node == map[Properties := JObj(named)]
    ensures var d := Downgrade(JObj(node));
            && d.JObj? && d.fields.Keys == {Properties}
            && d.fields[Properties].JObj? && d.fields[Properties].fields.Keys == {Enum}
            && d.fields[Properties].fields[Enum].JArr?
  {
    KeptNode(node);
    ConstNode(named, demand);
  }

  lemma {:induction false} KeptNode(node: Fields)
    requires node.Keys == {Properties}
    ensures var d := Downgrade(JObj(node));
            d.JObj? && d.fields.Keys == {Properties} && d.fields[Properties] == Downgrade(node[Properties])
  {
    assert Prepared(node) == node;
    PreparedShallower(node);
    EachDowngraded(node, Depth(JObj(node)));
  }

  lemma {:induction false} ConstNode(named: Fields, demand: Json)
    requires named == map[Const := demand]
    ensures var d := Downgrade(JObj(named)); d.JObj? && d.fields.Keys == {Enum} && d.fields[Enum].JArr?
  {
    var p := map[Enum := JArr([demand])];
    assert Bounds(named) == named && NullStep(named) == named;
    assert Prepared(named) == p;
    PreparedShallower(named);
    EachDowngraded(p, Depth(JObj(named)));
  }

  /** A property called const is taken for the keyword: it disappears, and what it demanded with it, and a property called
      enum is refused from then on. So the meaning never survives. */
  lemma {:induction false} PropertyNamedConst(demand: Json, value: Json, m: Meaning)
    ensures var s := JObj(map[Properties := JObj(map[Const := demand])]);
            && (!Accepts(V31, demand, value, m) ==>
                  !Accepts(V31, s, JObj(map[Const := value]), m) && Accepts(V30, Downgrade(s), JObj(map[Const := value]), m))
            && !Same(s, JObj(map[Enum := value]), m)
  {
    var named := map[Const := demand];
    var node := map[Properties := JObj(named)];
    ConstPropertyGone(named, node, demand);
    NotDeclared(node, named, map[Enum := value], m);
    ListRefuses(Downgrade(JObj(node)).fields, Enum, map[Enum := value], m);
    if !Accepts(V31, demand, value, m) {
      ConstDemandDropped(node, named, map[Const := value], m);
    }
  }

  lemma {:induction false} ConstDemandDropped(node: Fields, named: Fields, fields: Fields, m: Meaning)
    requires node == map[Properties := JObj(named)] && named.Keys == {Const} && fields.Keys == {Const}
    requires !Accepts(V31, named[Const], fields[Const], m)
    ensures !Accepts(V31, JObj(node), JObj(fields), m) && Accepts(V30, Downgrade(JObj(node)), JObj(fields), m)
  {
    assert named == map[Const := named[Const]];
    ConstPropertyGone(named, node, named[Const]);
    OneKey(V31, node, Properties, JObj(fields), m);
    DemandRefused(named, Const, fields, SiblingsOf(node), m);
    NotAsked(Downgrade(JObj(node)).fields, fields, m);
  }

  /** A property whose schema has become a list admits nothing. */
  lemma {:induction false} ListRefuses(d: Fields, p: Text, fields: Fields, m: Meaning)
    requires d.Keys == {Properties} && d[Properties].JObj? && p in d[Properties].fields && p in fields
    requires d[Properties].fields[p].JArr?
    ensures !Accepts(V30, JObj(d), JObj(fields), m)
  {
    OneKey(V30, d, Properties, JObj(fields), m);
    assert !Accepts(V30, d[Properties].fields[p], fields[p], m);
  }

  lemma {:induction false} NotDeclared(node: Fields, named: Fields, fields: Fields, m: Meaning)
    requires node == map[Properties := JObj(named)] && named.Keys !! fields.Keys
    ensures Accepts(V31, JObj(node), JObj(fields), m)
  {
    OneKey(V31, node, Properties, JObj(fields), m);
  }

  lemma {:induction false} WrapMoves(each: Fields, k: Text)
    requires k !in {Ref, AllOf} && each.Keys == {Ref, k}
    ensures WrapRef(each).fields.Keys == {AllOf, k} && WrapRef(each).fields[AllOf].JArr?
  {
    assert |each| == |each.Keys| == 2;
  }

  lemma {:induction false} ReferencePropertyMoves(named: Fields, k: Text)
    requires k !in {Ref, AllOf, Const} && named.Keys == {Ref, k} && forall p :: p in named ==> named[p].JObj?
    ensures var d := Downgrade(JObj(named)); d.JObj? && d.fields.Keys == {AllOf, k} && d.fields[AllOf].JArr?
  {
    NamesPrepared(named);
    PreparedShallower(named);
    EachDowngraded(named, Depth(JObj(named)));
    WrapMoves(DowngradeEach(named, Depth(JObj(named))), k);
  }

  lemma {:induction false} NotAsked(d: Fields, fields: Fields, m: Meaning)
    requires d.Keys == {Properties} && d[Properties].JObj? && d[Properties].fields.Keys !! fields.Keys
    ensures Accepts(V30, JObj(d), JObj(fields), m)
  {
    OneKey(V30, d, Properties, JObj(fields), m);
  }

  /** A property called $ref among others is taken for a reference with siblings and moved: what it demanded is lost, and
      a property called allOf is refused from then on. So the meaning never survives. */
  lemma {:induction false} PropertyNamedRef(demand: Json, k: Text, other: Json, value: Json, m: Meaning)
    requires Emitted(demand) && Emitted(other) && k !in {Ref, AllOf, Const}
    ensures var s := JObj(map[Properties := JObj(map[Ref := demand, k := other])]);
            && (!Accepts(V31, demand, value, m) ==>
                  !Accepts(V31, s, JObj(map[Ref := value]), m) && Accepts(V30, Downgrade(s), JObj(map[Ref := value]), m))
            && !Same(s, JObj(map[AllOf := value]), m)
  {
    var named := map[Ref := demand, k := other];
    var node := map[Properties := JObj(named)];
    assert named.Keys == {Ref, k};
    AllOfRefused(node, named, k, map[AllOf := value], m);
    if !Accepts(V31, demand, value, m) {
      DemandDropped(node, named, k, map[Ref := value], m);
    }
  }

  lemma {:induction false} AllOfRefused(node: Fields, named: Fields, k: Text, fields: Fields, m: Meaning)
    requires k !in {Ref, AllOf, Const} && named.Keys == {Ref, k} && forall p :: p in named ==> named[p].JObj?
    requires node == map[Properties := JObj(named)] && fields.Keys == {AllOf}
    ensures !Same(JObj(node), JObj(fields), m)
  {
    ReferencePropertyMoves(named, k);
    KeptNode(node);
    NotDeclared(node, named, fields, m);
    ListRefuses(Downgrade(JObj(node)).fields, AllOf, fields, m);
  }

  lemma {:induction false} DemandDropped(node: Fields, named: Fields, k: Text, fields: Fields, m: Meaning)
    requires k !in {Ref, AllOf, Const} && named.Keys == {Ref, k} && forall p :: p in named ==> named[p].JObj?
    requires node == map[Properties := JObj(named)] && fields.Keys == {Ref} && !Accepts(V31, named[Ref], fields[Ref], m)
    ensures !Accepts(V31, JObj(node), JObj(fields), m) && Accepts(V30, Downgrade(JObj(node)), JObj(fields), m)
  {
    DemandMade(node, named, fields, m);
    ReferencePropertyMoves(named, k);
    KeptNode(node);
    NotAsked(Downgrade(JObj(node)).fields, fields, m);
  }

  lemma {:induction false} DemandMade(node: Fields, named: Fields, fields: Fields, m: Meaning)
    requires node == map[Properties := JObj(named)] && Ref in named && Ref in fields
    requires !Accepts(V31, named[Ref], fields[Ref], m)
    ensures !Accepts(V31, JObj(node), JObj(fields), m)
  {
    OneKey(V31, node, Properties, JObj(fields), m);
    DemandRefused(named, Ref, fields, SiblingsOf(node), m);
  }

  lemma {:induction false} DemandRefused(named: Fields, p: Text, fields: Fields, c: Siblings, m: Meaning)
    requires p in named && p in fields && !Accepts(V31, named[p], fields[p], m)
    ensures !Holds(V31, V31, Properties, JObj(named), c, JObj(fields), m)
  {
  }

  // ---------- a reference beside an allOf ----------

  ghost predicate AllTake(d: Dialect, items: seq<Json>, v: Json, m: Meaning) {
    forall i :: 0 <= i < |items| ==> Accepts(d, items[i], v, m)
  }

  lemma {:induction false} ReferenceLost(name: Text, items: seq<Json>)
    ensures Downgrade(JObj(map[Ref := JStr(name), AllOf := JArr(items)])) == JObj(map[AllOf := Downgrade(JArr(items))])
  {
    var node := map[Ref := JStr(name), AllOf := JArr(items)];
    assert Bounds(node) == node && NullStep(node) == node && ConstStep(node) == node;
    PreparedShallower(node);
    EachDowngraded(node, Depth(JObj(node)));
    var each := DowngradeEach(node, Depth(JObj(node)));
    assert each.Keys == {Ref, AllOf};
    assert |each| == |each.Keys| == 2;
    WrapLosesReference(each);
  }

  lemma {:induction false} WrapLosesReference(each: Fields)
    requires each.Keys == {Ref, AllOf} && |each| == 2
    ensures WrapRef(each) == JObj(map[AllOf := each[AllOf]])
  {
    var wrapped := map[AllOf := JArr([JObj(map[Ref := each[Ref]])])];
    assert wrapped + (each - {Ref}) == map[AllOf := each[AllOf]];
  }

  lemma {:induction false} ReferenceAndAll(name: Text, items: seq<Json>, v: Json, m: Meaning)
    ensures Accepts(V31, JObj(map[Ref := JStr(name), AllOf := JArr(items)]), v, m) <==>
            m.refs(name, v) && AllTake(V31, items, v, m)
  {
    var node := map[Ref := JStr(name), AllOf := JArr(items)];
    var c := SiblingsOf(node);
    assert node.Keys == {Ref, AllOf} && Ref in node && AllOf in node;
    assert AllHold(V31, V31, JObj(node), v, m) <==>
           Holds(V31, V31, Ref, node[Ref], c, v, m) && Holds(V31, V31, AllOf, node[AllOf], c, v, m);
  }

  lemma {:induction false} OnlyAll(items: seq<Json>, v: Json, m: Meaning)
    requires forall i :: 0 <= i < |items| ==> Emitted(items[i])
    ensures Accepts(V30, JObj(map[AllOf := Downgrade(JArr(items))]), v, m) <==> AllTake(V31, items, v, m)
  {
    var y := Downgrade(JArr(items));
    forall i | 0 <= i < |items| ensures Accepts(V30, y.items[i], v, m) == Accepts(V31, items[i], v, m) {
      Preserved(items[i], v, m);
    }
    OneKey(V30, map[AllOf := y], AllOf, v, m);
  }

  /** A reference beside an allOf is lost: the sibling allOf takes the place of the one that would wrap it. The meaning
      survives exactly when the reference accepted whatever all the members accept. */
  lemma {:induction false} ReferenceBesideAllOf(name: Text, items: seq<Json>, m: Meaning)
    requires forall i :: 0 <= i < |items| ==> Emitted(items[i])
    ensures var s := JObj(map[Ref := JStr(name), AllOf := JArr(items)]);
            && Downgrade(s) == JObj(map[AllOf := Downgrade(JArr(items))])
            && ((forall v :: Same(s, v, m)) <==>
                (forall v :: Follows(name, items, v, m)))
  {
    var s := JObj(map[Ref := JStr(name), AllOf := JArr(items)]);
    ReferenceLost(name, items);
    forall v
      ensures Accepts(V30, Downgrade(s), v, m) <==> AllTake(V31, items, v, m)
      ensures Accepts(V31, s, v, m) <==> m.refs(name, v) && AllTake(V31, items, v, m)
    {
      OnlyAll(items, v, m);
      ReferenceAndAll(name, items, v, m);
    }
    LostReference(s, name, items, m);
  }

  /** What all the members accept, the reference accepts. */
  ghost predicate Follows(name: Text, items: seq<Json>, v: Json, m: Meaning) {
    AllTake(V31, items, v, m) ==> m.refs(name, v)
  }

  lemma {:induction false} LostReference(s: Json, name: Text, items: seq<Json>, m: Meaning)
    requires forall v :: Accepts(V30, Downgrade(s), v, m) <==> AllTake(V31, items, v, m)
    requires forall v :: Accepts(V31, s, v, m) <==> m.refs(name, v) && AllTake(V31, items, v, m)
    ensures (forall v :: Same(s, v, m)) <==>
            (forall v :: Follows(name, items, v, m))
  {
    if v :| !Follows(name, items, v, m) {
      assert !Same(s, v, m);
    } else {
      forall v ensures Same(s, v, m) {
        assert Follows(name, items, v, m);
      }
    }
  }
}
