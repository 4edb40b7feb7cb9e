/** When rewriting a schema a second time changes nothing. */
module SchemaRepeats {
  import opened Schema
  import opened SchemaMeaning
  import opened SchemaPreserved

  /** Data that mentions no keyword the rewriting reacts to. */
  predicate Inert(x: Json) {
    match x
    case JArr(items) => forall i :: 0 <= i < |items| ==> Inert(items[i])
    case JObj(fields) =>
      && fields.Keys !! {Const, Ref, AnyOf, ExclusiveMinimum, ExclusiveMaximum}
      && forall k :: k in fields ==> Inert(fields[k])
    case _ => true
  }

  /** ok holds of s and of every schema inside it. */
  ghost predicate Everywhere(s: Json, ok: Fields -> bool)
    decreases s, 1
  {
    s.JObj? ==> ok(s.fields) && forall k :: k in s.fields ==> Inside(k, s.fields[k], ok)
  }

  /** ok holds of every schema in the value of this keyword. */
  ghost predicate Inside(k: Text, x: Json, ok: Fields -> bool)
    decreases x, 2
  {
    match k
    case AnyOf => x.JArr? ==> forall i :: 0 <= i < |x.items| ==> Everywhere(x.items[i], ok)
    case AllOf => x.JArr? ==> forall i :: 0 <= i < |x.items| ==> Everywhere(x.items[i], ok)
    case Items => Everywhere(x, ok)
    case Properties => x.JObj? ==> forall p :: p in x.fields ==> Everywhere(x.fields[p], ok)
    case AdditionalProperties => Everywhere(x, ok)
    case _ => true
  }

  predicate Unbounded(node: Fields) {
    ExclusiveMinimum !in node && ExclusiveMaximum !in node
  }

  predicate InertNotes(node: Fields) {
    forall k :: k in node && Annotation(k) ==> Inert(node[k])
  }

  /** No exclusive bound, here or in any schema inside. */
  ghost predicate NoExclusive(s: Json) {
    Everywhere(s, Unbounded)
  }

  /** Titles, descriptions, defaults and examples are data the rewriting leaves alone. */
  ghost predicate InertAnnotations(s: Json) {
    Everywhere(s, InertNotes)
  }

  lemma {:induction false} InertKept(x: Json)
    requires Inert(x)
    ensures Downgrade(x) == x
  {
    if x.JArr? {
      forall i | 0 <= i < |x.items| ensures Downgrade(x.items[i]) == x.items[i] {
        InertKept(x.items[i]);
      }
    } else if x.JObj? {
      forall k | k in x.fields ensures Downgrade(x.fields[k]) == x.fields[k] {
        InertKept(x.fields[k]);
      }
      InertNode(x.fields);
    }
  }

  lemma {:induction false} InertNode(node: Fields)
    requires node.Keys !! {Const, Ref, AnyOf, ExclusiveMinimum, ExclusiveMaximum}
    requires forall k :: k in node ==> Downgrade(node[k]) == node[k]
    ensures Downgrade(JObj(node)) == JObj(node)
  {
    assert Prepared(node) == node;
    PreparedShallower(node);
    EachDowngraded(node, Depth(JObj(node)));
    assert DowngradeEach(node, Depth(JObj(node))) == node;
  }

  // ---------- one node, rewritten again ----------

  /** What is left to a second pass at a rewritten node. */
  ghost predicate Rewrote(w: Fields) {
    && Const !in w && !AnyOfNull(w)
    && (ExclusiveMinimum in w ==> w[ExclusiveMinimum] == JBool(true) && Minimum in w && w[Minimum].JNum?)
    && (ExclusiveMaximum in w ==> w[ExclusiveMaximum] == JBool(true) && Maximum in w && w[Maximum].JNum?)
  }

  ghost predicate FieldsFixed(w: Fields) {
    forall k :: k in w ==> Downgrade(w[k]) == w[k]
  }

  lemma {:induction false} UnboundedFixed(w: Fields)
    requires Rewrote(w) && (Ref in w ==> |w| == 1) && Unbounded(w)
    ensures Downgrade(JObj(w)) == JObj(w) <==> FieldsFixed(w)
  {
    assert Prepared(w) == w;
    UntouchedFixed(w);
  }

  /** The boolean written for an exclusive bound is taken for the bound. */
  lemma {:induction false} TakenForBound(w: Fields)
    requires Rewrote(w) && Ref !in w && !Unbounded(w)
    ensures Prepared(w).Keys == w.Keys
    ensures ExclusiveMinimum in w ==> Prepared(w)[Minimum] == JBool(true)
    ensures ExclusiveMaximum in w ==> Prepared(w)[Maximum] == JBool(true)
  {
    assert NullStep(Bounds(w)) == Bounds(w);
  }

  lemma {:induction false} BoundNotFixed(w: Fields)
    requires Rewrote(w) && Ref !in w && !Unbounded(w)
    ensures Downgrade(JObj(w)) != JObj(w)
  {
    var p := Prepared(w);
    TakenForBound(w);
    PreparedShallower(w);
    EachDowngraded(p, Depth(JObj(w)));
    assert Downgrade(JBool(true)) == JBool(true);
  }

  lemma {:induction false} LoneReferenceFixed(r: Json)
    requires Plain(r)
    ensures Downgrade(JArr([JObj(map[Ref := r])])) == JArr([JObj(map[Ref := r])])
  {
    var one := map[Ref := r];
    PlainKept(r);
    assert one.Keys == {Ref};
    UnboundedFixed(one);
    var items := [JObj(one)];
    assert Downgrade(JArr(items)).items == items;
  }

  /** Moving a reference into an allOf changes no other field. */
  lemma {:induction false} MovedFixed(each: Fields, w: Fields)
    requires Ref in each && AllOf !in each && Ref !in w && AllOf in w
    requires forall k :: k != Ref && k != AllOf ==> (k in w <==> k in each) && (k in w ==> w[k] == each[k])
    requires Downgrade(each[Ref]) == each[Ref] && Downgrade(w[AllOf]) == w[AllOf]
    ensures FieldsFixed(w) <==> FieldsFixed(each)
  {
    if FieldsFixed(w) {
      forall k | k in each ensures Downgrade(each[k]) == each[k] {
        assert k != Ref ==> k in w && Downgrade(w[k]) == w[k];
      }
    }
    if FieldsFixed(each) {
      forall k | k in w ensures Downgrade(w[k]) == w[k] {
        assert k != AllOf ==> k in each && Downgrade(each[k]) == each[k];
      }
    }
  }

  lemma {:induction false} MovedRewrote(each: Fields, w: Fields)
    requires Rewrote(each)
    requires forall k :: k != Ref && k != AllOf ==> (k in w <==> k in each) && (k in w ==> w[k] == each[k])
    ensures Rewrote(w) && (Unbounded(w) <==> Unbounded(each))
  {
  }

  lemma {:induction false} ReferenceFixed(each: Fields, w: Fields)
    requires Rewrote(each) && Ref in each && AllOf !in each && Plain(each[Ref])
    requires w == map[AllOf := JArr([JObj(map[Ref := each[Ref]])])] + (each - {Ref})
    ensures Downgrade(JObj(w)) == JObj(w) <==> Unbounded(each) && FieldsFixed(each)
  {
    WrappedKeys(each, w);
    LoneReferenceFixed(each[Ref]);
    PlainKept(each[Ref]);
    MovedFixed(each, w);
    MovedRewrote(each, w);
    NodeFixed(w);
  }

  lemma {:induction false} WrappedFixed(each: Fields)
    requires Rewrote(each) && !(Ref in each && AllOf in each) && (Ref in each ==> Plain(each[Ref]))
    ensures Downgrade(WrapRef(each)) == WrapRef(each) <==> Unbounded(each) && FieldsFixed(each)
  {
    if Ref in each && |each| > 1 {
      ReferenceFixed(each, map[AllOf := JArr([JObj(map[Ref := each[Ref]])])] + (each - {Ref}));
    } else {
      if Ref in each {
        assert each.Keys != {};
      }
      NodeFixed(each);
    }
  }

  lemma {:induction false} NodeFixed(w: Fields)
    requires Rewrote(w) && (Ref in w ==> |w| == 1)
    ensures Downgrade(JObj(w)) == JObj(w) <==> Unbounded(w) && FieldsFixed(w)
  {
    if Unbounded(w) {
      UnboundedFixed(w);
    } else {
      if Ref in w {
        LoneNode(w);
      }
      BoundNotFixed(w);
    }
  }

  // ---------- what preparing a node leaves in place ----------

  ghost predicate AllInside(p: Fields, ok: Fields -> bool) {
    forall k :: k in p ==> Inside(k, p[k], ok)
  }

  predicate BoundsPaired(p: Fields) {
    (ExclusiveMinimum in p ==> Minimum in p) && (ExclusiveMaximum in p ==> Maximum in p)
  }

  /** The prepared node holds the schemas and annotations of the node it comes from. */
  ghost predicate HoldsSame(s: Json, p: Fields) {
    && BoundsPaired(p)
    && (NoExclusive(s) <==> Unbounded(p) && AllInside(p, Unbounded))
    && (InertAnnotations(s) ==> InertNotes(p) && AllInside(p, InertNotes))
  }

  lemma {:induction false} NotesStay(node: Fields)
    requires !AnyOfNull(node)
    ensures forall k :: k in Prepared(node) && Annotation(k) ==> k in node && Prepared(node)[k] == node[k]
  {
    assert NullStep(Bounds(node)) == Bounds(node);
  }

  lemma {:induction false} SameInside(node: Fields, p: Fields, ok: Fields -> bool)
    requires Rewritten(node, p)
    ensures AllInside(p, ok) <==> AllInside(node, ok)
    ensures BoundsPaired(p)
  {
    forall k | k in p && !Applicator(k) ensures Inside(k, p[k], ok) {
    }
    forall k | k in node && !Applicator(k) ensures Inside(k, node[k], ok) {
    }
    assert forall k :: Applicator(k) ==> (k in p <==> k in node) && (k in node ==> p[k] == node[k]);
  }

  lemma {:induction false} PlainInside(node: Fields, p: Fields)
    requires Rewritten(node, p)
    ensures BoundsPaired(p) && (NoExclusive(JObj(node)) <==> Unbounded(p) && AllInside(p, Unbounded))
  {
    SameInside(node, p, Unbounded);
    assert Unbounded(p) <==> Unbounded(node);
  }

  lemma {:induction false} PlainNotes(node: Fields, p: Fields)
    requires Rewritten(node, p) && forall k :: k in p && Annotation(k) ==> k in node && p[k] == node[k]
    requires InertAnnotations(JObj(node))
    ensures InertNotes(p) && AllInside(p, InertNotes)
  {
    SameInside(node, p, InertNotes);
    assert InertNotes(node);
  }

  lemma {:induction false} PlainHoldsSame(node: Fields)
    requires Emitted(JObj(node)) && !AnyOfNull(node)
    ensures HoldsSame(JObj(node), Prepared(node))
  {
    var p := Prepared(node);
    PlainPrepared(node);
    PlainInside(node, p);
    if InertAnnotations(JObj(node)) {
      NotesStay(node);
      PlainNotes(node, p);
    }
  }

  ghost predicate AllEverywhere(items: seq<Json>, ok: Fields -> bool) {
    forall x :: x in items ==> Everywhere(x, ok)
  }

  lemma {:induction false} NotNullEverywhere(items: seq<Json>, ok: Fields -> bool)
    requires ok(NULL_SCHEMA.fields)
    ensures AllEverywhere(items, ok) <==> AllEverywhere(NotNull(items), ok)
  {
    NotNullMembers(items);
    assert Everywhere(NULL_SCHEMA, ok);
  }

  lemma {:induction false} ItemsEverywhere(items: seq<Json>, ok: Fields -> bool)
    ensures Inside(AnyOf, JArr(items), ok) <==> AllEverywhere(items, ok)
  {
    if AllEverywhere(items, ok) {
      forall i | 0 <= i < |items| ensures Everywhere(items[i], ok) {
        assert items[i] in items;
      }
    }
  }

  /** A nullable anyOf holds what its members hold. */
  lemma {:induction false} AnyOfEverywhere(node: Fields, ok: Fields -> bool)
    requires AnyOfNull(node) && ok(node) && ok(NULL_SCHEMA.fields)
    requires forall k :: k in node ==> k == AnyOf || Annotation(k)
    ensures var rest := NotNull(node[AnyOf].items);
            Everywhere(JObj(node), ok) <==> AllEverywhere(rest, ok)
  {
    assert forall k :: k in node && k != AnyOf ==> Inside(k, node[k], ok);
    assert Everywhere(JObj(node), ok) <==> Inside(AnyOf, node[AnyOf], ok);
    ItemsEverywhere(node[AnyOf].items, ok);
    NotNullEverywhere(node[AnyOf].items, ok);
  }

  lemma {:induction false} NotesOfMerged(node: Fields, g: Fields)
    requires AnyOfNull(node) && NotNull(node[AnyOf].items) == [JObj(g)] && Bounds(node) == node
    requires InertNotes(node) && InertNotes(g)
    ensures InertNotes(Prepared(node))
  {
    assert NullStep(node) == ((node - {AnyOf}) + g)[Nullable := JBool(true)];
  }

  lemma {:induction false} MergedInside(node: Fields, g: Fields, ok: Fields -> bool)
    requires AnyOfNull(node) && NotNull(node[AnyOf].items) == [JObj(g)] && Rewritten(g, Prepared(node))
    requires forall k :: k in node ==> k == AnyOf || Annotation(k)
    requires ok(node) && ok(NULL_SCHEMA.fields)
    ensures var p := Prepared(node);
            Everywhere(JObj(node), ok) <==> ok(g) && AllInside(p, ok)
  {
    SameInside(g, Prepared(node), ok);
    AnyOfEverywhere(node, ok);
    OneEverywhere(JObj(g), ok);
  }

  lemma OneEverywhere(x: Json, ok: Fields -> bool)
    ensures AllEverywhere([x], ok) <==> Everywhere(x, ok)
  {
    assert x in [x];
  }

  lemma {:induction false} MergedBounds(g: Fields, p: Fields)
    requires Rewritten(g, p) && Mergeable(g)
    ensures Unbounded(g) && Unbounded(p)
  {
  }

  lemma {:induction false} MergedHoldsSame(node: Fields, g: Fields)
    requires AnyOfNull(node) && NotNull(node[AnyOf].items) == [JObj(g)]
    requires forall k :: k in node ==> k == AnyOf || Annotation(k)
    requires NoDoubles(g) && Mergeable(g)
    ensures HoldsSame(JObj(node), Prepared(node))
  {
    NoBounds(node);
    MergedRewrites(node, g);
    MergedBounds(g, Prepared(node));
    MergedInside(node, g, Unbounded);
    if InertAnnotations(JObj(node)) {
      MergedNotes(node, g);
    }
  }

  lemma {:induction false} MergedNotes(node: Fields, g: Fields)
    requires AnyOfNull(node) && NotNull(node[AnyOf].items) == [JObj(g)] && Rewritten(g, Prepared(node))
    requires forall k :: k in node ==> k == AnyOf || Annotation(k)
    requires InertAnnotations(JObj(node)) && Bounds(node) == node
    ensures InertNotes(Prepared(node)) && AllInside(Prepared(node), InertNotes)
  {
    assert InertNotes(node);
    MergedInside(node, g, InertNotes);
    NotesOfMerged(node, g);
  }

  lemma {:induction false} SeveralHoldSame(node: Fields, rest: seq<Json>)
    requires AnyOfNull(node) && rest == NotNull(node[AnyOf].items) && |rest| > 1
    requires forall k :: k in node ==> k == AnyOf || Annotation(k)
    ensures HoldsSame(JObj(node), Prepared(node))
  {
    var q := Prepared(node);
    SeveralShape(node, rest);
    SeveralBounds(node, q, rest);
    if InertAnnotations(JObj(node)) {
      SeveralNotes(node, q, rest);
    }
  }

  lemma {:induction false} SeveralShape(node: Fields, rest: seq<Json>)
    requires AnyOfNull(node) && rest == NotNull(node[AnyOf].items) && |rest| > 1
    requires forall k :: k in node ==> k == AnyOf || Annotation(k)
    ensures var q := Prepared(node);
            && AnyOf in q && q[AnyOf] == JArr(rest)
            && (forall k :: k in q ==> k == AnyOf || Free(k))
            && (forall k :: k in q && Annotation(k) ==> k in node && q[k] == node[k])
  {
    NoBounds(node);
    StillAnyOfPrepared(node, rest, (node - {AnyOf})[AnyOf := JArr(rest)][Nullable := JBool(true)]);
  }

  lemma {:induction false} SeveralBounds(node: Fields, q: Fields, rest: seq<Json>)
    requires AnyOfNull(node) && rest == NotNull(node[AnyOf].items)
    requires forall k :: k in node ==> k == AnyOf || Annotation(k)
    requires AnyOf in q && q[AnyOf] == JArr(rest) && forall k :: k in q ==> k == AnyOf || Free(k)
    ensures BoundsPaired(q) && (NoExclusive(JObj(node)) <==> Unbounded(q) && AllInside(q, Unbounded))
  {
    SeveralInside(q, rest, Unbounded);
    AnyOfEverywhere(node, Unbounded);
  }

  lemma {:induction false} SeveralNotes(node: Fields, q: Fields, rest: seq<Json>)
    requires AnyOfNull(node) && rest == NotNull(node[AnyOf].items)
    requires forall k :: k in node ==> k == AnyOf || Annotation(k)
    requires AnyOf in q && q[AnyOf] == JArr(rest) && forall k :: k in q ==> k == AnyOf || Free(k)
    requires forall k :: k in q && Annotation(k) ==> k in node && q[k] == node[k]
    requires InertAnnotations(JObj(node))
    ensures InertNotes(q) && AllInside(q, InertNotes)
  {
    assert InertNotes(node);
    SeveralInside(q, rest, InertNotes);
    AnyOfEverywhere(node, InertNotes);
  }

  lemma {:induction false} SeveralInside(q: Fields, rest: seq<Json>, ok: Fields -> bool)
    requires AnyOf in q && q[AnyOf] == JArr(rest) && forall k :: k in q ==> k == AnyOf || Free(k)
    ensures AllInside(q, ok) <==> AllEverywhere(rest, ok)
  {
    assert forall k :: k in q && k != AnyOf ==> Inside(k, q[k], ok);
    ItemsEverywhere(rest, ok);
  }

  lemma {:induction false} PreparedHoldsSame(node: Fields)
    requires Emitted(JObj(node))
    ensures HoldsSame(JObj(node), Prepared(node))
  {
    if AnyOfNull(node) {
      var rest := NotNull(node[AnyOf].items);
      RemainingEmitted(node);
      if |rest| == 1 {
        assert rest == [JObj(rest[0].fields)] && Emitted(rest[0]);
        MergedHoldsSame(node, rest[0].fields);
      } else {
        SeveralHoldSame(node, rest);
      }
    } else {
      PlainHoldsSame(node);
    }
  }

  // ---------- the whole schema ----------

  lemma {:induction false} MembersFixed(items: seq<Json>)
    requires forall i :: 0 <= i < |items| ==> Emitted(items[i]) && InertAnnotations(items[i])
    ensures var y := Downgrade(JArr(items));
            Downgrade(y) == y <==> forall i :: 0 <= i < |items| ==> NoExclusive(items[i])
    decreases Depth(JArr(items)), 2
  {
    ItemsShallower(items);
    forall i | 0 <= i < |items|
      ensures Downgrade(Downgrade(items[i])) == Downgrade(items[i]) <==> NoExclusive(items[i])
    {
      IdempotentExactly(items[i]);
    }
    var y := Downgrade(JArr(items));
    assert forall i :: 0 <= i < |items| ==> y.items[i] == Downgrade(items[i]);
    if Downgrade(y) == y {
      forall i | 0 <= i < |items| ensures NoExclusive(items[i]) {
        assert Downgrade(y).items[i] == Downgrade(y.items[i]);
      }
    } else {
      assert Downgrade(y).items != y.items;
    }
  }

  lemma {:induction false} PropertiesFixed(x: Json)
    requires FieldOk(Properties, x, false) && Inside(Properties, x, InertNotes)
    ensures Downgrade(Downgrade(x)) == Downgrade(x) <==> Inside(Properties, x, Unbounded)
    decreases Depth(x), 2
  {
    FieldsShallower(x.fields);
    var y := Downgrade(x);
    PropertiesDowngraded(x);
    forall p | p in x.fields
      ensures Downgrade(y.fields[p]) == y.fields[p] <==> NoExclusive(x.fields[p])
      ensures y.fields[p].JObj?
    {
      assert Emitted(x.fields[p]) && InertAnnotations(x.fields[p]);
      IdempotentExactly(x.fields[p]);
    }
    NamesFixed(x.fields, y.fields);
  }

  lemma {:induction false} NamesPrepared(w: Fields)
    requires Const !in w && forall p :: p in w ==> w[p].JObj?
    ensures Prepared(w) == w
  {
    assert Bounds(w) == w && NullStep(w) == w;
  }

  /** A dictionary of properties is rewritten property by property. */
  lemma {:induction false} NamesFixed(names: Fields, w: Fields)
    requires SafeNames(names) && w.Keys == names.Keys && forall p :: p in w ==> w[p].JObj?
    ensures Downgrade(JObj(w)) == JObj(w) <==> FieldsFixed(w)
  {
    assert |w| == |w.Keys| == |names.Keys| == |names|;
    NamesPrepared(w);
    UntouchedFixed(w);
  }

  /** A node that preparing leaves alone and that needs no wrapping. */
  lemma {:induction false} UntouchedFixed(w: Fields)
    requires Prepared(w) == w && (Ref in w ==> |w| == 1)
    ensures Downgrade(JObj(w)) == JObj(w) <==> FieldsFixed(w)
  {
    PreparedShallower(w);
    var each := DowngradeEach(w, Depth(JObj(w)));
    EachDowngraded(w, Depth(JObj(w)));
    assert |each| == |each.Keys| == |w.Keys| == |w|;
    assert Downgrade(JObj(w)) == JObj(each);
    assert each == w <==> FieldsFixed(w);
  }

  lemma {:induction false} KeywordFixed(k: Text, x: Json)
    requires PreparedField(k, x) && k != Const && (Annotation(k) ==> Inert(x)) && Inside(k, x, InertNotes)
    ensures Downgrade(Downgrade(x)) == Downgrade(x) <==> Inside(k, x, Unbounded)
    decreases Depth(x), 3
  {
    if k == AnyOf || k == AllOf {
      ApplicatorOk(k, x);
      MembersFixed(x.items);
    } else if k == Items || (k == AdditionalProperties && !x.JBool?) {
      ApplicatorOk(k, x);
      IdempotentExactly(x);
    } else if k == Properties {
      ApplicatorOk(k, x);
      PropertiesFixed(x);
    } else {
      LeafFixed(k, x);
    }
  }

  lemma {:induction false} LeafFixed(k: Text, x: Json)
    requires PreparedField(k, x) && k != Const && (Annotation(k) ==> Inert(x))
    requires !Applicator(k) || (k == AdditionalProperties && x.JBool?)
    ensures Downgrade(x) == x && Inside(k, x, Unbounded)
  {
    if Annotation(k) {
      InertKept(x);
    } else if !Applicator(k) && !Free(k) {
      OtherPlain(k, x);
      PlainKept(x);
    }
  }

  lemma {:induction false} NoNullLeft(x: Json)
    requires FieldOk(AnyOf, x, false)
    ensures Downgrade(x).JArr? && NULL_SCHEMA !in Downgrade(x).items
  {
    FieldIs30(AnyOf, x);
    NullIsNot30();
  }

  lemma {:induction false} BoundFields(p: Fields)
    requires PreparedNode(p)
    ensures Minimum in p ==> p[Minimum].JNum?
    ensures Maximum in p ==> p[Maximum].JNum?
    ensures Ref in p ==> p[Ref].JStr?
    ensures AnyOf in p ==> FieldOk(AnyOf, p[AnyOf], false)
  {
    if Minimum in p {
      PreparedAt(p, Minimum);
    }
    if Maximum in p {
      PreparedAt(p, Maximum);
    }
    if Ref in p {
      PreparedAt(p, Ref);
    }
    if AnyOf in p {
      PreparedAt(p, AnyOf);
    }
  }

  lemma {:induction false} EachRewrote(p: Fields, each: Fields)
    requires PreparedNode(p) && each.Keys == p.Keys && forall k :: k in p ==> each[k] == Downgrade(p[k])
    requires BoundsPaired(p)
    ensures Rewrote(each) && !(Ref in each && AllOf in each) && (Ref in each ==> Plain(each[Ref]))
  {
    PreparedFlags(p);
    BoundFields(p);
    if AnyOf in p {
      NoNullLeft(p[AnyOf]);
    }
  }

  lemma {:induction false} NullIsNot30()
    ensures !Is30(NULL_SCHEMA)
  {
    assert Type in NULL_SCHEMA.fields && NULL_SCHEMA.fields[Type] == JStr(NullName);
    assert !Field30(Type, NULL_SCHEMA.fields[Type]);
  }

  /** Rewriting an emitted schema again changes nothing if and only if the schema has no exclusive bound anywhere: a
      second pass takes the boolean it wrote beside a bound for the bound itself. */
  lemma {:induction false} IdempotentExactly(s: Json)
    requires Emitted(s) && InertAnnotations(s)
    ensures Downgrade(Downgrade(s)) == Downgrade(s) <==> NoExclusive(s)
    decreases Depth(s), 1
  {
    var p := Prepared(s.fields);
    PreparedIsPrepared(s.fields);
    PreparedHoldsSame(s.fields);
    PreparedShallower(s.fields);
    var each := DowngradeEach(p, Depth(s));
    EachDowngraded(p, Depth(s));
    forall k | k in p ensures Downgrade(each[k]) == each[k] <==> Inside(k, p[k], Unbounded) {
      PreparedAt(p, k);
      KeywordFixed(k, p[k]);
    }
    EachRewrote(p, each);
    WrappedFixed(each);
  }

  // ---------- annotations ----------

  /** The annotation the rewritten node carries: that of the member merged into a nullable anyOf, if it has one, else the
      node's own. */
  predicate Noted(node: Fields, k: Text, x: Json) {
    if AnyOfNull(node) && |NotNull(node[AnyOf].items)| == 1 && NotNull(node[AnyOf].items)[0].JObj?
       && k in NotNull(node[AnyOf].items)[0].fields
    then x == NotNull(node[AnyOf].items)[0].fields[k]
    else k in node && node[k] == x
  }

  lemma {:induction false} BoundsKeepNotes(node: Fields, k: Text)
    requires Annotation(k)
    ensures k in Bounds(node) <==> k in node
    ensures k in node ==> Bounds(node)[k] == node[k]
    ensures AnyOfNull(Bounds(node)) <==> AnyOfNull(node)
    ensures AnyOfNull(node) ==> Bounds(node)[AnyOf] == node[AnyOf]
  {
  }

  lemma {:induction false} NullStepKeepsNotes(node: Fields, k: Text, x: Json)
    requires Annotation(k)
    ensures k in NullStep(node) && NullStep(node)[k] == x <==> Noted(node, k, x)
  {
  }

  lemma {:induction false} ConstStepKeepsNotes(node: Fields, k: Text)
    requires Annotation(k)
    ensures k in ConstStep(node) <==> k in node
    ensures k in node ==> ConstStep(node)[k] == node[k]
  {
  }

  lemma {:induction false} PreparedKeepsNotes(node: Fields, k: Text, x: Json)
    requires Annotation(k)
    ensures k in Prepared(node) && Prepared(node)[k] == x <==> Noted(node, k, x)
  {
    BoundsKeepNotes(node, k);
    NullStepKeepsNotes(Bounds(node), k, x);
    ConstStepKeepsNotes(NullStep(Bounds(node)), k);
  }

  lemma {:induction false} WrapKeepsNotes(each: Fields, k: Text)
    requires Annotation(k)
    ensures WrapRef(each).JObj? && (k in WrapRef(each).fields <==> k in each)
    ensures k in each ==> WrapRef(each).fields[k] == each[k]
  {
  }

  /** Title, description, default and examples survive with their values, and none is invented: the rewritten node has an
      annotation with inert data exactly when the node, or the member merged into it, has it. */
  lemma {:induction false} AnnotationsSurvive(node: Fields, k: Text, x: Json)
    requires Annotation(k) && Inert(x)
    ensures Noted(node, k, x) ==>
              var d := Downgrade(JObj(node)); d.JObj? && k in d.fields && d.fields[k] == x
    ensures var d := Downgrade(JObj(node));
            d.JObj? && (k in d.fields ==> exists y :: Noted(node, k, y) && d.fields[k] == Downgrade(y))
  {
    var p := Prepared(node);
    PreparedShallower(node);
    EachDowngraded(p, Depth(JObj(node)));
    WrapKeepsNotes(DowngradeEach(p, Depth(JObj(node))), k);
    PreparedKeepsNotes(node, k, x);
    InertKept(x);
    if k in p {
      PreparedKeepsNotes(node, k, p[k]);
    }
  }
}
