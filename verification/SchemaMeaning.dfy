/** What a schema accepts, in OpenAPI 3.1 (JSON Schema 2020-12) and in 3.0, and which schemas FastAPI emits. */
module SchemaMeaning {
  import opened Schema

  datatype Dialect = V31 | V30

  /** What a reference stands for, and the assertion every keyword not listed below makes, the same in both dialects:
      lengths, patterns, formats and the like. Both are arbitrary. */
  datatype Meaning = Meaning(refs: (Text, Json) -> bool, other: (Text, Json, Json) -> bool)

  /** What a keyword may look at beside its own value. */
  datatype Siblings = Siblings(exclusiveLow: bool, exclusiveHigh: bool, declared: set<Text>)

  predicate IsTrue(node: Fields, key: Text) {
    key in node && node[key] == JBool(true)
  }

  function SiblingsOf(node: Fields): Siblings {
    Siblings(IsTrue(node, ExclusiveMinimum), IsTrue(node, ExclusiveMaximum),
             if Properties in node && node[Properties].JObj? then node[Properties].fields.Keys else {})
  }

  predicate TypeMatches(name: Text, v: Json) {
    match name
    case NullName => v.JNull?
    case BooleanName => v.JBool?
    case IntegerName => v.JNum? && v.n == v.n.Floor as real
    case NumberName => v.JNum?
    case StringName => v.JStr?
    case ArrayName => v.JArr?
    case ObjectName => v.JObj?
    case _ => false
  }

  predicate RefHolds(x: Json, v: Json, m: Meaning) {
    x.JStr? ==> m.refs(x.s, v)
  }

  /** s accepts v. In 3.0 a reference hides its siblings, and nullable reads "null or the rest". */
  ghost predicate Accepts(d: Dialect, s: Json, v: Json, m: Meaning)
    decreases s, 3
  {
    match s
    case JBool(b) => b
    case JObj(node) =>
      if d.V30? && Ref in node then RefHolds(node[Ref], v, m)
      else (d.V30? && IsTrue(node, Nullable) && v.JNull?) || AllHold(d, d, s, v, m)
    case _ => false
  }

  /** Every keyword of the node holds of v; its subschemas are read in dialect `inner`. */
  ghost predicate AllHold(own: Dialect, inner: Dialect, s: Json, v: Json, m: Meaning)
    requires s.JObj?
    decreases s, 2
  {
    forall k :: k in s.fields ==> Holds(own, inner, k, s.fields[k], SiblingsOf(s.fields), v, m)
  }

  /** The assertion of one keyword. */
  ghost predicate Holds(own: Dialect, inner: Dialect, k: Text, x: Json, c: Siblings, v: Json, m: Meaning)
    decreases x, 4
  {
    match k
    case Type => x.JStr? ==> TypeMatches(x.s, v)
    case Enum => x.JArr? ==> v in x.items
    case Const => own.V31? ==> v == x
    case Minimum =>
      x.JNum? && v.JNum? ==> if own.V30? && c.exclusiveLow then v.n > x.n else v.n >= x.n
    case Maximum =>
      x.JNum? && v.JNum? ==> if own.V30? && c.exclusiveHigh then v.n < x.n else v.n <= x.n
    case ExclusiveMinimum => own.V31? && x.JNum? && v.JNum? ==> v.n > x.n
    case ExclusiveMaximum => own.V31? && x.JNum? && v.JNum? ==> v.n < x.n
    case AnyOf => x.JArr? ==> exists i :: 0 <= i < |x.items| && Accepts(inner, x.items[i], v, m)
    case AllOf => x.JArr? ==> forall i :: 0 <= i < |x.items| ==> Accepts(inner, x.items[i], v, m)
    case Items => v.JArr? ==> forall i :: 0 <= i < |v.items| ==> Accepts(inner, x, v.items[i], m)
    case Properties =>
      x.JObj? && v.JObj? ==>
        forall p :: p in x.fields && p in v.fields ==> Accepts(inner, x.fields[p], v.fields[p], m)
    case AdditionalProperties =>
      v.JObj? ==> forall p :: p in v.fields && p !in c.declared ==> Accepts(inner, x, v.fields[p], m)
    case Required =>
      x.JArr? && v.JObj? ==> forall i :: 0 <= i < |x.items| && x.items[i].JStr? ==> x.items[i].s in v.fields
    case Ref => RefHolds(x, v, m)
    case Nullable => true
    case Title => true
    case Description => true
    case Default => true
    case Examples => true
    case _ => m.other(k, x, v)
  }

  // ---------- the schemas FastAPI emits ----------

  /** Data without objects: the rewriting leaves it alone. */
  predicate Plain(x: Json) {
    match x
    case JArr(items) => forall i :: 0 <= i < |items| ==> Plain(items[i])
    case JObj(_) => false
    case _ => true
  }

  predicate Annotation(k: Text) {
    k in {Title, Description, Default, Examples}
  }

  predicate TypeName(s: Text) {
    s in {BooleanName, IntegerName, NumberName, StringName, ArrayName, ObjectName}
  }

  /** A property may not be called const, and one called $ref must be the only one. */
  predicate SafeNames(properties: Fields) {
    Const !in properties && (Ref in properties ==> |properties| == 1)
  }

  /** Fit to be the merged member of a nullable anyOf: numeric exclusive bounds and a null member of its own would be
      missed. */
  predicate Mergeable(g: Fields) {
    ExclusiveMinimum !in g && ExclusiveMaximum !in g && !AnyOfNull(g)
  }

  /** Only annotations beside a nullable anyOf, and something besides null in it. */
  predicate NullableShape(node: Fields) {
    AnyOfNull(node) ==>
      var remaining := NotNull(node[AnyOf].items);
      && (forall k :: k in node ==> k == AnyOf || Annotation(k))
      && remaining != []
      && (|remaining| == 1 ==> remaining[0].JObj? && Mergeable(remaining[0].fields))
  }

  /** Nothing is said twice at one node. */
  predicate NoDoubles(node: Fields) {
    && Nullable !in node
    && !(Const in node && Enum in node)
    && !(Minimum in node && ExclusiveMinimum in node)
    && !(Maximum in node && ExclusiveMaximum in node)
    && !(Ref in node && AllOf in node)
  }

  predicate Emitted(s: Json)
    decreases s, 0
  {
    s.JObj? && NoDoubles(s.fields) && NullableShape(s.fields)
    && forall k :: k in s.fields ==> FieldOk(k, s.fields[k], true)
  }

  /** The value a keyword may have; `nulls` says whether anyOf may still list the null type. */
  predicate FieldOk(k: Text, x: Json, nulls: bool)
    decreases x, 1
  {
    match k
    case Type => x.JStr? && TypeName(x.s)
    case Enum => x.JArr? && Plain(x)
    case Minimum => x.JNum?
    case Maximum => x.JNum?
    case ExclusiveMinimum => x.JNum?
    case ExclusiveMaximum => x.JNum?
    case AnyOf => x.JArr? && forall i :: 0 <= i < |x.items| ==> (nulls && x.items[i] == NULL_SCHEMA) || Emitted(x.items[i])
    case AllOf => x.JArr? && forall i :: 0 <= i < |x.items| ==> Emitted(x.items[i])
    case Items => Emitted(x)
    case Properties => x.JObj? && SafeNames(x.fields) && forall p :: p in x.fields ==> Emitted(x.fields[p])
    case AdditionalProperties => x.JBool? || Emitted(x)
    case Ref => x.JStr?
    case Title => true
    case Description => true
    case Default => true
    case Examples => true
    case _ => Plain(x)
  }

  /** Free of 3.1-only constructs: no const, no numeric exclusive bound, no null type, no reference with siblings. */
  predicate Is30(s: Json)
    decreases s, 0
  {
    s.JObj? && Const !in s.fields && (Ref in s.fields ==> |s.fields| == 1)
    && forall k :: k in s.fields ==> Field30(k, s.fields[k])
  }

  predicate Field30(k: Text, x: Json)
    decreases x, 1
  {
    match k
    case Type => x.JStr? && TypeName(x.s)
    case ExclusiveMinimum => x.JBool?
    case ExclusiveMaximum => x.JBool?
    case AnyOf => x.JArr? && forall i :: 0 <= i < |x.items| ==> Is30(x.items[i])
    case AllOf => x.JArr? && forall i :: 0 <= i < |x.items| ==> Is30(x.items[i])
    case Items => Is30(x)
    case Properties => x.JObj? && forall p :: p in x.fields ==> Is30(x.fields[p])
    case AdditionalProperties => x.JBool? || Is30(x)
    case _ => true
  }
}
