/**
 * The checks of `gateway/api/domain/arguments_schema.py` on JSON documents: the one-pass `uniqueItems` and the two walks
 * with an explicit stack. Numbers are finite: an `Int` is a Python int and a `Float` the exact value of a Python float.
 */
module ArgumentsSchema {
  import opened Collections

  datatype Json =
    | Null
    | Bool(b: bool)
    | Int(n: int)
    | Float(r: real)
    | Str(s: string)
    | Arr(items: seq<Json>)
    | Obj(keys: seq<string>, values: seq<Json>)

  const MAX_DOCUMENT_DEPTH := 64
  const MAX_SCHEMA_NODES := 200

  /** What `json.loads` can produce: an object has one value per key and no key twice. */
  predicate WellFormed(v: Json) {
    match v
    case Arr(items) => forall i :: 0 <= i < |items| ==> WellFormed(items[i])
    case Obj(keys, values) =>
      && |keys| == |values|
      && (forall i, j :: 0 <= i < j < |keys| ==> keys[i] != keys[j])
      && (forall i :: 0 <= i < |values| ==> WellFormed(values[i]))
    case _ => true
  }

  /** The hashable key: a tag and a value. An object is a set of pairs. */
  datatype Key =
    | KBool(b: bool)
    | KInt(n: int)
    | KFraction(r: real)
    | KStr(s: string)
    | KArr(items: seq<Key>)
    | KObj(entries: set<KeyEntry>)
    | KOther

  datatype KeyEntry = KeyEntry(name: string, key: Key)

  /** `float.is_integer`. */
  predicate Integral(r: real) {
    r == r.Floor as real
  }

  /** `_comparison_key`. */
  function ComparisonKey(v: Json): Key
    requires WellFormed(v)
    decreases v, 1
  {
    match v
    case Bool(b) => KBool(b)
    case Int(n) => KInt(n)
    case Float(r) => if Integral(r) then KInt(r.Floor) else KFraction(r)
    case Str(s) => KStr(s)
    case Arr(items) => KArr(KeysOf(items))
    case Obj(keys, values) => KObj(EntriesOf(keys, values))
    case Null => KOther
  }

  function KeysOf(items: seq<Json>): (r: seq<Key>)
    requires forall i :: 0 <= i < |items| ==> WellFormed(items[i])
    ensures |r| == |items|
    ensures forall i :: 0 <= i < |items| ==> r[i] == ComparisonKey(items[i])
    decreases items, 0
  {
    if items == [] then [] else KeysOf(items[..|items| - 1]) + [ComparisonKey(items[|items| - 1])]
  }

  function EntriesOf(keys: seq<string>, values: seq<Json>): (r: set<KeyEntry>)
    requires |keys| == |values| && forall i :: 0 <= i < |values| ==> WellFormed(values[i])
    ensures forall i :: 0 <= i < |keys| ==> KeyEntry(keys[i], ComparisonKey(values[i])) in r
    ensures forall e :: e in r ==> exists i :: 0 <= i < |keys| && e == KeyEntry(keys[i], ComparisonKey(values[i]))
    decreases values, 0
  {
    if keys == [] then {}
    else
      var n := |keys| - 1;
      EntriesOf(keys[..n], values[..n]) + {KeyEntry(keys[n], ComparisonKey(values[n]))}
  }

  // ------------------------------------------------------------------ equality of JSON values

  /** Section 4.2.2 of JSON Schema Core 2020-12. */
  ghost predicate JsonEqual(a: Json, b: Json)
    decreases a
  {
    match (a, b)
    case (Null, Null) => true
    case (Bool(x), Bool(y)) => x == y
    case (Str(x), Str(y)) => x == y
    case (Int(x), Int(y)) => x == y
    case (Int(x), Float(y)) => x as real == y
    case (Float(x), Int(y)) => x == y as real
    case (Float(x), Float(y)) => x == y
    case (Arr(x), Arr(y)) => |x| == |y| && forall i :: 0 <= i < |x| ==> JsonEqual(x[i], y[i])
    case (Obj(ks, vs), Obj(ls, ws)) =>
      && |ks| == |vs| && |ls| == |ws|
      && (forall i :: 0 <= i < |vs| ==> ks[i] in ls && JsonEqual(vs[i], ws[IndexOf(ls, ks[i])]))
      && (forall j :: 0 <= j < |ls| ==> ls[j] in ks)
    case _ => false
  }

  ghost predicate Agree(a: Json, b: Json) {
    WellFormed(a) && WellFormed(b) && (ComparisonKey(a) == ComparisonKey(b) <==> JsonEqual(a, b))
  }

  ghost predicate AllAgree(x: seq<Json>, y: seq<Json>) {
    forall i, j :: 0 <= i < |x| && 0 <= j < |y| ==> Agree(x[i], y[j])
  }

  lemma ArraysAgree(a: Json, b: Json)
    requires WellFormed(a) && WellFormed(b) && a.Arr? && b.Arr? && AllAgree(a.items, b.items)
    ensures Agree(a, b)
  {
    if JsonEqual(a, b) {
      forall i | 0 <= i < |a.items|
        ensures KeysOf(a.items)[i] == KeysOf(b.items)[i]
      {
        assert Agree(a.items[i], b.items[i]);
      }
      assert KeysOf(a.items) == KeysOf(b.items);
    }
    if ComparisonKey(a) == ComparisonKey(b) {
      forall i | 0 <= i < |a.items|
        ensures JsonEqual(a.items[i], b.items[i])
      {
        assert KeysOf(a.items)[i] == KeysOf(b.items)[i];
        assert Agree(a.items[i], b.items[i]);
      }
    }
  }

  function EntryAt(v: Json, i: nat): KeyEntry
    requires WellFormed(v) && v.Obj? && i < |v.keys|
  {
    KeyEntry(v.keys[i], ComparisonKey(v.values[i]))
  }

  lemma EqualObjectsShareEntries(a: Json, b: Json)
    requires WellFormed(a) && WellFormed(b) && a.Obj? && b.Obj? && JsonEqual(a, b) && AllAgree(a.values, b.values)
    ensures EntriesOf(a.keys, a.values) == EntriesOf(b.keys, b.values)
  {
    forall e
      ensures e in EntriesOf(a.keys, a.values) <==> e in EntriesOf(b.keys, b.values)
    {
      if e in EntriesOf(a.keys, a.values) {
        EntryCarriesOver(a, b, e);
      }
      if e in EntriesOf(b.keys, b.values) {
        EntryComesFrom(a, b, e);
      }
    }
  }

  lemma EntryCarriesOver(a: Json, b: Json, e: KeyEntry)
    requires WellFormed(a) && WellFormed(b) && a.Obj? && b.Obj? && JsonEqual(a, b) && AllAgree(a.values, b.values)
    requires e in EntriesOf(a.keys, a.values)
    ensures e in EntriesOf(b.keys, b.values)
  {
    var i :| 0 <= i < |a.keys| && e == KeyEntry(a.keys[i], ComparisonKey(a.values[i]));
    var j := FindCounterpart(a, b, i);
    assert e == EntryAt(b, j);
  }

  lemma EntryComesFrom(a: Json, b: Json, e: KeyEntry)
    requires WellFormed(a) && WellFormed(b) && a.Obj? && b.Obj? && JsonEqual(a, b) && AllAgree(a.values, b.values)
    requires e in EntriesOf(b.keys, b.values)
    ensures e in EntriesOf(a.keys, a.values)
  {
    var j :| 0 <= j < |b.keys| && e == KeyEntry(b.keys[j], ComparisonKey(b.values[j]));
    assert b.keys[j] in a.keys;
    var i := IndexOf(a.keys, b.keys[j]);
    var k := FindCounterpart(a, b, i);
    assert k == j && e == EntryAt(a, i);
  }

  lemma FindCounterpart(a: Json, b: Json, i: nat) returns (j: nat)
    requires WellFormed(a) && WellFormed(b) && a.Obj? && b.Obj? && JsonEqual(a, b) && AllAgree(a.values, b.values)
    requires i < |a.keys|
    ensures j < |b.keys| && EntryAt(a, i) == EntryAt(b, j)
  {
    j := IndexOf(b.keys, a.keys[i]);
    assert Agree(a.values[i], b.values[j]);
  }

  lemma SharedEntry(a: Json, b: Json, i: nat) returns (j: nat)
    requires WellFormed(a) && WellFormed(b) && a.Obj? && b.Obj? && i < |a.keys|
    requires EntriesOf(a.keys, a.values) == EntriesOf(b.keys, b.values)
    ensures j < |b.keys| && EntryAt(a, i) == EntryAt(b, j)
  {
    assert EntryAt(a, i) in EntriesOf(b.keys, b.values);
    j :| 0 <= j < |b.keys| && EntryAt(a, i) == KeyEntry(b.keys[j], ComparisonKey(b.values[j]));
  }

  lemma SharedEntriesMakeEqualObjects(a: Json, b: Json)
    requires WellFormed(a) && WellFormed(b) && a.Obj? && b.Obj? && AllAgree(a.values, b.values)
    requires EntriesOf(a.keys, a.values) == EntriesOf(b.keys, b.values)
    ensures JsonEqual(a, b)
  {
    forall i | 0 <= i < |a.values|
      ensures a.keys[i] in b.keys && JsonEqual(a.values[i], b.values[IndexOf(b.keys, a.keys[i])])
    {
      var j := SharedEntry(a, b, i);
      assert j == IndexOf(b.keys, a.keys[i]);
      assert Agree(a.values[i], b.values[j]);
    }
    forall j | 0 <= j < |b.keys|
      ensures b.keys[j] in a.keys
    {
      var i := SharedEntry(b, a, j);
    }
  }

  /** The key collides exactly when JSON Schema considers the two values equal. */
  lemma {:induction false} KeyIsEquality(a: Json, b: Json)
    requires WellFormed(a) && WellFormed(b)
    ensures ComparisonKey(a) == ComparisonKey(b) <==> JsonEqual(a, b)
    decreases a
  {
    if a.Arr? && b.Arr? {
      forall i, j | 0 <= i < |a.items| && 0 <= j < |b.items|
        ensures Agree(a.items[i], b.items[j])
      {
        KeyIsEquality(a.items[i], b.items[j]);
      }
      ArraysAgree(a, b);
    } else if a.Obj? && b.Obj? {
      forall i, j | 0 <= i < |a.values| && 0 <= j < |b.values|
        ensures Agree(a.values[i], b.values[j])
      {
        KeyIsEquality(a.values[i], b.values[j]);
      }
      if JsonEqual(a, b) {
        EqualObjectsShareEntries(a, b);
      } else if ComparisonKey(a) == ComparisonKey(b) {
        SharedEntriesMakeEqualObjects(a, b);
      }
    }
  }

  /** Section 6.4.3 of JSON Schema Validation 2020-12: some pair of elements is equal. */
  ghost predicate HasDuplicate(items: seq<Json>) {
    exists i, j :: 0 <= i < j < |items| && JsonEqual(items[i], items[j])
  }

  lemma DuplicateKeys(items: seq<Json>)
    requires forall i :: 0 <= i < |items| ==> WellFormed(items[i])
    ensures HasDuplicate(items) <==> exists i, j :: 0 <= i < j < |items| && KeysOf(items)[i] == KeysOf(items)[j]
  {
    if i, j :| 0 <= i < j < |items| && JsonEqual(items[i], items[j]) {
      KeyIsEquality(items[i], items[j]);
      assert KeysOf(items)[i] == KeysOf(items)[j];
    }
    if i, j :| 0 <= i < j < |items| && KeysOf(items)[i] == KeysOf(items)[j] {
      KeyIsEquality(items[i], items[j]);
    }
  }

  /** `_unique_items`: whether the keyword reports an error. */
  method UniqueItemsFails(unique: bool, instance: Json) returns (fails: bool)
    requires WellFormed(instance)
    ensures fails <==> unique && instance.Arr? && HasDuplicate(instance.items)
  {
    if !unique || !instance.Arr? {
      return false;
    }
    var items := instance.items;
    DuplicateKeys(items);
    ghost var keys := KeysOf(items);
    var seen: set<Key> := {};
    for k := 0 to |items|
      invariant seen == set i | 0 <= i < k :: keys[i]
      invariant forall i, j :: 0 <= i < j < k ==> keys[i] != keys[j]
    {
      var key := ComparisonKey(items[k]);
      if key in seen {
        ghost var i :| 0 <= i < k && keys[i] == key;
        assert KeysOf(items)[i] == KeysOf(items)[k];
        return true;
      }
      seen := seen + {key};
    }
    return false;
  }

  // ------------------------------------------------------------------ the walks

  function Children(v: Json): seq<Json> {
    match v
    case Arr(items) => items
    case Obj(_, values) => values
    case _ => []
  }

  /** The depth of the deepest value below this one. */
  function Height(v: Json): nat
    decreases v, 1
  {
    match v
    case Arr(items) => HeightBelow(items)
    case Obj(_, values) => HeightBelow(values)
    case _ => 0
  }

  function HeightBelow(vs: seq<Json>): nat
    decreases vs, 0
  {
    if vs == [] then 0
    else
      var rest, last := HeightBelow(vs[..|vs| - 1]), 1 + Height(vs[|vs| - 1]);
      if last > rest then last else rest
  }

  lemma {:induction false} ChildBelow(vs: seq<Json>, i: nat)
    requires i < |vs|
    ensures 1 + Height(vs[i]) <= HeightBelow(vs)
  {
    if i < |vs| - 1 {
      ChildBelow(vs[..|vs| - 1], i);
    }
  }

  lemma {:induction false} DeepestChild(vs: seq<Json>) returns (i: nat)
    requires HeightBelow(vs) > 0
    ensures i < |vs| && HeightBelow(vs) == 1 + Height(vs[i])
  {
    var n := |vs| - 1;
    if HeightBelow(vs) == 1 + Height(vs[n]) {
      i := n;
    } else {
      i := DeepestChild(vs[..n]);
    }
  }

  /** How many values there are, for termination. */
  function Size(v: Json): nat
    decreases v, 1
  {
    match v
    case Arr(items) => 1 + Sizes(items)
    case Obj(_, values) => 1 + Sizes(values)
    case _ => 1
  }

  function Sizes(vs: seq<Json>): nat
    decreases vs, 0
  {
    if vs == [] then 0 else Sizes(vs[..|vs| - 1]) + Size(vs[|vs| - 1])
  }

  lemma {:induction false} SizesConcat(a: seq<Json>, b: seq<Json>)
    ensures Sizes(a + b) == Sizes(a) + Sizes(b)
  {
    if b == [] {
      assert a + b == a;
    } else {
      SizesConcat(a, b[..|b| - 1]);
      assert (a + b)[..|a + b| - 1] == a + b[..|b| - 1];
    }
  }

  lemma PopShrinks(stack: seq<Json>)
    requires stack != []
    ensures var n := |stack| - 1;
            Sizes(stack[..n] + Children(stack[n])) < Sizes(stack) && Sizes(stack[..n]) < Sizes(stack)
  {
    SizesConcat(stack[..|stack| - 1], Children(stack[|stack| - 1]));
  }

  ghost predicate Past(v: Json, depth: nat) {
    depth + Height(v) > MAX_DOCUMENT_DEPTH
  }

  /** Some waiting value has a value below it past the limit. */
  ghost predicate TooDeep(stack: seq<Json>, depths: seq<nat>)
    requires |stack| == |depths|
  {
    exists i :: 0 <= i < |stack| && Past(stack[i], depths[i])
  }

  lemma ChildrenPast(v: Json, depth: nat)
    requires depth <= MAX_DOCUMENT_DEPTH
    ensures Past(v, depth) <==> exists j :: 0 <= j < |Children(v)| && Past(Children(v)[j], depth + 1)
  {
    if Past(v, depth) {
      var j := DeepestChild(Children(v));
      assert Past(Children(v)[j], depth + 1);
    }
    if j :| 0 <= j < |Children(v)| && Past(Children(v)[j], depth + 1) {
      ChildBelow(Children(v), j);
    }
  }

  lemma PopDeep(stack: seq<Json>, depths: seq<nat>, pushed: seq<Json>, pushedDepths: seq<nat>)
    requires |stack| == |depths| > 0 && depths[|stack| - 1] <= MAX_DOCUMENT_DEPTH
    requires var n := |stack| - 1;
             && pushed == stack[..n] + Children(stack[n]) && |pushedDepths| == |pushed|
             && (forall i :: 0 <= i < n ==> pushedDepths[i] == depths[i])
             && (forall i :: n <= i < |pushed| ==> pushedDepths[i] == depths[n] + 1)
    ensures TooDeep(stack, depths) <==> TooDeep(pushed, pushedDepths)
  {
    var n := |stack| - 1;
    ChildrenPast(stack[n], depths[n]);
    if i :| 0 <= i < |stack| && Past(stack[i], depths[i]) {
      if i < n {
        assert Past(pushed[i], pushedDepths[i]);
      } else {
        var j :| 0 <= j < |Children(stack[n])| && Past(Children(stack[n])[j], depths[n] + 1);
        assert Past(pushed[n + j], pushedDepths[n + j]);
      }
    }
    if i :| 0 <= i < |pushed| && Past(pushed[i], pushedDepths[i]) {
      if i < n {
        assert Past(stack[i], depths[i]);
      } else {
        assert Past(Children(stack[n])[i - n], depths[n] + 1);
      }
    }
  }

  /** `exceeds_max_depth`, with the values and their depths on two stacks. */
  method ExceedsMaxDepth(value: Json) returns (exceeds: bool)
    ensures exceeds <==> Height(value) > MAX_DOCUMENT_DEPTH
  {
    var stack, depths: seq<nat> := [value], [0];
    assert Past(value, 0) <==> Past(stack[0], depths[0]);
    while stack != []
      invariant |stack| == |depths|
      invariant TooDeep(stack, depths) <==> Past(value, 0)
      decreases Sizes(stack)
    {
      var n := |stack| - 1;
      var node, depth := stack[n], depths[n];
      if depth > MAX_DOCUMENT_DEPTH {
        assert Past(stack[n], depths[n]);
        return true;
      }
      var pushed, pushedDepths := stack[..n] + Children(node), depths[..n] + seq(|Children(node)|, _ => depth + 1);
      PopDeep(stack, depths, pushed, pushedDepths);
      PopShrinks(stack);
      stack, depths := pushed, pushedDepths;
    }
    return false;
  }

  /** The objects and booleans of a schema. */
  function Nodes(v: Json): nat
    decreases v, 1
  {
    match v
    case Bool(_) => 1
    case Obj(_, values) => 1 + NodesBelow(values)
    case Arr(items) => NodesBelow(items)
    case _ => 0
  }

  function NodesBelow(vs: seq<Json>): nat
    decreases vs, 0
  {
    if vs == [] then 0 else NodesBelow(vs[..|vs| - 1]) + Nodes(vs[|vs| - 1])
  }

  lemma {:induction false} NodesConcat(a: seq<Json>, b: seq<Json>)
    ensures NodesBelow(a + b) == NodesBelow(a) + NodesBelow(b)
  {
    if b == [] {
      assert a + b == a;
    } else {
      NodesConcat(a, b[..|b| - 1]);
      assert (a + b)[..|a + b| - 1] == a + b[..|b| - 1];
    }
  }

  /** `exceeds_max_nodes`: it stops as soon as the limit is passed. */
  method ExceedsMaxNodes(schema: Json) returns (exceeds: bool)
    ensures exceeds <==> Nodes(schema) > MAX_SCHEMA_NODES
  {
    var seen, stack := 0, [schema];
    assert stack == [] + [schema] && stack[..0] == [];
    while stack != []
      invariant seen <= MAX_SCHEMA_NODES && seen + NodesBelow(stack) == Nodes(schema)
      decreases Sizes(stack)
    {
      var n := |stack| - 1;
      var node := stack[n];
      PopShrinks(stack);
      NodesConcat(stack[..n], Children(node));
      stack := stack[..n];
      if node.Obj? || node.Bool? {
        seen := seen + 1;
        if seen > MAX_SCHEMA_NODES {
          return true;
        }
        if node.Obj? {
          stack := stack + node.values;
        }
      } else if node.Arr? {
        stack := stack + node.items;
      }
    }
    return false;
  }
}
