/**
 JSON values and the budgeted structural walk that guards every value before it becomes durable.
 Numbers are finite by construction; objects are maps, so key order carries no meaning.
 */
module JsonTree {
  import opened Wrappers
  import Text

  datatype Json =
    | Null
    | Bool(b: bool)
    | Int(n: int)
    | Float(r: real)
    | Str(s: string)
    | List(items: seq<Json>)
    | Obj(fields: map<string, Json>)

  /** Depth and key-length limits; `maxKey.None?` leaves keys unbounded. */
  datatype Limits = Limits(maxDepth: nat, maxNodes: nat, maxKey: Option<nat>)

  const JOURNAL_LIMITS := Limits(32, 4096, None)
  const CONTINUATION_LIMITS := Limits(16, 4096, Some(128))

  /** The number of values in the tree, counting each container and each of its members once. */
  ghost function Nodes(j: Json): (n: nat)
    ensures n >= 1
    decreases j, 0
  {
    match j
    case List(items) => 1 + NodesOfItems(items)
    case Obj(fields) => 1 + NodesOfFields(j, fields.Keys)
    case _ => 1
  }

  ghost function NodesOfItems(items: seq<Json>): nat
    decreases items, 1, |items|
  {
    if items == [] then 0 else NodesOfItems(items[..|items| - 1]) + Nodes(items[|items| - 1])
  }

  ghost function NodesOfFields(j: Json, keys: set<string>): nat
    requires j.Obj? && keys <= j.fields.Keys
    decreases j, 0, keys
  {
    if keys == {} then 0
    else
      var k := Text.Least(keys);
      Nodes(j.fields[k]) + NodesOfFields(j, keys - {k})
  }

  /** No value lies more than `depth` levels below the root and every key is short enough. */
  ghost predicate WithinShape(j: Json, depth: int, maxKey: Option<nat>) {
    0 <= depth &&
    match j
    case List(items) => forall k :: 0 <= k < |items| ==> WithinShape(items[k], depth - 1, maxKey)
    case Obj(fields) =>
      forall k :: k in fields ==>
        KeyFits(k, maxKey) && WithinShape(fields[k], depth - 1, maxKey)
    case _ => true
  }

  predicate KeyFits(key: string, maxKey: Option<nat>) {
    maxKey.Some? ==> |key| <= maxKey.value
  }

  ghost predicate Acceptable(j: Json, limits: Limits) {
    Nodes(j) <= limits.maxNodes && WithinShape(j, limits.maxDepth, limits.maxKey)
  }

  /** The total does not depend on the order in which the members of an object are visited. */
  lemma {:induction false} FieldsInAnyOrder(j: Json, keys: set<string>, key: string)
    requires j.Obj? && keys <= j.fields.Keys && key in keys
    ensures NodesOfFields(j, keys) == Nodes(j.fields[key]) + NodesOfFields(j, keys - {key})
    decreases keys
  {
    var least := Text.Least(keys);
    if key != least {
      FieldsInAnyOrder(j, keys - {least}, key);
      FieldsInAnyOrder(j, keys - {key}, least);
      assert keys - {least} - {key} == keys - {key} - {least};
    }
  }

  lemma {:induction false} PrefixIsNoLarger(items: seq<Json>, n: nat)
    requires n <= |items|
    ensures NodesOfItems(items[..n]) <= NodesOfItems(items)
    decreases |items| - n
  {
    if n < |items| {
      PrefixIsNoLarger(items, n + 1);
      assert items[..n + 1][..n] == items[..n];
    } else {
      assert items[..n] == items;
    }
  }

  /**
   The recursive visit with its shared, decreasing budget: it succeeds exactly on the acceptable trees
   and has then spent one unit for every node, whatever order object members are visited in.
   */
  method Visit(j: Json, depth: nat, budget: int, limits: Limits) returns (left: int, ok: bool)
    requires depth <= limits.maxDepth + 1
    ensures ok <==> Nodes(j) <= budget && WithinShape(j, limits.maxDepth - depth, limits.maxKey)
    ensures ok ==> left == budget - Nodes(j)
    decreases j
  {
    left := budget - 1;
    if left < 0 || depth > limits.maxDepth {
      return left, false;
    }
    match j {
      case List(items) =>
        var i := 0;
        while i < |items|
          invariant 0 <= i <= |items|
          invariant 0 <= left == budget - 1 - NodesOfItems(items[..i])
          invariant forall k :: 0 <= k < i ==> WithinShape(items[k], limits.maxDepth - depth - 1, limits.maxKey)
        {
          assert items[..i + 1][..i] == items[..i];
          PrefixIsNoLarger(items, i + 1);
          left, ok := Visit(items[i], depth + 1, left, limits);
          if !ok {
            return;
          }
          i := i + 1;
        }
        assert items[..i] == items;
      case Obj(fields) =>
        var pending := fields.Keys;
        while pending != {}
          invariant pending <= fields.Keys
          invariant 0 <= left == budget - 1 - (NodesOfFields(j, fields.Keys) - NodesOfFields(j, pending))
          invariant forall k :: k in fields.Keys - pending ==>
            KeyFits(k, limits.maxKey) && WithinShape(fields[k], limits.maxDepth - depth - 1, limits.maxKey)
          decreases pending
        {
          var key :| key in pending;
          FieldsInAnyOrder(j, pending, key);
          if !KeyFits(key, limits.maxKey) {
            return left, false;
          }
          left, ok := Visit(fields[key], depth + 1, left, limits);
          if !ok {
            return;
          }
          pending := pending - {key};
        }
      case _ =>
    }
    ok := true;
  }

  method WithinLimits(j: Json, limits: Limits) returns (ok: bool)
    ensures ok <==> Acceptable(j, limits)
  {
    var _, verdict := Visit(j, 0, limits.maxNodes, limits);
    ok := verdict;
  }
}
