/**
 The order of the printed members, said without the sort: every record that is printed lists its keys
 as `Array.prototype.sort` orders strings, by code units.
 */
module CanonicalOrder {
  import opened Outcomes
  import opened JsonText
  import opened CanonicalParameters
  import opened CanonicalLaws

  /** `a` and `b` agree on their first `n` code units, and then `a` has the smaller one. */
  predicate DifferAt(a: Text, b: Text, n: nat) {
    n < |a| && n < |b| && a[..n] == b[..n] && a[n] < b[n]
  }

  /** A proper prefix, or the smaller code unit at the first difference. */
  ghost predicate Precedes(a: Text, b: Text) {
    (|a| < |b| && a == b[..|a|]) || exists n: nat :: DifferAt(a, b, n)
  }

  lemma {:induction false} BeforePrecedes(a: Text, b: Text)
    requires Before(a, b)
    ensures Precedes(a, b)
  {
    if a == [] {
      assert b[..0] == [];
    } else if a[0] < b[0] {
      assert DifferAt(a, b, 0);
    } else {
      BeforePrecedes(a[1..], b[1..]);
      if |a| < |b| && a[1..] == b[1..][..|a| - 1] {
        assert a == [a[0]] + a[1..] && b[..|a|] == [b[0]] + b[1..][..|a| - 1];
      } else {
        var n: nat :| DifferAt(a[1..], b[1..], n);
        assert a[..n + 1] == [a[0]] + a[1..][..n] && b[..n + 1] == [b[0]] + b[1..][..n];
        assert DifferAt(a, b, n + 1);
      }
    }
  }

  /** Every record in the tree, at any depth, lists its members in this order. */
  ghost predicate InOrder(tree: Tree) {
    match tree
    case Arr(items) => forall i :: 0 <= i < |items| ==> InOrder(items[i])
    case Rec(members) =>
      && (forall i, j :: 0 <= i < j < |members| ==> Precedes(members[i].key, members[j].key))
      && forall i :: 0 <= i < |members| ==> InOrder(members[i].value)
    case _ => true
  }

  lemma {:induction false} AscendingPrecedes(keys: seq<Text>, i: nat, j: nat)
    requires Ascending(keys) && i < j < |keys|
    ensures Precedes(keys[i], keys[j])
  {
    if i == 0 {
      assert keys[j] == keys[1..][j - 1];
      BeforePrecedes(keys[0], keys[j]);
    } else {
      AscendingPrecedes(keys[1..], i - 1, j - 1);
    }
  }

  lemma {:induction false} ExpandedInOrder(h: Heap, v: Value, seen: set<nat>)
    requires WellFormed(h) && InHeap(h, v) && Expand(h, v, seen).Ok?
    ensures InOrder(Expand(h, v, seen).value)
    decreases h.Keys - seen
  {
    if v.Object? {
      ChildrenExpand(h, v.ref, seen, v);
      ShrinksPath(h, v.ref, seen);
      match h[v.ref]
      case ArrayNode(items) =>
        ItemsOk(h, items, seen + {v.ref});
        forall i | 0 <= i < |items| { ExpandedInOrder(h, items[i], seen + {v.ref}); }
      case RecordNode(fields) => RecordInOrder(h, v.ref, seen);
    }
  }

  lemma {:induction false} RecordInOrder(h: Heap, r: nat, seen: set<nat>)
    requires WellFormed(h) && r in h && h[r].RecordNode? && r !in seen && Expand(h, Object(r), seen).Ok?
    ensures InOrder(Expand(h, Object(r), seen).value)
    decreases h.Keys - seen, 0
  {
    RecordExpansion(h, r, seen);
    ShrinksPath(h, r, seen);
    var sorted := SortFields(h[r].fields);
    var members := Expand(h, Object(r), seen).value.members;
    forall i, j | 0 <= i < j < |members| ensures Precedes(members[i].key, members[j].key) {
      KeyAt(sorted, i);
      KeyAt(sorted, j);
      AscendingPrecedes(KeysOf(sorted), i, j);
    }
    forall i | 0 <= i < |members| ensures InOrder(members[i].value) {
      ExpandedInOrder(h, sorted[i].value, seen + {r});
    }
  }

  /** The text of an accepted value reads back as a tree whose records are all in order. */
  lemma PrintedInOrder(h: Heap, v: Value)
    requires WellFormed(h) && InHeap(h, v) && Acceptable(h, v)
    ensures Print(Expand(h, v, {})).Ok?
    ensures
      var read := Parse(Print(Expand(h, v, {})).value);
      read.Parsed? && read.rest == [] && InOrder(read.value)
  {
    PrintedTextParses(h, v);
    ExpandedInOrder(h, v, {});
  }
}
