/**
 What `canonicalizeParameters` promises: it succeeds exactly on values without self-containment,
 forbidden keys or non-JSON parts, and two printed texts are equal exactly when every access
 path reads the same thing in both values, whatever order their keys stand in.
 */
module CanonicalLaws {
  import opened Outcomes
  import opened JsonText
  import opened CanonicalParameters

  // ----- Which values are accepted -----

  /** `w` runs from `v` through nested objects, each a child of the one before. */
  predicate IsWalk(h: Heap, v: Value, w: seq<nat>)
    decreases |w|
  {
    && w != []
    && v == Object(w[0])
    && w[0] in h
    && (|w| > 1 ==> Object(w[1]) in Children(h[w[0]]) && IsWalk(h, Object(w[1]), w[1..]))
  }

  predicate NoRepeat(w: seq<nat>) {
    forall i, j :: 0 <= i < j < |w| ==> w[i] != w[j]
  }

  predicate Printable(v: Value) {
    !v.NotFinite? && !v.Foreign?
  }

  predicate Clean(n: Node) {
    && !HasForbiddenKey(n)
    && forall c :: c in Children(n) && !c.Object? ==> Printable(c)
  }

  lemma {:induction false} WalkEndsInHeap(h: Heap, v: Value, w: seq<nat>)
    requires IsWalk(h, v, w)
    ensures w[|w| - 1] in h
    decreases |w|
  {
    if |w| > 1 { WalkEndsInHeap(h, Object(w[1]), w[1..]); }
  }

  /** A walk that no printable value may contain. */
  ghost predicate BadWalk(h: Heap, w: seq<nat>, seen: set<nat>)
    requires w != [] && w[|w| - 1] in h
  {
    !NoRepeat(w) || (exists i :: 0 <= i < |w| && w[i] in seen) || !Clean(h[w[|w| - 1]])
  }

  /** No object is its own ancestor, and all of them are clean. */
  ghost predicate Acceptable(h: Heap, v: Value) {
    if v.Object? then
      forall w {:trigger IsWalk(h, v, w)} :: IsWalk(h, v, w) ==>
        NoRepeat(w) && w[|w| - 1] in h && Clean(h[w[|w| - 1]])
    else Printable(v)
  }

  lemma {:induction false} ItemsOk(h: Heap, items: seq<Value>, seen: set<nat>)
    requires WellFormed(h) && (forall v :: v in items ==> InHeap(h, v))
    requires ExpandItems(h, items, seen).Ok?
    ensures
      var trees := ExpandItems(h, items, seen).value;
      |trees| == |items| && forall i :: 0 <= i < |items| ==> Expand(h, items[i], seen) == Ok(trees[i])
  {
    if items != [] {
      ItemsOk(h, items[1..], seen);
    }
  }

  lemma {:induction false} FieldsOk(h: Heap, fields: seq<Field>, seen: set<nat>)
    requires WellFormed(h) && (forall f :: f in fields ==> InHeap(h, f.value))
    requires ExpandFields(h, fields, seen).Ok?
    ensures
      var ms := ExpandFields(h, fields, seen).value;
      |ms| == |fields| && forall i :: 0 <= i < |fields| ==>
        ms[i].key == fields[i].key && Expand(h, fields[i].value, seen) == Ok(ms[i].value)
  {
    if fields != [] {
      FieldsOk(h, fields[1..], seen);
    }
  }

  lemma {:induction false} ItemsErr(h: Heap, items: seq<Value>, seen: set<nat>) returns (c: Value)
    requires WellFormed(h) && (forall v :: v in items ==> InHeap(h, v))
    requires ExpandItems(h, items, seen).Err?
    ensures c in items && Expand(h, c, seen).Err?
  {
    if Expand(h, items[0], seen).Err? {
      c := items[0];
    } else {
      c := ItemsErr(h, items[1..], seen);
    }
  }

  lemma {:induction false} FieldsErr(h: Heap, fields: seq<Field>, seen: set<nat>) returns (f: Field)
    requires WellFormed(h) && (forall f :: f in fields ==> InHeap(h, f.value))
    requires ExpandFields(h, fields, seen).Err?
    ensures f in fields && Expand(h, f.value, seen).Err?
  {
    if Expand(h, fields[0].value, seen).Err? {
      f := fields[0];
    } else {
      f := FieldsErr(h, fields[1..], seen);
    }
  }

  lemma FieldIsChild(fields: seq<Field>, f: Field)
    requires f in fields
    ensures f.value in Children(RecordNode(fields))
  {
    var i :| 0 <= i < |fields| && fields[i] == f;
    assert Children(RecordNode(fields))[i] == f.value;
  }

  lemma ChildIsField(fields: seq<Field>, c: Value) returns (f: Field)
    requires c in Children(RecordNode(fields))
    ensures f in fields && f.value == c
  {
    var i :| 0 <= i < |fields| && Children(RecordNode(fields))[i] == c;
    f := fields[i];
  }

  /** An expanded object is on no earlier path, holds no forbidden key, and its children expand. */
  lemma ChildrenExpand(h: Heap, r: nat, seen: set<nat>, c: Value)
    requires WellFormed(h) && r in h
    requires Expand(h, Object(r), seen).Ok?
    ensures r !in seen && !HasForbiddenKey(h[r])
    ensures c in Children(h[r]) ==> InHeap(h, c) && Expand(h, c, seen + {r}).Ok?
  {
    if c in Children(h[r]) {
      match h[r]
      case ArrayNode(items) =>
        ItemsOk(h, items, seen + {r});
      case RecordNode(fields) =>
        var f := ChildIsField(fields, c);
        SortKeeps(fields);
        SortedInHeap(h, fields);
        FieldsOk(h, SortFields(fields), seen + {r});
    }
  }

  /** A refused object off the current path has a forbidden key or a refused child. */
  lemma RefusedChild(h: Heap, r: nat, seen: set<nat>) returns (c: Value)
    requires WellFormed(h) && r in h && r !in seen && !HasForbiddenKey(h[r])
    requires Expand(h, Object(r), seen).Err?
    ensures c in Children(h[r]) && InHeap(h, c) && Expand(h, c, seen + {r}).Err?
  {
    match h[r]
    case ArrayNode(items) =>
      c := ItemsErr(h, items, seen + {r});
    case RecordNode(fields) =>
      SortedInHeap(h, fields);
      var f := FieldsErr(h, SortFields(fields), seen + {r});
      SortKeeps(fields);
      FieldIsChild(fields, f);
      c := f.value;
  }

  lemma {:induction false} ExpandedWalks(h: Heap, v: Value, seen: set<nat>, w: seq<nat>)
    requires WellFormed(h) && InHeap(h, v)
    requires Expand(h, v, seen).Ok? && IsWalk(h, v, w)
    ensures w[|w| - 1] in h && !BadWalk(h, w, seen)
    decreases |w|
  {
    WalkEndsInHeap(h, v, w);
    if |w| == 1 {
      forall c | c in Children(h[w[0]]) && !c.Object? ensures Printable(c) {
        ChildrenExpand(h, w[0], seen, c);
      }
      ChildrenExpand(h, w[0], seen, NullValue);
    } else {
      ChildrenExpand(h, w[0], seen, Object(w[1]));
      ExpandedWalks(h, Object(w[1]), seen + {w[0]}, w[1..]);
      forall i, j | 0 <= i < j < |w| ensures w[i] != w[j] {
        assert w[j] == w[1..][j - 1] && (i > 0 ==> w[i] == w[1..][i - 1]);
      }
      forall i | 0 <= i < |w| ensures w[i] !in seen {
        if i > 0 { assert w[i] == w[1..][i - 1]; }
      }
    }
  }

  lemma {:induction false} RefusedWalk(h: Heap, v: Value, seen: set<nat>) returns (w: seq<nat>)
    requires WellFormed(h) && v.Object? && v.ref in h
    requires Expand(h, v, seen).Err?
    ensures IsWalk(h, v, w) && w[|w| - 1] in h && BadWalk(h, w, seen)
    decreases h.Keys - seen
  {
    var r := v.ref;
    w := [r];
    assert w[0] == r;
    if r !in seen && !HasForbiddenKey(h[r]) {
      var c := RefusedChild(h, r, seen);
      if c.Object? {
        ShrinksPath(h, r, seen);
        var tail := RefusedWalk(h, c, seen + {r});
        w := [r] + tail;
        assert w[1..] == tail;
        BadTail(h, r, tail, seen);
      }
    }
  }

  lemma BadTail(h: Heap, r: nat, tail: seq<nat>, seen: set<nat>)
    requires tail != [] && tail[|tail| - 1] in h && BadWalk(h, tail, seen + {r})
    ensures BadWalk(h, [r] + tail, seen)
  {
    var w := [r] + tail;
    if i, j :| 0 <= i < j < |tail| && tail[i] == tail[j] {
      assert w[i + 1] == w[j + 1];
    } else if i :| 0 <= i < |tail| && tail[i] in seen + {r} {
      assert w[i + 1] == tail[i] && w[0] == r;
    }
  }

  /** Acceptance is exact: shared references are fine, self-containment and foreign parts are not. */
  lemma AcceptedExactly(h: Heap, v: Value)
    requires WellFormed(h) && InHeap(h, v)
    ensures Expand(h, v, {}).Ok? <==> Acceptable(h, v)
  {
    if v.Object? {
      if Expand(h, v, {}).Ok? {
        forall w | IsWalk(h, v, w) ensures NoRepeat(w) && w[|w| - 1] in h && Clean(h[w[|w| - 1]]) {
          ExpandedWalks(h, v, {}, w);
        }
      } else {
        var w := RefusedWalk(h, v, {});
      }
    }
  }

  /** `canonicalizeParameters` as a whole: a fresh `seen` set for each call. */
  method Canonicalize(h: Heap, v: Value) returns (r: Result<Text, Failure>)
    requires WellFormed(h) && InHeap(h, v)
    ensures r.Ok? <==> Acceptable(h, v)
    ensures r == Print(Expand(h, v, {}))
  {
    var printer := new Canonicalizer(h);
    r := printer.Visit(v);
    AcceptedExactly(h, v);
  }

  // ----- Which values print alike -----

  datatype Selector = At(index: nat) | Of(key: Text)

  /** What reading a value shows without going deeper. */
  datatype Shape = Missing | Scalar(value: Value) | ArrayOf(length: nat) | RecordOf(keys: set<Text>)

  function ShapeOf(h: Heap, v: Value): Shape
    requires InHeap(h, v)
  {
    if !v.Object? then Scalar(v)
    else
      match h[v.ref]
      case ArrayNode(items) => ArrayOf(|items|)
      case RecordNode(fields) => RecordOf(set k | k in KeysOf(fields))
  }

  function Lookup(fields: seq<Field>, key: Text): Option<Value> {
    if fields == [] then None
    else if fields[0].key == key then Some(fields[0].value)
    else Lookup(fields[1..], key)
  }

  function Child(n: Node, s: Selector): Option<Value> {
    match (n, s)
    case (ArrayNode(items), At(i)) => if i < |items| then Some(items[i]) else None
    case (RecordNode(fields), Of(key)) => Lookup(fields, key)
    case _ => None
  }

  lemma {:induction false} LookupIsField(fields: seq<Field>, key: Text)
    ensures Lookup(fields, key).Some? ==> Field(key, Lookup(fields, key).value) in fields
  {
    if fields != [] && fields[0].key != key {
      LookupIsField(fields[1..], key);
    }
  }

  lemma ChildInHeap(h: Heap, r: nat, s: Selector)
    requires WellFormed(h) && r in h
    ensures Child(h[r], s).Some? ==> Child(h[r], s).value in Children(h[r]) && InHeap(h, Child(h[r], s).value)
  {
    if h[r].RecordNode? && s.Of? && Child(h[r], s).Some? {
      LookupIsField(h[r].fields, s.key);
      FieldIsChild(h[r].fields, Field(s.key, Child(h[r], s).value));
    }
  }

  /** What is found at the end of an access path such as `value.model.layers[2]`. */
  function Observe(h: Heap, v: Value, path: seq<Selector>): Shape
    requires WellFormed(h) && InHeap(h, v)
    decreases |path|
  {
    if path == [] then ShapeOf(h, v)
    else if !v.Object? then Missing
    else
      ChildInHeap(h, v.ref, path[0]);
      match Child(h[v.ref], path[0])
      case None => Missing
      case Some(c) => Observe(h, c, path[1..])
  }

  /** Equal as JSON values, up to the order of keys. */
  ghost predicate SameValue(h1: Heap, v1: Value, h2: Heap, v2: Value)
    requires WellFormed(h1) && InHeap(h1, v1) && WellFormed(h2) && InHeap(h2, v2)
  {
    forall path :: Observe(h1, v1, path) == Observe(h2, v2, path)
  }

  lemma {:induction false} LookupAt(fields: seq<Field>, i: nat)
    requires DistinctKeys(fields) && i < |fields|
    ensures Lookup(fields, fields[i].key) == Some(fields[i].value)
  {
    if i > 0 {
      assert fields[0].key != fields[i].key;
      LookupAt(fields[1..], i - 1);
    }
  }

  lemma LookupMember(fields: seq<Field>, f: Field)
    requires DistinctKeys(fields) && f in fields
    ensures Lookup(fields, f.key) == Some(f.value)
  {
    var i :| 0 <= i < |fields| && fields[i] == f;
    LookupAt(fields, i);
  }

  lemma {:induction false} LookupNone(fields: seq<Field>, key: Text)
    ensures Lookup(fields, key).None? <==> key !in KeysOf(fields)
  {
    if fields != [] {
      LookupNone(fields[1..], key);
    }
  }

  /** An expanded record: ascending members, one for each field. */
  lemma RecordExpansion(h: Heap, r: nat, seen: set<nat>)
    requires WellFormed(h) && r in h && h[r].RecordNode?
    requires Expand(h, Object(r), seen).Ok?
    ensures
      var fields := SortFields(h[r].fields);
      && Expand(h, Object(r), seen).value.Rec?
      && var ms := Expand(h, Object(r), seen).value.members;
      && |ms| == |fields| && Ascending(KeysOf(fields))
      && (forall k :: k in KeysOf(fields) <==> k in KeysOf(h[r].fields))
      && forall i :: 0 <= i < |ms| ==>
           && ms[i].key == fields[i].key && InHeap(h, fields[i].value)
           && Lookup(h[r].fields, fields[i].key) == Some(fields[i].value)
           && Expand(h, fields[i].value, seen + {r}) == Ok(ms[i].value)
  {
    var fields := h[r].fields;
    SortedInHeap(h, fields);
    SortAscends(fields);
    SortKeeps(fields);
    var sorted := SortFields(fields);
    FieldsOk(h, sorted, seen + {r});
    forall i | 0 <= i < |sorted| ensures Lookup(fields, sorted[i].key) == Some(sorted[i].value) {
      assert sorted[i] in sorted;
      LookupMember(fields, sorted[i]);
    }
  }

  lemma {:induction false} KeyAt(fields: seq<Field>, i: nat)
    requires i < |fields|
    ensures |KeysOf(fields)| == |fields| && KeysOf(fields)[i] == fields[i].key
  {
    if |fields| > 1 {
      KeyAt(fields[1..], if i == 0 then 0 else i - 1);
    }
  }

  lemma {:induction false} KeyPosition(fields: seq<Field>, k: Text) returns (i: nat)
    requires k in KeysOf(fields)
    ensures i < |fields| && fields[i].key == k
  {
    if fields[0].key == k {
      i := 0;
    } else {
      i := KeyPosition(fields[1..], k);
      i := i + 1;
    }
  }

  /** Values with one expansion show one shape. */
  lemma SameTreeSameShape(h1: Heap, v1: Value, s1: set<nat>, h2: Heap, v2: Value, s2: set<nat>)
    requires WellFormed(h1) && InHeap(h1, v1) && WellFormed(h2) && InHeap(h2, v2)
    requires Expand(h1, v1, s1).Ok? && Expand(h1, v1, s1) == Expand(h2, v2, s2)
    ensures v1.Object? <==> v2.Object?
    ensures v1.Object? ==> (h1[v1.ref].ArrayNode? <==> h2[v2.ref].ArrayNode?)
    ensures v1.Object? && h1[v1.ref].RecordNode? ==>
      SortedKeys(h1[v1.ref].fields) == SortedKeys(h2[v2.ref].fields)
    ensures ShapeOf(h1, v1) == ShapeOf(h2, v2)
  {
    if v1.Object? && v2.Object? {
      var n1, n2 := h1[v1.ref], h2[v2.ref];
      if n1.ArrayNode? && n2.ArrayNode? {
        ItemsOk(h1, n1.items, s1 + {v1.ref});
        ItemsOk(h2, n2.items, s2 + {v2.ref});
      } else if n1.RecordNode? && n2.RecordNode? {
        RecordExpansion(h1, v1.ref, s1);
        RecordExpansion(h2, v2.ref, s2);
        SameKeysFromMembers(SortFields(n1.fields), SortFields(n2.fields));
      }
    }
  }

  function SortedKeys(fields: seq<Field>): seq<Text> {
    KeysOf(SortFields(fields))
  }

  lemma {:induction false} SameKeysFromMembers(a: seq<Field>, b: seq<Field>)
    requires |a| == |b| && forall i :: 0 <= i < |a| ==> a[i].key == b[i].key
    ensures KeysOf(a) == KeysOf(b)
  {
    if a != [] { SameKeysFromMembers(a[1..], b[1..]); }
  }

  /** The expansion decides every observation. */
  lemma {:induction false} SameTreeSameReading(h1: Heap, v1: Value, s1: set<nat>, h2: Heap, v2: Value, s2: set<nat>,
                                                path: seq<Selector>)
    requires WellFormed(h1) && InHeap(h1, v1) && WellFormed(h2) && InHeap(h2, v2)
    requires Expand(h1, v1, s1).Ok? && Expand(h1, v1, s1) == Expand(h2, v2, s2)
    ensures Observe(h1, v1, path) == Observe(h2, v2, path)
    decreases |path|
  {
    SameTreeSameShape(h1, v1, s1, h2, v2, s2);
    if path != [] && v1.Object? {
      ChildInHeap(h1, v1.ref, path[0]);
      ChildInHeap(h2, v2.ref, path[0]);
      var n1, n2 := h1[v1.ref], h2[v2.ref];
      if n1.ArrayNode? && path[0].At? {
        ItemsOk(h1, n1.items, s1 + {v1.ref});
        ItemsOk(h2, n2.items, s2 + {v2.ref});
        if path[0].index < |n1.items| {
          SameTreeSameReading(h1, n1.items[path[0].index], s1 + {v1.ref},
                              h2, n2.items[path[0].index], s2 + {v2.ref}, path[1..]);
        }
      } else if n1.RecordNode? && path[0].Of? {
        SameMember(h1, v1.ref, s1, h2, v2.ref, s2, path[0].key);
        if path[0].key in KeysOf(n1.fields) {
          var c1, c2 := Lookup(n1.fields, path[0].key).value, Lookup(n2.fields, path[0].key).value;
          SameTreeSameReading(h1, c1, s1 + {v1.ref}, h2, c2, s2 + {v2.ref}, path[1..]);
        }
      }
    }
  }

  lemma SameMember(h1: Heap, r1: nat, s1: set<nat>, h2: Heap, r2: nat, s2: set<nat>, key: Text)
    requires WellFormed(h1) && WellFormed(h2) && r1 in h1 && r2 in h2
    requires h1[r1].RecordNode? && h2[r2].RecordNode?
    requires Expand(h1, Object(r1), s1).Ok? && Expand(h1, Object(r1), s1) == Expand(h2, Object(r2), s2)
    ensures Lookup(h1[r1].fields, key).Some? <==> key in KeysOf(h1[r1].fields)
    ensures Lookup(h2[r2].fields, key).Some? <==> key in KeysOf(h1[r1].fields)
    ensures key in KeysOf(h1[r1].fields) ==>
      var c1, c2 := Lookup(h1[r1].fields, key).value, Lookup(h2[r2].fields, key).value;
      && InHeap(h1, c1) && InHeap(h2, c2)
      && Expand(h1, c1, s1 + {r1}).Ok? && Expand(h1, c1, s1 + {r1}) == Expand(h2, c2, s2 + {r2})
  {
    LookupNone(h1[r1].fields, key);
    LookupNone(h2[r2].fields, key);
    RecordExpansion(h1, r1, s1);
    RecordExpansion(h2, r2, s2);
    SameTreeSameShape(h1, Object(r1), s1, h2, Object(r2), s2);
    if key in KeysOf(h1[r1].fields) {
      var i := KeyPosition(SortFields(h1[r1].fields), key);
    }
  }

  /** A selector that leads somewhere in both values leads to values that read the same. */
  lemma SameChild(h1: Heap, v1: Value, h2: Heap, v2: Value, s: Selector, c1: Value, c2: Value)
    requires WellFormed(h1) && InHeap(h1, v1) && WellFormed(h2) && InHeap(h2, v2)
    requires SameValue(h1, v1, h2, v2) && v1.Object? && v2.Object?
    requires Child(h1[v1.ref], s) == Some(c1) && Child(h2[v2.ref], s) == Some(c2)
    ensures InHeap(h1, c1) && InHeap(h2, c2) && SameValue(h1, c1, h2, c2)
  {
    ChildInHeap(h1, v1.ref, s);
    ChildInHeap(h2, v2.ref, s);
    forall path ensures Observe(h1, c1, path) == Observe(h2, c2, path) {
      var longer := [s] + path;
      assert longer[1..] == path;
      assert Observe(h1, v1, longer) == Observe(h2, v2, longer);
    }
  }

  lemma SameRecordKeys(h1: Heap, r1: nat, h2: Heap, r2: nat)
    requires WellFormed(h1) && WellFormed(h2) && r1 in h1 && r2 in h2
    requires h1[r1].RecordNode? && h2[r2].RecordNode?
    requires ShapeOf(h1, Object(r1)) == ShapeOf(h2, Object(r2))
    ensures SortedKeys(h1[r1].fields) == SortedKeys(h2[r2].fields)
  {
    var k1, k2 := KeysOf(h1[r1].fields), KeysOf(h2[r2].fields);
    var keys := ShapeOf(h1, Object(r1)).keys;
    assert keys == (set k | k in k1) && keys == (set k | k in k2);
    assert forall k :: (k in k1 <==> k in keys) && (k in k2 <==> k in keys);
    SortAscends(h1[r1].fields);
    SortAscends(h2[r2].fields);
    AscendingUnique(SortedKeys(h1[r1].fields), SortedKeys(h2[r2].fields));
  }

  lemma {:induction false} SameReadingSameTree(h1: Heap, v1: Value, s1: set<nat>, h2: Heap, v2: Value, s2: set<nat>)
    requires WellFormed(h1) && InHeap(h1, v1) && WellFormed(h2) && InHeap(h2, v2)
    requires Expand(h1, v1, s1).Ok? && Expand(h2, v2, s2).Ok?
    requires SameValue(h1, v1, h2, v2)
    ensures Expand(h1, v1, s1) == Expand(h2, v2, s2)
    decreases h1.Keys - s1, 1
  {
    assert Observe(h1, v1, []) == Observe(h2, v2, []);
    if v1.Object? {
      var n1, n2 := h1[v1.ref], h2[v2.ref];
      ShrinksPath(h1, v1.ref, s1);
      if n1.ArrayNode? {
        SameArrays(h1, v1.ref, s1, h2, v2.ref, s2);
      } else {
        SameRecordKeys(h1, v1.ref, h2, v2.ref);
        SameRecords(h1, v1.ref, s1, h2, v2.ref, s2);
      }
    }
  }

  lemma {:induction false} SameArrays(h1: Heap, r1: nat, s1: set<nat>, h2: Heap, r2: nat, s2: set<nat>)
    requires WellFormed(h1) && r1 in h1 && WellFormed(h2) && r2 in h2 && r1 !in s1
    requires Expand(h1, Object(r1), s1).Ok? && Expand(h2, Object(r2), s2).Ok?
    requires SameValue(h1, Object(r1), h2, Object(r2))
    requires h1[r1].ArrayNode? && h2[r2].ArrayNode? && |h1[r1].items| == |h2[r2].items|
    ensures Expand(h1, Object(r1), s1) == Expand(h2, Object(r2), s2)
    decreases h1.Keys - s1, 0
  {
    var a, b := h1[r1].items, h2[r2].items;
    ItemsOk(h1, a, s1 + {r1});
    ItemsOk(h2, b, s2 + {r2});
    ShrinksPath(h1, r1, s1);
    forall i | 0 <= i < |a| ensures Expand(h1, a[i], s1 + {r1}) == Expand(h2, b[i], s2 + {r2}) {
      SameChild(h1, Object(r1), h2, Object(r2), At(i), a[i], b[i]);
      SameReadingSameTree(h1, a[i], s1 + {r1}, h2, b[i], s2 + {r2});
    }
    assert ExpandItems(h1, a, s1 + {r1}).value == ExpandItems(h2, b, s2 + {r2}).value;
  }

  lemma {:induction false} SameRecords(h1: Heap, r1: nat, s1: set<nat>, h2: Heap, r2: nat, s2: set<nat>)
    requires WellFormed(h1) && r1 in h1 && WellFormed(h2) && r2 in h2 && r1 !in s1
    requires Expand(h1, Object(r1), s1).Ok? && Expand(h2, Object(r2), s2).Ok?
    requires SameValue(h1, Object(r1), h2, Object(r2))
    requires h1[r1].RecordNode? && h2[r2].RecordNode?
    requires SortedKeys(h1[r1].fields) == SortedKeys(h2[r2].fields)
    ensures Expand(h1, Object(r1), s1) == Expand(h2, Object(r2), s2)
    decreases h1.Keys - s1, 0
  {
    RecordExpansion(h1, r1, s1);
    RecordExpansion(h2, r2, s2);
    ShrinksPath(h1, r1, s1);
    var a, b := SortFields(h1[r1].fields), SortFields(h2[r2].fields);
    var ms1, ms2 := Expand(h1, Object(r1), s1).value.members, Expand(h2, Object(r2), s2).value.members;
    SameLength(a, b);
    forall i | 0 <= i < |ms1| ensures ms1[i] == ms2[i] {
      KeyAt(a, i);
      KeyAt(b, i);
      SameChild(h1, Object(r1), h2, Object(r2), Of(a[i].key), a[i].value, b[i].value);
      SameReadingSameTree(h1, a[i].value, s1 + {r1}, h2, b[i].value, s2 + {r2});
    }
    assert ms1 == ms2;
  }

  lemma SameLength(a: seq<Field>, b: seq<Field>)
    requires KeysOf(a) == KeysOf(b)
    ensures |a| == |b|
  {
    if a != [] { KeyAt(a, 0); }
    if b != [] { KeyAt(b, 0); }
  }

  /** One text for equal values, and different texts for different ones. */
  lemma SameTextSameValue(h1: Heap, v1: Value, h2: Heap, v2: Value)
    requires WellFormed(h1) && InHeap(h1, v1) && WellFormed(h2) && InHeap(h2, v2)
    requires Acceptable(h1, v1) && Acceptable(h2, v2)
    ensures Print(Expand(h1, v1, {})) == Print(Expand(h2, v2, {})) <==> SameValue(h1, v1, h2, v2)
  {
    AcceptedExactly(h1, v1);
    AcceptedExactly(h2, v2);
    RenderInjective(Expand(h1, v1, {}).value, Expand(h2, v2, {}).value);
    if Expand(h1, v1, {}) == Expand(h2, v2, {}) {
      forall path ensures Observe(h1, v1, path) == Observe(h2, v2, path) {
        SameTreeSameReading(h1, v1, {}, h2, v2, {}, path);
      }
    }
    if SameValue(h1, v1, h2, v2) {
      SameReadingSameTree(h1, v1, {}, h2, v2, {});
    }
  }

  /** The printed text is JSON, and reading it gives the value back. */
  lemma PrintedTextParses(h: Heap, v: Value)
    requires WellFormed(h) && InHeap(h, v) && Acceptable(h, v)
    ensures Print(Expand(h, v, {})).Ok?
    ensures Parse(Print(Expand(h, v, {})).value) == Parsed(Expand(h, v, {}).value, [])
  {
    AcceptedExactly(h, v);
    var tree := Expand(h, v, {}).value;
    ParseRender(tree, []);
    assert Render(tree) + [] == Render(tree);
  }
}
