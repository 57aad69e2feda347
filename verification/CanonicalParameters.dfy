/**
 `canonicalizeParameters`: a value in a heap of arrays and records is printed with its keys
 sorted, and a path-based `seen` set refuses a value that contains itself.
 */
module CanonicalParameters {
  import opened Outcomes
  import opened JsonText

  datatype Failure = NumberInvalid | ValueInvalid | Cycle | KeyInvalid

  /** `NotFinite` is NaN or an infinity, `Foreign` is undefined, a function, a symbol or a bigint. */
  datatype Value =
    | NullValue
    | BoolValue(truth: bool)
    | NumberValue(numeral: Numeral)
    | NotFinite
    | StringValue(text: Text)
    | Foreign
    | Object(ref: nat)

  datatype Field = Field(key: Text, value: Value)

  /** Record fields stand in insertion order. */
  datatype Node = ArrayNode(items: seq<Value>) | RecordNode(fields: seq<Field>)

  type Heap = map<nat, Node>

  function Children(n: Node): seq<Value> {
    match n
    case ArrayNode(items) => items
    case RecordNode(fields) => seq(|fields|, i requires 0 <= i < |fields| => fields[i].value)
  }

  predicate InHeap(h: Heap, v: Value) {
    v.Object? ==> v.ref in h
  }

  predicate DistinctKeys(fields: seq<Field>) {
    forall i, j :: 0 <= i < j < |fields| ==> fields[i].key != fields[j].key
  }

  predicate WellFormedNode(h: Heap, n: Node) {
    && (forall v :: v in Children(n) ==> InHeap(h, v))
    && (n.RecordNode? ==> DistinctKeys(n.fields))
  }

  predicate WellFormed(h: Heap) {
    forall r :: r in h ==> WellFormedNode(h, h[r])
  }

  // ----- Sorting keys by code units -----

  predicate Before(a: Text, b: Text) {
    b != [] && (a == [] || a[0] < b[0] || (a[0] == b[0] && Before(a[1..], b[1..])))
  }

  lemma {:induction false} BeforeTotal(a: Text, b: Text)
    ensures a == b || Before(a, b) || Before(b, a)
  {
    if a != [] && b != [] && a[0] == b[0] {
      BeforeTotal(a[1..], b[1..]);
      assert [a[0]] + a[1..] == a && [b[0]] + b[1..] == b;
    }
  }

  lemma {:induction false} BeforeStrict(a: Text, b: Text)
    requires Before(a, b)
    ensures a != b && !Before(b, a)
  {
    if a != [] && a[0] == b[0] {
      BeforeStrict(a[1..], b[1..]);
    }
  }

  lemma {:induction false} BeforeTransitive(a: Text, b: Text, c: Text)
    requires Before(a, b) && Before(b, c)
    ensures Before(a, c)
  {
    if a != [] && a[0] == b[0] && b[0] == c[0] {
      BeforeTransitive(a[1..], b[1..], c[1..]);
    }
  }

  predicate Ascending(keys: seq<Text>) {
    keys == [] || ((forall k :: k in keys[1..] ==> Before(keys[0], k)) && Ascending(keys[1..]))
  }

  function KeysOf(fields: seq<Field>): seq<Text> {
    if fields == [] then [] else [fields[0].key] + KeysOf(fields[1..])
  }

  function Insert(f: Field, sorted: seq<Field>): seq<Field> {
    if sorted == [] || Before(f.key, sorted[0].key) then [f] + sorted else [sorted[0]] + Insert(f, sorted[1..])
  }

  /** `Object.keys(record).sort()`, carrying the values along. */
  function SortFields(fields: seq<Field>): seq<Field> {
    if fields == [] then [] else Insert(fields[0], SortFields(fields[1..]))
  }

  lemma {:induction false} InsertKeeps(f: Field, sorted: seq<Field>)
    ensures forall g :: g in Insert(f, sorted) <==> g == f || g in sorted
  {
    if sorted != [] && !Before(f.key, sorted[0].key) {
      InsertKeeps(f, sorted[1..]);
      assert [sorted[0]] + sorted[1..] == sorted;
    }
  }

  lemma {:induction false} SortKeeps(fields: seq<Field>)
    ensures forall g :: g in SortFields(fields) <==> g in fields
  {
    if fields != [] {
      SortKeeps(fields[1..]);
      InsertKeeps(fields[0], SortFields(fields[1..]));
      assert [fields[0]] + fields[1..] == fields;
    }
  }

  lemma {:induction false} KeysOfMembers(fields: seq<Field>, k: Text)
    ensures k in KeysOf(fields) <==> exists f :: f in fields && f.key == k
  {
    if fields != [] {
      KeysOfMembers(fields[1..], k);
      assert fields == [fields[0]] + fields[1..];
    }
  }

  lemma {:induction false} InsertAscends(f: Field, sorted: seq<Field>)
    requires Ascending(KeysOf(sorted)) && f.key !in KeysOf(sorted)
    ensures Ascending(KeysOf(Insert(f, sorted)))
    ensures forall k :: k in KeysOf(Insert(f, sorted)) <==> k == f.key || k in KeysOf(sorted)
  {
    if sorted != [] {
      var keys := KeysOf(sorted);
      assert keys == [keys[0]] + keys[1..] && keys[1..] == KeysOf(sorted[1..]);
      if Before(f.key, keys[0]) {
        assert KeysOf([f] + sorted)[1..] == keys;
        forall k | k in keys ensures Before(f.key, k) {
          if k != keys[0] { BeforeTransitive(f.key, keys[0], k); }
        }
      } else {
        BeforeTotal(f.key, keys[0]);
        InsertAscends(f, sorted[1..]);
        assert KeysOf(Insert(f, sorted))[1..] == KeysOf(Insert(f, sorted[1..]));
      }
    }
  }

  lemma {:induction false} SortAscends(fields: seq<Field>)
    requires DistinctKeys(fields)
    ensures Ascending(KeysOf(SortFields(fields)))
    ensures forall k :: k in KeysOf(SortFields(fields)) <==> k in KeysOf(fields)
  {
    if fields != [] {
      var tail := fields[1..];
      SortAscends(tail);
      KeysOfMembers(tail, fields[0].key);
      InsertAscends(fields[0], SortFields(tail));
    }
  }

  lemma FirstKeyIsNew(keys: seq<Text>)
    requires keys != [] && Ascending(keys)
    ensures keys[0] !in keys[1..]
    ensures forall k :: k in keys <==> k == keys[0] || k in keys[1..]
  {
    assert keys == [keys[0]] + keys[1..];
    if keys[0] in keys[1..] { BeforeStrict(keys[0], keys[0]); }
  }

  lemma HeadIsMember(keys: seq<Text>)
    requires keys != []
    ensures keys[0] in keys
  {
  }

  /** A set of keys has one ascending listing. */
  lemma {:induction false} AscendingUnique(a: seq<Text>, b: seq<Text>)
    requires Ascending(a) && Ascending(b)
    requires forall k :: k in a <==> k in b
    ensures a == b
  {
    if a == [] {
      if b != [] {
        HeadIsMember(b);
        assert false;
      }
    } else {
      HeadIsMember(a);
      HeadIsMember(b);
      FirstKeyIsNew(a);
      FirstKeyIsNew(b);
      if a[0] != b[0] {
        BeforeStrict(a[0], b[0]);
        assert false;
      }
      AscendingUnique(a[1..], b[1..]);
      assert a == [a[0]] + a[1..] && b == [b[0]] + b[1..];
    }
  }

  // ----- What the printer accepts, as a tree -----

  predicate Forbidden(key: Text) {
    key == PROTO_KEY || key == CONSTRUCTOR_KEY || key == PROTOTYPE_KEY
  }

  // "__proto__", "constructor" and "prototype".
  const PROTO_KEY: Text := [0x5F, 0x5F, 0x70, 0x72, 0x6F, 0x74, 0x6F, 0x5F, 0x5F]
  const CONSTRUCTOR_KEY: Text := [0x63, 0x6F, 0x6E, 0x73, 0x74, 0x72, 0x75, 0x63, 0x74, 0x6F, 0x72]
  const PROTOTYPE_KEY: Text := [0x70, 0x72, 0x6F, 0x74, 0x6F, 0x74, 0x79, 0x70, 0x65]

  predicate HasForbiddenKey(n: Node) {
    n.RecordNode? && exists i :: 0 <= i < |n.fields| && Forbidden(n.fields[i].key)
  }

  function ExpandScalar(v: Value): Result<Tree, Failure>
    requires !v.Object?
  {
    match v
    case NullValue => Ok(Null)
    case BoolValue(b) => Ok(Bool(b))
    case NumberValue(n) => Ok(Number(n))
    case StringValue(s) => Ok(Str(s))
    case NotFinite => Err(NumberInvalid)
    case Foreign => Err(ValueInvalid)
  }

  function Expand(h: Heap, v: Value, seen: set<nat>): Result<Tree, Failure>
    requires WellFormed(h) && InHeap(h, v)
    decreases h.Keys - seen, 0
  {
    if !v.Object? then ExpandScalar(v)
    else if v.ref in seen then Err(Cycle)
    else
      ShrinksPath(h, v.ref, seen);
      match h[v.ref]
      case ArrayNode(items) =>
        (match ExpandItems(h, items, seen + {v.ref})
         case Ok(trees) => Ok(Arr(trees))
         case Err(e) => Err(e))
      case RecordNode(fields) =>
        if HasForbiddenKey(h[v.ref]) then Err(KeyInvalid)
        else
          SortedInHeap(h, fields);
          match ExpandFields(h, SortFields(fields), seen + {v.ref})
          case Ok(members) => Ok(Rec(members))
          case Err(e) => Err(e)
  }

  function ExpandItems(h: Heap, items: seq<Value>, seen: set<nat>): Result<seq<Tree>, Failure>
    requires WellFormed(h) && forall v :: v in items ==> InHeap(h, v)
    decreases h.Keys - seen, |items|
  {
    if items == [] then Ok([])
    else
      match Expand(h, items[0], seen)
      case Err(e) => Err(e)
      case Ok(tree) =>
        match ExpandItems(h, items[1..], seen)
        case Err(e) => Err(e)
        case Ok(trees) => Ok([tree] + trees)
  }

  function ExpandFields(h: Heap, fields: seq<Field>, seen: set<nat>): Result<seq<Member>, Failure>
    requires WellFormed(h) && forall f :: f in fields ==> InHeap(h, f.value)
    decreases h.Keys - seen, |fields|
  {
    if fields == [] then Ok([])
    else
      match Expand(h, fields[0].value, seen)
      case Err(e) => Err(e)
      case Ok(tree) =>
        match ExpandFields(h, fields[1..], seen)
        case Err(e) => Err(e)
        case Ok(members) => Ok([Member(fields[0].key, tree)] + members)
  }

  lemma ShrinksPath(h: Heap, r: nat, seen: set<nat>)
    requires r in h && r !in seen
    ensures h.Keys - (seen + {r}) < h.Keys - seen
  {
    assert r in h.Keys - seen && r !in h.Keys - (seen + {r});
  }

  lemma SortedInHeap(h: Heap, fields: seq<Field>)
    requires WellFormedNode(h, RecordNode(fields))
    ensures forall f :: f in SortFields(fields) ==> InHeap(h, f.value)
  {
    SortKeeps(fields);
    forall f | f in fields ensures InHeap(h, f.value) {
      var i :| 0 <= i < |fields| && fields[i] == f;
      assert Children(RecordNode(fields))[i] == f.value;
    }
  }

  // ----- The printer itself -----

  function Print(r: Result<Tree, Failure>): Result<Text, Failure> {
    match r
    case Ok(tree) => Ok(Render(tree))
    case Err(e) => Err(e)
  }

  function RenderAll(trees: seq<Tree>): seq<Text> {
    if trees == [] then [] else [Render(trees[0])] + RenderAll(trees[1..])
  }

  function RenderAllMembers(members: seq<Member>): seq<Text> {
    if members == [] then [] else [RenderMember(members[0])] + RenderAllMembers(members[1..])
  }

  /** `pieces.join(',')` */
  function Join(pieces: seq<Text>): Text {
    if pieces == [] then []
    else if |pieces| == 1 then pieces[0]
    else pieces[0] + [COMMA] + Join(pieces[1..])
  }

  lemma {:induction false} JoinItems(trees: seq<Tree>)
    ensures Join(RenderAll(trees)) == RenderItems(trees)
    ensures |RenderAll(trees)| == |trees|
  {
    if trees != [] {
      JoinItems(trees[1..]);
      assert RenderAll(trees)[1..] == RenderAll(trees[1..]);
    }
  }

  lemma {:induction false} JoinMembers(members: seq<Member>)
    ensures Join(RenderAllMembers(members)) == RenderMembers(members)
    ensures |RenderAllMembers(members)| == |members|
  {
    if members != [] {
      JoinMembers(members[1..]);
      assert RenderAllMembers(members)[1..] == RenderAllMembers(members[1..]);
    }
  }

  lemma {:induction false} RenderAllSnoc(trees: seq<Tree>, last: Tree)
    ensures RenderAll(trees + [last]) == RenderAll(trees) + [Render(last)]
  {
    if trees == [] {
      assert trees + [last] == [last];
    } else {
      RenderAllSnoc(trees[1..], last);
      assert (trees + [last])[1..] == trees[1..] + [last];
    }
  }

  lemma {:induction false} RenderAllMembersSnoc(members: seq<Member>, last: Member)
    ensures RenderAllMembers(members + [last]) == RenderAllMembers(members) + [RenderMember(last)]
  {
    if members == [] {
      assert members + [last] == [last];
    } else {
      RenderAllMembersSnoc(members[1..], last);
      assert (members + [last])[1..] == members[1..] + [last];
    }
  }

  /** `done` is what the items before the current one expanded to. */
  function Resume<T>(done: seq<T>, r: Result<seq<T>, Failure>): Result<seq<T>, Failure> {
    match r
    case Ok(rest) => Ok(done + rest)
    case Err(e) => Err(e)
  }

  lemma ResumeStart<T>(r: Result<seq<T>, Failure>)
    ensures Resume([], r) == r
  {
    assert r.Ok? ==> [] + r.value == r.value;
  }

  lemma ItemsStep(h: Heap, items: seq<Value>, i: nat, done: seq<Tree>, seen: set<nat>)
    requires WellFormed(h) && i < |items| && forall v :: v in items ==> InHeap(h, v)
    ensures
      var all := Resume(done, ExpandItems(h, items[i..], seen));
      match Expand(h, items[i], seen)
      case Err(e) => all == Err(e)
      case Ok(tree) => all == Resume(done + [tree], ExpandItems(h, items[i + 1..], seen))
  {
    assert items[i..][1..] == items[i + 1..];
    var rest := ExpandItems(h, items[i + 1..], seen);
    if rest.Ok? && Expand(h, items[i], seen).Ok? {
      var tree := Expand(h, items[i], seen).value;
      assert done + ([tree] + rest.value) == (done + [tree]) + rest.value;
    }
  }

  lemma FieldsStep(h: Heap, fields: seq<Field>, i: nat, done: seq<Member>, seen: set<nat>)
    requires WellFormed(h) && i < |fields| && forall f :: f in fields ==> InHeap(h, f.value)
    ensures
      var all := Resume(done, ExpandFields(h, fields[i..], seen));
      match Expand(h, fields[i].value, seen)
      case Err(e) => all == Err(e)
      case Ok(tree) => all == Resume(done + [Member(fields[i].key, tree)], ExpandFields(h, fields[i + 1..], seen))
  {
    assert fields[i..][1..] == fields[i + 1..];
    var rest := ExpandFields(h, fields[i + 1..], seen);
    if rest.Ok? && Expand(h, fields[i].value, seen).Ok? {
      var m := Member(fields[i].key, Expand(h, fields[i].value, seen).value);
      assert done + ([m] + rest.value) == (done + [m]) + rest.value;
    }
  }

  class Canonicalizer {
    const heap: Heap
    var seen: set<nat>

    constructor (heap: Heap)
      ensures this.heap == heap && seen == {}
    {
      this.heap := heap;
      seen := {};
    }

    /** On success `seen` is what it was; on failure the exception abandons the whole call. */
    method Visit(v: Value) returns (r: Result<Text, Failure>)
      requires WellFormed(heap) && InHeap(heap, v)
      modifies this
      ensures r == Print(Expand(heap, v, old(seen)))
      ensures r.Ok? ==> seen == old(seen)
      decreases heap.Keys - seen, 0
    {
      if !v.Object? {
        return Print(ExpandScalar(v));
      }
      if v.ref in seen {
        return Err(Cycle);
      }
      ShrinksPath(heap, v.ref, seen);
      seen := seen + {v.ref};
      match heap[v.ref] {
        case ArrayNode(items) =>
          var pieces := VisitItems(items);
          if pieces.Err? { return Err(pieces.error); }
          r := Ok([OPEN_BRACKET] + Join(pieces.value) + [CLOSE_BRACKET]);
        case RecordNode(fields) =>
          if HasForbiddenKey(heap[v.ref]) {
            return Err(KeyInvalid);
          }
          SortedInHeap(heap, fields);
          var pieces := VisitFields(SortFields(fields));
          if pieces.Err? { return Err(pieces.error); }
          r := Ok([OPEN_BRACE] + Join(pieces.value) + [CLOSE_BRACE]);
      }
      seen := seen - {v.ref};
      assert seen == old(seen);
    }

    /** `input.map(visit)`, joined by the caller. */
    method VisitItems(items: seq<Value>) returns (r: Result<seq<Text>, Failure>)
      requires WellFormed(heap) && forall v :: v in items ==> InHeap(heap, v)
      modifies this
      ensures match ExpandItems(heap, items, old(seen))
              case Err(e) => r == Err(e)
              case Ok(trees) => r.Ok? && Join(r.value) == RenderItems(trees) && seen == old(seen)
      decreases heap.Keys - seen, |items| + 1
    {
      var pieces: seq<Text> := [];
      ghost var done: seq<Tree> := [];
      var i := 0;
      ResumeStart(ExpandItems(heap, items, seen));
      assert items[0..] == items;
      while i < |items|
        invariant 0 <= i <= |items| && seen == old(seen)
        invariant pieces == RenderAll(done)
        invariant ExpandItems(heap, items, old(seen)) == Resume(done, ExpandItems(heap, items[i..], old(seen)))
      {
        ItemsStep(heap, items, i, done, seen);
        var piece := Visit(items[i]);
        if piece.Err? { return Err(piece.error); }
        ghost var tree := Expand(heap, items[i], seen).value;
        RenderAllSnoc(done, tree);
        pieces, done, i := pieces + [piece.value], done + [tree], i + 1;
      }
      JoinItems(done);
      assert done + [] == done;
      return Ok(pieces);
    }

    /** `keys.map(key => ...)`, joined by the caller. */
    method VisitFields(fields: seq<Field>) returns (r: Result<seq<Text>, Failure>)
      requires WellFormed(heap) && forall f :: f in fields ==> InHeap(heap, f.value)
      modifies this
      ensures match ExpandFields(heap, fields, old(seen))
              case Err(e) => r == Err(e)
              case Ok(members) => r.Ok? && Join(r.value) == RenderMembers(members) && seen == old(seen)
      decreases heap.Keys - seen, |fields| + 1
    {
      var pieces: seq<Text> := [];
      ghost var done: seq<Member> := [];
      var i := 0;
      ResumeStart(ExpandFields(heap, fields, seen));
      assert fields[0..] == fields;
      while i < |fields|
        invariant 0 <= i <= |fields| && seen == old(seen)
        invariant pieces == RenderAllMembers(done)
        invariant ExpandFields(heap, fields, old(seen)) == Resume(done, ExpandFields(heap, fields[i..], old(seen)))
      {
        FieldsStep(heap, fields, i, done, seen);
        var piece := Visit(fields[i].value);
        if piece.Err? { return Err(piece.error); }
        ghost var member := Member(fields[i].key, Expand(heap, fields[i].value, seen).value);
        RenderAllMembersSnoc(done, member);
        pieces := pieces + [Quote(fields[i].key) + [COLON] + piece.value];
        done, i := done + [member], i + 1;
      }
      JoinMembers(done);
      assert done + [] == done;
      return Ok(pieces);
    }
  }
}
