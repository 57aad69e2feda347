/**
 Task names of a LeRobot dataset: how they are read, how they enter the note of a trajectory file, and
 what a name does to the JSON line it is written in. Text is a sequence of code points, in which lone
 surrogates may stand.
 */
module LeRobotTasks {
  import opened Outcomes
  import JsonText

  type Point = c: int | 0 <= c < 0x110000

  type Points = seq<Point>

  function PointsOf(s: string): (p: Points)
    ensures |p| == |s|
  {
    seq(|s|, i requires 0 <= i < |s| => s[i] as int)
  }

  // ----- What a JSON line does to its text -----

  function Hex(d: int): Point
    requires 0 <= d < 16
  {
    if d < 10 then 0x30 + d else 0x57 + d
  }

  /** `json.dumps` with `ensure_ascii=False` escapes the quote, the backslash and what is below a space. */
  function Escape(c: Point): Points {
    if c == 0x22 || c == 0x5C then [0x5C, c]
    else if c == 0x08 then [0x5C, 0x62]
    else if c == 0x09 then [0x5C, 0x74]
    else if c == 0x0A then [0x5C, 0x6E]
    else if c == 0x0C then [0x5C, 0x66]
    else if c == 0x0D then [0x5C, 0x72]
    else if c < 0x20 then [0x5C, 0x75, 0x30, 0x30, Hex(c / 16), Hex(c % 16)]
    else [c]
  }

  function Escaped(s: Points): Points {
    if s == [] then [] else Escaped(s[..|s| - 1]) + Escape(s[|s| - 1])
  }

  function Quoted(s: Points): Points {
    [0x22] + Escaped(s) + [0x22]
  }

  /**
   What a code point can do to a line of text: `str.splitlines` ends the line at it; the same although
   `json.dumps` has quoted it; UTF-8 has no code for it.
   */
  datatype Flaw = BreaksLine | BreaksQuoted | LoneSurrogate

  predicate Has(c: Point, flaw: Flaw)
    decreases flaw == BreaksLine
  {
    match flaw
    case BreaksLine => 0x0A <= c <= 0x0D || 0x1C <= c <= 0x1E || Has(c, BreaksQuoted)
    case BreaksQuoted => c == 0x85 || c == 0x2028 || c == 0x2029
    case LoneSurrogate => 0xD800 <= c <= 0xDFFF
  }

  predicate Free(s: Points, flaw: Flaw) {
    forall i :: 0 <= i < |s| ==> !Has(s[i], flaw)
  }

  lemma FreeJoins(a: Points, b: Points, flaw: Flaw)
    ensures Free(a + b, flaw) <==> Free(a, flaw) && Free(b, flaw)
  {
    if Free(a + b, flaw) {
      forall i | 0 <= i < |a| ensures !Has(a[i], flaw) { assert (a + b)[i] == a[i]; }
      forall i | 0 <= i < |b| ensures !Has(b[i], flaw) { assert (a + b)[|a| + i] == b[i]; }
    }
  }

  lemma OneFree(c: Point, flaw: Flaw)
    ensures Free([c], flaw) <==> !Has(c, flaw)
  {
    assert [c][0] == c;
  }

  /** Quoting removes the line breaks among the control characters and nothing else. */
  function AfterQuoting(flaw: Flaw): Flaw {
    if flaw == BreaksLine then BreaksQuoted else flaw
  }

  lemma EscapeFree(c: Point, flaw: Flaw)
    ensures Free(Escape(c), flaw) <==> !Has(c, AfterQuoting(flaw))
  {
    var e := Escape(c);
    assert e[|e| - 1] == c || c < 0x20;
  }

  lemma {:induction false} EscapedFree(s: Points, flaw: Flaw)
    ensures Free(Escaped(s), flaw) <==> Free(s, AfterQuoting(flaw))
  {
    hide Free, Escape, Has, AfterQuoting;
    if s == [] {
      NothingIsFree(flaw);
      NothingIsFree(AfterQuoting(flaw));
    } else {
      var n := |s| - 1;
      EscapedFree(s[..n], flaw);
      EscapeFree(s[n], flaw);
      FreeJoins(Escaped(s[..n]), Escape(s[n]), flaw);
      assert s == s[..n] + [s[n]];
      FreeJoins(s[..n], [s[n]], AfterQuoting(flaw));
      OneFree(s[n], AfterQuoting(flaw));
    }
  }

  lemma NothingIsFree(flaw: Flaw)
    ensures Free([], flaw)
  {
  }

  /** A quoted string stays on its line exactly when it has none of U+0085, U+2028 and U+2029. */
  lemma QuotedFree(s: Points, flaw: Flaw)
    ensures Free(Quoted(s), flaw) <==> Free(s, AfterQuoting(flaw))
  {
    hide Free, Escaped;
    EscapedFree(s, flaw);
    OneFree(0x22, flaw);
    FreeJoins([0x22], Escaped(s), flaw);
    FreeJoins([0x22] + Escaped(s), [0x22], flaw);
  }

  lemma {:induction false} QuoteBodyGrows(s: JsonText.Text, u: JsonText.CodeUnit)
    requires JsonText.Plain(s) && !JsonText.IsLead(u) && !JsonText.IsTrail(u)
    ensures JsonText.QuoteBody(s + [u]) == JsonText.QuoteBody(s) + JsonText.QuoteUnit(u)
  {
    hide JsonText.QuoteUnit;
    if s == [] {
      assert s + [u] == [u] && [u][1..] == [];
    } else {
      assert (s + [u])[1..] == s[1..] + [u];
      QuoteBodyGrows(s[1..], u);
    }
  }

  /** On the characters of the basic plane `json.dumps` writes what `JSON.stringify` writes. */
  lemma {:induction false} EscapedIsQuoted(s: JsonText.Text)
    requires JsonText.Plain(s)
    ensures Escaped(s) == JsonText.QuoteBody(s) && Quoted(s) == JsonText.Quote(s)
  {
    hide JsonText.QuoteUnit, Escape;
    if s != [] {
      var n := |s| - 1;
      assert s == s[..n] + [s[n]];
      EscapedIsQuoted(s[..n]);
      QuoteBodyGrows(s[..n], s[n]);
      EscapeIsQuoteUnit(s[n]);
    }
  }

  lemma EscapeIsQuoteUnit(u: JsonText.CodeUnit)
    requires !JsonText.IsLead(u) && !JsonText.IsTrail(u)
    ensures Escape(u) == JsonText.QuoteUnit(u)
  {
  }

  // ----- Reading the names -----

  type Names = map<int, Points>

  /** A line of tasks.jsonl; `Unreadable` is broken JSON or JSON of another shape. */
  datatype TaskLine = NoTask | Unreadable | Bare(name: Points) | Keyed(index: Option<int>, name: Points)

  /** A row of tasks.parquet; `None` is a name that is not a string. */
  datatype TaskRow = TaskRow(index: int, name: Option<Points>)

  datatype TaskFile = JsonLines(lines: seq<TaskLine>) | Rows(rows: seq<TaskRow>) | NoNameColumn | NoTaskFile

  function TakeTask(names: Names, line: TaskLine): Option<Names> {
    match line
    case NoTask => Some(names)
    case Unreadable => None
    case Bare(name) => Some(names[|names| := name])
    case Keyed(index, name) => Some(names[(if index.Some? then index.value else |names|) := name])
  }

  function TakeTasks(lines: seq<TaskLine>, n: nat): Option<Names>
    requires n <= |lines|
  {
    if n == 0 then Some(map[])
    else
      var before := TakeTasks(lines, n - 1);
      if before.None? then None else TakeTask(before.value, lines[n - 1])
  }

  function TakeRows(rows: seq<TaskRow>, n: nat): Option<Names>
    requires n <= |rows|
  {
    if n == 0 then Some(map[])
    else
      var before := TakeRows(rows, n - 1);
      if before.None? || rows[n - 1].name.None? then None
      else Some(before.value[rows[n - 1].index := rows[n - 1].name.value])
  }

  /** `None` is the exception. */
  function ReadNames(file: TaskFile): Option<Names> {
    match file
    case JsonLines(lines) => TakeTasks(lines, |lines|)
    case Rows(rows) => TakeRows(rows, |rows|)
    case NoNameColumn => None
    case NoTaskFile => Some(map[])
  }

  lemma {:induction false} TasksStayUnread(lines: seq<TaskLine>, k: nat, n: nat)
    requires k <= n <= |lines| && TakeTasks(lines, k).None?
    ensures TakeTasks(lines, n).None?
    decreases n - k
  {
    if k < n { TasksStayUnread(lines, k, n - 1); }
  }

  lemma {:induction false} RowsStayUnread(rows: seq<TaskRow>, k: nat, n: nat)
    requires k <= n <= |rows| && TakeRows(rows, k).None?
    ensures TakeRows(rows, n).None?
    decreases n - k
  {
    if k < n { RowsStayUnread(rows, k, n - 1); }
  }

  /** `_read_tasks` */
  method ReadTasks(file: TaskFile) returns (r: Option<Names>)
    ensures r == ReadNames(file)
  {
    var names: Names := map[];
    match file
    case JsonLines(lines) =>
      for k := 0 to |lines|
        invariant TakeTasks(lines, k) == Some(names)
      {
        var taken := TakeTask(names, lines[k]);
        if taken.None? {
          TasksStayUnread(lines, k + 1, |lines|);
          return None;
        }
        names := taken.value;
      }
      return Some(names);
    case Rows(rows) =>
      for k := 0 to |rows|
        invariant TakeRows(rows, k) == Some(names)
      {
        if rows[k].name.None? {
          RowsStayUnread(rows, k + 1, |rows|);
          return None;
        }
        names := names[rows[k].index := rows[k].name.value];
      }
      return Some(names);
    case NoNameColumn => return None;
    case NoTaskFile => return Some(names);
  }

  /** No later one of the first `n` rows has the index of row `j`. */
  predicate IsLast(rows: seq<TaskRow>, n: nat, j: nat)
    requires j < n <= |rows|
  {
    forall l :: j < l < n ==> rows[l].index != rows[j].index
  }

  lemma {:induction false} RowsAreRead(rows: seq<TaskRow>, n: nat)
    requires n <= |rows|
    ensures TakeRows(rows, n).Some? <==> forall j :: 0 <= j < n ==> rows[j].name.Some?
    ensures TakeRows(rows, n).Some? ==>
      forall k :: k in TakeRows(rows, n).value ==> exists j :: 0 <= j < n && rows[j].index == k
  {
    if n > 0 { RowsAreRead(rows, n - 1); }
  }

  /** Of several rows with one index the last one names it. */
  lemma {:induction false} LastRowNames(rows: seq<TaskRow>, n: nat, j: nat)
    requires j < n <= |rows| && TakeRows(rows, n).Some? && IsLast(rows, n, j)
    ensures rows[j].index in TakeRows(rows, n).value
    ensures Some(TakeRows(rows, n).value[rows[j].index]) == rows[j].name
  {
    if j < n - 1 {
      assert IsLast(rows, n - 1, j);
      LastRowNames(rows, n - 1, j);
    }
  }

  /** A tasks.jsonl that numbers its tasks reads as the table of the same rows. */
  lemma {:induction false} KeyedLinesAreRows(rows: seq<TaskRow>, lines: seq<TaskLine>, n: nat)
    requires n <= |rows| == |lines|
    requires forall j :: 0 <= j < n ==> rows[j].name.Some? && lines[j] == Keyed(Some(rows[j].index), rows[j].name.value)
    ensures TakeTasks(lines, n) == TakeRows(rows, n)
  {
    if n > 0 { KeyedLinesAreRows(rows, lines, n - 1); }
  }

  /** Bare names, and objects that give no index, are numbered from zero. */
  lemma {:induction false} BareLinesAreNumbered(names: seq<Points>, lines: seq<TaskLine>, n: nat)
    requires n <= |names| == |lines|
    requires forall j :: 0 <= j < n ==> lines[j] == Bare(names[j]) || lines[j] == Keyed(None, names[j])
    ensures TakeTasks(lines, n).Some? && forall k :: k in TakeTasks(lines, n).value <==> 0 <= k < n
    ensures |TakeTasks(lines, n).value| == n && forall k :: 0 <= k < n ==> TakeTasks(lines, n).value[k] == names[k]
  {
    if n > 0 { BareLinesAreNumbered(names, lines, n - 1); }
  }

  // ----- The note -----

  lemma Pick<T>(s: set<T>) returns (x: T)
    requires s != {}
    ensures x in s
  {
    x :| x in s;
  }

  lemma SomeLeast(s: set<int>)
    requires s != {}
    ensures exists x :: x in s && forall y :: y in s ==> x <= y
  {
    var x := Pick(s);
    if s != {x} {
      SomeLeast(s - {x});
      var m :| m in s - {x} && forall y :: y in s - {x} ==> m <= y;
      var least := if x < m then x else m;
      forall y | y in s ensures least <= y {
        if y != x { assert y in s - {x}; }
      }
      assert least in s;
    } else {
      assert x in s && forall y :: y in s ==> x <= y;
    }
  }

  function Least(s: set<int>): (x: int)
    requires s != {}
    ensures x in s && forall y :: y in s ==> x <= y
  {
    SomeLeast(s);
    var x :| x in s && forall y :: y in s ==> x <= y;
    x
  }

  function Ascending(s: set<int>): (keys: seq<int>)
    ensures forall i :: 0 <= i < |keys| ==> keys[i] in s
    ensures forall k :: k in s ==> k in keys
  {
    if s == {} then [] else [Least(s)] + Ascending(s - {Least(s)})
  }

  /** The keys rise strictly. */
  lemma {:induction false} AscendingRises(s: set<int>)
    ensures forall i, j :: 0 <= i < j < |Ascending(s)| ==> Ascending(s)[i] < Ascending(s)[j]
  {
    hide Least;
    if s != {} {
      var least := Least(s);
      var rest := Ascending(s - {least});
      AscendingRises(s - {least});
      assert Ascending(s) == [least] + rest;
      hide Ascending;
      forall i, j | 0 <= i < j < |rest| + 1 ensures ([least] + rest)[i] < ([least] + rest)[j] {
        if i == 0 { assert rest[j - 1] in s - {least}; }
      }
    }
  }

  predicate Known(names: Names, keys: seq<int>) {
    forall i :: 0 <= i < |keys| ==> keys[i] in names
  }

  /** The names separated by semicolons. */
  function Joined(names: Names, keys: seq<int>): Points
    requires Known(names, keys)
  {
    if keys == [] then []
    else if |keys| == 1 then names[keys[0]]
    else Joined(names, keys[..|keys| - 1]) + PointsOf("; ") + names[keys[|keys| - 1]]
  }

  const SUPPORTED_VERSIONS := ["v2.1", "v3.0"]

  const CONVERTED := "converted from LeRobot dataset "
  const TASKS := ", tasks: "
  const NO_TASKS := "(none declared)"

  function Note(version: string, names: Names): Points {
    PointsOf(CONVERTED) + PointsOf(version) + PointsOf(TASKS)
    + if names == map[] then PointsOf(NO_TASKS) else Joined(names, Ascending(names.Keys))
  }

  predicate AllFree(names: Names, flaw: Flaw) {
    forall k :: k in names ==> Free(names[k], flaw)
  }

  predicate Ascii(s: string) {
    forall i :: 0 <= i < |s| ==> ' ' <= s[i] <= '~'
  }

  lemma AsciiIsFree(s: string, flaw: Flaw)
    requires Ascii(s)
    ensures Free(PointsOf(s), flaw)
  {
  }

  lemma {:induction false} JoinedFree(names: Names, keys: seq<int>, flaw: Flaw)
    requires Known(names, keys)
    ensures Free(Joined(names, keys), flaw) <==> forall i :: 0 <= i < |keys| ==> Free(names[keys[i]], flaw)
  {
    hide Free, PointsOf;
    if keys == [] {
      NothingIsFree(flaw);
    } else if |keys| > 1 {
      var n := |keys| - 1;
      JoinedFree(names, keys[..n], flaw);
      assert Ascii("; ");
      AsciiIsFree("; ", flaw);
      FreeJoins(Joined(names, keys[..n]), PointsOf("; "), flaw);
      FreeJoins(Joined(names, keys[..n]) + PointsOf("; "), names[keys[n]], flaw);
    }
  }

  lemma WordsAreFree(version: string, flaw: Flaw)
    requires version in SUPPORTED_VERSIONS
    ensures Free(PointsOf(version), flaw) && Free(PointsOf(CONVERTED), flaw)
    ensures Free(PointsOf(TASKS), flaw) && Free(PointsOf(NO_TASKS), flaw)
  {
    hide Free, PointsOf;
    assert Ascii(CONVERTED) && Ascii(version) && Ascii(TASKS) && Ascii(NO_TASKS);
    AsciiIsFree(CONVERTED, flaw);
    AsciiIsFree(version, flaw);
    AsciiIsFree(TASKS, flaw);
    AsciiIsFree(NO_TASKS, flaw);
  }

  /** The fixed words of the note have no flaw, so the note is free of what every name is free of. */
  lemma NoteFree(version: string, names: Names, flaw: Flaw)
    requires version in SUPPORTED_VERSIONS
    ensures Free(Note(version, names), flaw) <==> AllFree(names, flaw)
  {
    hide Free, PointsOf;
    WordsAreFree(version, flaw);
    var keys := Ascending(names.Keys);
    var last := if names == map[] then PointsOf(NO_TASKS) else Joined(names, keys);
    FreeJoins(PointsOf(CONVERTED), PointsOf(version), flaw);
    FreeJoins(PointsOf(CONVERTED) + PointsOf(version), PointsOf(TASKS), flaw);
    FreeJoins(PointsOf(CONVERTED) + PointsOf(version) + PointsOf(TASKS), last, flaw);
    JoinedFree(names, keys, flaw);
    assert forall k :: k in names ==> k in keys;
  }

  /** The header keeps to one line exactly when every task name does, and can be written exactly when every name can. */
  lemma NoteLine(version: string, names: Names)
    requires version in SUPPORTED_VERSIONS
    ensures Free(Quoted(Note(version, names)), BreaksLine) <==> AllFree(names, BreaksQuoted)
    ensures Free(Quoted(Note(version, names)), LoneSurrogate) <==> AllFree(names, LoneSurrogate)
  {
    hide Free, Note, Quoted;
    QuotedFree(Note(version, names), BreaksLine);
    QuotedFree(Note(version, names), LoneSurrogate);
    NoteFree(version, names, BreaksQuoted);
    NoteFree(version, names, LoneSurrogate);
  }
}
