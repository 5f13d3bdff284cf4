/**
 * Rendering a value for a get request: null and scalars as text, anything else
 * as a table of its properties, one row per property, with one level of nested
 * tables for the parameter and operator properties.
 */
module Inspector {
  import opened Common
  import opened Text
  import opened ObjectGraph

  const NewLine := "\r\n"
  const Rule := Repeat('-', 60)

  /** `{name,-35} | {type,-15} | {cell}` */
  function Row(name: string, typeName: string, cell: string): string {
    PadRight(name, 35) + " | " + PadRight(typeName, 15) + " | " + cell
  }

  const HeaderRow := Row("Property Name", "Type", "Value/Detail")

  /** Event-style and back-reference properties are left out of the table. */
  predicate Skipped(p: Prop) {
    EndsWith(p.name, "Changed") || p.name == "Tag" || p.name == "Parent"
  }

  /** The properties whose values get a nested table. */
  predicate Expands(p: Prop) {
    p.name == "RunParams" || p.name == "Operator" || p.name == "Operators"
  }

  // ---------------------------------------------------------------------------
  // Which properties, in which order
  // ---------------------------------------------------------------------------

  /** The properties that take no index arguments, in declaration order. */
  function NotIndexed(props: seq<Prop>): seq<Prop> {
    if props == [] then []
    else (if props[0].indexed then [] else [props[0]]) + NotIndexed(props[1..])
  }

  lemma {:induction false} NotIndexedSpec(props: seq<Prop>)
    ensures forall p :: p in NotIndexed(props) <==> p in props && !p.indexed
  {
    if props != [] {
      NotIndexedSpec(props[1..]);
      assert forall p :: p in props <==> p == props[0] || p in props[1..];
    }
  }

  function InsertByName(p: Prop, ps: seq<Prop>): seq<Prop> {
    if ps == [] || OrdinalLe(p.name, ps[0].name) then [p] + ps
    else [ps[0]] + InsertByName(p, ps[1..])
  }

  lemma {:induction false} InsertByNameCounts(p: Prop, ps: seq<Prop>)
    ensures multiset(InsertByName(p, ps)) == multiset(ps) + multiset{p}
  {
    if ps != [] && !OrdinalLe(p.name, ps[0].name) {
      InsertByNameCounts(p, ps[1..]);
      assert ps == [ps[0]] + ps[1..];
    }
  }

  /** OrderBy(p => p.Name), comparing names character by character. */
  function SortByName(ps: seq<Prop>): seq<Prop> {
    if ps == [] then []
    else InsertByName(ps[0], SortByName(ps[1..]))
  }

  predicate SortedByName(ps: seq<Prop>) {
    forall i, j :: 0 <= i < j < |ps| ==> OrdinalLe(ps[i].name, ps[j].name)
  }

  lemma {:induction false} InsertKeepsSorted(p: Prop, ps: seq<Prop>)
    requires SortedByName(ps)
    ensures SortedByName(InsertByName(p, ps))
  {
    if ps != [] && !OrdinalLe(p.name, ps[0].name) {
      InsertKeepsSorted(p, ps[1..]);
      InsertByNameCounts(p, ps[1..]);
      OrdinalLeTotal(p.name, ps[0].name);
      var r := InsertByName(p, ps);
      var tail := InsertByName(p, ps[1..]);
      assert r == [ps[0]] + tail;
      forall j | 0 < j < |r| ensures OrdinalLe(ps[0].name, r[j].name) {
        assert r[j] in multiset(tail);
        assert r[j] == p || r[j] in ps[1..];
        if r[j] != p {
          var k :| 0 <= k < |ps[1..]| && ps[1..][k] == r[j];
          assert ps[k + 1] == r[j];
        }
      }
    } else if ps != [] {
      var r := InsertByName(p, ps);
      forall i, j | 0 <= i < j < |r| ensures OrdinalLe(r[i].name, r[j].name) {
        if i == 0 && j > 1 {
          OrdinalLeTransitive(p.name, ps[0].name, ps[j - 1].name);
        }
      }
    }
  }

  /** The order the table uses: sorted by name, and a rearrangement of the input. */
  lemma {:induction false} SortByNameIsSortedPermutation(ps: seq<Prop>)
    ensures SortedByName(SortByName(ps))
    ensures multiset(SortByName(ps)) == multiset(ps)
  {
    if ps != [] {
      SortByNameIsSortedPermutation(ps[1..]);
      InsertKeepsSorted(ps[0], SortByName(ps[1..]));
      InsertByNameCounts(ps[0], SortByName(ps[1..]));
      assert ps == [ps[0]] + ps[1..];
    }
  }

  /** The properties of a value as the table lists them, before skipping. */
  function Listed(h: Heap, v: Value): seq<Prop> {
    SortByName(NotIndexed(PropsOf(h, v)))
  }

  // ---------------------------------------------------------------------------
  // The table
  // ---------------------------------------------------------------------------

  function ElementCount(h: Heap, v: Value): nat
    requires Elements(h, v).Some?
  {
    |Elements(h, v).value|
  }

  /**
   * The detail cell of a property: `<Err>` when reading it throws, `null`, the
   * text of a primitive, string or enum property, the element count of any other
   * enumerable value except a string, and the declared type name otherwise.
   */
  function Cell(h: Heap, p: Prop): string {
    match p.read
    case Throws(_) => "<Err>"
    case Got(v) =>
      if v == Null then "null"
      else if p.kind.PrimitiveType? || p.kind.StringType? || p.kind.EnumType? then Display(h, v)
      else if !IsString(v) && Elements(h, v).Some? then "[Count=" + ShowInt(ElementCount(h, v)) + "]"
      else "<" + p.typeName + ">"
  }

  function Measure(depth: nat, maxDepth: nat): nat {
    if depth <= maxDepth then maxDepth - depth else 0
  }

  /** The rows AppendObjectStructure writes for a value at a given depth. */
  function Dump(h: Heap, v: Value, depth: nat, maxDepth: nat): seq<string>
    decreases Measure(depth, maxDepth), 2, 0
  {
    if depth > maxDepth || v == Null then [] else
    var ps := Listed(h, v);
    DumpRows(h, ps, |ps|, depth, maxDepth)
  }

  /** The rows for the first `n` properties of `ps`. */
  function DumpRows(h: Heap, ps: seq<Prop>, n: nat, depth: nat, maxDepth: nat): seq<string>
    requires n <= |ps| && depth <= maxDepth
    decreases Measure(depth, maxDepth), 1, n
  {
    if n == 0 then []
    else DumpRows(h, ps, n - 1, depth, maxDepth) + PropRows(h, ps[n - 1], depth, maxDepth)
  }

  /** One property's row, followed by its nested table when it is on the allow-list and depth remains. */
  function PropRows(h: Heap, p: Prop, depth: nat, maxDepth: nat): seq<string>
    requires depth <= maxDepth
    decreases Measure(depth, maxDepth), 0, 0
  {
    if Skipped(p) then []
    else
      [Row(p.name, p.typeName, Cell(h, p))]
      + (if depth < maxDepth && Expands(p) && p.read.Got? then Dump(h, p.read.value, depth + 1, maxDepth) else [])
  }

  /** The shown properties, in order. */
  function Shown(ps: seq<Prop>): seq<Prop> {
    if ps == [] then []
    else Shown(ps[..|ps| - 1]) + (if Skipped(ps[|ps| - 1]) then [] else [ps[|ps| - 1]])
  }

  lemma {:induction false} ShownSpec(ps: seq<Prop>)
    ensures forall p :: p in Shown(ps) <==> p in ps && !Skipped(p)
  {
    if ps != [] {
      ShownSpec(ps[..|ps| - 1]);
      assert forall p :: p in ps <==> p in ps[..|ps| - 1] || p == ps[|ps| - 1];
    }
  }

  /** One row per property, with no nested tables. */
  function FlatRows(h: Heap, ps: seq<Prop>): seq<string> {
    seq(|ps|, i requires 0 <= i < |ps| => Row(ps[i].name, ps[i].typeName, Cell(h, ps[i])))
  }

  lemma {:induction false} DumpRowsAtLastLevel(h: Heap, ps: seq<Prop>, n: nat, d: nat)
    requires n <= |ps|
    ensures DumpRows(h, ps, n, d, d) == FlatRows(h, Shown(ps[..n]))
  {
    if n > 0 {
      DumpRowsAtLastLevel(h, ps, n - 1, d);
      assert ps[..n][..n - 1] == ps[..n - 1];
    }
  }

  /**
   * At the last level the table is flat: one row per shown property, in name
   * order, and the shown properties are exactly the non-indexed ones that are
   * not skipped.
   */
  lemma DumpAtLastLevel(h: Heap, v: Value, d: nat)
    requires v != Null
    ensures Dump(h, v, d, d) == FlatRows(h, Shown(Listed(h, v)))
    ensures SortedByName(Shown(Listed(h, v)))
    ensures forall p :: p in Shown(Listed(h, v)) <==> p in PropsOf(h, v) && !p.indexed && !Skipped(p)
  {
    var ps := Listed(h, v);
    DumpRowsAtLastLevel(h, ps, |ps|, d);
    assert ps[..|ps|] == ps;
    SortByNameIsSortedPermutation(NotIndexed(PropsOf(h, v)));
    ShownKeepsSorted(Listed(h, v));
    ShownSpec(Listed(h, v));
    NotIndexedSpec(PropsOf(h, v));
    forall p ensures p in Listed(h, v) <==> p in NotIndexed(PropsOf(h, v)) {
      assert p in Listed(h, v) <==> p in multiset(Listed(h, v));
    }
  }

  lemma {:induction false} ShownKeepsSorted(ps: seq<Prop>)
    requires SortedByName(ps)
    ensures SortedByName(Shown(ps))
  {
    if ps != [] {
      var init := ps[..|ps| - 1];
      assert SortedByName(init);
      ShownKeepsSorted(init);
      ShownSpec(init);
      var s := Shown(ps);
      var last := ps[|ps| - 1];
      forall i, j | 0 <= i < j < |s| ensures OrdinalLe(s[i].name, s[j].name) {
        if j == |s| - 1 && !Skipped(last) && s == Shown(init) + [last] {
          assert s[i] in Shown(init);
          var k :| 0 <= k < |init| && init[k] == s[i];
          assert ps[k] == s[i];
        } else {
          assert s[i] == Shown(init)[i] && s[j] == Shown(init)[j];
        }
      }
    }
  }

  /** Below the top level, only allow-listed properties open a nested table, and never deeper than the bound. */
  lemma {:induction false} DumpNestsOnlyAllowListed(h: Heap, p: Prop, depth: nat, maxDepth: nat)
    requires depth <= maxDepth
    requires !Skipped(p) && (!Expands(p) || depth == maxDepth || p.read.Throws?)
    ensures PropRows(h, p, depth, maxDepth) == [Row(p.name, p.typeName, Cell(h, p))]
  {
  }

  /** A shown property's row one level above the deepest, followed by the flat table of an allow-listed readable value. */
  function NestedRows(h: Heap, p: Prop): seq<string> {
    [Row(p.name, p.typeName, Cell(h, p))]
    + (if Expands(p) && p.read.Got? then FlatRows(h, Shown(Listed(h, p.read.value))) else [])
  }

  /** The rows of a table one level above the deepest, property by property. */
  function TopRows(h: Heap, ps: seq<Prop>): seq<string> {
    if ps == [] then [] else TopRows(h, ps[..|ps| - 1]) + NestedRows(h, ps[|ps| - 1])
  }

  lemma {:induction false} DumpRowsAtTopLevel(h: Heap, ps: seq<Prop>, n: nat, d: nat)
    requires n <= |ps|
    ensures DumpRows(h, ps, n, d, d + 1) == TopRows(h, Shown(ps[..n]))
  {
    if n == 0 {
      assert ps[..n] == [];
    } else {
      DumpRowsAtTopLevel(h, ps, n - 1, d);
      TopLevelStep(h, ps, n, d);
    }
  }

  lemma TopLevelStep(h: Heap, ps: seq<Prop>, n: nat, d: nat)
    requires 0 < n <= |ps|
    requires DumpRows(h, ps, n - 1, d, d + 1) == TopRows(h, Shown(ps[..n - 1]))
    ensures DumpRows(h, ps, n, d, d + 1) == TopRows(h, Shown(ps[..n]))
  {
    var p := ps[n - 1];
    var init := Shown(ps[..n - 1]);
    var before := DumpRows(h, ps, n - 1, d, d + 1);
    DumpRowsStep(h, ps, n - 1, d, d + 1);
    ShownStep(ps, n);
    if Skipped(p) {
      calc {
        DumpRows(h, ps, n, d, d + 1);
        before + PropRows(h, p, d, d + 1);
        { assert PropRows(h, p, d, d + 1) == []; assert before + [] == before; }
        before;
        { assert init + [] == init; }
        TopRows(h, Shown(ps[..n]));
      }
    } else {
      PropRowsAtTopLevel(h, p, d);
      TopRowsSnoc(h, init, p);
      calc {
        DumpRows(h, ps, n, d, d + 1);
        before + PropRows(h, p, d, d + 1);
        before + NestedRows(h, p);
        TopRows(h, init) + NestedRows(h, p);
        TopRows(h, init + [p]);
        TopRows(h, Shown(ps[..n]));
      }
    }
  }

  lemma ShownStep(ps: seq<Prop>, n: nat)
    requires 0 < n <= |ps|
    ensures Shown(ps[..n]) == Shown(ps[..n - 1]) + (if Skipped(ps[n - 1]) then [] else [ps[n - 1]])
  {
    assert ps[..n][..n - 1] == ps[..n - 1];
  }

  lemma PropRowsAtTopLevel(h: Heap, p: Prop, d: nat)
    requires !Skipped(p)
    ensures PropRows(h, p, d, d + 1) == NestedRows(h, p)
  {
    if Expands(p) && p.read.Got? && p.read.value != Null {
      DumpAtLastLevel(h, p.read.value, d + 1);
    }
  }

  lemma TopRowsSnoc(h: Heap, ps: seq<Prop>, p: Prop)
    ensures TopRows(h, ps + [p]) == TopRows(h, ps) + NestedRows(h, p)
  {
    assert (ps + [p])[..|ps|] == ps;
  }

  /**
   * The table a get shows for an object (depth 0 of 1): one row per shown
   * non-indexed property in name order, each RunParams, Operator or Operators
   * row followed by the flat table of its value when the getter succeeds.
   */
  lemma DumpAtTopLevel(h: Heap, v: Value, d: nat)
    requires v != Null
    ensures Dump(h, v, d, d + 1) == TopRows(h, Shown(Listed(h, v)))
    ensures SortedByName(Shown(Listed(h, v)))
    ensures forall p :: p in Shown(Listed(h, v)) <==> p in PropsOf(h, v) && !p.indexed && !Skipped(p)
  {
    var ps := Listed(h, v);
    DumpRowsAtTopLevel(h, ps, |ps|, d);
    assert ps[..|ps|] == ps;
    DumpAtLastLevel(h, v, d);
  }

  // ---------------------------------------------------------------------------
  // The string builder and the imperative dump
  // ---------------------------------------------------------------------------

  /** The lines of a StringBuilder that is only ever appended to with AppendLine. */
  class LineBuilder {
    var lines: seq<string>

    constructor ()
      ensures lines == []
    {
      lines := [];
    }

    method AppendLine(line: string)
      modifies this
      ensures lines == old(lines) + [line]
    {
      lines := lines + [line];
    }
  }

  /** ToString of a builder holding these lines: each line followed by CR LF. */
  function JoinLines(lines: seq<string>): string {
    if lines == [] then "" else JoinLines(lines[..|lines| - 1]) + lines[|lines| - 1] + NewLine
  }

  /** The detail cell, counting an enumerable's elements one by one. */
  method ComputeCell(h: Heap, p: Prop) returns (cell: string)
    ensures cell == Cell(h, p)
  {
    if p.read.Throws? { return "<Err>"; }
    var v := p.read.value;
    if v == Null { return "null"; }
    if p.kind.PrimitiveType? || p.kind.StringType? || p.kind.EnumType? { return Display(h, v); }
    var items := Elements(h, v);
    if !IsString(v) && items.Some? {
      var c := 0;
      for k := 0 to |items.value|
        invariant c == k
      {
        c := c + 1;
      }
      return "[Count=" + ShowInt(c) + "]";
    }
    return "<" + p.typeName + ">";
  }

  method AppendObjectStructure(sb: LineBuilder, h: Heap, instance: Value, depth: nat, maxDepth: nat)
    modifies sb
    ensures sb.lines == old(sb.lines) + Dump(h, instance, depth, maxDepth)
    decreases Measure(depth, maxDepth), 2
  {
    if depth > maxDepth || instance == Null { return; }
    DumpIsRows(h, instance, depth, maxDepth);
    AppendProperties(sb, h, Listed(h, instance), depth, maxDepth);
  }

  /** The loop over the listed properties of one object. */
  method AppendProperties(sb: LineBuilder, h: Heap, props: seq<Prop>, depth: nat, maxDepth: nat)
    requires depth <= maxDepth
    modifies sb
    ensures sb.lines == old(sb.lines) + DumpRows(h, props, |props|, depth, maxDepth)
    decreases Measure(depth, maxDepth), 1
  {
    var i := 0;
    while i < |props|
      invariant 0 <= i <= |props|
      invariant sb.lines == old(sb.lines) + DumpRows(h, props, i, depth, maxDepth)
    {
      AppendProperty(sb, h, props[i], depth, maxDepth);
      DumpRowsStep(h, props, i, depth, maxDepth);
      AppendAssoc(old(sb.lines), DumpRows(h, props, i, depth, maxDepth), PropRows(h, props[i], depth, maxDepth));
      i := i + 1;
    }
  }

  lemma DumpIsRows(h: Heap, v: Value, depth: nat, maxDepth: nat)
    requires depth <= maxDepth && v != Null
    ensures Dump(h, v, depth, maxDepth) == DumpRows(h, Listed(h, v), |Listed(h, v)|, depth, maxDepth)
  {
  }

  lemma DumpRowsStep(h: Heap, ps: seq<Prop>, i: nat, depth: nat, maxDepth: nat)
    requires i < |ps| && depth <= maxDepth
    ensures DumpRows(h, ps, i + 1, depth, maxDepth) == DumpRows(h, ps, i, depth, maxDepth) + PropRows(h, ps[i], depth, maxDepth)
  {
  }

  /** The body of the loop over properties: skip, or write the row and maybe a nested table. */
  method AppendProperty(sb: LineBuilder, h: Heap, p: Prop, depth: nat, maxDepth: nat)
    requires depth <= maxDepth
    modifies sb
    ensures sb.lines == old(sb.lines) + PropRows(h, p, depth, maxDepth)
    decreases Measure(depth, maxDepth), 0
  {
    if Skipped(p) { return; }
    var cell := ComputeCell(h, p);
    if depth < maxDepth && Expands(p) && p.read.Got? {
      sb.AppendLine(Row(p.name, p.typeName, cell));
      AppendObjectStructure(sb, h, p.read.value, depth + 1, maxDepth);
      AppendAssoc(old(sb.lines), [Row(p.name, p.typeName, cell)], Dump(h, p.read.value, depth + 1, maxDepth));
    } else {
      sb.AppendLine(Row(p.name, p.typeName, cell));
    }
  }

  // ---------------------------------------------------------------------------
  // The get rendering
  // ---------------------------------------------------------------------------

  /** The lines of the structure report for a non-scalar value. */
  function Report(h: Heap, v: Value): seq<string> {
    ["[Structure: " + TypeNameOf(h, v) + "]", Rule, HeaderRow, Rule] + Dump(h, v, 0, 1)
  }

  /** What a get returns for a value: "null", a scalar's own text, or the structure report. */
  function Render(h: Heap, v: Value): string {
    if v == Null then "null"
    else if v.Scalar? then v.text
    else JoinLines(Report(h, v))
  }

  lemma {:induction false} JoinLinesAppend(a: seq<string>, b: seq<string>)
    ensures JoinLines(a + b) == JoinLines(a) + JoinLines(b)
    decreases |b|
  {
    if b == [] {
      assert a + b == a;
    } else {
      JoinLinesAppend(a, b[..|b| - 1]);
      assert (a + b)[..|a + b| - 1] == a + b[..|b| - 1];
    }
  }

  /** A structure report opens with the type line, a rule, the column headings and a rule. */
  lemma ReportOpening(h: Heap, v: Value)
    requires v.Ref?
    ensures StartsWith(Render(h, v),
      "[Structure: " + TypeNameOf(h, v) + "]" + NewLine + Rule + NewLine + HeaderRow + NewLine + Rule + NewLine)
  {
    var title := "[Structure: " + TypeNameOf(h, v) + "]";
    var rows := Dump(h, v, 0, 1);
    var opening := title + NewLine + Rule + NewLine + HeaderRow + NewLine + Rule + NewLine;
    assert JoinLines([title, Rule, HeaderRow, Rule]) == opening by {
      JoinLinesFour(title, Rule, HeaderRow, Rule);
    }
    assert Render(h, v) == opening + JoinLines(rows) by {
      JoinLinesAppend([title, Rule, HeaderRow, Rule], rows);
    }
    PrefixStartsWith(opening, JoinLines(rows));
  }

  lemma JoinLinesFour(a: string, b: string, c: string, d: string)
    ensures JoinLines([a, b, c, d]) == a + NewLine + b + NewLine + c + NewLine + d + NewLine
  {
    assert JoinLines([a]) == a + NewLine by {
      assert [a][..0] == [];
      assert "" + a == a;
    }
    assert JoinLines([a, b]) == JoinLines([a]) + b + NewLine by {
      assert [a, b][..1] == [a];
    }
    assert JoinLines([a, b, c]) == JoinLines([a, b]) + c + NewLine by {
      assert [a, b, c][..2] == [a, b];
    }
    assert JoinLines([a, b, c, d]) == JoinLines([a, b, c]) + d + NewLine by {
      assert [a, b, c, d][..3] == [a, b, c];
    }
  }

  lemma PrefixStartsWith(p: string, q: string)
    ensures StartsWith(p + q, p)
  {
    assert (p + q)[..|p|] == p;
  }

  method RenderValue(h: Heap, v: Value) returns (text: string)
    ensures text == Render(h, v)
  {
    if v == Null { return "null"; }
    if v.Scalar? { return v.text; }
    var sb := new LineBuilder();
    sb.AppendLine("[Structure: " + TypeNameOf(h, v) + "]");
    sb.AppendLine(Rule);
    sb.AppendLine(HeaderRow);
    sb.AppendLine(Rule);
    assert sb.lines == ["[Structure: " + TypeNameOf(h, v) + "]", Rule, HeaderRow, Rule];
    AppendObjectStructure(sb, h, v, 0, 1);
    assert sb.lines == Report(h, v);
    return JoinLines(sb.lines);
  }
}
