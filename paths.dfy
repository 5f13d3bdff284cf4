/**
 * Dotted property paths: `Name`, `RunParams.Threshold`, `Operators[0].RunParams`.
 * A path is split at '.', empty pieces are dropped, and each piece is either a
 * property name (matched ignoring case) or `name[index]`, which picks the
 * index-th non-null element of the enumerable value of property `name`.
 */
module PathResolver {
  import opened Common
  import opened Text
  import opened ObjectGraph

  datatype Segment = PlainSegment(name: string) | IndexedSegment(name: string, index: string)

  /** A piece containing '[' and ending in ']' is indexed: name before the first '[', index text up to the last character. */
  function ParseSegment(part: string): (seg: Segment)
    ensures seg.IndexedSegment? <==> '[' in part && EndsWith(part, "]")
    ensures seg.IndexedSegment? ==> seg.name + "[" + seg.index + "]" == part && '[' !in seg.name
    ensures seg.PlainSegment? ==> seg.name == part
  {
    if '[' in part && EndsWith(part, "]") then
      var open := IndexOf(part, '[');
      assert part[|part| - 1] == ']';
      Bracketed(part, open);
      IndexedSegment(part[..open], part[open + 1..|part| - 1])
    else PlainSegment(part)
  }

  /** A piece cut at an opening bracket and a final closing bracket reassembles to itself. */
  lemma Bracketed(part: string, open: int)
    requires 0 <= open < |part| - 1 && part[open] == '[' && part[|part| - 1] == ']'
    ensures part[..open] + "[" + part[open + 1..|part| - 1] + "]" == part
  {
    assert part == part[..open] + part[open..open + 1] + part[open + 1..|part| - 1] + part[|part| - 1..];
  }

  /**
   * The outcome of resolving a path: the object holding the addressed property
   * together with that property, or an element reached by index (no property);
   * a path that does not resolve; or an exception escaping the resolver.
   */
  datatype Resolution = Resolved(target: Value, handle: Option<Prop>) | NotFound | Fault(message: string)

  const AmbiguousMatchMessage := "Ambiguous match found."

  /**
   * Everything an indexed piece does inside its try block; any exception there
   * (bad index text, ambiguous name, a throwing getter) is a plain failure.
   */
  function IndexedStep(h: Heap, current: Value, name: string, index: string): (r: Option<Value>)
    ensures r.Some? ==> r.value != Null
  {
    match ParseInt32(index)
    case None => None
    case Some(idx) =>
      match FindProperty(PropsOf(h, current), name)
      case Found(p) => (match p.read case Got(coll) => ElementAt(h, coll, idx) case Throws(_) => None)
      case _ => None
  }

  /** Resolution of the remaining pieces starting from `current`. */
  function Walk(h: Heap, current: Value, parts: seq<string>): Resolution
    requires parts != []
    decreases |parts|
  {
    if current == Null then NotFound
    else
      match ParseSegment(parts[0])
      case IndexedSegment(name, index) =>
        (match IndexedStep(h, current, name, index)
         case None => NotFound
         case Some(e) => if |parts| == 1 then Resolved(e, None) else Walk(h, e, parts[1..]))
      case PlainSegment(name) =>
        match FindProperty(PropsOf(h, current), name)
        case Missing => NotFound
        case Ambiguous => Fault(AmbiguousMatchMessage)
        case Found(p) =>
          if |parts| == 1 then Resolved(current, Some(p))
          else
            match p.read
            case Throws(m) => Fault(m)
            case Got(v) => Walk(h, v, parts[1..])
  }

  /** TryResolveProperty as a function of the heap, the root and the path. */
  function Resolve(h: Heap, root: Value, path: Option<string>): Resolution {
    if IsNullOrWhiteSpace(path) then Resolved(root, None)
    else
      var parts := SplitNonEmpty(path.value, '.');
      if parts == [] then Resolved(root, None) else Walk(h, root, parts)
  }

  /** Where walking `parts` as inner (non-final) pieces leads: on to a value, or to a final outcome. */
  datatype Step = Continue(value: Value) | Stop(outcome: Resolution)

  function Through(h: Heap, current: Value, parts: seq<string>): Step
    decreases |parts|
  {
    if parts == [] then Continue(current)
    else if current == Null then Stop(NotFound)
    else
      match ParseSegment(parts[0])
      case IndexedSegment(name, index) =>
        (match IndexedStep(h, current, name, index)
         case None => Stop(NotFound)
         case Some(e) => Through(h, e, parts[1..]))
      case PlainSegment(name) =>
        match FindProperty(PropsOf(h, current), name)
        case Missing => Stop(NotFound)
        case Ambiguous => Stop(Fault(AmbiguousMatchMessage))
        case Found(p) =>
          match p.read
          case Throws(m) => Stop(Fault(m))
          case Got(v) => Through(h, v, parts[1..])
  }

  // ---------------------------------------------------------------------------
  // The resolver loop
  // ---------------------------------------------------------------------------

  /** The foreach scan: the item at position `idx` when there is one, null otherwise. */
  method NthItem(items: seq<Value>, idx: int) returns (found: Value)
    ensures found == (if 0 <= idx < |items| then items[idx] else Null)
  {
    found := Null;
    var count := 0;
    for k := 0 to |items|
      invariant count == k
      invariant found == Null
      invariant !(0 <= idx < k)
    {
      if count == idx {
        found := items[k];
        return;
      }
      count := count + 1;
    }
  }

  /** The body of the indexed branch. */
  method FindIndexed(h: Heap, current: Value, name: string, index: string) returns (r: Option<Value>)
    ensures r == IndexedStep(h, current, name, index)
  {
    var idx := ParseInt32(index);
    if idx.None? { return None; }
    var lookup := FindProperty(PropsOf(h, current), name);
    if !lookup.Found? || lookup.prop.read.Throws? { return None; }
    var coll := lookup.prop.read.value;
    var items := Elements(h, coll);
    if items.None? { return None; }
    var found := NthItem(items.value, idx.value);
    if found == Null { return None; }
    return Some(found);
  }

  method TryResolveProperty(h: Heap, root: Value, path: Option<string>) returns (r: Resolution)
    ensures r == Resolve(h, root, path)
  {
    if IsNullOrWhiteSpace(path) { return Resolved(root, None); }
    var parts := SplitNonEmpty(path.value, '.');
    // With no pieces the loop does not run and the root itself is the target.
    if parts == [] { return Resolved(root, None); }
    r := WalkPieces(h, root, parts);
  }

  /** The loop over the pieces of a non-empty path. */
  method WalkPieces(h: Heap, root: Value, parts: seq<string>) returns (r: Resolution)
    requires parts != []
    ensures r == Walk(h, root, parts)
  {
    var current := root;
    var i := 0;
    // Every pass either ends the walk or moves on to the next piece; the last piece always ends it.
    while true
      invariant 0 <= i < |parts|
      invariant Walk(h, root, parts) == Walk(h, current, parts[i..])
      decreases |parts| - i
    {
      var step := Advance(h, current, parts[i..]);
      if step.Stop? { return step.outcome; }
      current := step.value;
      assert parts[i..][1..] == parts[i + 1..];
      i := i + 1;
    }
  }

  /**
   * One pass of the loop body: a null current object ends the walk unresolved, the
   * last piece ends it, and an inner piece moves on to the value it reaches.
   */
  method Advance(h: Heap, current: Value, parts: seq<string>) returns (step: Step)
    requires parts != []
    ensures step.Stop? ==> step.outcome == Walk(h, current, parts)
    ensures step.Continue? ==> |parts| > 1 && Walk(h, current, parts) == Walk(h, step.value, parts[1..])
  {
    if current == Null { return Stop(NotFound); }
    var last := |parts| == 1;
    match ParseSegment(parts[0]) {
      case IndexedSegment(name, index) =>
        var found := FindIndexed(h, current, name, index);
        if found.None? { return Stop(NotFound); }
        if last { return Stop(Resolved(found.value, None)); }
        return Continue(found.value);
      case PlainSegment(name) =>
        var lookup := FindProperty(PropsOf(h, current), name);
        if lookup.Missing? { return Stop(NotFound); }
        if lookup.Ambiguous? { return Stop(Fault(AmbiguousMatchMessage)); }
        if last { return Stop(Resolved(current, Some(lookup.prop))); }
        match lookup.prop.read {
          case Throws(m) => return Stop(Fault(m));
          case Got(v) => return Continue(v);
        }
    }
  }

  // ---------------------------------------------------------------------------
  // Properties
  // ---------------------------------------------------------------------------

  /** A null or blank path, or one made only of separators, addresses the root itself. */
  lemma ResolveRootPaths(h: Heap, root: Value, path: Option<string>)
    requires IsNullOrWhiteSpace(path) || OnlySeparators(path.value, '.')
    ensures Resolve(h, root, path) == Resolved(root, None)
  {
    if !IsNullOrWhiteSpace(path) {
      SplitNonEmptyIsEmptyIff(path.value, '.');
    }
  }

  /** Separators at the front are skipped like any other empty piece. */
  lemma ResolveIgnoresLeadingSeparator(h: Heap, root: Value, p: string)
    requires !IsNullOrWhiteSpace(Some(p))
    ensures Resolve(h, root, Some("." + p)) == Resolve(h, root, Some(p))
  {
    SplitNonEmptyLeadingSeparator(p, '.');
    assert !IsNullOrWhiteSpace(Some("." + p)) by { assert ("." + p)[0] == '.'; }
  }

  /** A path that is one plain name looks that name up on the root, ignoring case. */
  lemma ResolveSingleName(h: Heap, root: Value, name: string)
    requires !IsNullOrWhiteSpace(Some(name)) && '.' !in name && !('[' in name && EndsWith(name, "]"))
    ensures Resolve(h, root, Some(name)) ==
      if root == Null then NotFound
      else match FindProperty(PropsOf(h, root), name)
        case Missing => NotFound
        case Ambiguous => Fault(AmbiguousMatchMessage)
        case Found(p) => Resolved(root, Some(p))
  {
    SplitWithoutSeparator(name, '.');
    assert name != [];
    assert NonEmpty([name]) == [name] + NonEmpty([name][1..]);
  }

  /**
   * A string reached by a path exposes the properties of System.String: the
   * path `name.Length` ends at the string with its read-only `Length`, which
   * reads the string's length.
   */
  lemma ResolveStringLength(h: Heap, root: Value, name: string, p: Prop, ty: string, t: string)
    requires !IsNullOrWhiteSpace(Some(name)) && '.' !in name && '[' !in name && root != Null
    requires FindProperty(PropsOf(h, root), name) == Found(p) && p.read == Got(Scalar(Str, ty, t))
    ensures var r := Resolve(h, root, Some(name + ".Length"));
      && r == Resolved(Scalar(Str, ty, t), Some(StringProps(t)[1]))
      && !r.handle.value.writable && !r.handle.value.indexed
      && r.handle.value.read == Got(Scalar(Primitive, "Int32", ShowInt(|t|)))
  {
    PiecesOfLengthPath(name);
    WalkToLength(h, root, name, p, ty, t);
  }

  lemma PiecesOfLengthPath(name: string)
    requires !IsNullOrWhiteSpace(Some(name)) && '.' !in name
    ensures !IsNullOrWhiteSpace(Some(name + ".Length"))
    ensures SplitNonEmpty(name + ".Length", '.') == [name, "Length"]
  {
    SplitWithoutSeparator(name, '.');
    SplitWithoutSeparator("Length", '.');
    SplitConcat(name, "Length", '.');
    assert name + ".Length" == name + ['.'] + "Length";
    assert name != [];
    assert [name] + ["Length"] == [name, "Length"];
    assert NonEmpty([name, "Length"]) == [name] + NonEmpty([name, "Length"][1..]);
    assert [name, "Length"][1..] == ["Length"];
    assert NonEmpty(["Length"]) == ["Length"] + NonEmpty(["Length"][1..]);
    var k :| 0 <= k < |name| && !IsWhiteSpace(name[k]);
    assert (name + ".Length")[k] == name[k];
  }

  lemma WalkToLength(h: Heap, root: Value, name: string, p: Prop, ty: string, t: string)
    requires '[' !in name && root != Null
    requires FindProperty(PropsOf(h, root), name) == Found(p) && p.read == Got(Scalar(Str, ty, t))
    ensures Walk(h, root, [name, "Length"]) == Resolved(Scalar(Str, ty, t), Some(StringProps(t)[1]))
  {
    LengthIsAProperty(t);
    assert [name, "Length"][1..] == ["Length"];
  }

  lemma LengthIsAProperty(t: string)
    ensures FindProperty(StringProps(t), "Length") == Found(StringProps(t)[1])
    ensures ParseSegment("Length") == PlainSegment("Length")
  {
    var ps := StringProps(t);
    assert !SameName(ps[0].name, "Length") by { assert FoldString("Chars")[0] != FoldString("Length")[0]; }
    assert SameName(ps[1].name, "Length");
    assert ps[1..][1..] == [];
    assert Matching(ps[1..], "Length") == [ps[1]] + Matching(ps[1..][1..], "Length");
    assert Matching(ps, "Length") == [] + Matching(ps[1..], "Length");
  }

  /**
   * Fails closed: walking the inner pieces `a` decides the outcome of every longer path
   * once it stops, and otherwise the rest of the path continues from where `a` led.
   */
  lemma {:induction false} WalkComposes(h: Heap, current: Value, a: seq<string>, b: seq<string>)
    requires b != []
    ensures Walk(h, current, a + b) ==
      match Through(h, current, a)
      case Stop(r) => r
      case Continue(v) => Walk(h, v, b)
    decreases |a|
  {
    if a == [] {
      assert a + b == b;
    } else {
      var ab := a + b;
      assert |ab| > 1 && ab[0] == a[0];
      assert ab[1..] == a[1..] + b;
      if current != Null {
        match ParseSegment(a[0])
        case IndexedSegment(name, index) =>
          var e := IndexedStep(h, current, name, index);
          if e.Some? {
            WalkComposes(h, e.value, a[1..], b);
            assert Walk(h, current, ab) == Walk(h, e.value, ab[1..]);
          }
        case PlainSegment(name) =>
          var lookup := FindProperty(PropsOf(h, current), name);
          if lookup.Found? && lookup.prop.read.Got? {
            WalkComposes(h, lookup.prop.read.value, a[1..], b);
            assert Walk(h, current, ab) == Walk(h, lookup.prop.read.value, ab[1..]);
          }
      }
    }
  }

  /**
   * A path that resolves names a live target: a non-null object, and either the
   * property found for the last piece (a plain name, matched ignoring case) or,
   * with no property, the non-null element an indexed last piece selects.
   */
  lemma {:induction false} ResolvedTargetIsLive(h: Heap, current: Value, parts: seq<string>)
    requires parts != []
    requires Walk(h, current, parts).Resolved?
    ensures LiveTarget(h, Walk(h, current, parts), ParseSegment(parts[|parts| - 1]))
    decreases |parts|
  {
    if |parts| == 1 {
      LastPieceIsLive(h, current, parts[0]);
    } else {
      TailKeepsLast(parts);
      var next := WalkOnward(h, current, parts);
      ResolvedTargetIsLive(h, next, parts[1..]);
    }
  }

  /** A resolution whose target is a non-null object and whose property, if any, belongs to it and carries the piece's name. */
  predicate LiveTarget(h: Heap, r: Resolution, seg: Segment)
    requires r.Resolved?
  {
    && r.target != Null
    && (r.handle.Some? <==> seg.PlainSegment?)
    && (r.handle.Some? ==> r.handle.value in PropsOf(h, r.target) && SameName(r.handle.value.name, seg.name))
  }

  lemma TailKeepsLast(parts: seq<string>)
    requires |parts| > 1
    ensures parts[1..][|parts[1..]| - 1] == parts[|parts| - 1]
  {
  }

  /** A single piece that resolves names a live target. */
  lemma LastPieceIsLive(h: Heap, current: Value, part: string)
    requires Walk(h, current, [part]).Resolved?
    ensures LiveTarget(h, Walk(h, current, [part]), ParseSegment(part))
  {
  }

  /** A longer path that resolves does so by resolving its tail from the value its first piece reaches. */
  lemma WalkOnward(h: Heap, current: Value, parts: seq<string>) returns (next: Value)
    requires |parts| > 1 && Walk(h, current, parts).Resolved?
    ensures Walk(h, current, parts) == Walk(h, next, parts[1..])
  {
    match ParseSegment(parts[0])
    case IndexedSegment(name, index) =>
      next := IndexedStep(h, current, name, index).value;
    case PlainSegment(name) =>
      next := FindProperty(PropsOf(h, current), name).prop.read.value;
  }

  /** A negative or out-of-range index, or one naming a null element, never resolves. */
  lemma IndexOutOfRangeFails(h: Heap, current: Value, name: string, index: string, idx: int)
    requires '[' !in name
    requires ParseInt32(index) == Some(idx)
    requires FindProperty(PropsOf(h, current), name).Found?
    requires FindProperty(PropsOf(h, current), name).prop.read.Got?
    requires var items := Elements(h, FindProperty(PropsOf(h, current), name).prop.read.value);
      items.None? || !(0 <= idx < |items.value|) || items.value[idx] == Null
    ensures Walk(h, current, [name + "[" + index + "]"]) == NotFound
  {
    IndexedPieceParsesBack(name, index);
    assert IndexedStep(h, current, name, index) == None;
  }

  /** When `name` holds no '[', the piece `name[index]` parses back into its name and index text. */
  lemma IndexedPieceParsesBack(name: string, index: string)
    requires '[' !in name
    ensures ParseSegment(name + "[" + index + "]") == IndexedSegment(name, index)
  {
    var part := name + "[" + index + "]";
    assert part[|name|] == '[';
    assert part[|part| - 1] == ']';
    assert EndsWith(part, "]") by { assert part[|part| - 1..] == "]"; }
    var open := IndexOf(part, '[');
    assert part[..|name|] == name;
    assert open == |name|;
    assert part[open + 1..|part| - 1] == index;
  }
}
