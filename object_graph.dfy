/**
 * The schema-less view of the loaded VisionPro object graph that the driver
 * reaches through reflection: a heap of objects, each with a runtime type
 * name, a node kind, named properties and, for collections, a sequence of
 * items. Addresses are positions in the heap; a reference whose address is
 * out of range behaves like an object without properties.
 */
module ObjectGraph {
  import opened Common
  import opened Text

  type Addr = nat

  /** Runtime category of a value that is rendered as its own text. */
  datatype ScalarKind = Primitive | Enumeration | Str | Decimal

  /** A property value: null, a scalar (with its runtime type name and text), or a reference. */
  datatype Value = Null | Scalar(kind: ScalarKind, typeName: string, text: string) | Ref(addr: Addr)

  /** What calling a property getter gives: a value, or the message of the exception it throws. */
  datatype Read = Got(value: Value) | Throws(message: string)

  /** The declared type category of a property, which is what conversion and the dump look at. */
  datatype DeclKind = PrimitiveType | EnumType(members: seq<string>) | StringType | OtherType

  datatype Prop = Prop(name: string, typeName: string, kind: DeclKind, writable: bool, indexed: bool, read: Read)

  /**
   * The node kinds the driver tells apart by type tests: the job manager (whose
   * jobs are reached by index), a job, a tool group, a tool block, any other
   * tool, a script support object, and everything else.
   */
  datatype Shape = JobManager(jobs: seq<Value>) | Job | ToolGroup | ToolBlock | Tool | ScriptHost | Plain

  datatype Obj = Obj(typeName: string, shape: Shape, props: seq<Prop>, items: Option<seq<Value>>)

  type Heap = seq<Obj>

  function ObjectAt(h: Heap, v: Value): (r: Option<Obj>)
    ensures r.Some? <==> v.Ref? && v.addr < |h|
  {
    if v.Ref? && v.addr < |h| then Some(h[v.addr]) else None
  }

  /** The message of the exception a getter of an indexed property throws when it is called without arguments. */
  const ParameterCountMessage := "Parameter count mismatch."

  /**
   * The public instance properties of System.String: the read-only `Length`
   * and the read-only indexer `Chars`, which needs an argument and so throws
   * when it is read as a plain property.
   */
  function StringProps(t: string): seq<Prop> {
    [ Prop("Chars", "Char", PrimitiveType, false, true, Throws(ParameterCountMessage)),
      Prop("Length", "Int32", PrimitiveType, false, false, Got(Scalar(Primitive, "Int32", ShowInt(|t|)))) ]
  }

  /**
   * The public instance properties of a value's runtime type: an object's own,
   * a string's `Chars` and `Length`, and none for the other scalars (numbers,
   * booleans, characters and enum values have no public instance properties).
   */
  function PropsOf(h: Heap, v: Value): seq<Prop> {
    match v
    case Scalar(Str, _, t) => StringProps(t)
    case _ =>
      match ObjectAt(h, v)
      case Some(o) => o.props
      case None => []
  }

  /** GetType().Name of a non-null value. */
  function TypeNameOf(h: Heap, v: Value): string {
    match v
    case Scalar(_, t, _) => t
    case _ => (match ObjectAt(h, v) case Some(o) => o.typeName case None => "Object")
  }

  /** ToString() of a value as string interpolation writes it (null gives the empty string). */
  function Display(h: Heap, v: Value): string {
    match v
    case Null => ""
    case Scalar(_, _, t) => t
    case Ref(_) => TypeNameOf(h, v)
  }

  predicate IsString(v: Value) {
    v.Scalar? && v.kind == Str
  }

  // ---------------------------------------------------------------------------
  // Case-insensitive property lookup (GetProperty with IgnoreCase)
  // ---------------------------------------------------------------------------

  datatype Lookup = Found(prop: Prop) | Missing | Ambiguous

  /** The properties whose name equals `name` ignoring case, in order. */
  function Matching(props: seq<Prop>, name: string): seq<Prop> {
    if props == [] then []
    else (if SameName(props[0].name, name) then [props[0]] else []) + Matching(props[1..], name)
  }

  lemma {:induction false} MatchingSpec(props: seq<Prop>, name: string)
    ensures forall p :: p in Matching(props, name) ==> p in props && SameName(p.name, name)
    ensures Matching(props, name) == [] <==> forall p :: p in props ==> !SameName(p.name, name)
  {
    if props != [] {
      MatchingSpec(props[1..], name);
      assert forall p :: p in props <==> p == props[0] || p in props[1..];
    }
  }

  /** The unique property whose name equals the given one ignoring case; two such properties are ambiguous. */
  function FindProperty(props: seq<Prop>, name: string): (r: Lookup)
    ensures r.Found? ==> r.prop in props && SameName(r.prop.name, name)
    ensures r.Missing? <==> forall p :: p in props ==> !SameName(p.name, name)
  {
    MatchingSpec(props, name);
    var m := Matching(props, name);
    if |m| == 0 then Missing else if |m| == 1 then Found(m[0]) else Ambiguous
  }

  /** The value of the property with exactly this name, as a typed accessor reads it (a throwing getter counts as null). */
  function Member(o: Obj, name: string): Value {
    MemberOf(o.props, name)
  }

  function MemberOf(props: seq<Prop>, name: string): Value {
    if props == [] then Null
    else if props[0].name == name then (match props[0].read case Got(v) => v case Throws(_) => Null)
    else MemberOf(props[1..], name)
  }

  // ---------------------------------------------------------------------------
  // Enumeration (IEnumerable) and indexing
  // ---------------------------------------------------------------------------

  /** The items a value yields when enumerated: a collection's items, a string's characters, or none. */
  function Elements(h: Heap, v: Value): Option<seq<Value>> {
    match v
    case Scalar(Str, _, t) => Some(seq(|t|, i requires 0 <= i < |t| => Scalar(Primitive, "Char", [t[i]])))
    case Ref(_) => (match ObjectAt(h, v) case Some(o) => o.items case None => None)
    case _ => None
  }

  /** The non-null element at a position of an enumerable value; a negative or too large position finds nothing. */
  function ElementAt(h: Heap, coll: Value, idx: int): (r: Option<Value>)
    ensures r.Some? <==> Elements(h, coll).Some? && 0 <= idx < |Elements(h, coll).value|
                         && Elements(h, coll).value[idx] != Null
    ensures r.Some? ==> r.value == Elements(h, coll).value[idx]
  {
    match Elements(h, coll)
    case Some(es) => if 0 <= idx < |es| && es[idx] != Null then Some(es[idx]) else None
    case None => None
  }

  // ---------------------------------------------------------------------------
  // Writing
  // ---------------------------------------------------------------------------

  /** A property after assigning `v` to the one named `name`: other properties are untouched. */
  function Rewrite(p: Prop, name: string, v: Value): Prop {
    if p.name == name then p.(read := Got(v)) else p
  }

  /** The properties with the one named `name` now reading `v` (what SetValue does to a stored property). */
  function WithValue(props: seq<Prop>, name: string, v: Value): (r: seq<Prop>)
    ensures |r| == |props|
  {
    if props == [] then [] else [Rewrite(props[0], name, v)] + WithValue(props[1..], name, v)
  }

  /** The heap after assigning `v` to property `name` of the object `target` refers to. */
  function WriteProperty(h: Heap, target: Value, name: string, v: Value): (r: Heap)
    ensures |r| == |h|
  {
    if target.Ref? && target.addr < |h| then
      h[target.addr := h[target.addr].(props := WithValue(h[target.addr].props, name, v))]
    else h
  }

  /** A write changes values only: a case-insensitive lookup finds the same property as before, now reading `v`. */
  lemma FindAfterWrite(props: seq<Prop>, name: string, v: Value, query: string)
    ensures FindProperty(WithValue(props, name, v), query) ==
      match FindProperty(props, query)
      case Found(p) => Found(Rewrite(p, name, v))
      case Missing => Missing
      case Ambiguous => Ambiguous
  {
    MatchingAfterWrite(props, name, v, query);
  }

  lemma {:induction false} MatchingAfterWrite(props: seq<Prop>, name: string, v: Value, query: string)
    ensures Matching(WithValue(props, name, v), query) == WithValue(Matching(props, query), name, v)
  {
    if props != [] {
      var p, rest := props[0], props[1..];
      var q := Rewrite(p, name, v);
      var w := WithValue(rest, name, v);
      var m := Matching(rest, query);
      MatchingAfterWrite(rest, name, v, query);
      assert Matching(WithValue(props, name, v), query) == (if SameName(p.name, query) then [q] else []) + Matching(w, query) by {
        assert WithValue(props, name, v) == [q] + w;
        assert ([q] + w)[0] == q && ([q] + w)[1..] == w;
      }
      if SameName(p.name, query) {
        assert Matching(props, query) == [p] + m;
        assert ([p] + m)[0] == p && ([p] + m)[1..] == m;
      } else {
        assert Matching(props, query) == [] + m == m;
      }
    }
  }

  predicate HasProperty(props: seq<Prop>, name: string) {
    exists i :: 0 <= i < |props| && props[i].name == name
  }

  /** After a write, the written name reads `v` (when the object has that property) and every other name reads as before. */
  lemma {:induction false} MemberAfterWrite(props: seq<Prop>, name: string, v: Value, query: string)
    ensures MemberOf(WithValue(props, name, v), query) ==
      if query != name then MemberOf(props, query) else if HasProperty(props, name) then v else Null
  {
    if props != [] {
      MemberAfterWrite(props[1..], name, v, query);
      var w := WithValue(props, name, v);
      assert w[0] == Rewrite(props[0], name, v) && w[1..] == WithValue(props[1..], name, v);
      if HasProperty(props, name) && props[0].name != name {
        var i :| 0 <= i < |props| && props[i].name == name;
        assert props[1..][i - 1].name == name;
      }
      if HasProperty(props[1..], name) {
        var i :| 0 <= i < |props[1..]| && props[1..][i].name == name;
        assert props[i + 1].name == name;
      }
    }
  }

  /** A write replaces one object's properties and nothing else. */
  lemma WriteKeepsOthers(h: Heap, target: Value, name: string, v: Value, a: Addr)
    requires a < |h|
    ensures var h' := WriteProperty(h, target, name, v);
      h'[a] == if target == Ref(a) then h[a].(props := WithValue(h[a].props, name, v)) else h[a]
  {
  }

  /** After a write, every object is where it was, with the same type and shape, and every other name reads as before. */
  lemma OtherMembersAfterWrite(h: Heap, target: Value, name: string, v: Value, x: Value, query: string)
    requires query != name
    ensures var h' := WriteProperty(h, target, name, v);
      ObjectAt(h', x).Some? == ObjectAt(h, x).Some? &&
      (ObjectAt(h, x).Some? ==>
        h'[x.addr].shape == h[x.addr].shape && Member(h'[x.addr], query) == Member(h[x.addr], query))
  {
    if x.Ref? && x.addr < |h| {
      WriteKeepsOthers(h, target, name, v, x.addr);
      MemberAfterWrite(h[x.addr].props, name, v, query);
    }
  }
}
