/**
 * Turning a short tool type name such as `CogPMAlignTool` into a type: the
 * namespace is inferred from the name, and the type is then looked up, ignoring
 * case, in three places in turn: the assemblies already loaded, the plugin file
 * named after the first three namespace segments, and the partial-name lookup.
 */
module TypeResolver {
  import opened Common
  import opened Text

  datatype TypeInfo = TypeInfo(fullName: string, name: string)

  datatype Assembly = Assembly(dynamic: bool, types: seq<TypeInfo>)

  /**
   * What the resolver can see: the loaded assemblies in load order; the plugin
   * files next to the executable (a file that exists but fails to load maps to
   * None); and the assemblies the partial-name lookup finds.
   */
  datatype Universe = Universe(
    loaded: seq<Assembly>,
    pluginFiles: map<string, Option<Assembly>>,
    partialNames: map<string, Assembly>)

  const VendorNamespace := "Cognex.VisionPro."

  /** The namespace segment guessed from a short name: drop the `Cog` prefix and every `Tool`; the fixture tool lives in CalibFix. */
  function ModuleName(shortName: string): (m: string)
    requires |shortName| >= 3
    ensures forall c :: c in m ==> c in shortName[3..] || c in "CalibFix"
  {
    if shortName == "CogFixtureTool" then "CalibFix" else RemoveAll(shortName[3..], "Tool")
  }

  /** The full type name to look for; None when a short name is too short to drop its prefix (Substring throws). */
  function InferFullName(name: string): Option<string> {
    if '.' in name then Some(name)
    else if |name| < 3 then None
    else Some(VendorNamespace + ModuleName(name) + "." + name)
  }

  /** `<seg0>.<seg1>.<seg2>`, for names with at least three dot-separated segments. */
  function AssemblyName(fullName: string): (r: Option<string>)
    ensures r.Some? <==> |Split(fullName, '.')| >= 3
  {
    var parts := Split(fullName, '.');
    if |parts| >= 3 then Some(parts[0] + "." + parts[1] + "." + parts[2]) else None
  }

  function PluginFileName(fullName: string): (r: Option<string>)
    ensures r.Some? <==> AssemblyName(fullName).Some?
  {
    match AssemblyName(fullName)
    case Some(a) => Some(a + ".dll")
    case None => None
  }

  /** Assembly.GetType(name, throwOnError: false, ignoreCase: true): the first type whose full name matches ignoring case. */
  function FindType(types: seq<TypeInfo>, fullName: string): (r: Option<TypeInfo>)
    ensures r.Some? ==> exists i :: 0 <= i < |types| && types[i] == r.value
                                    && forall j :: 0 <= j < i ==> !SameName(types[j].fullName, fullName)
    ensures r.Some? ==> SameName(r.value.fullName, fullName)
    ensures r.None? <==> forall i :: 0 <= i < |types| ==> !SameName(types[i].fullName, fullName)
  {
    if types == [] then None
    else if SameName(types[0].fullName, fullName) then Some(types[0])
    else
      var r := FindType(types[1..], fullName);
      if r.Some? then
        ghost var i :| 0 <= i < |types| - 1 && types[1..][i] == r.value
                       && forall j :: 0 <= j < i ==> !SameName(types[1..][j].fullName, fullName);
        assert types[i + 1] == r.value;
        r
      else r
  }

  /** The first non-dynamic loaded assembly that knows the type. */
  function FindInLoaded(asms: seq<Assembly>, fullName: string): (r: Option<TypeInfo>)
    ensures r.Some? ==> SameName(r.value.fullName, fullName)
    ensures r.Some? ==> exists i :: 0 <= i < |asms| && !asms[i].dynamic && FindType(asms[i].types, fullName) == r
    ensures r.None? <==> forall i :: 0 <= i < |asms| && !asms[i].dynamic ==> FindType(asms[i].types, fullName).None?
  {
    if asms == [] then None
    else if !asms[0].dynamic && FindType(asms[0].types, fullName).Some? then FindType(asms[0].types, fullName)
    else
      var r := FindInLoaded(asms[1..], fullName);
      assert forall i :: 0 < i < |asms| ==> asms[i] == asms[1..][i - 1];
      r
  }

  function FindInPlugin(u: Universe, fullName: string): Option<TypeInfo> {
    match PluginFileName(fullName)
    case Some(file) =>
      if file in u.pluginFiles && u.pluginFiles[file].Some? then FindType(u.pluginFiles[file].value.types, fullName) else None
    case None => None
  }

  function FindByPartialName(u: Universe, fullName: string): Option<TypeInfo> {
    match AssemblyName(fullName)
    case Some(a) => if a in u.partialNames then FindType(u.partialNames[a].types, fullName) else None
    case None => None
  }

  /** A resolved type, a name no source knows (with the name tried), or an exception. */
  datatype TypeLookup = TypeFound(info: TypeInfo) | TypeMissing(tried: string) | TypeFault(message: string)

  const NullReferenceMessage := "Object reference not set to an instance of an object."
  const StartIndexMessage := "startIndex cannot be larger than length of string.\r\nParameter name: startIndex"

  /** ResolveVisionProType as a function of what the resolver can see. */
  function Resolve(u: Universe, name: Option<string>): TypeLookup {
    match name
    case None => TypeFault(NullReferenceMessage)
    case Some(n) =>
      match InferFullName(n)
      case None => TypeFault(StartIndexMessage)
      case Some(full) =>
        match FindInLoaded(u.loaded, full)
        case Some(t) => TypeFound(t)
        case None =>
          match FindInPlugin(u, full)
          case Some(t) => TypeFound(t)
          case None =>
            match FindByPartialName(u, full)
            case Some(t) => TypeFound(t)
            case None => TypeMissing(full)
  }

  method ResolveVisionProType(u: Universe, name: Option<string>) returns (r: TypeLookup)
    ensures r == Resolve(u, name)
  {
    if name.None? { return TypeFault(NullReferenceMessage); }
    var n := name.value;
    var inferred := InferFullName(n);
    if inferred.None? { return TypeFault(StartIndexMessage); }
    var full := inferred.value;
    for i := 0 to |u.loaded|
      invariant forall j :: 0 <= j < i && !u.loaded[j].dynamic ==> FindType(u.loaded[j].types, full).None?
    {
      var asm := u.loaded[i];
      if asm.dynamic { continue; }
      var t := FindType(asm.types, full);
      if t.Some? {
        FirstLoadedHit(u.loaded, full, i);
        return TypeFound(t.value);
      }
    }
    var fromPlugin := FindInPlugin(u, full);
    if fromPlugin.Some? { return TypeFound(fromPlugin.value); }
    var fromPartial := FindByPartialName(u, full);
    if fromPartial.Some? { return TypeFound(fromPartial.value); }
    return TypeMissing(full);
  }

  /** When no earlier assembly knows the type, the search over loaded assemblies answers with assembly `i`. */
  lemma {:induction false} FirstLoadedHit(asms: seq<Assembly>, fullName: string, i: nat)
    requires i < |asms| && !asms[i].dynamic && FindType(asms[i].types, fullName).Some?
    requires forall j :: 0 <= j < i && !asms[j].dynamic ==> FindType(asms[j].types, fullName).None?
    ensures FindInLoaded(asms, fullName) == FindType(asms[i].types, fullName)
  {
    if i > 0 {
      FirstLoadedHit(asms[1..], fullName, i - 1);
    }
  }

  // ---------------------------------------------------------------------------
  // Properties
  // ---------------------------------------------------------------------------

  /** An inferred name is qualified, so inferring again leaves it unchanged. */
  lemma InferIsIdempotent(name: string)
    requires InferFullName(name).Some?
    ensures InferFullName(InferFullName(name).value) == InferFullName(name)
  {
    var f := InferFullName(name).value;
    if '.' !in name {
      assert f[6] == '.';
    }
  }

  /** Splitting a separator-free head, a separator, then the rest yields the head followed by the rest's pieces. */
  lemma SplitPrepend(a: string, rest: string)
    requires '.' !in a
    ensures Split(a + "." + rest, '.') == [a] + Split(rest, '.')
  {
    SplitConcat(a, rest, '.');
    SplitWithoutSeparator(a, '.');
  }

  lemma NoDotInModuleName(name: string)
    requires '.' !in name && |name| >= 3
    ensures '.' !in ModuleName(name)
  {
    assert forall c :: c in name[3..] ==> c in name;
  }

  /**
   * A short name becomes `Cognex.VisionPro.<module>.<name>`: four segments, so
   * the plugin file is `Cognex.VisionPro.<module>.dll`.
   */
  lemma InferredNameSegments(name: string)
    requires '.' !in name && |name| >= 3
    ensures InferFullName(name) == Some(VendorNamespace + ModuleName(name) + "." + name)
    ensures Split(InferFullName(name).value, '.') == ["Cognex", "VisionPro", ModuleName(name), name]
    ensures PluginFileName(InferFullName(name).value) == Some("Cognex.VisionPro." + ModuleName(name) + ".dll")
  {
    var m := ModuleName(name);
    NoDotInModuleName(name);
    VendorSegments(m, name);
    PluginOfFourPieces(VendorNamespace + m + "." + name, m, name);
  }

  /** A module segment and a short name without dots give the four segments of a vendor type name. */
  lemma VendorSegments(m: string, name: string)
    requires '.' !in m && '.' !in name
    ensures Split(VendorNamespace + m + "." + name, '.') == ["Cognex", "VisionPro", m, name]
  {
    var tail := m + "." + name;
    var rest := "VisionPro" + "." + tail;
    assert VendorNamespace + m + "." + name == "Cognex" + "." + rest by {
      assert VendorNamespace == "Cognex" + "." + ("VisionPro" + ".");
      AppendAssoc(VendorNamespace, m, ".");
      AppendAssoc(VendorNamespace, m + ".", name);
      AppendAssoc(m, ".", name);
      AppendAssoc("Cognex" + ".", "VisionPro" + ".", tail);
      AppendAssoc("VisionPro", ".", tail);
    }
    assert Split(tail, '.') == [m, name] by {
      SplitPrepend(m, name);
      SplitWithoutSeparator(name, '.');
    }
    SplitPrepend("VisionPro", tail);
    SplitPrepend("Cognex", rest);
  }

  lemma PluginOfFourPieces(full: string, m: string, name: string)
    requires Split(full, '.') == ["Cognex", "VisionPro", m, name]
    ensures PluginFileName(full) == Some("Cognex.VisionPro." + m + ".dll")
  {
    assert AssemblyName(full) == Some("Cognex" + "." + "VisionPro" + "." + m);
    assert "Cognex" + "." + "VisionPro" + "." + m + ".dll" == "Cognex.VisionPro." + m + ".dll";
  }

  /** Removal keeps a leading character that cannot start the pattern `Tool`. */
  lemma RemoveToolKeeps(c: char, s: string)
    requires c != 'T'
    ensures RemoveAll([c] + s, "Tool") == [c] + RemoveAll(s, "Tool")
  {
    var t := [c] + s;
    assert t[1..] == s;
    if |t| >= 4 {
      assert t[..4][0] == c;
    }
  }

  /** A name made of a `T`-free stem followed by `Tool` loses exactly the suffix. */
  lemma {:induction false} RemoveToolSuffix(stem: string)
    requires 'T' !in stem
    ensures RemoveAll(stem + "Tool", "Tool") == stem
  {
    if stem == [] {
      assert ("" + "Tool")[4..] == "";
    } else {
      RemoveToolSuffix(stem[1..]);
      RemoveToolKeeps(stem[0], stem[1..] + "Tool");
      assert [stem[0]] + (stem[1..] + "Tool") == stem + "Tool";
    }
  }

  /**
   * The usual inference: `Cog<stem>Tool` (CogPMAlignTool, CogBlobTool) lives in
   * the namespace named by its stem when the stem holds no `T`.
   */
  lemma {:induction false} InferStemName(stem: string)
    requires 'T' !in stem && '.' !in stem && stem != "Fixture"
    ensures InferFullName("Cog" + stem + "Tool") == Some(VendorNamespace + stem + "." + ("Cog" + stem + "Tool"))
  {
    var name := "Cog" + stem + "Tool";
    assert name[3..] == stem + "Tool";
    assert name[3..|name| - 4] == stem;
    assert "CogFixtureTool"[3..|"CogFixtureTool"| - 4] == "Fixture";
    assert '.' !in name by {
      assert forall c :: c in name ==> c in "Cog" || c in stem || c in "Tool";
    }
    RemoveToolSuffix(stem);
  }

  /** The fixture tool is the one exception: its namespace is CalibFix. */
  lemma InferFixture()
    ensures InferFullName("CogFixtureTool") == Some(VendorNamespace + "CalibFix" + "." + "CogFixtureTool")
  {
    assert "CogFixtureTool"[5] != '.';
    assert forall i :: 0 <= i < |"CogFixtureTool"| ==> "CogFixtureTool"[i] != '.';
  }

  /**
   * A type that is not found is absent from every place searched: every
   * non-dynamic loaded assembly, the plugin file when it loads, and the
   * assembly the partial name finds.
   */
  lemma MissingMeansAbsentEverywhere(u: Universe, name: string)
    requires Resolve(u, Some(name)).TypeMissing?
    ensures var full := Resolve(u, Some(name)).tried;
      && InferFullName(name) == Some(full)
      && (forall i :: 0 <= i < |u.loaded| && !u.loaded[i].dynamic ==>
            forall t :: t in u.loaded[i].types ==> !SameName(t.fullName, full))
      && (forall f :: PluginFileName(full) == Some(f) && f in u.pluginFiles && u.pluginFiles[f].Some? ==>
            forall t :: t in u.pluginFiles[f].value.types ==> !SameName(t.fullName, full))
      && (forall a :: AssemblyName(full) == Some(a) && a in u.partialNames ==>
            forall t :: t in u.partialNames[a].types ==> !SameName(t.fullName, full))
  {
  }

  /**
   * A type that is found matches the inferred name ignoring case, and the
   * loaded assemblies take precedence: when one of them knows the name, the
   * plugin files and the partial-name lookup are never consulted.
   */
  lemma FoundTypeMatchesAndLoadedWin(u: Universe, name: string, plugins: map<string, Option<Assembly>>, partial: map<string, Assembly>)
    requires Resolve(u, Some(name)).TypeFound?
    ensures SameName(Resolve(u, Some(name)).info.fullName, InferFullName(name).value)
    ensures FindInLoaded(u.loaded, InferFullName(name).value).Some? ==>
      Resolve(u.(pluginFiles := plugins, partialNames := partial), Some(name)) == Resolve(u, Some(name))
  {
  }
}
