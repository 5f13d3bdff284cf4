/**
 * The driver's request handlers as functions of a session: loading a project
 * file, listing tools, getting and setting properties by path (with links
 * between tools), creating tools, reading and replacing scripts, the tool-call
 * dispatch and the JSON-RPC request loop. The VisionPro serializer, value
 * conversion, property setters, type instantiation and the JSON parser are
 * collaborators passed in as an environment.
 */
module Engine {
  import opened Common
  import opened Text
  import opened ObjectGraph
  import opened PathResolver
  import opened TypeResolver
  import opened ToolRegistry
  import opened Inspector

  /** A registry in the shape the dictionary keeps. */
  type Tools = r: Registry | WellFormed(r) witness Empty

  /** What one call of the serializer's save was handed: the graph, its root and the file path. */
  datatype Saved = Saved(heap: Heap, root: Value, path: Option<string>)

  /**
   * The driver's static state: the loaded graph (vppObject is `root`), the file
   * it came from (vppPath), the tool cache, and every save attempted so far.
   */
  datatype Session = Session(heap: Heap, root: Value, path: Option<string>, tools: Tools, saves: seq<Saved>)

  const Start := Session([], Null, None, Empty, [])

  // ---------------------------------------------------------------------------
  // Collaborators
  // ---------------------------------------------------------------------------

  datatype Loaded = Loaded(heap: Heap, root: Value) | LoadFault(message: string)
  datatype Converted = Converted(value: Value) | ConvertFault(message: string)
  datatype Constructed = Constructed(obj: Obj) | ConstructFault(message: string)

  /**
   * load: CogSerializer.LoadObjectFromFile; save: SaveObjectToFile (a message when
   * it throws); fileName: Path.GetFileName; convert: Convert.ChangeType to a
   * property's declared type; accept: whether SetValue takes a value (a message
   * when it throws); universe: what the type resolver can see; construct:
   * Activator.CreateInstance; parse: JSON deserialisation of one input line.
   */
  datatype Env = Env(
    load: Option<string> -> Loaded,
    save: Saved -> Option<string>,
    fileName: string -> string,
    convert: (Prop, Option<string>) -> Converted,
    accept: (Prop, Value) -> Option<string>,
    universe: Universe,
    construct: TypeInfo -> Constructed,
    parse: string -> Parsed)

  /** What a handler gives back: its text, or the message of an exception it lets escape. */
  datatype Reply = Said(text: string) | Raised(message: string)

  datatype Outcome = Outcome(session: Session, reply: Reply)

  const NullKeyMessage := "Value cannot be null.\r\nParameter name: key"
  const NullValueMessage := "Value cannot be null.\r\nParameter name: value"
  const NoInformationMessage := "Must specify valid information for parsing in the string."
  const SetErrorPrefix := "Error setting property: "

  function Snapshot(s: Session): Saved {
    Saved(s.heap, s.root, s.path)
  }

  /** The session after handing its graph to the serializer. */
  function Saving(s: Session): Session {
    s.(saves := s.saves + [Snapshot(s)])
  }

  // ---------------------------------------------------------------------------
  // Loading and listing
  // ---------------------------------------------------------------------------

  function FileNameOf(env: Env, path: Option<string>): string {
    match path
    case Some(p) => env.fileName(p)
    case None => ""
  }

  /**
   * LoadVppFile: a load that throws leaves everything as it was; otherwise the
   * graph and path are replaced and the cache is rebuilt, and an insertion under
   * a null name aborts the rebuild part-way.
   */
  function LoadVppFile(env: Env, s: Session, path: Option<string>): Outcome {
    match env.load(path)
    case LoadFault(m) => Outcome(s, Said("Error: " + m))
    case Loaded(h, root) =>
      var b := Rebuild(h, root);
      var s' := Session(h, root, path, b.registry, s.saves);
      if b.failed then Outcome(s', Said("Error: " + NullKeyMessage))
      else Outcome(s', Said("Loaded " + FileNameOf(env, path) + ". " + ShowInt(Count(b.registry)) + " tools found."))
  }

  function ListLine(h: Heap, e: Entry): string {
    "- " + e.key + " (" + TypeNameOf(h, e.node) + ")"
  }

  /** vpp_list_tools: one line per cached tool, in insertion order, joined by LF. */
  function ListTools(s: Session): string {
    var es := Entries(s.tools);
    if es == [] then "No tools."
    else Join(seq(|es|, i requires 0 <= i < |es| => ListLine(s.heap, es[i])), '\n')
  }

  /** The list is "No tools." exactly when nothing is cached, since every tool line starts with "- ". */
  lemma ListToolsEmpty(s: Session)
    ensures Entries(s.tools) == [] <==> ListTools(s) == "No tools."
  {
    var es := Entries(s.tools);
    if es != [] {
      var lines := seq(|es|, i requires 0 <= i < |es| => ListLine(s.heap, es[i]));
      assert Join(lines, '\n')[0] == lines[0][0] == '-';
    }
  }

  /**
   * The list reads back line by line: with tools cached and no name or type
   * name holding a line feed, splitting it at LF gives exactly one line per
   * cached tool, in enumeration order.
   */
  lemma ListToolsLines(s: Session)
    ensures var es := Entries(s.tools);
      es != [] && (forall e :: e in es ==> '\n' !in e.key && '\n' !in TypeNameOf(s.heap, e.node)) ==>
      Split(ListTools(s), '\n') == seq(|es|, i requires 0 <= i < |es| => ListLine(s.heap, es[i]))
  {
    var es := Entries(s.tools);
    var lines := seq(|es|, i requires 0 <= i < |es| => ListLine(s.heap, es[i]));
    if es != [] && forall e :: e in es ==> '\n' !in e.key && '\n' !in TypeNameOf(s.heap, e.node) {
      forall i | 0 <= i < |lines| ensures '\n' !in lines[i] {
        assert es[i] in es;
      }
      SplitJoin(lines, '\n');
    }
  }

  // ---------------------------------------------------------------------------
  // Get and set
  // ---------------------------------------------------------------------------

  datatype Mode = GetMode | SetMode(value: Option<string>)

  /** The path the resolver is given: "." and null both mean the tool itself. */
  function EffectivePath(path: Option<string>): Option<string> {
    if path == Some(".") || path.None? then Some("") else path
  }

  /** HandleGetSetRequest: find the tool, resolve the path, then read or write. */
  function HandleGetSetRequest(env: Env, s: Session, mode: Mode, toolName: Option<string>, path: Option<string>): Outcome {
    match Find(s.tools, toolName)
    case None => Outcome(s, Said("Error: Tool '" + OrEmpty(toolName) + "' not found."))
    case Some(tool) =>
      match PathResolver.Resolve(s.heap, tool, EffectivePath(path))
      case NotFound => Outcome(s, Said("Error: Path '" + OrEmpty(path) + "' not found on target tool."))
      case Fault(m) => Outcome(s, Raised(m))
      case Resolved(target, handle) =>
        match mode
        case GetMode => Outcome(s, GetValue(s.heap, target, handle))
        case SetMode(val) =>
          if handle.None? || !handle.value.writable then
            Outcome(s, Said("Error: Property '" + OrEmpty(path) + "' is read-only or invalid."))
          else SetValue(env, s, OrEmpty(toolName), OrEmpty(path), target, handle.value, val)
  }

  /** The get branch: the property's value (or the addressed object itself), rendered; a throwing getter escapes. */
  function GetValue(h: Heap, target: Value, handle: Option<Prop>): Reply {
    match handle
    case None => Said(Render(h, target))
    case Some(p) =>
      match p.read
      case Throws(m) => Raised(m)
      case Got(v) => Said(Render(h, v))
  }

  /** The set branch, inside its try block: a link when the value starts with '@', a literal otherwise. */
  function SetValue(env: Env, s: Session, toolName: string, path: string, target: Value, p: Prop, val: Option<string>): Outcome {
    if val.Some? && StartsWith(val.value, "@") then Link(env, s, toolName, path, target, p, val.value[1..])
    else
      match Literal(env, p, val)
      case ConvertFault(m) => Outcome(s, Said(SetErrorPrefix + m))
      case Converted(v) => Commit(env, s, target, p, v, "Success: Set '" + path + "' to '" + Display(s.heap, v) + "'")
  }

  /** What a link source evaluates to: the property's value, or the addressed object when there is no property. */
  function LinkedValue(o: Value, handle: Option<Prop>): Read {
    match handle
    case None => Got(o)
    case Some(sp) => sp.read
  }

  /** `@Tool.sub.path`: the value found at the source is assigned by reference. */
  function Link(env: Env, s: Session, toolName: string, path: string, target: Value, p: Prop, source: string): Outcome {
    var (srcTool, srcPath) := SplitOnce(source, '.');
    match Find(s.tools, Some(srcTool))
    case None => Outcome(s, Said("Error: Source tool '" + srcTool + "' not found for linking."))
    case Some(node) =>
      match PathResolver.Resolve(s.heap, node, Some(srcPath))
      case NotFound => Outcome(s, Said("Error: Source property '" + srcPath + "' not found on '" + srcTool + "'."))
      case Fault(m) => Outcome(s, Said(SetErrorPrefix + m))
      case Resolved(o, handle) =>
        match LinkedValue(o, handle)
        case Throws(m) => Outcome(s, Said(SetErrorPrefix + m))
        case Got(v) => Commit(env, s, target, p, v, "Success: Linked '" + toolName + "." + path + "' to '" + source + "'")
  }

  /** SetValue and then a save; a refused value or a failed save is reported as a set error. */
  function Commit(env: Env, s: Session, target: Value, p: Prop, v: Value, success: string): Outcome {
    match env.accept(p, v)
    case Some(m) => Outcome(s, Said(SetErrorPrefix + m))
    case None =>
      var s1 := s.(heap := WriteProperty(s.heap, target, p.name, v));
      match env.save(Snapshot(s1))
      case Some(m) => Outcome(Saving(s1), Said(SetErrorPrefix + m))
      case None => Outcome(Saving(s1), Said(success))
  }

  /** The value a literal converts to: enum members by name ignoring case, anything else by the converter. */
  function Literal(env: Env, p: Prop, val: Option<string>): Converted {
    match p.kind
    case EnumType(members) => ParseEnum(p.typeName, members, val)
    case _ => env.convert(p, val)
  }

  /** The first member whose name equals `text` ignoring case. */
  function MemberNamed(members: seq<string>, text: string): (r: Option<string>)
    ensures r.Some? ==> r.value in members && SameName(r.value, text)
    ensures r.None? ==> forall m :: m in members ==> !SameName(m, text)
  {
    if members == [] then None
    else if SameName(members[0], text) then Some(members[0])
    else MemberNamed(members[1..], text)
  }

  /**
   * Enum.Parse with ignoreCase: the text is trimmed first; a null or blank
   * text, or one whose trimmed form names no member, is rejected, and the
   * rejection quotes the trimmed text.
   */
  function ParseEnum(typeName: string, members: seq<string>, val: Option<string>): (r: Converted)
    ensures r.Converted? <==> val.Some? && !IsNullOrWhiteSpace(val)
                              && exists m :: m in members && SameName(m, Trim(val.value))
    ensures r.Converted? ==> r.value.Scalar? && r.value.kind == Enumeration && r.value.text in members
                              && SameName(r.value.text, Trim(val.value))
  {
    match val
    case None => ConvertFault(NullValueMessage)
    case Some(t) =>
      if IsNullOrWhiteSpace(val) then ConvertFault(NoInformationMessage)
      else
        var name := Trim(t);
        match MemberNamed(members, name)
        case None => ConvertFault("Requested value '" + name + "' was not found.")
        case Some(m) => Converted(Scalar(Enumeration, typeName, m))
  }

  /** White space around an enumeration text changes neither the parsed member nor the message. */
  lemma ParseEnumIgnoresSurroundingSpace(typeName: string, members: seq<string>, t: string)
    ensures ParseEnum(typeName, members, Some(t)) == ParseEnum(typeName, members, Some(Trim(t)))
  {
    TrimIdempotent(t);
  }

  // ---------------------------------------------------------------------------
  // Creating tools
  // ---------------------------------------------------------------------------

  /** A fresh tool group (new CogToolGroup()) whose Tools collection sits at `tools`. */
  function NewGroup(tools: Addr): Obj {
    Obj("CogToolGroup", ToolGroup, [Prop("Tools", "CogToolCollection", OtherType, false, false, Got(Ref(tools)))], None)
  }

  const EmptyCollection := Obj("CogToolCollection", Plain, [], Some([]))

  /** `job.VisionTool = new CogToolGroup()`: a group and its empty collection are allocated and assigned. */
  function WithNewGroup(h: Heap, job: Value): (r: Heap)
    ensures |r| == |h| + 2
  {
    WriteProperty(h + [NewGroup(|h| + 1), EmptyCollection], job, "VisionTool", Ref(|h|))
  }

  /**
   * The collection a new tool goes into: a block's or group's Tools, or the
   * Tools of a job's vision tool when that is a group; a job without a vision
   * tool first gets a new group. Null when the parent is none of these.
   */
  function SelectContainer(h: Heap, parent: Option<Value>): (r: (Heap, Value))
    ensures |r.0| >= |h|
  {
    match parent
    case None => (h, Null)
    case Some(v) =>
      match ObjectAt(h, v)
      case None => (h, Null)
      case Some(o) =>
        match o.shape
        case ToolBlock => (h, Member(o, "Tools"))
        case ToolGroup => (h, Member(o, "Tools"))
        case Job =>
          var h1 := if Member(o, "VisionTool") == Null then WithNewGroup(h, v) else h;
          var vt := Member(h1[v.addr], "VisionTool");
          (match ObjectAt(h1, vt)
           case Some(g) => if g.shape.ToolGroup? then (h1, Member(g, "Tools")) else (h1, Null)
           case None => (h1, Null))
        case _ => (h, Null)
  }

  /** `targetCollection.Add(tool)`. */
  function AddItem(h: Heap, coll: Value, item: Value): (r: Heap)
    ensures |r| == |h|
  {
    if coll.Ref? && coll.addr < |h| then h[coll.addr := h[coll.addr].(items := Some(h[coll.addr].items.GetOr([]) + [item]))]
    else h
  }

  function CastMessage(t: TypeInfo): string {
    "Unable to cast object of type '" + t.fullName + "' to type 'Cognex.VisionPro.ICogTool'."
  }

  /**
   * CreateTool: pick the container, resolve the type (its exceptions escape),
   * then, inside the try block, instantiate, name, add, register and save.
   */
  function CreateTool(env: Env, s: Session, parentName: Option<string>, typeName: Option<string>, newName: Option<string>): Outcome {
    var (h1, coll) := SelectContainer(s.heap, Find(s.tools, parentName));
    var s1 := s.(heap := h1);
    if coll == Null then Outcome(s1, Said("Error: Parent is not a valid container (Block, Group, or Job)."))
    else ResolveAndInstall(env, s1, coll, parentName, typeName, newName)
  }

  /** Past the container check: the type is resolved outside the try block, so its exceptions escape. */
  function ResolveAndInstall(env: Env, s: Session, coll: Value, parentName: Option<string>, typeName: Option<string>, newName: Option<string>): Outcome {
    match TypeResolver.Resolve(env.universe, typeName)
    case TypeFault(m) => Outcome(s, Raised(m))
    case TypeMissing(_) => Outcome(s, Said("Error: Could not resolve type '" + OrEmpty(typeName) + "'."))
    case TypeFound(t) => Install(env, s, coll, t, OrEmpty(parentName), newName)
  }

  function Install(env: Env, s: Session, coll: Value, t: TypeInfo, parentName: string, newName: Option<string>): Outcome {
    match env.construct(t)
    case ConstructFault(m) => Outcome(s, Said("Error: " + m))
    case Constructed(o) =>
      if !IsToolShape(o.shape) then Outcome(s, Said("Error: " + CastMessage(t)))
      else
        var tool := Ref(|s.heap|);
        var h1 := s.heap + [o];
        var h2 := if newName.Some? && newName.value != "" then WriteProperty(h1, tool, "Name", Scalar(Str, "String", newName.value)) else h1;
        var h3 := AddItem(h2, coll, tool);
        var nameValue := Member(h3[tool.addr], "Name");
        if nameValue == Null then Outcome(s.(heap := h3), Said("Error: " + NullKeyMessage))
        else
          var name := Display(h3, nameValue);
          var s2 := s.(heap := h3, tools := Put(s.tools, name, tool));
          match env.save(Snapshot(s2))
          case Some(m) => Outcome(Saving(s2), Said("Error: " + m))
          case None => Outcome(Saving(s2), Said("Success: Created '" + name + "' (" + t.name + ") in '" + parentName + "'."))
  }

  // ---------------------------------------------------------------------------
  // Scripts
  // ---------------------------------------------------------------------------

  /** A job's JobScript when it is a script support object. */
  function JobScript(h: Heap, job: Obj): Value {
    var js := Member(job, "JobScript");
    match ObjectAt(h, js)
    case Some(so) => if so.shape.ScriptHost? then js else Null
    case None => Null
  }

  /** GetScriptSupport: a block's or group's Script, a job's group Script, else the job's own script. */
  function GetScriptSupport(h: Heap, host: Option<Value>): Value {
    match host
    case None => Null
    case Some(v) =>
      match ObjectAt(h, v)
      case None => Null
      case Some(o) =>
        match o.shape
        case ToolBlock => Member(o, "Script")
        case ToolGroup => Member(o, "Script")
        case Job =>
          (match ObjectAt(h, Member(o, "VisionTool"))
           case Some(g) => if g.shape.ToolGroup? then Member(g, "Script") else JobScript(h, o)
           case None => JobScript(h, o))
        case _ => Null
  }

  /** The Source text of a script support object. */
  function SourceOf(h: Heap, script: Value): Option<string> {
    match ObjectAt(h, script)
    case None => None
    case Some(so) =>
      match Member(so, "Source")
      case Null => None
      case src => Some(Display(h, src))
  }

  /** TryGetScriptCode: the script source, or nothing when there is no script or its source is blank. */
  function TryGetScriptCode(h: Heap, host: Option<Value>): Option<string> {
    var sv := GetScriptSupport(h, host);
    if sv == Null then None
    else
      var src := SourceOf(h, sv);
      if IsNullOrWhiteSpace(src) then None else src
  }

  datatype ScriptWrite = ScriptWrite(heap: Heap, ok: bool, message: string)

  /** TrySetScriptCode: only the Source text is assigned; nothing is compiled. */
  function TrySetScriptCode(h: Heap, host: Option<Value>, code: string): ScriptWrite {
    var sv := GetScriptSupport(h, host);
    if sv == Null then ScriptWrite(h, false, "No CogScriptSupport found on this host.")
    else ScriptWrite(WriteProperty(h, sv, "Source", Scalar(Str, "String", code)), true, "Injected into Script.Source and compiled.")
  }

  // ---------------------------------------------------------------------------
  // Tool calls
  // ---------------------------------------------------------------------------

  /** The parameters of tools/call: the tool name and the arguments as their text. */
  datatype Call = Call(name: Option<string>, args: map<string, string>)

  function Arg(c: Call, key: string): Option<string> {
    if key in c.args then Some(c.args[key]) else None
  }

  datatype ToolKind = LoadFile | ListAll | GetProperty | SetProperty | ExtractScript | InjectScript | NewTool | UnknownTool

  /** The switch over the tool name. */
  function Route(name: Option<string>): ToolKind {
    match name
    case None => UnknownTool
    case Some(n) =>
      if n == "vpp_load_file" then LoadFile
      else if n == "vpp_list_tools" then ListAll
      else if n == "vpp_get_property" then GetProperty
      else if n == "vpp_set_property" then SetProperty
      else if n == "vpp_extract_script" then ExtractScript
      else if n == "vpp_inject_script" then InjectScript
      else if n == "vpp_create_tool" then NewTool
      else UnknownTool
  }

  /** The result object of a tool call: its one text item and the error flag. */
  datatype ToolOutput = ToolOutput(session: Session, text: string, isError: bool)

  /** A handler's text is not an error; an exception that escapes it is, with its message as the text. */
  function FromOutcome(o: Outcome): ToolOutput {
    match o.reply
    case Said(t) => ToolOutput(o.session, t, false)
    case Raised(m) => ToolOutput(o.session, m, true)
  }

  function Inject(env: Env, s: Session, c: Call): ToolOutput {
    var host := Find(s.tools, Arg(c, "tool_name"));
    if host.None? then ToolOutput(s, "Error: Tool '" + OrEmpty(Arg(c, "tool_name")) + "' not found.", true)
    else
      var w := TrySetScriptCode(s.heap, host, Arg(c, "code").GetOr(""));
      if !w.ok then ToolOutput(s, "Failed. " + w.message, true)
      else
        var s1 := s.(heap := w.heap);
        match env.save(Snapshot(s1))
        case Some(m) => ToolOutput(Saving(s1), m, true)
        case None => ToolOutput(Saving(s1), "Success & Saved. " + w.message, false)
  }

  /** The try block of HandleToolCall. */
  function Dispatch(env: Env, s: Session, c: Call): ToolOutput {
    match Route(c.name)
    case LoadFile => FromOutcome(LoadVppFile(env, s, Arg(c, "file_path")))
    case ListAll => ToolOutput(s, ListTools(s), false)
    case GetProperty => FromOutcome(HandleGetSetRequest(env, s, GetMode, Arg(c, "tool_name"), Arg(c, "path")))
    case SetProperty => FromOutcome(HandleGetSetRequest(env, s, SetMode(Arg(c, "value")), Arg(c, "tool_name"), Arg(c, "path")))
    case ExtractScript => ToolOutput(s, TryGetScriptCode(s.heap, Find(s.tools, Arg(c, "tool_name"))).GetOr("No script."), false)
    case InjectScript => Inject(env, s, c)
    case NewTool => FromOutcome(CreateTool(env, s, Arg(c, "parent_name"), Arg(c, "tool_type"), Arg(c, "new_tool_name")))
    case UnknownTool => ToolOutput(s, "Unknown tool.", true)
  }

  // ---------------------------------------------------------------------------
  // The request loop
  // ---------------------------------------------------------------------------

  datatype ToolDescriptor = ToolDescriptor(name: string, description: string, properties: seq<string>, required: seq<string>)

  /** GetMcpTools. */
  const McpTools := [
    ToolDescriptor("vpp_load_file", "Load VPP file.", ["file_path"], ["file_path"]),
    ToolDescriptor("vpp_list_tools", "List all tools.", [], []),
    ToolDescriptor("vpp_get_property", "Get value or inspect structure (path='.' for root).", ["tool_name", "path"], ["tool_name", "path"]),
    ToolDescriptor("vpp_set_property", "Set property value.", ["tool_name", "path", "value"], ["tool_name", "path", "value"]),
    ToolDescriptor("vpp_extract_script", "Extract C# code.", ["tool_name"], ["tool_name"]),
    ToolDescriptor("vpp_inject_script", "Inject C# code.", ["tool_name", "code"], ["tool_name", "code"]),
    ToolDescriptor("vpp_create_tool", "Create new VisionPro tool.", ["parent_name", "tool_type", "new_tool_name"], ["parent_name", "tool_type"])
  ]

  /**
   * The `params` token of a request: absent, a JSON object whose `name` and
   * `arguments` were read, or another JSON value (the null literal, a string,
   * a number, an array), whose indexer throws with the given message.
   */
  datatype Params = Absent | NotAnObject(message: string) | Object(call: Call)

  /** A request as the deserializer produces it; the id is kept as its JSON text. */
  datatype Request = Request(id: Option<string>, rpcMethod: Option<string>, callParams: Params)

  datatype Parsed = Malformed(message: string) | NullRequest | Parsed(request: Request)

  datatype Payload =
    | InitializeResult(protocolVersion: string, listChanged: bool, serverName: string, serverVersion: string)
    | ToolsResult(tools: seq<ToolDescriptor>)
    | CallResult(text: string, isError: bool)
    | EmptyResult
    | NullResult

  datatype Response = ResultResponse(id: string, result: Payload) | ErrorResponse(id: string, code: int, message: string)

  const InternalError := -32603

  /** The outcome of the method branch: a result, or the message of an exception. */
  datatype Answer = Returned(payload: Payload) | Threw(message: string)

  datatype Answered = Answered(session: Session, answer: Answer)

  /**
   * HandleToolCall: reading `name` from params that are missing or not an
   * object throws before the try block; everything inside it becomes a result.
   */
  function HandleToolCall(env: Env, s: Session, callParams: Params): Answered {
    match callParams
    case Absent => Answered(s, Threw(NullReferenceMessage))
    case NotAnObject(m) => Answered(s, Threw(m))
    case Object(c) =>
      var out := Dispatch(env, s, c);
      Answered(out.session, Returned(CallResult(out.text, out.isError)))
  }

  /** The method switch; a method it does not know leaves the result null. */
  function Perform(env: Env, s: Session, r: Request): Answered {
    if r.rpcMethod == Some("initialize") then
      Answered(s, Returned(InitializeResult("2024-11-05", true, "visionpro-vpp-driver", "9.5.0")))
    else if r.rpcMethod == Some("tools/list") then Answered(s, Returned(ToolsResult(McpTools)))
    else if r.rpcMethod == Some("tools/call") then HandleToolCall(env, s, r.callParams)
    else if r.rpcMethod == Some("ping") then Answered(s, Returned(EmptyResult))
    else Answered(s, Returned(NullResult))
  }

  function Respond(id: string, a: Answer): Response {
    match a
    case Returned(p) => ResultResponse(id, p)
    case Threw(m) => ErrorResponse(id, InternalError, m)
  }

  datatype Turn = Turn(session: Session, written: seq<Response>)

  /** One iteration of the loop for an input line: blank and unparsable lines and null requests are skipped. */
  function Step(env: Env, s: Session, line: string): Turn {
    if IsNullOrWhiteSpace(Some(line)) then Turn(s, [])
    else
      match env.parse(line)
      case Malformed(_) => Turn(s, [])
      case NullRequest => Turn(s, [])
      case Parsed(r) =>
        var a := Perform(env, s, r);
        match r.id
        case None => Turn(a.session, [])
        case Some(id) => Turn(a.session, [Respond(id, a.answer)])
  }

  /** RunMcpLoop over the lines read before the end of input. */
  function Run(env: Env, s: Session, lines: seq<string>): Turn
    decreases |lines|
  {
    if lines == [] then Turn(s, [])
    else
      var before := Run(env, s, lines[..|lines| - 1]);
      var last := Step(env, before.session, lines[|lines| - 1]);
      Turn(last.session, before.written + last.written)
  }

  /**
   * Main's start-up: when there is a first command-line argument and a file of
   * that name exists, it is loaded before the loop starts; the load's reply is
   * not written anywhere. `fileExists` stands for File.Exists.
   */
  function Preload(env: Env, args: seq<string>, fileExists: string -> bool): Session {
    if |args| > 0 && fileExists(args[0]) then LoadVppFile(env, Start, Some(args[0])).session else Start
  }

  /**
   * A preload that loads a graph opens it as a handler load would: the graph,
   * root and path are the file's, nothing has been saved, and the cache finds
   * the first tool visited under each name.
   */
  lemma PreloadOpensFile(env: Env, args: seq<string>, fileExists: string -> bool, h: Heap, root: Value, query: string)
    requires |args| > 0 && fileExists(args[0]) && env.load(Some(args[0])) == Loaded(h, root)
    ensures var s := Preload(env, args, fileExists);
      s.heap == h && s.root == root && s.path == Some(args[0]) && s.saves == [] &&
      Find(s.tools, Some(query)) == FirstNamed(Completed(Visits(h, root, |h| + 1)), query)
  {
    LoadReplacesGraph(env, Start, Some(args[0]), h, root, query);
  }

  /** Without an argument, without the file, or when the load throws, the loop starts from the empty session. */
  lemma PreloadOtherwiseStarts(env: Env, args: seq<string>, fileExists: string -> bool)
    ensures |args| == 0 || !fileExists(args[0]) || env.load(Some(args[0])).LoadFault? ==>
      Preload(env, args, fileExists) == Start
  {
  }

  // ---------------------------------------------------------------------------
  // Get and set: what the handlers promise
  // ---------------------------------------------------------------------------

  /** "." and a null, blank or separator-only path address the tool itself: get renders it, set refuses. */
  lemma RootPathAddressesTool(env: Env, s: Session, mode: Mode, toolName: Option<string>, path: Option<string>, tool: Value)
    requires Find(s.tools, toolName) == Some(tool)
    requires path == Some(".") || IsNullOrWhiteSpace(path) || OnlySeparators(path.value, '.')
    ensures var o := HandleGetSetRequest(env, s, mode, toolName, path);
      && o.session == s
      && o.reply == if mode == GetMode then Said(Render(s.heap, tool))
                    else Said("Error: Property '" + OrEmpty(path) + "' is read-only or invalid.")
  {
    ResolveRootPaths(s.heap, tool, EffectivePath(path));
  }

  /** The property a set writes: the writable one the path ends at, found ignoring case. */
  predicate WritableTarget(s: Session, toolName: Option<string>, path: Option<string>) {
    match Find(s.tools, toolName)
    case None => false
    case Some(tool) =>
      match PathResolver.Resolve(s.heap, tool, EffectivePath(path))
      case Resolved(_, Some(p)) => p.writable
      case _ => false
  }

  /** A set whose path does not end at a writable property changes nothing and saves nothing, whatever the value. */
  lemma SetRejectsUnwritable(env: Env, s: Session, val: Option<string>, toolName: Option<string>, path: Option<string>)
    requires !WritableTarget(s, toolName, path)
    ensures HandleGetSetRequest(env, s, SetMode(val), toolName, path).session == s
  {
  }

  /**
   * A set on a writable property either changes nothing, or assigns one value to
   * that property of the addressed object and hands the result to the serializer
   * exactly once.
   */
  lemma SetWritesOnlyTheTarget(env: Env, s: Session, val: Option<string>, toolName: Option<string>, path: Option<string>,
                               tool: Value, target: Value, p: Prop)
    requires Find(s.tools, toolName) == Some(tool)
    requires PathResolver.Resolve(s.heap, tool, EffectivePath(path)) == Resolved(target, Some(p)) && p.writable
    ensures var o := HandleGetSetRequest(env, s, SetMode(val), toolName, path);
      o.session == s || exists v :: o.session == Saving(s.(heap := WriteProperty(s.heap, target, p.name, v)))
  {
    var tn, pn := OrEmpty(toolName), OrEmpty(path);
    assert HandleGetSetRequest(env, s, SetMode(val), toolName, path) == SetValue(env, s, tn, pn, target, p, val);
    if val.Some? && StartsWith(val.value, "@") {
      var source := val.value[1..];
      var (srcTool, srcPath) := SplitOnce(source, '.');
      match Find(s.tools, Some(srcTool)) {
        case None =>
        case Some(node) =>
          match PathResolver.Resolve(s.heap, node, Some(srcPath)) {
            case Resolved(ob, handle) =>
              match LinkedValue(ob, handle) {
                case Got(v) => CommitWritesOnce(env, s, target, p, v, "Success: Linked '" + tn + "." + pn + "' to '" + source + "'");
                case Throws(_) =>
              }
            case NotFound =>
            case Fault(_) =>
          }
      }
    } else {
      match Literal(env, p, val) {
        case Converted(v) => CommitWritesOnce(env, s, target, p, v, "Success: Set '" + pn + "' to '" + Display(s.heap, v) + "'");
        case ConvertFault(_) =>
      }
    }
  }

  lemma CommitWritesOnce(env: Env, s: Session, target: Value, p: Prop, v: Value, success: string)
    ensures var o := Commit(env, s, target, p, v, success);
      o.session == s || o.session == Saving(s.(heap := WriteProperty(s.heap, target, p.name, v)))
  {
  }

  /** A reply announcing success. */
  predicate Succeeded(r: Reply) {
    r.Said? && StartsWith(r.text, "Success")
  }

  /** A text that begins with an error marker is not a success report, nor a load report. */
  lemma ErrorMarkerExcludes(prefix: string, rest: string, word: string)
    requires prefix != [] && prefix[0] == 'E'
    requires word != [] && word[0] != 'E'
    ensures !StartsWith(prefix + rest, word)
  {
    assert (prefix + rest)[0] == 'E';
  }

  /** Every successful set saved the graph it changed, exactly once, and that save went through. */
  lemma SetSavesBeforeSuccess(env: Env, s: Session, val: Option<string>, toolName: Option<string>, path: Option<string>)
    ensures var o := HandleGetSetRequest(env, s, SetMode(val), toolName, path);
      Succeeded(o.reply) ==> o.session.saves == s.saves + [Snapshot(o.session)] && env.save(Snapshot(o.session)).None?
  {
    var o := HandleGetSetRequest(env, s, SetMode(val), toolName, path);
    if Succeeded(o.reply) {
      var tn, pn := OrEmpty(toolName), OrEmpty(path);
      match Find(s.tools, toolName) {
        case None => ErrorMarkerExcludes("Error: Tool '" + tn, "' not found.", "Success");
        case Some(tool) =>
          match PathResolver.Resolve(s.heap, tool, EffectivePath(path)) {
            case NotFound => ErrorMarkerExcludes("Error: Path '" + pn, "' not found on target tool.", "Success");
            case Fault(_) =>
            case Resolved(target, handle) =>
              if handle.None? || !handle.value.writable {
                ErrorMarkerExcludes("Error: Property '" + pn, "' is read-only or invalid.", "Success");
              } else {
                SetValueSavesBeforeSuccess(env, s, tn, pn, target, handle.value, val);
              }
          }
      }
    }
  }

  lemma SetValueSavesBeforeSuccess(env: Env, s: Session, toolName: string, path: string, target: Value, p: Prop, val: Option<string>)
    ensures var o := SetValue(env, s, toolName, path, target, p, val);
      Succeeded(o.reply) ==> o.session.saves == s.saves + [Snapshot(o.session)] && env.save(Snapshot(o.session)).None?
  {
    if val.Some? && StartsWith(val.value, "@") {
      LinkSavesBeforeSuccess(env, s, toolName, path, target, p, val.value[1..]);
    } else {
      match Literal(env, p, val) {
        case Converted(v) => CommitSavesBeforeSuccess(env, s, target, p, v, "Success: Set '" + path + "' to '" + Display(s.heap, v) + "'");
        case ConvertFault(m) => ErrorMarkerExcludes(SetErrorPrefix, m, "Success");
      }
    }
  }

  lemma LinkSavesBeforeSuccess(env: Env, s: Session, toolName: string, path: string, target: Value, p: Prop, source: string)
    ensures var o := Link(env, s, toolName, path, target, p, source);
      Succeeded(o.reply) ==> o.session.saves == s.saves + [Snapshot(o.session)] && env.save(Snapshot(o.session)).None?
  {
    var (srcTool, srcPath) := SplitOnce(source, '.');
    match Find(s.tools, Some(srcTool)) {
      case None => ErrorMarkerExcludes("Error: Source tool '" + srcTool, "' not found for linking.", "Success");
      case Some(node) =>
        match PathResolver.Resolve(s.heap, node, Some(srcPath)) {
          case Resolved(ob, handle) =>
            match LinkedValue(ob, handle) {
              case Got(v) => CommitSavesBeforeSuccess(env, s, target, p, v, "Success: Linked '" + toolName + "." + path + "' to '" + source + "'");
              case Throws(m) => ErrorMarkerExcludes(SetErrorPrefix, m, "Success");
            }
          case NotFound => ErrorMarkerExcludes("Error: Source property '" + srcPath + "' not found on '" + srcTool, "'.", "Success");
          case Fault(m) => ErrorMarkerExcludes(SetErrorPrefix, m, "Success");
        }
    }
  }

  lemma CommitSavesBeforeSuccess(env: Env, s: Session, target: Value, p: Prop, v: Value, success: string)
    ensures var o := Commit(env, s, target, p, v, success);
      Succeeded(o.reply) ==> o.session.saves == s.saves + [Snapshot(o.session)] && env.save(Snapshot(o.session)).None?
  {
    match env.accept(p, v) {
      case Some(m) => ErrorMarkerExcludes(SetErrorPrefix, m, "Success");
      case None =>
        var s1 := s.(heap := WriteProperty(s.heap, target, p.name, v));
        match env.save(Snapshot(s1)) {
          case Some(m) => ErrorMarkerExcludes(SetErrorPrefix, m, "Success");
          case None => assert Snapshot(Saving(s1)) == Snapshot(s1);
        }
    }
  }

  /**
   * Writing a property leaves the object where it was, with its properties
   * rewritten in place; a target that is not an object of the heap is not written.
   */
  lemma PropsAfterWrite(h: Heap, target: Value, name: string, v: Value)
    ensures ObjectAt(h, target).Some? ==>
      PropsOf(WriteProperty(h, target, name, v), target) == WithValue(PropsOf(h, target), name, v)
    ensures ObjectAt(h, target).None? ==> WriteProperty(h, target, name, v) == h
  {
  }

  /**
   * A string property's `Length` is reachable by path: a get answers the
   * string's length, and a set is refused as read-only and changes nothing.
   */
  lemma StringLengthIsReadOnly(env: Env, s: Session, mode: Mode, toolName: Option<string>, name: string,
                               tool: Value, p: Prop, ty: string, t: string)
    requires !IsNullOrWhiteSpace(Some(name)) && '.' !in name && '[' !in name
    requires Find(s.tools, toolName) == Some(tool) && tool != Null
    requires FindProperty(PropsOf(s.heap, tool), name) == Found(p) && p.read == Got(Scalar(Str, ty, t))
    ensures var o := HandleGetSetRequest(env, s, mode, toolName, Some(name + ".Length"));
      && o.session == s
      && o.reply == if mode == GetMode then Said(ShowInt(|t|))
                    else Said("Error: Property '" + (name + ".Length") + "' is read-only or invalid.")
  {
    var path := Some(name + ".Length");
    assert EffectivePath(path) == path by {
      assert (name + ".Length")[|name|] == '.';
    }
    ResolveStringLength(s.heap, tool, name, p, ty, t);
    var len := StringProps(t)[1];
    var n := Scalar(Primitive, "Int32", ShowInt(|t|));
    ReadOnlyTarget(env, s, mode, toolName, path, tool, Scalar(Str, ty, t), len, n);
    var o := HandleGetSetRequest(env, s, mode, toolName, path);
    if mode == GetMode {
      assert Render(s.heap, n) == ShowInt(|t|);
      assert o.reply == Said(ShowInt(|t|));
    } else {
      assert OrEmpty(path) == name + ".Length";
    }
  }

  /** A resolved property that cannot be written: a get renders its value, and a set is refused and changes nothing. */
  lemma ReadOnlyTarget(env: Env, s: Session, mode: Mode, toolName: Option<string>, path: Option<string>,
                       tool: Value, target: Value, q: Prop, v: Value)
    requires Find(s.tools, toolName) == Some(tool)
    requires PathResolver.Resolve(s.heap, tool, EffectivePath(path)) == Resolved(target, Some(q))
    requires !q.writable && q.read == Got(v)
    ensures var o := HandleGetSetRequest(env, s, mode, toolName, path);
      && o.session == s
      && o.reply == if mode == GetMode then Said(Render(s.heap, v))
                    else Said("Error: Property '" + OrEmpty(path) + "' is read-only or invalid.")
  {
  }

  /**
   * Set then get: after a literal is set on a property addressed by its plain
   * name and accepted, getting the same path renders the value written, whether
   * or not the save succeeded.
   */
  lemma SetThenGet(env: Env, s: Session, val: Option<string>, toolName: Option<string>, name: string, tool: Value, p: Prop, v: Value)
    requires !IsNullOrWhiteSpace(Some(name)) && '.' !in name && !('[' in name && EndsWith(name, "]"))
    requires Find(s.tools, toolName) == Some(tool) && tool != Null
    requires FindProperty(PropsOf(s.heap, tool), name) == Found(p) && p.writable
    requires !(val.Some? && StartsWith(val.value, "@"))
    requires Literal(env, p, val) == Converted(v) && env.accept(p, v).None?
    ensures var s' := HandleGetSetRequest(env, s, SetMode(val), toolName, Some(name)).session;
      s'.heap == WriteProperty(s.heap, tool, p.name, v) &&
      HandleGetSetRequest(env, s', GetMode, toolName, Some(name)).reply == Said(Render(s'.heap, v))
  {
    assert EffectivePath(Some(name)) == Some(name) by { assert name != "."; }
    ResolveSingleName(s.heap, tool, name);
    var s' := HandleGetSetRequest(env, s, SetMode(val), toolName, Some(name)).session;
    assert s'.heap == WriteProperty(s.heap, tool, p.name, v) && s'.tools == s.tools by {
      SetLiteralWrites(env, s, toolName, name, tool, p, val, v);
    }
    GetAfterWrite(env, s', toolName, name, tool, PropsOf(s.heap, tool), p, v);
  }

  lemma SetLiteralWrites(env: Env, s: Session, toolName: Option<string>, name: string, target: Value, p: Prop, val: Option<string>, v: Value)
    requires Find(s.tools, toolName).Some?
    requires PathResolver.Resolve(s.heap, Find(s.tools, toolName).value, EffectivePath(Some(name))) == Resolved(target, Some(p)) && p.writable
    requires !(val.Some? && StartsWith(val.value, "@"))
    requires Literal(env, p, val) == Converted(v) && env.accept(p, v).None?
    ensures var s' := HandleGetSetRequest(env, s, SetMode(val), toolName, Some(name)).session;
      s'.heap == WriteProperty(s.heap, target, p.name, v) && s'.tools == s.tools
  {
    var tn := OrEmpty(toolName);
    var o := SetValue(env, s, tn, name, target, p, val);
    assert HandleGetSetRequest(env, s, SetMode(val), toolName, Some(name)) == o;
    var success := "Success: Set '" + name + "' to '" + Display(s.heap, v) + "'";
    assert o == Commit(env, s, target, p, v, success);
    CommitWritesOnce(env, s, target, p, v, success);
  }

  lemma GetAfterWrite(env: Env, s: Session, toolName: Option<string>, name: string, tool: Value, before: seq<Prop>, p: Prop, v: Value)
    requires !IsNullOrWhiteSpace(Some(name)) && '.' !in name && !('[' in name && EndsWith(name, "]"))
    requires Find(s.tools, toolName) == Some(tool) && tool != Null
    requires FindProperty(before, name) == Found(p)
    requires PropsOf(s.heap, tool) == WithValue(before, p.name, v)
    ensures HandleGetSetRequest(env, s, GetMode, toolName, Some(name)).reply == Said(Render(s.heap, v))
  {
    assert EffectivePath(Some(name)) == Some(name) by { assert name != "."; }
    ResolveSingleName(s.heap, tool, name);
    FindAfterWrite(before, p.name, v, name);
    assert Rewrite(p, p.name, v) == p.(read := Got(v));
  }

  /**
   * A link `@Tool.path` assigns the value found at the source itself: no object is
   * allocated, the target property now holds that same value (a reference when
   * it is an object), and the reply is a success exactly when the save went through.
   */
  lemma LinkSharesSourceValue(env: Env, s: Session, toolName: Option<string>, path: Option<string>, tool: Value,
                              target: Value, p: Prop, source: string, node: Value, ob: Value, handle: Option<Prop>, w: Value)
    requires Find(s.tools, toolName) == Some(tool)
    requires PathResolver.Resolve(s.heap, tool, EffectivePath(path)) == Resolved(target, Some(p)) && p.writable
    requires Find(s.tools, Some(SplitOnce(source, '.').0)) == Some(node)
    requires PathResolver.Resolve(s.heap, node, Some(SplitOnce(source, '.').1)) == Resolved(ob, handle)
    requires LinkedValue(ob, handle) == Got(w) && env.accept(p, w).None?
    ensures var o := HandleGetSetRequest(env, s, SetMode(Some("@" + source)), toolName, path);
      o.session == Saving(s.(heap := WriteProperty(s.heap, target, p.name, w))) &&
      |o.session.heap| == |s.heap| &&
      (Succeeded(o.reply) <==> env.save(Snapshot(s.(heap := WriteProperty(s.heap, target, p.name, w)))).None?)
  {
    var val := Some("@" + source);
    var tn, pn := OrEmpty(toolName), OrEmpty(path);
    var success := "Success: Linked '" + tn + "." + pn + "' to '" + source + "'";
    SetReachesSetValue(env, s, val, toolName, path, tool, target, p);
    SetValueReachesLink(env, s, tn, pn, target, p, source);
    LinkSuccessText(tn, pn, source);
    LinkReachesCommit(env, s, tn, pn, target, p, source, node, ob, handle, w);
    AcceptedCommit(env, s, target, p, w, success);
  }

  /** A value starting with `@` names a link source. */
  lemma SetValueReachesLink(env: Env, s: Session, toolName: string, path: string, target: Value, p: Prop, source: string)
    ensures SetValue(env, s, toolName, path, target, p, Some("@" + source)) == Link(env, s, toolName, path, target, p, source)
  {
    var val := "@" + source;
    assert StartsWith(val, "@") && val[1..] == source;
  }

  lemma LinkSuccessText(toolName: string, path: string, source: string)
    ensures StartsWith("Success: Linked '" + toolName + "." + path + "' to '" + source + "'", "Success")
  {
  }

  /** An accepted value is written and saved; the reply is the success text exactly when the save went through. */
  lemma AcceptedCommit(env: Env, s: Session, target: Value, p: Prop, v: Value, success: string)
    requires env.accept(p, v).None? && StartsWith(success, "Success")
    ensures var o := Commit(env, s, target, p, v, success);
      var s1 := s.(heap := WriteProperty(s.heap, target, p.name, v));
      o.session == Saving(s1) && |o.session.heap| == |s.heap| &&
      (Succeeded(o.reply) <==> env.save(Snapshot(s1)).None?)
  {
    var s1 := s.(heap := WriteProperty(s.heap, target, p.name, v));
    if m :| env.save(Snapshot(s1)) == Some(m) {
      ErrorMarkerExcludes(SetErrorPrefix, m, "Success");
    }
  }

  /** Past a found tool and a writable resolved property, a set is the set branch. */
  lemma SetReachesSetValue(env: Env, s: Session, val: Option<string>, toolName: Option<string>, path: Option<string>,
                           tool: Value, target: Value, p: Prop)
    requires Find(s.tools, toolName) == Some(tool)
    requires PathResolver.Resolve(s.heap, tool, EffectivePath(path)) == Resolved(target, Some(p)) && p.writable
    ensures HandleGetSetRequest(env, s, SetMode(val), toolName, path) == SetValue(env, s, OrEmpty(toolName), OrEmpty(path), target, p, val)
  {
  }

  /** Past a found source tool and a readable source, a link is a commit of the source's value. */
  lemma LinkReachesCommit(env: Env, s: Session, toolName: string, path: string, target: Value, p: Prop,
                          source: string, node: Value, ob: Value, handle: Option<Prop>, w: Value)
    requires Find(s.tools, Some(SplitOnce(source, '.').0)) == Some(node)
    requires PathResolver.Resolve(s.heap, node, Some(SplitOnce(source, '.').1)) == Resolved(ob, handle)
    requires LinkedValue(ob, handle) == Got(w)
    ensures Link(env, s, toolName, path, target, p, source) ==
      Commit(env, s, target, p, w, "Success: Linked '" + toolName + "." + path + "' to '" + source + "'")
  {
  }

  // ---------------------------------------------------------------------------
  // Loading: what the handler promises
  // ---------------------------------------------------------------------------

  /** A load that throws changes nothing and reports the exception's message. */
  lemma LoadFaultKeepsSession(env: Env, s: Session, path: Option<string>, m: string)
    requires env.load(path) == LoadFault(m)
    ensures LoadVppFile(env, s, path) == Outcome(s, Said("Error: " + m))
  {
  }

  /** The outcome of a load that returns: the new graph with the rebuilt cache, and the report. */
  lemma LoadedOutcome(env: Env, s: Session, path: Option<string>, h: Heap, root: Value)
    requires env.load(path) == Loaded(h, root)
    ensures var b := Rebuild(h, root);
      LoadVppFile(env, s, path) == Outcome(Session(h, root, path, b.registry, s.saves),
        Said(if b.failed then "Error: " + NullKeyMessage
             else "Loaded " + FileNameOf(env, path) + ". " + ShowInt(Count(b.registry)) + " tools found."))
  {
  }

  /**
   * A load that returns replaces the graph, root and path, keeps the save log,
   * and the rebuilt cache finds, for every name, the first tool visited under
   * an equal name before any null name.
   */
  lemma LoadReplacesGraph(env: Env, s: Session, path: Option<string>, h: Heap, root: Value, query: string)
    requires env.load(path) == Loaded(h, root)
    ensures var o := LoadVppFile(env, s, path);
      o.session.heap == h && o.session.root == root && o.session.path == path && o.session.saves == s.saves &&
      Find(o.session.tools, Some(query)) == FirstNamed(Completed(Visits(h, root, |h| + 1)), query)
  {
    LoadedOutcome(env, s, path, h, root);
    RecordFindsFirst(Empty, Visits(h, root, |h| + 1), query);
  }

  /** Every visit carries a name. */
  predicate AllNamed(vs: seq<Visit>) {
    forall i :: 0 <= i < |vs| ==> vs[i].name.Some?
  }

  /** A load that returns reports success exactly when no visited node had a null name. */
  lemma LoadReportsNullNames(env: Env, s: Session, path: Option<string>, h: Heap, root: Value)
    requires env.load(path) == Loaded(h, root)
    ensures var o := LoadVppFile(env, s, path);
      o.reply.Said? && (StartsWith(o.reply.text, "Loaded") <==> AllNamed(Visits(h, root, |h| + 1)))
  {
    var vs := Visits(h, root, |h| + 1);
    var b := Rebuild(h, root);
    LoadedOutcome(env, s, path, h, root);
    assert b.failed <==> !AllNamed(vs) by {
      RecordFailsOnNullName(Empty, vs);
      assert b == Record(Empty, vs);
    }
    if b.failed {
      ErrorMarkerExcludes("Error: ", NullKeyMessage, "Loaded");
    } else {
      LoadedReport(FileNameOf(env, path), ShowInt(Count(b.registry)));
    }
  }

  lemma LoadedReport(f: string, n: string)
    ensures StartsWith("Loaded " + f + ". " + n + " tools found.", "Loaded")
  {
    assert "Loaded " + f + ". " + n + " tools found." == "Loaded" + (" " + f + ". " + n + " tools found.") by {
      AppendAssoc("Loaded", " ", f);
      AppendAssoc("Loaded", " " + f, ". ");
      AppendAssoc("Loaded", " " + f + ". ", n);
      AppendAssoc("Loaded", " " + f + ". " + n, " tools found.");
    }
    PrefixStartsWith("Loaded", " " + f + ". " + n + " tools found.");
  }


  // ---------------------------------------------------------------------------
  // Creating tools: what the handler promises
  // ---------------------------------------------------------------------------

  /** Only a block, a group or a job can receive a new tool. */
  predicate IsContainerShape(sh: Shape) {
    sh.ToolBlock? || sh.ToolGroup? || sh.Job?
  }

  /** A parent that is missing or not a container is refused before anything is created, registered or saved. */
  lemma CreateNeedsContainer(env: Env, s: Session, parentName: Option<string>, typeName: Option<string>, newName: Option<string>)
    requires var parent := Find(s.tools, parentName);
      parent.None? || ObjectAt(s.heap, parent.value).None? || !IsContainerShape(ObjectAt(s.heap, parent.value).value.shape)
    ensures CreateTool(env, s, parentName, typeName, newName) ==
      Outcome(s, Said("Error: Parent is not a valid container (Block, Group, or Job)."))
  {
  }

  /** A job without a vision tool is given a fresh group, and the new tool goes into that group's collection. */
  lemma JobGetsGroup(h: Heap, job: Value, o: Obj)
    requires ObjectAt(h, job) == Some(o) && o.shape.Job? && HasProperty(o.props, "VisionTool")
    requires Member(o, "VisionTool") == Null
    ensures SelectContainer(h, Some(job)) == (WithNewGroup(h, job), Ref(|h| + 1))
  {
    var h1 := WithNewGroup(h, job);
    var h0 := h + [NewGroup(|h| + 1), EmptyCollection];
    assert h0[job.addr] == o;
    assert h1[job.addr].props == WithValue(o.props, "VisionTool", Ref(|h|));
    MemberAfterWrite(o.props, "VisionTool", Ref(|h|), "VisionTool");
    assert h1[|h|] == NewGroup(|h| + 1);
    assert Member(NewGroup(|h| + 1), "Tools") == Ref(|h| + 1);
  }

  /** Past a container and a resolved type, creation is the installation of the new instance. */
  lemma CreateReachesInstall(env: Env, s: Session, parentName: Option<string>, typeName: Option<string>, newName: Option<string>,
                             h1: Heap, coll: Value, t: TypeInfo)
    requires SelectContainer(s.heap, Find(s.tools, parentName)) == (h1, coll) && coll != Null
    requires TypeResolver.Resolve(env.universe, typeName) == TypeFound(t)
    ensures CreateTool(env, s, parentName, typeName, newName) == Install(env, s.(heap := h1), coll, t, OrEmpty(parentName), newName)
  {
  }

  /** The heap after a new instance is allocated, named `n` and added to `coll`. */
  lemma NamedInstance(h: Heap, coll: Value, obj: Obj, n: string)
    requires HasProperty(obj.props, "Name")
    ensures var h3 := AddItem(WriteProperty(h + [obj], Ref(|h|), "Name", Scalar(Str, "String", n)), coll, Ref(|h|));
      |h3| == |h| + 1 &&
      Member(h3[|h|], "Name") == Scalar(Str, "String", n) &&
      (coll.Ref? && coll.addr < |h| ==> h3[coll.addr].items == Some(h[coll.addr].items.GetOr([]) + [Ref(|h|)]))
  {
    var nv := Scalar(Str, "String", n);
    var h2 := WriteProperty(h + [obj], Ref(|h|), "Name", nv);
    var h3 := AddItem(h2, coll, Ref(|h|));
    MemberAfterWrite(obj.props, "Name", nv, "Name");
    assert h3[|h|].props == h2[|h|].props == WithValue(obj.props, "Name", nv);
  }

  /** The steps of an installation under a non-empty name: allocate, name, add to the container, register, save, report. */
  lemma InstallOutcome(env: Env, s: Session, coll: Value, t: TypeInfo, parentName: string, n: string, obj: Obj)
    requires env.construct(t) == Constructed(obj) && IsToolShape(obj.shape) && HasProperty(obj.props, "Name")
    requires n != ""
    ensures var tool := Ref(|s.heap|);
      var s2 := s.(heap := AddItem(WriteProperty(s.heap + [obj], tool, "Name", Scalar(Str, "String", n)), coll, tool),
                   tools := Put(s.tools, n, tool));
      Install(env, s, coll, t, parentName, Some(n)) ==
        match env.save(Snapshot(s2))
        case Some(m) => Outcome(Saving(s2), Said("Error: " + m))
        case None => Outcome(Saving(s2), Said("Success: Created '" + n + "' (" + t.name + ") in '" + parentName + "'."))
  {
    NamedInstance(s.heap, coll, obj, n);
  }

  lemma CreatedReport(n: string, typeName: string, parentName: string)
    ensures StartsWith("Success: Created '" + n + "' (" + typeName + ") in '" + parentName + "'.", "Success")
  {
    var tail := ": Created '" + n + "' (" + typeName + ") in '" + parentName + "'.";
    assert "Success: Created '" + n + "' (" + typeName + ") in '" + parentName + "'." == "Success" + tail by {
      AppendAssoc("Success", ": Created '", n);
      AppendAssoc("Success", ": Created '" + n, "' (");
      AppendAssoc("Success", ": Created '" + n + "' (", typeName);
      AppendAssoc("Success", ": Created '" + n + "' (" + typeName, ") in '");
      AppendAssoc("Success", ": Created '" + n + "' (" + typeName + ") in '", parentName);
      AppendAssoc("Success", ": Created '" + n + "' (" + typeName + ") in '" + parentName, "'.");
    }
    PrefixStartsWith("Success", tail);
  }

  /**
   * Installing a named tool: the instance is allocated at the end of the heap,
   * named, appended to the container's items, registered under its name (replacing
   * any tool of an equal name and leaving every other name alone), and the graph
   * is saved; the reply is a success exactly when the save went through.
   */
  lemma InstallRegisters(env: Env, s: Session, coll: Value, t: TypeInfo, parentName: string, n: string, obj: Obj, query: string)
    requires env.construct(t) == Constructed(obj) && IsToolShape(obj.shape) && HasProperty(obj.props, "Name")
    requires n != ""
    ensures var o := Install(env, s, coll, t, parentName, Some(n));
      var tool := Ref(|s.heap|);
      |o.session.heap| == |s.heap| + 1 &&
      Member(o.session.heap[|s.heap|], "Name") == Scalar(Str, "String", n) &&
      (coll.Ref? && coll.addr < |s.heap| ==>
        o.session.heap[coll.addr].items == Some(s.heap[coll.addr].items.GetOr([]) + [tool])) &&
      Find(o.session.tools, Some(query)) == (if SameName(query, n) then Some(tool) else Find(s.tools, Some(query))) &&
      o.session.saves == s.saves + [Snapshot(o.session)] &&
      (Succeeded(o.reply) <==> env.save(Snapshot(o.session)).None?)
  {
    var tool := Ref(|s.heap|);
    var s2 := s.(heap := AddItem(WriteProperty(s.heap + [obj], tool, "Name", Scalar(Str, "String", n)), coll, tool),
                 tools := Put(s.tools, n, tool));
    InstallOutcome(env, s, coll, t, parentName, n, obj);
    NamedInstance(s.heap, coll, obj, n);
    FindAfterPut(s.tools, n, tool, query);
    assert Snapshot(Saving(s2)) == Snapshot(s2);
    match env.save(Snapshot(s2)) {
      case Some(m) => ErrorMarkerExcludes("Error: ", m, "Success");
      case None => CreatedReport(n, t.name, parentName);
    }
  }

  /**
   * Without a name (none, or empty) the instance keeps the name it was constructed
   * with: its properties are exactly the constructed ones, and a null default name
   * is refused by the cache, so nothing is registered or saved.
   */
  lemma InstallKeepsDefaultName(env: Env, s: Session, coll: Value, t: TypeInfo, parentName: string, newName: Option<string>, obj: Obj)
    requires env.construct(t) == Constructed(obj) && IsToolShape(obj.shape)
    requires newName.None? || newName.value == ""
    ensures var o := Install(env, s, coll, t, parentName, newName);
      |o.session.heap| == |s.heap| + 1 && o.session.heap[|s.heap|].props == obj.props &&
      (Member(obj, "Name") == Null ==>
        o.reply == Said("Error: " + NullKeyMessage) && o.session.tools == s.tools && o.session.saves == s.saves)
  {
    var h1 := s.heap + [obj];
    AddItemKeepsProps(h1, coll, Ref(|s.heap|), |s.heap|);
  }

  /** Adding to a collection changes only that collection's items. */
  lemma AddItemKeepsProps(h: Heap, coll: Value, item: Value, a: Addr)
    requires a < |h|
    ensures AddItem(h, coll, item)[a].props == h[a].props
  {
  }

  // ---------------------------------------------------------------------------
  // Scripts: what the handlers promise
  // ---------------------------------------------------------------------------

  /** Writing a script's Source does not move the script: the host still finds the same one. */
  lemma ScriptSupportAfterSourceWrite(h: Heap, host: Option<Value>, target: Value, x: Value)
    ensures GetScriptSupport(WriteProperty(h, target, "Source", x), host) == GetScriptSupport(h, host)
  {
    if host.Some? {
      var h' := WriteProperty(h, target, "Source", x);
      var v := host.value;
      OtherMembersAfterWrite(h, target, "Source", x, v, "Script");
      OtherMembersAfterWrite(h, target, "Source", x, v, "VisionTool");
      OtherMembersAfterWrite(h, target, "Source", x, v, "JobScript");
      if ObjectAt(h, v).Some? && h[v.addr].shape.Job? {
        var o, o' := h[v.addr], h'[v.addr];
        OtherMembersAfterWrite(h, target, "Source", x, Member(o, "VisionTool"), "Script");
        assert JobScript(h', o') == JobScript(h, o) by {
          OtherMembersAfterWrite(h, target, "Source", x, Member(o, "JobScript"), "Script");
        }
      }
    }
  }

  /**
   * Inject then extract: once a script is found and has a Source property,
   * injecting non-blank code succeeds and extracting from the same host gives
   * exactly that code back. Without a script nothing changes.
   */
  lemma InjectThenExtract(h: Heap, host: Option<Value>, code: string)
    ensures var w := TrySetScriptCode(h, host, code);
      var sv := GetScriptSupport(h, host);
      (sv == Null ==> w == ScriptWrite(h, false, "No CogScriptSupport found on this host.")) &&
      (sv != Null && ObjectAt(h, sv).Some? && HasProperty(h[sv.addr].props, "Source") && !IsNullOrWhiteSpace(Some(code)) ==>
        w.ok && TryGetScriptCode(w.heap, host) == Some(code))
  {
    var sv := GetScriptSupport(h, host);
    var x := Scalar(Str, "String", code);
    if sv != Null && ObjectAt(h, sv).Some? && HasProperty(h[sv.addr].props, "Source") {
      var h' := WriteProperty(h, sv, "Source", x);
      ScriptSupportAfterSourceWrite(h, host, sv, x);
      WriteKeepsOthers(h, sv, "Source", x, sv.addr);
      MemberAfterWrite(h[sv.addr].props, "Source", x, "Source");
      assert SourceOf(h', sv) == Some(code);
    }
  }

  /**
   * Extraction after an injection through the tool calls, whatever other arguments
   * the calls carry: the code read back is the code written.
   */
  lemma InjectCallThenExtractCall(env: Env, s: Session, name: string, code: string, inject: map<string, string>, extract: map<string, string>)
    requires var host := Find(s.tools, Some(name));
      var sv := GetScriptSupport(s.heap, host);
      host.Some? && ObjectAt(s.heap, sv).Some? && HasProperty(s.heap[sv.addr].props, "Source")
    requires !IsNullOrWhiteSpace(Some(code))
    requires "tool_name" in inject && inject["tool_name"] == name && "code" in inject && inject["code"] == code
    requires "tool_name" in extract && extract["tool_name"] == name
    ensures var inj := Dispatch(env, s, Call(Some("vpp_inject_script"), inject));
      var ext := Dispatch(env, inj.session, Call(Some("vpp_extract_script"), extract));
      inj.session.tools == s.tools && ext.text == code && !ext.isError
  {
    var host := Find(s.tools, Some(name));
    InjectThenExtract(s.heap, host, code);
    var c := Call(Some("vpp_inject_script"), inject);
    DispatchInject(env, s, c);
    InjectWrites(env, s, name, code, c);
    ExtractCallReads(env, Dispatch(env, s, Call(Some("vpp_inject_script"), inject)).session, name, extract);
  }

  /** The dispatcher hands an injection call to the injection handler. */
  lemma DispatchInject(env: Env, s: Session, c: Call)
    requires c.name == Some("vpp_inject_script")
    ensures Dispatch(env, s, c) == Inject(env, s, c)
  {
  }

  /** An injection on a found host whose write succeeds puts the written graph in the session and keeps the cache. */
  lemma InjectWrites(env: Env, s: Session, name: string, code: string, c: Call)
    requires Arg(c, "tool_name") == Some(name) && Arg(c, "code") == Some(code)
    requires Find(s.tools, Some(name)).Some? && TrySetScriptCode(s.heap, Find(s.tools, Some(name)), code).ok
    ensures var inj := Inject(env, s, c);
      inj.session.heap == TrySetScriptCode(s.heap, Find(s.tools, Some(name)), code).heap && inj.session.tools == s.tools
  {
  }

  /** An extraction call reads the script of the tool the cache finds under the name, changing nothing. */
  lemma ExtractCallReads(env: Env, s: Session, name: string, extract: map<string, string>)
    requires "tool_name" in extract && extract["tool_name"] == name
    ensures Dispatch(env, s, Call(Some("vpp_extract_script"), extract)) ==
      ToolOutput(s, TryGetScriptCode(s.heap, Find(s.tools, Some(name))).GetOr("No script."), false)
  {
  }

  // ---------------------------------------------------------------------------
  // Dispatch and the request loop: what they promise
  // ---------------------------------------------------------------------------

  /** A tool name the server lists in tools/list. */
  predicate Advertised(name: string) {
    exists i :: 0 <= i < |McpTools| && McpTools[i].name == name
  }

  /** The dispatcher handles exactly the advertised tools; any other name is answered "Unknown tool." as an error, changing nothing. */
  lemma DispatchHandlesAdvertised(env: Env, s: Session, c: Call)
    ensures Route(c.name) != UnknownTool <==> c.name.Some? && Advertised(c.name.value)
    ensures Route(c.name) == UnknownTool ==> Dispatch(env, s, c) == ToolOutput(s, "Unknown tool.", true)
  {
    RoutesAdvertised(c.name);
  }

  /** The names the switch routes are exactly the advertised ones. */
  lemma RoutesAdvertised(name: Option<string>)
    ensures Route(name) != UnknownTool <==> name.Some? && Advertised(name.value)
  {
    if name.Some? {
      var n := name.value;
      if Advertised(n) {
        var i :| 0 <= i < |McpTools| && McpTools[i].name == n;
        assert i == 0 || i == 1 || i == 2 || i == 3 || i == 4 || i == 5 || i == 6;
      } else {
        assert McpTools[0].name != n && McpTools[1].name != n && McpTools[2].name != n && McpTools[3].name != n;
        assert McpTools[4].name != n && McpTools[5].name != n && McpTools[6].name != n;
      }
    }
  }

  /**
   * One input line: blank, unparsable and null lines are skipped without any
   * effect; a request without an id is performed but answered by nothing; a
   * request with an id is answered once under that id, with an internal error
   * when the method threw and a null result for a method the server does not know.
   */
  lemma StepAnswers(env: Env, s: Session, line: string)
    ensures var t := Step(env, s, line);
      |t.written| <= 1 &&
      (IsNullOrWhiteSpace(Some(line)) || !env.parse(line).Parsed? ==> t == Turn(s, [])) &&
      (!IsNullOrWhiteSpace(Some(line)) && env.parse(line).Parsed? ==>
        var r := env.parse(line).request;
        var a := Perform(env, s, r);
        t.session == a.session &&
        (r.id.None? ==> t.written == []) &&
        (r.id.Some? ==> t.written == [Respond(r.id.value, a.answer)]) &&
        (r.id.Some? && a.answer.Threw? ==> t.written == [ErrorResponse(r.id.value, InternalError, a.answer.message)]))
  {
  }

  /** A method other than the four the server knows changes nothing and returns a null result. */
  lemma UnknownMethodIsNull(env: Env, s: Session, r: Request)
    requires r.rpcMethod !in {Some("initialize"), Some("tools/list"), Some("tools/call"), Some("ping")}
    ensures Perform(env, s, r) == Answered(s, Returned(NullResult))
  {
  }

  /**
   * Only tools/call whose params are not a JSON object throws; the session is
   * then unchanged, and the message is the null-reference one when params are
   * missing and the indexer's own message otherwise.
   */
  lemma OnlyNonObjectParamsThrow(env: Env, s: Session, r: Request)
    ensures Perform(env, s, r).answer.Threw? <==> r.rpcMethod == Some("tools/call") && !r.callParams.Object?
    ensures Perform(env, s, r).answer.Threw? ==>
      Perform(env, s, r) == Answered(s, Threw(if r.callParams.Absent? then NullReferenceMessage else r.callParams.message))
  {
  }

  /** The loop over a + b is the loop over a followed by the loop over b from where it left off. */
  lemma {:induction false} RunAppend(env: Env, s: Session, a: seq<string>, b: seq<string>)
    ensures var ta := Run(env, s, a);
      var tb := Run(env, ta.session, b);
      Run(env, s, a + b) == Turn(tb.session, ta.written + tb.written)
    decreases |b|
  {
    var ta := Run(env, s, a);
    if b == [] {
      assert a + b == a;
    } else {
      var b' := b[..|b| - 1];
      RunAppend(env, s, a, b');
      assert (a + b)[..|a + b| - 1] == a + b';
      assert (a + b)[|a + b| - 1] == b[|b| - 1];
      var tb' := Run(env, ta.session, b');
      var last := Step(env, tb'.session, b[|b| - 1]);
      AppendAssoc(ta.written, tb'.written, last.written);
    }
  }

  /** The loop writes at most one response per line read. */
  lemma {:induction false} RunWritesAtMostOnePerLine(env: Env, s: Session, lines: seq<string>)
    ensures |Run(env, s, lines).written| <= |lines|
    decreases |lines|
  {
    if lines != [] {
      RunWritesAtMostOnePerLine(env, s, lines[..|lines| - 1]);
      StepAnswers(env, Run(env, s, lines[..|lines| - 1]).session, lines[|lines| - 1]);
    }
  }

  /** Skipped lines leave no trace: appending a blank line changes neither the state nor the output. */
  lemma BlankLineIsSkipped(env: Env, s: Session, lines: seq<string>, blank: string)
    requires IsNullOrWhiteSpace(Some(blank))
    ensures Run(env, s, lines + [blank]) == Run(env, s, lines)
  {
    assert (lines + [blank])[..|lines|] == lines;
    assert Run(env, s, lines).written + [] == Run(env, s, lines).written;
  }
}
