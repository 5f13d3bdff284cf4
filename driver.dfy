/**
 * The driver as the program keeps it: the loaded graph, its root and path
 * (vppObject, vppPath) are static fields that the handlers reassign, and the
 * tool cache is a dictionary that is cleared, filled and overwritten in place.
 * Every handler is proved to leave the driver in the state, and give the reply,
 * that the corresponding function of Engine describes.
 */
module Driver {
  import opened Common
  import opened Text
  import opened ObjectGraph
  import opened PathResolver
  import opened TypeResolver
  import opened ToolRegistry
  import opened Inspector
  import opened Engine

  class VppDriver {
    var heap: Heap
    var root: Value
    var path: Option<string>
    /** Every graph handed to the serializer's save, in order. */
    var saves: seq<Saved>
    const cache: ToolCache
    const env: Env

    ghost predicate Valid()
      reads this, cache
    {
      cache.Valid()
    }

    /** The driver's state as a session value. */
    ghost function State(): Session
      reads this, cache
      requires Valid()
    {
      Session(heap, root, path, cache.Contents(), saves)
    }

    /** Nothing is loaded and the cache is empty. */
    constructor (env: Env)
      ensures Valid() && State() == Start && this.env == env
    {
      heap := [];
      root := Null;
      path := None;
      saves := [];
      cache := new ToolCache();
      this.env := env;
    }

    /** CogSerializer.SaveObjectToFile(vppObject, vppPath): the message when it throws. */
    method Save() returns (error: Option<string>)
      requires Valid()
      modifies this
      ensures Valid() && State() == Saving(old(State()))
      ensures error == env.save(Snapshot(old(State())))
    {
      error := env.save(Saved(heap, root, path));
      saves := saves + [Saved(heap, root, path)];
    }

    // -------------------------------------------------------------------------
    // Loading
    // -------------------------------------------------------------------------

    method LoadVppFile(file: Option<string>) returns (text: string)
      requires Valid()
      modifies this, cache
      ensures Valid() && Outcome(State(), Said(text)) == Engine.LoadVppFile(env, old(State()), file)
    {
      match env.load(file) {
        case LoadFault(m) =>
          return "Error: " + m;
        case Loaded(h, r) =>
          heap, root, path := h, r, file;
          cache.Clear();
          var failed := cache.Traverse(h, r, |h| + 1);
          if failed {
            return "Error: " + NullKeyMessage;
          }
          return "Loaded " + FileNameOf(env, file) + ". " + ShowInt(Count(cache.Contents())) + " tools found.";
      }
    }

    // -------------------------------------------------------------------------
    // Get and set
    // -------------------------------------------------------------------------

    method HandleGetSetRequest(mode: Mode, toolName: Option<string>, p: Option<string>) returns (reply: Reply)
      requires Valid()
      modifies this
      ensures Valid() && Outcome(State(), reply) == Engine.HandleGetSetRequest(env, old(State()), mode, toolName, p)
    {
      var tool := Find(cache.Contents(), toolName);
      if tool.None? {
        return Said("Error: Tool '" + OrEmpty(toolName) + "' not found.");
      }
      var resolution := TryResolveProperty(heap, tool.value, EffectivePath(p));
      match resolution {
        case NotFound =>
          return Said("Error: Path '" + OrEmpty(p) + "' not found on target tool.");
        case Fault(m) =>
          return Raised(m);
        case Resolved(target, handle) =>
          match mode {
            case GetMode =>
              reply := Get(target, handle);
            case SetMode(val) =>
              if handle.None? || !handle.value.writable {
                return Said("Error: Property '" + OrEmpty(p) + "' is read-only or invalid.");
              }
              reply := SetValue(OrEmpty(toolName), OrEmpty(p), target, handle.value, val);
          }
      }
    }

    method Get(target: Value, handle: Option<Prop>) returns (reply: Reply)
      ensures reply == GetValue(heap, target, handle)
    {
      var result := target;
      if handle.Some? {
        match handle.value.read {
          case Throws(m) => return Raised(m);
          case Got(v) => result := v;
        }
      }
      var text := RenderValue(heap, result);
      return Said(text);
    }

    method SetValue(toolName: string, p: string, target: Value, prop: Prop, val: Option<string>) returns (reply: Reply)
      requires Valid()
      modifies this
      ensures Valid() && Outcome(State(), reply) == Engine.SetValue(env, old(State()), toolName, p, target, prop, val)
    {
      if val.Some? && StartsWith(val.value, "@") {
        reply := Link(toolName, p, target, prop, val.value[1..]);
        return;
      }
      match Literal(env, prop, val) {
        case ConvertFault(m) =>
          return Said(SetErrorPrefix + m);
        case Converted(v) =>
          reply := Commit(target, prop, v, "Success: Set '" + p + "' to '" + Display(heap, v) + "'");
      }
    }

    method Link(toolName: string, p: string, target: Value, prop: Prop, source: string) returns (reply: Reply)
      requires Valid()
      modifies this
      ensures Valid() && Outcome(State(), reply) == Engine.Link(env, old(State()), toolName, p, target, prop, source)
    {
      var (srcTool, srcPath) := SplitOnce(source, '.');
      var node := Find(cache.Contents(), Some(srcTool));
      if node.None? {
        return Said("Error: Source tool '" + srcTool + "' not found for linking.");
      }
      var resolution := TryResolveProperty(heap, node.value, Some(srcPath));
      match resolution {
        case NotFound =>
          return Said("Error: Source property '" + srcPath + "' not found on '" + srcTool + "'.");
        case Fault(m) =>
          return Said(SetErrorPrefix + m);
        case Resolved(o, handle) =>
          match LinkedValue(o, handle) {
            case Throws(m) =>
              return Said(SetErrorPrefix + m);
            case Got(v) =>
              reply := Commit(target, prop, v, "Success: Linked '" + toolName + "." + p + "' to '" + source + "'");
          }
      }
    }

    /** prop.SetValue and then a save. */
    method Commit(target: Value, prop: Prop, v: Value, success: string) returns (reply: Reply)
      requires Valid()
      modifies this
      ensures Valid() && Outcome(State(), reply) == Engine.Commit(env, old(State()), target, prop, v, success)
    {
      var refused := env.accept(prop, v);
      if refused.Some? {
        return Said(SetErrorPrefix + refused.value);
      }
      heap := WriteProperty(heap, target, prop.name, v);
      var error := Save();
      if error.Some? {
        return Said(SetErrorPrefix + error.value);
      }
      return Said(success);
    }

    // -------------------------------------------------------------------------
    // Creating tools
    // -------------------------------------------------------------------------

    method CreateTool(parentName: Option<string>, typeName: Option<string>, newName: Option<string>) returns (reply: Reply)
      requires Valid()
      modifies this, cache
      ensures Valid() && Outcome(State(), reply) == Engine.CreateTool(env, old(State()), parentName, typeName, newName)
    {
      ghost var s0 := State();
      var coll := SelectTarget(Find(cache.Contents(), parentName));
      ghost var s1 := s0.(heap := heap);
      assert State() == s1;
      assert Engine.CreateTool(env, s0, parentName, typeName, newName) ==
        if coll == Null then Outcome(s1, Said("Error: Parent is not a valid container (Block, Group, or Job)."))
        else Engine.ResolveAndInstall(env, s1, coll, parentName, typeName, newName);
      if coll == Null {
        return Said("Error: Parent is not a valid container (Block, Group, or Job).");
      }
      reply := ResolveAndInstall(coll, parentName, typeName, newName);
    }

    method ResolveAndInstall(coll: Value, parentName: Option<string>, typeName: Option<string>, newName: Option<string>) returns (reply: Reply)
      requires Valid()
      modifies this, cache
      ensures Valid() && Outcome(State(), reply) == Engine.ResolveAndInstall(env, old(State()), coll, parentName, typeName, newName)
    {
      var lookup := ResolveVisionProType(env.universe, typeName);
      match lookup {
        case TypeFault(m) =>
          return Raised(m);
        case TypeMissing(_) =>
          return Said("Error: Could not resolve type '" + OrEmpty(typeName) + "'.");
        case TypeFound(t) =>
          reply := Install(coll, t, OrEmpty(parentName), newName);
      }
    }

    /** The container a new tool goes into; a job without a vision tool is first given a new group. */
    method SelectTarget(parent: Option<Value>) returns (coll: Value)
      modifies this
      ensures (heap, coll) == SelectContainer(old(heap), parent)
      ensures root == old(root) && path == old(path) && saves == old(saves)
    {
      if parent.None? || ObjectAt(heap, parent.value).None? {
        return Null;
      }
      var v := parent.value;
      var o := heap[v.addr];
      match o.shape {
        case ToolBlock => return Member(o, "Tools");
        case ToolGroup => return Member(o, "Tools");
        case Job =>
          if Member(o, "VisionTool") == Null {
            heap := WithNewGroup(heap, v);
          }
          var vt := Member(heap[v.addr], "VisionTool");
          match ObjectAt(heap, vt) {
            case Some(g) =>
              return if g.shape.ToolGroup? then Member(g, "Tools") else Null;
            case None =>
              return Null;
          }
        case _ => return Null;
      }
    }

    /** Instantiate, name, add to the container, register under the tool's name, save. */
    method Install(coll: Value, t: TypeInfo, parentName: string, newName: Option<string>) returns (reply: Reply)
      requires Valid()
      modifies this, cache
      ensures Valid() && Outcome(State(), reply) == Engine.Install(env, old(State()), coll, t, parentName, newName)
    {
      match env.construct(t) {
        case ConstructFault(m) =>
          return Said("Error: " + m);
        case Constructed(o) =>
          if !IsToolShape(o.shape) {
            return Said("Error: " + CastMessage(t));
          }
          var tool := Ref(|heap|);
          heap := heap + [o];
          if newName.Some? && newName.value != "" {
            heap := WriteProperty(heap, tool, "Name", Scalar(Str, "String", newName.value));
          }
          heap := AddItem(heap, coll, tool);
          var nameValue := Member(heap[tool.addr], "Name");
          if nameValue == Null {
            return Said("Error: " + NullKeyMessage);
          }
          var name := Display(heap, nameValue);
          cache.Store(name, tool);
          var error := Save();
          if error.Some? {
            return Said("Error: " + error.value);
          }
          return Said("Success: Created '" + name + "' (" + t.name + ") in '" + parentName + "'.");
      }
    }

    // -------------------------------------------------------------------------
    // Scripts
    // -------------------------------------------------------------------------

    /** TrySetScriptCode: assigns the found script's Source. */
    method TrySetScriptCode(host: Option<Value>, code: string) returns (ok: bool, message: string)
      modifies this
      ensures ScriptWrite(heap, ok, message) == Engine.TrySetScriptCode(old(heap), host, code)
      ensures root == old(root) && path == old(path) && saves == old(saves)
    {
      var script := GetScriptSupport(heap, host);
      if script == Null {
        return false, "No CogScriptSupport found on this host.";
      }
      heap := WriteProperty(heap, script, "Source", Scalar(Str, "String", code));
      return true, "Injected into Script.Source and compiled.";
    }

    // -------------------------------------------------------------------------
    // Tool calls and the request loop
    // -------------------------------------------------------------------------

    /** The vpp_inject_script case. */
    method Inject(c: Call) returns (text: string, isError: bool)
      requires Valid()
      modifies this
      ensures Valid() && ToolOutput(State(), text, isError) == Engine.Inject(env, old(State()), c)
    {
      var host := Find(cache.Contents(), Arg(c, "tool_name"));
      if host.None? {
        return "Error: Tool '" + OrEmpty(Arg(c, "tool_name")) + "' not found.", true;
      }
      var ok, message := TrySetScriptCode(host, Arg(c, "code").GetOr(""));
      if !ok {
        return "Failed. " + message, true;
      }
      var error := Save();
      if error.Some? {
        return error.value, true;
      }
      return "Success & Saved. " + message, false;
    }

    /** The switch inside HandleToolCall's try block. */
    method Dispatch(c: Call) returns (text: string, isError: bool)
      requires Valid()
      modifies this, cache
      ensures Valid() && ToolOutput(State(), text, isError) == Engine.Dispatch(env, old(State()), c)
    {
      var reply: Reply;
      match Route(c.name) {
        case LoadFile =>
          text := LoadVppFile(Arg(c, "file_path"));
          return text, false;
        case ListAll =>
          return ListTools(Session(heap, root, path, cache.Contents(), saves)), false;
        case GetProperty =>
          reply := HandleGetSetRequest(GetMode, Arg(c, "tool_name"), Arg(c, "path"));
        case SetProperty =>
          reply := HandleGetSetRequest(SetMode(Arg(c, "value")), Arg(c, "tool_name"), Arg(c, "path"));
        case ExtractScript =>
          return TryGetScriptCode(heap, Find(cache.Contents(), Arg(c, "tool_name"))).GetOr("No script."), false;
        case InjectScript =>
          text, isError := Inject(c);
          return;
        case NewTool =>
          reply := CreateTool(Arg(c, "parent_name"), Arg(c, "tool_type"), Arg(c, "new_tool_name"));
        case UnknownTool =>
          return "Unknown tool.", true;
      }
      match reply {
        case Said(t) => return t, false;
        case Raised(m) => return m, true;
      }
    }

    method HandleToolCall(callParams: Params) returns (answer: Answer)
      requires Valid()
      modifies this, cache
      ensures Valid() && Answered(State(), answer) == Engine.HandleToolCall(env, old(State()), callParams)
    {
      match callParams
      case Absent => return Threw(NullReferenceMessage);
      case NotAnObject(m) => return Threw(m);
      case Object(c) =>
        var text, isError := Dispatch(c);
        return Returned(CallResult(text, isError));
    }

    /** One pass of the loop body for a line that was read. */
    method HandleLine(line: string) returns (written: seq<Response>)
      requires Valid()
      modifies this, cache
      ensures Valid() && Turn(State(), written) == Engine.Step(env, old(State()), line)
    {
      if IsNullOrWhiteSpace(Some(line)) {
        return [];
      }
      var parsed := env.parse(line);
      if !parsed.Parsed? {
        return [];
      }
      var r := parsed.request;
      var answer: Answer;
      if r.rpcMethod == Some("initialize") {
        answer := Returned(InitializeResult("2024-11-05", true, "visionpro-vpp-driver", "9.5.0"));
      } else if r.rpcMethod == Some("tools/list") {
        answer := Returned(ToolsResult(McpTools));
      } else if r.rpcMethod == Some("tools/call") {
        answer := HandleToolCall(r.callParams);
      } else if r.rpcMethod == Some("ping") {
        answer := Returned(EmptyResult);
      } else {
        answer := Returned(NullResult);
      }
      if r.id.None? {
        return [];
      }
      return [Respond(r.id.value, answer)];
    }

    /** RunMcpLoop: the lines read before the end of input, in order; what is written, in order. */
    method RunMcpLoop(lines: seq<string>) returns (written: seq<Response>)
      requires Valid()
      modifies this, cache
      ensures Valid() && Turn(State(), written) == Run(env, old(State()), lines)
    {
      written := [];
      var i := 0;
      while i < |lines|
        invariant 0 <= i <= |lines|
        invariant Valid() && Turn(State(), written) == Run(env, old(State()), lines[..i])
      {
        var out := HandleLine(lines[i]);
        assert lines[..i + 1][..i] == lines[..i];
        written := written + out;
        i := i + 1;
      }
      assert lines[..|lines|] == lines;
    }

    /**
     * Main after the console set-up: the file named by the first argument is
     * loaded when it exists, and then the loop runs over the input lines.
     */
    method Launch(args: seq<string>, fileExists: string -> bool, lines: seq<string>) returns (written: seq<Response>)
      requires Valid() && State() == Start
      modifies this, cache
      ensures Valid() && Turn(State(), written) == Run(env, Preload(env, args, fileExists), lines)
    {
      if |args| > 0 && fileExists(args[0]) {
        var _ := LoadVppFile(Some(args[0]));
      }
      written := RunMcpLoop(lines);
    }
  }
}
