/** A model of the tool registry of ChemMCP and of the step that selects
    registered tools and installs a wrapper for each one into the host MCP
    server's tool table.

    The registry is a process-wide table from a tool's `name` to its tool
    class. At start-up a selection of names (all of them, or a requested
    list) is validated in full, and then, one tool at a time, a wrapper is
    built and handed to the host unless the host already holds a tool under
    the wrapper's `func_name`. */
module McpApp {

  datatype Option<+T> = None | Some(value: T)

  /** A tool class as the registry sees it: its registry key `name`, the
      name `func_name` it is exposed under, the parameter names of its entry
      point `_run_base` (the first one is the instance itself), the
      documentation `get_doc(interface='code')` renders, and the marker
      `_registered_mcp_tool` that registration sets. */
  datatype ToolClass = ToolClass(
    name: string,
    funcName: string,
    runBaseParams: seq<string>,
    codeDoc: string,
    registeredMcpTool: bool)

  /** The two entry points of a tool instance a wrapper could call. */
  datatype EntryPoint = RunCode | RunBase

  /** The callable built for one tool: the name and signature the host sees,
      its documentation, the tool class it holds an instance of, and the
      entry point of that instance it forwards its arguments to. */
  datatype Wrapper = Wrapper(
    name: string,
    params: seq<string>,
    doc: string,
    instanceOf: ToolClass,
    forwardsTo: EntryPoint)

  /** An entry of the host's tool table: the registered function and whether
      error catching was applied to it before registration. Entries that
      were in the table before the tools are initialised are arbitrary. */
  datatype HostTool = HostTool(fn: Wrapper, catchesErrors: bool)

  /** What initialising the tools ends with: the number of selected tools,
      or the `ValueError` naming a requested tool that is not registered. */
  datatype InitOutcome = Initialized(numTools: nat) | ValueError(toolName: string)

  /** The set of elements of a list, as Python's `set(...)` builds it. */
  function SetOf(s: seq<string>): set<string>
  {
    set x | x in s
  }

  /** No element of `s` occurs twice. */
  predicate Distinct(s: seq<string>)
  {
    forall i, j :: 0 <= i < j < |s| ==> s[i] != s[j]
  }

  /** Collapsing a list into a set never yields more names than the list
      has, and yields exactly as many when no name is repeated. */
  lemma {:induction false} SetOfSize(s: seq<string>)
    ensures |SetOf(s)| <= |s|
    ensures |SetOf(s)| == |s| <==> Distinct(s)
  {
    if s == [] {
    } else {
      var t := s[1..];
      SetOfSize(t);
      assert SetOf(s) == {s[0]} + SetOf(t);
      if s[0] in t {
        assert SetOf(s) == SetOf(t);
        var j :| 0 <= j < |t| && t[j] == s[0];
        assert s[0] == s[j + 1];
        assert !Distinct(s);
      } else {
        assert |SetOf(s)| == |SetOf(t)| + 1;
        if Distinct(t) {
          forall i, j | 0 <= i < j < |s| ensures s[i] != s[j] {
            if i > 0 {
              assert s[i] == t[i - 1] && s[j] == t[j - 1];
            } else {
              assert s[j] == t[j - 1];
            }
          }
        } else {
          var i, j :| 0 <= i < j < |t| && t[i] == t[j];
          assert s[i + 1] == s[j + 1];
        }
      }
    }
  }

  /** The parameters the host sees: those of the entry point with the
      leading instance parameter removed. Like Python's `[1:]`, an empty
      parameter list stays empty rather than failing. */
  function ExposedParams(runBaseParams: seq<string>): (r: seq<string>)
    ensures runBaseParams == [] ==> r == []
    ensures runBaseParams != [] ==> [runBaseParams[0]] + r == runBaseParams
  {
    if runBaseParams == [] then [] else runBaseParams[1..]
  }

  /** The wrapper built for a tool class: exposed under the class's
      `func_name` with its documentation and its exposed parameters, and
      forwarding every call to `run_code` of an instance of the class
      (not to `_run_base`, whose signature it only borrows). */
  function MakeWrapper(cls: ToolClass): (w: Wrapper)
    ensures w.name == cls.funcName && w.doc == cls.codeDoc
    ensures |w.params| == if cls.runBaseParams == [] then 0 else |cls.runBaseParams| - 1
    ensures forall i :: 0 <= i < |w.params| ==> w.params[i] == cls.runBaseParams[i + 1]
    ensures w.instanceOf == cls && w.forwardsTo == RunCode
  {
    Wrapper(cls.funcName, ExposedParams(cls.runBaseParams), cls.codeDoc, cls, RunCode)
  }

  /** The host entry that installing the wrapper of `cls` creates. */
  function Installed(cls: ToolClass): HostTool
  {
    HostTool(MakeWrapper(cls), true)
  }

  /** The names a call selects: every registered name when no list is
      given, otherwise the distinct names of the requested list. */
  function Selection(registered: set<string>, requested: Option<seq<string>>): set<string>
  {
    match requested
    case None => registered
    case Some(names) => SetOf(names)
  }

  /** `after` is a host table that installing the tools `selected` of
      registry `reg` into `before` can leave:
      - every entry of `before` is kept as it was;
      - the `func_name` of every selected tool is a key afterwards;
      - every new key is the `func_name` of some selected tool and holds that
        tool's installed wrapper (when several selected tools share a
        `func_name`, one of them wins). */
  ghost predicate InstallsInto(
    before: map<string, HostTool>, after: map<string, HostTool>,
    reg: map<string, ToolClass>, selected: set<string>)
  {
    && selected <= reg.Keys
    && (forall k :: k in before ==> k in after && after[k] == before[k])
    && (forall n :: n in selected ==> reg[n].funcName in after)
    && (forall k :: k in after && k !in before ==>
          exists n :: n in selected && reg[n].funcName == k && after[k] == Installed(reg[n]))
  }

  /** Installing one selected set and then another installs their union. */
  lemma InstallsIntoCompose(
    t0: map<string, HostTool>, t1: map<string, HostTool>, t2: map<string, HostTool>,
    reg: map<string, ToolClass>, s1: set<string>, s2: set<string>)
    requires InstallsInto(t0, t1, reg, s1)
    requires InstallsInto(t1, t2, reg, s2)
    ensures InstallsInto(t0, t2, reg, s1 + s2)
  {
  }

  /** Installing the same selection a second time leaves the host table as
      it is: no entry is duplicated or replaced. */
  lemma InstallsIntoIdempotent(
    t0: map<string, HostTool>, t1: map<string, HostTool>, t2: map<string, HostTool>,
    reg: map<string, ToolClass>, selected: set<string>)
    requires InstallsInto(t0, t1, reg, selected)
    requires InstallsInto(t1, t2, reg, selected)
    ensures t2 == t1
  {
  }

  /** No two selected tools share a `func_name`. */
  ghost predicate FuncNamesDistinct(reg: map<string, ToolClass>, selected: set<string>)
    requires selected <= reg.Keys
  {
    forall n, m :: n in selected && m in selected && n != m ==> reg[n].funcName != reg[m].funcName
  }

  /** The `func_name`s of the selected tools. */
  ghost function FuncNames(reg: map<string, ToolClass>, selected: set<string>): set<string>
    requires selected <= reg.Keys
  {
    set n | n in selected :: reg[n].funcName
  }

  /** The selected tool exposed under `k`, when only one can be. */
  ghost function ToolFor(reg: map<string, ToolClass>, selected: set<string>, k: string): (n: string)
    requires selected <= reg.Keys && k in FuncNames(reg, selected)
    ensures n in selected && reg[n].funcName == k
  {
    var n :| n in selected && reg[n].funcName == k; n
  }

  /** A reference host table: `before`, plus the installed wrapper of the
      one selected tool exposed under each `func_name` that `before` lacks. */
  ghost function Expected(
    before: map<string, HostTool>, reg: map<string, ToolClass>, selected: set<string>): map<string, HostTool>
    requires selected <= reg.Keys
  {
    (map k | k in FuncNames(reg, selected) && k !in before :: Installed(reg[ToolFor(reg, selected, k)]))
      + before
  }

  /** When no two selected tools share a `func_name`, the order in which the
      selection is walked does not matter: the resulting host table is the
      reference table. */
  lemma InstallsIntoDeterministic(
    before: map<string, HostTool>, after: map<string, HostTool>,
    reg: map<string, ToolClass>, selected: set<string>)
    requires InstallsInto(before, after, reg, selected)
    requires FuncNamesDistinct(reg, selected)
    ensures after == Expected(before, reg, selected)
  {
  }

  /** One iteration of the installation loop: adding the wrapper of the
      registered tool `name` unless its `func_name` is already a key installs
      `{name}`. */
  lemma InstallStep(
    current: map<string, HostTool>, next: map<string, HostTool>,
    reg: map<string, ToolClass>, name: string)
    requires name in reg
    requires next == if reg[name].funcName in current then current
                     else current[reg[name].funcName := Installed(reg[name])]
    ensures InstallsInto(current, next, reg, {name})
  {
  }

  /** Looks for a name of `requested` that is not in `registered`, walking
      `requested` in no particular order, as the validation loop does. */
  method FindUnregistered(requested: set<string>, registered: set<string>) returns (missing: Option<string>)
    ensures missing.None? <==> requested <= registered
    ensures missing.Some? ==> missing.value in requested && missing.value !in registered
  {
    var rest := requested;
    while rest != {}
      invariant rest <= requested
      invariant requested - rest <= registered
      decreases rest
    {
      var name :| name in rest;
      if name !in registered {
        return Some(name);
      }
      rest := rest - {name};
    }
    return None;
  }

  /** The host MCP server, reduced to its tool table keyed by tool name. */
  class Host {
    var tools: map<string, HostTool>

    constructor (initial: map<string, HostTool>)
      ensures tools == initial
    {
      tools := initial;
    }

    /** Registers `w` as a tool under its name, after error catching has
        been applied to it (the patched `tool` decorator). It is only called
        when no tool of that name is in the table, so the overwrite stated
        here is never reached and says nothing about how the host treats a
        duplicate name. */
    method Tool(w: Wrapper)
      modifies this
      ensures tools == old(tools)[w.name := HostTool(w, true)]
    {
      tools := tools[w.name := HostTool(w, true)];
    }
  }

  /** The tool registry: the table from each registered tool's name to its
      class. One object of this class stands for the class-level table. */
  class ChemMcpManager {
    var tools: map<string, ToolClass>

    /** Every entry is stored under its own name and carries the marker. */
    ghost predicate Valid()
      reads this
    {
      forall k :: k in tools ==> tools[k].name == k && tools[k].registeredMcpTool
    }

    constructor ()
      ensures tools == map[] && Valid()
    {
      tools := map[];
    }

    /** Marks `cls` as registered and stores it under its name, silently
        replacing an earlier class of that name; returns the marked class. */
    method RegisterTool(cls: ToolClass) returns (r: ToolClass)
      modifies this
      ensures old(Valid()) ==> Valid()
      ensures r == cls.(registeredMcpTool := true)
      ensures tools == old(tools)[cls.name := r]
      ensures forall k :: k in old(tools) && k != cls.name ==> k in tools && tools[k] == old(tools)[k]
    {
      r := cls.(registeredMcpTool := true);
      tools := tools[cls.name := r];
    }

    /** Lists the registered names, each exactly once. */
    method GetRegisteredTools() returns (names: seq<string>)
      ensures forall n :: n in names <==> n in tools
      ensures Distinct(names) && |names| == |tools|
    {
      names := [];
      var rest := tools.Keys;
      while rest != {}
        invariant rest <= tools.Keys
        invariant forall n :: n in names <==> n in tools && n !in rest
        invariant Distinct(names)
        invariant |names| + |rest| == |tools|
        decreases rest
      {
        var name :| name in rest;
        names := names + [name];
        rest := rest - {name};
      }
    }

    /** Selects the tools (all registered ones, or the distinct names of
        `requested` once every one of them is known to be registered) and
        installs the wrapper of each selected tool into `mcp` unless a tool
        under its `func_name` is already there. */
    method InitMcpTools(mcp: Host, requested: Option<seq<string>>) returns (outcome: InitOutcome)
      modifies mcp
      ensures outcome.ValueError? <==> requested.Some? && !(SetOf(requested.value) <= tools.Keys)
      ensures outcome.ValueError? ==>
        && requested.Some? && outcome.toolName in requested.value && outcome.toolName !in tools
        && mcp.tools == old(mcp.tools)
      ensures outcome.Initialized? ==>
        && outcome.numTools == |Selection(tools.Keys, requested)|
        && InstallsInto(old(mcp.tools), mcp.tools, tools, Selection(tools.Keys, requested))
    {
      var listed := GetRegisteredTools();
      var registered := SetOf(listed);
      assert registered == tools.Keys;
      var selected: set<string>;
      if requested.None? {
        selected := registered;
      } else {
        selected := SetOf(requested.value);
        var missing := FindUnregistered(selected, registered);
        if missing.Some? {
          return ValueError(missing.value);
        }
      }
      assert selected == Selection(tools.Keys, requested) && selected <= tools.Keys;
      InstallTools(mcp, selected);
      return Initialized(|selected|);
    }

    /** Walks the selected tools in no particular order and installs the
        wrapper of each into `mcp` unless the host table, as it stands at
        that moment, already has a key equal to the tool's `func_name`. */
    method InstallTools(mcp: Host, selected: set<string>)
      requires selected <= tools.Keys
      modifies mcp
      ensures InstallsInto(old(mcp.tools), mcp.tools, tools, selected)
    {
      var todo := selected;
      ghost var done: set<string> := {};
      while todo != {}
        invariant done + todo == selected && done !! todo
        invariant InstallsInto(old(mcp.tools), mcp.tools, tools, done)
        decreases todo
      {
        var name :| name in todo;
        var cls := tools[name];
        var wrapper := MakeWrapper(cls);
        ghost var current := mcp.tools;
        if cls.funcName !in mcp.tools {
          mcp.Tool(wrapper);
        }
        InstallStep(current, mcp.tools, tools, name);
        InstallsIntoCompose(old(mcp.tools), current, mcp.tools, tools, done, {name});
        todo := todo - {name};
        done := done + {name};
      }
    }
  }
}
