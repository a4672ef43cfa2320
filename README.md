# ChemMCP tool registry and tool initialisation

This project models the tool registry of ChemMCP's MCP server
(`ChemMCPManager` in `src/chemmcp/utils/mcp_app.py`) and proves properties of
it in Dafny.

- **Registry.** Tool classes register themselves under their `name` in one
  class-level table. Registering marks the class, silently replaces an earlier
  class of the same name, and returns the class. `get_registered_tools` lists
  the registered names.
- **Initialisation.** `init_mcp_tools` selects either every registered name or
  the distinct names of a requested list. A requested list is validated in full
  before anything else happens, and an unknown name raises `ValueError`. Then,
  walking the selection in set order, it builds one wrapper per tool. The
  wrapper is exposed under the tool's `func_name`. Its parameter list is the
  entry point's list minus the leading instance parameter, and it forwards
  calls to the instance's `run_code`. The wrapper is handed to the host
  server's tool decorator, which applies error catching first, but only if the
  host's tool table has no key equal to that `func_name` at that moment.

The model is one module, `McpApp`, in `mcp_app.dfy`:

- The class-level table is the `tools` field of class `ChemMcpManager`.
- The FastMCP server is class `Host`, reduced to its tool table: a
  `map<string, HostTool>` keyed by tool name.
- Tool classes, wrappers and host entries are datatypes.
- Python's set iteration order is modelled as an arbitrary choice (`:|`). The
  outcome of initialisation is therefore stated relationally, by the ghost
  predicate `InstallsInto`. A separate reference table, `Expected`, gives the
  exact outcome when no two selected tools share a `func_name`.

## Model

| member | source | states |
|---|---|---|
| `McpApp.ChemMcpManager.constructor` | src/chemmcp/utils/mcp_app.py:28 | the registry starts empty |
| `McpApp.ChemMcpManager.RegisterTool` | src/chemmcp/utils/mcp_app.py:31-34 | the class is marked as registered, stored under its own name (replacing any earlier entry of that name, every other entry unchanged) and returned; the registry invariant "each entry is keyed by its own name and marked" holds afterwards whenever it held before; registration itself demands nothing of the registry |
| `McpApp.ChemMcpManager.GetRegisteredTools` | src/chemmcp/utils/mcp_app.py:37-38 | the result holds exactly the registry's keys, each once, so its length is the registry's size |
| `McpApp.FindUnregistered` | src/chemmcp/utils/mcp_app.py:48-50 | the validation loop finds nothing exactly when every requested name is registered; otherwise it reports a requested name that is not registered |
| `McpApp.SetOfSize` | src/chemmcp/utils/mcp_app.py:47-52 | collapsing the requested list into a set gives at most as many tools as names were listed, and exactly as many if and only if no name is repeated |
| `McpApp.ChemMcpManager.InitMcpTools` | src/chemmcp/utils/mcp_app.py:41-77 | `ValueError` is raised if and only if a list was given and one of its names is unregistered; it names such a tool and leaves the host table unchanged; on success the tool count is the number of distinct selected names (all registered names when no list is given), and the host table is related to the old one by `InstallsInto` for that selection |
| `McpApp.ChemMcpManager.InstallTools` | src/chemmcp/utils/mcp_app.py:53-75 | after the loop: every old host entry is kept as it was; every selected tool's `func_name` is a key; every new key is the `func_name` of some selected tool and holds that tool's error-caught wrapper, so no unselected tool is added |
| `McpApp.InstallStep` | src/chemmcp/utils/mcp_app.py:73-75 | one iteration, which re-reads the host table and adds the wrapper only when its `func_name` is absent, installs that one tool in the sense of `InstallsInto` |
| `McpApp.InstallsIntoCompose` | src/chemmcp/utils/mcp_app.py:53-75 | installing one selection and then another installs their union |
| `McpApp.InstallsIntoIdempotent` | src/chemmcp/utils/mcp_app.py:73-75 | installing the same selection a second time changes nothing: no duplicate entry, no replaced entry |
| `McpApp.InstallsIntoDeterministic` | src/chemmcp/utils/mcp_app.py:53-75 | when the selected tools have distinct `func_name`s, the result does not depend on the iteration order: it equals the reference table `Expected` (the old table plus each missing `func_name` mapped to its tool's wrapper) |
| `McpApp.ExposedParams` | src/chemmcp/utils/mcp_app.py:58-60 | the exposed parameter list is the entry point's list with exactly its first element removed, and an empty list stays empty instead of failing |
| `McpApp.MakeWrapper` | src/chemmcp/utils/mcp_app.py:62-71 | the wrapper is named by the class's `func_name`, carries its code documentation and the exposed parameters (element `i` is entry-point parameter `i + 1`), holds an instance of the class, and forwards to `run_code`, not `_run_base` |
| `McpApp.Host.Tool` | src/chemmcp/utils/mcp_app.py:17-24 | the patched tool decorator applies error catching, then registers the function in the host's table under its name |

## Left out

- FastMCP itself is not part of this model. Its `tool()` registration, its `_tool_manager._tools` table and the replacement of `mcp_instance.tool` by `tool_with_catch` are reduced to `Host.Tool`. That member stores the wrapper under its name and records that error catching was applied.
- `McpApp.Host.Tool`: states only that error catching was applied, as a flag. What `catch_errors` does is not part of this model.
- The model assumes that the `mcp` passed to initialisation is the patched server instance and that `catch_errors` keeps the wrapper's name. The first holds for the call at line 86. The second is an assumption about `catch_errors`, whose code is not modelled.
- `inspect.signature` and `functools.wraps` are reflection. A parameter list is a sequence of names on the tool class. Other copied metadata (qualified name, annotations, `__wrapped__`) is not modelled.
- Tool construction `cls()`, `get_doc(interface='code')` and `run_code` are foreign tool code. A wrapper records the class it holds an instance of, the rendered documentation is a field of the class, and the forwarding target is a constant (`RunCode`).
- `McpApp.ChemMcpManager.InitMcpTools`: only the validation is all-or-nothing, and the model has only two outcomes (a `ValueError` with the host table unchanged, or every selected tool installed). Inside the loop, `cls()` (line 56), `inspect.signature(cls._run_base)` (line 58), `cls.get_doc(interface='code')` (line 71) and `mcp.tool()(wrapper)` (line 75) can raise. An exception from any of them leaves `init_mcp_tools` with the tools walked so far already installed, that is, a partially filled host table. The model does not capture this, because what these foreign calls raise cannot be stated from the code.
- `run_mcp_server` (argument parsing, the SSE server under uvicorn, the stdio transport) and logging are left out. The logged tool count is returned in `Initialized(numTools)` instead.
- `McpApp.ChemMcpManager.GetRegisteredTools`: the order of the result is left unstated. Python lists the keys in insertion order, and nothing in the initialisation depends on that order.
- Python's set iteration order is modelled as arbitrary. When several names are unregistered, the model states only that the `ValueError` names one of them. When several selected tools share a `func_name`, it states only that the wrapper of one of them is installed.
- The registry is a class attribute shared by every user of `ChemMCPManager`. The model holds it in one object and does not model other code writing to the table directly.
- An entry point without parameters gives an empty exposed list; `init_mcp_tools` raises no error for it. There is no lookup that fails on an unknown name: every registry lookup (line 54) comes after validation.
