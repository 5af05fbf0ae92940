# Collaborative notebook agent: a Dafny model

This project models the logic of the jupyter-ai-agents package that sits between a shared
(CRDT-backed) Jupyter notebook and its AI agents, and proves properties of it.

- **Change classifier** (`_on_notebook_changes`, module `NotebookChanges`). This is a pure
  function from one change record of the shared notebook to the callbacks it makes ("cell
  source changed", "user submitted a prompt"), in order. It also returns the Python exception
  it raises, if any. Metadata is a small JSON datatype (`Json.Json`). Python's `KeyError`,
  `AttributeError`, `TypeError` and `ValueError` are values of `Json.PyError`.
- **Annotation writer** (`get_cell`, `update_document` and its inner `set_message`, module
  `NotebookAgent`). It finds a cell by id, creates the `datalayer.ai` containers lazily and
  appends a reply linked to its prompt by `parent_id`. Key result (loop prevention): once a
  reply is written, re-classifying the written metadata no longer counts that prompt as
  unanswered. If it was the only unanswered prompt, nothing is reported.
- **Agent class** (`YNotebookAgent`). It holds the document's cells and metadata, and one
  observer slot per document generation. `_reset_y_model` does unobserve, reset, observe.
- **Cell-scanning helpers and `http_to_ws`** (module `CellScan`). The three `retrieve_*` scans
  are while loops proved against specification functions.
- **MCP server registry** (module `McpTools`). `MCPToolManager` is a class with the `servers`
  and `clients` dictionaries and the invariant that every client belongs to a server.
  `MCPClient` stores the URL with trailing slashes removed.
- **Tool helpers** (module `Tools`): `generate_name_from_id` and `tools_to_builtin_list`.
- **The four `get_model_string` variants** (modules `ModelUtils`, `CliApp`, `PydanticApp` and
  `Repl`). Module `ModelString` reads a `provider:model` string back; that reading is the
  partner of every variant. Module `ProviderDivergence` states where the variants disagree.

Behaviour of the code worth noting:

- A metadata change on one cell reports every prompt with a truthy id, answered ones
  included, as soon as any prompt is unanswered.
- `set_message` replaces a `datalayer` that has no `ai` by a fresh container. This drops the
  keys beside it.
- Notebook-level changes (the "meta" part) are never classified.
- Prompt ids and parent ids meet in a Python set, where `True` equals `1` and `False` equals `0`.
  A prompt with id `True` is therefore answered by a reply whose parent id is `1`.

## Model

| member | source | states |
|---|---|---|
| NotebookAgent.MessageTypeOf | jupyter_ai_agent/agents/yagent.py:16-22 | `AIMessageType(n)` succeeds exactly for 0, 1 and 2, and the member found has value `n`; any other integer raises `ValueError("<n> is not a valid AIMessageType")`, the integer written in decimal |
| NotebookAgent.MessageTypeRejectedAbove | jupyter_ai_agent/agents/yagent.py:16-22 | `AIMessageType(3)` raises `ValueError("3 is not a valid AIMessageType")` |
| NotebookAgent.MessageTypeRejectedBelow | jupyter_ai_agent/agents/yagent.py:16-22 | `AIMessageType(-1)` raises `ValueError("-1 is not a valid AIMessageType")` |
| NotebookAgent.MessageTypeRoundTrip | jupyter_ai_agents/models/__init__.py:55-58 | every message type survives the trip through its stored integer `type` |
| Json.Contains | jupyter_ai_agent/agents/yagent.py:153-157 | Python's `in` as `set_message` uses it: a mapping tests its keys; a string or list answers; any scalar raises TypeError |
| NotebookChanges.AiContainer | jupyter_ai_agent/agents/yagent.py:54-55 | reading `newValue.datalayer.ai` with `{}` defaults: a missing `datalayer` or `ai` reads as `{}`; when both levels are mappings it is the stored `ai` mapping; it fails, only with AttributeError, exactly when a level on the path is present but not a mapping |
| NotebookChanges.ListAt | jupyter_ai_agent/agents/yagent.py:56-59 | iterating `ai.get(key, [])`: a list yields its own items; a missing key, `""` or `{}` yields nothing; every other value (non-empty string or mapping, scalar) fails with TypeError, and only those |
| NotebookChanges.KeySet | jupyter_ai_agent/agents/yagent.py:57-59 | the id set is built exactly when every item is a mapping with a hashable value under the key; it then holds those values up to Python's equality (`True` is `1`, `False` is `0`); otherwise TypeError or KeyError(key) — every prompt must carry an `id` |
| NotebookChanges.WithTruthyId | jupyter_ai_agent/agents/yagent.py:62 | `filter(lambda p: p.get("id"), prompts)` keeps exactly the prompts with a truthy id and never grows |
| NotebookChanges.WithTruthyIdAppend | jupyter_ai_agent/agents/yagent.py:62 | `filter` keeps list order: filtering a concatenation concatenates the results |
| NotebookChanges.PromptsFor | jupyter_ai_agent/agents/yagent.py:62-63 | one prompt event per selected prompt, in order, carrying the target's id; a target without an id raises only if some prompt is selected |
| NotebookChanges.SourceChange | jupyter_ai_agent/agents/yagent.py:40-52 | a source change reports one event `(target id, newValue, oldValue)`; an absent old value reads as "" on add, an absent new value as None on delete; it raises exactly when the target id or a value the action reads is missing |
| NotebookChanges.NestedMetadataKey | jupyter_ai_agent/agents/yagent.py:75-82 | the "datalayer" key is skipped; a non-mapping new value raises AttributeError; at most one prompt event per key |
| NotebookChanges.Classify | jupyter_ai_agent/agents/yagent.py:28-84 | no callback for a part other than "cells", for an empty path, or for a path that is neither one cell nor `[index, "metadata"]` |
| NotebookChanges.ThenAssociative | jupyter_ai_agent/agents/yagent.py:39 | running handlers in sequence and stopping at the first exception is associative |
| NotebookChanges.ForEachKeyAppend | jupyter_ai_agent/agents/yagent.py:39 | handling a concatenated key list is handling the first list, then the second unless the first raised |
| NotebookChanges.ForEachKeyEvents | jupyter_ai_agent/agents/yagent.py:75 | when no key raises, the loop raises nothing and reports exactly the events of all keys |
| NotebookChanges.OtherCellKeysSilent | jupyter_ai_agent/agents/yagent.py:39-68 | keys other than "source" and "metadata" (such as "outputs") report nothing |
| NotebookChanges.ClassifySingleCellKey | jupyter_ai_agent/agents/yagent.py:37-40 | a one-key change on one cell is classified by that key's handler alone |
| NotebookChanges.MetadataPromptEvents | jupyter_ai_agent/agents/yagent.py:53-63 | with some prompt unanswered and action add/update, every prompt with a truthy id is reported in list order; otherwise (delete included) nothing |
| NotebookChanges.AnsweredPromptsReported | jupyter_ai_agent/agents/yagent.py:61-63 | once any prompt is unanswered, an answered prompt with a truthy id is reported too |
| NotebookChanges.AllAnsweredSilent | jupyter_ai_agent/agents/yagent.py:57-61 | when every prompt id equals (as Python compares) some message's parent id, a metadata change reports nothing |
| NotebookChanges.BooleanIdAnsweredByInteger | jupyter_ai_agent/agents/yagent.py:57-61 | a prompt with id `True` is answered by a message with parent id `1`: adding that metadata reports nothing |
| NotebookChanges.NestedPromptReported | jupyter_ai_agent/agents/yagent.py:76-82 | in cell metadata, a key reports one prompt iff `ai.prompt` is truthy, `ai.messages` is falsy and the action is add or update |
| NotebookChanges.SourceUpdateExample | jupyter_ai_agent/agents/yagent.py:45-48 | an update of cell "c1"'s source reports `(c1, new, old)` |
| NotebookAgent.Scaffolded | jupyter_ai_agent/agents/yagent.py:153-158 | after scaffolding, the `datalayer` value is a mapping whose `ai` is a mapping holding `messages` |
| NotebookAgent.WithMessage | jupyter_ai_agent/agents/yagent.py:152-162 | on success the messages list is the old one plus the reply, and every key other than `datalayer` is unchanged |
| NotebookAgent.SetMessage | jupyter_ai_agent/agents/yagent.py:152-162 | the step-by-step writer on a local copy of the map computes exactly `WithMessage`; the messages list gains the reply at its end |
| NotebookAgent.WithMessageScaffolding | jupyter_ai_agent/agents/yagent.py:153-160 | the scaffolding rules case by case. A missing `datalayer`, or one without `ai`, is replaced by a fresh container. An `ai` without `messages` becomes `{messages: [reply]}`, dropping its prompts. An existing list is extended and its siblings kept |
| NotebookAgent.KeySetAppend | jupyter_ai_agent/agents/yagent.py:59-60 | appending a message adds exactly its `parent_id` to the set of parent ids |
| NotebookAgent.WrittenContainer | jupyter_ai_agent/agents/yagent.py:160 | written metadata reads back through the classifier's path, and its messages end with the reply |
| NotebookAgent.ReplyAnswersPrompt | jupyter_ai_agent/agents/yagent.py:150-160 | loop prevention: after a reply to prompt `pid`, the written metadata no longer counts `pid`, or any id Python compares equal to it, as unanswered |
| NotebookAgent.ReplyShrinksPending | jupyter_ai_agent/agents/yagent.py:150-162 | writing a reply keeps the unanswered set readable and only shrinks it, losing at least `pid` |
| NotebookAgent.ExtendedPending | jupyter_ai_agent/agents/yagent.py:160 | extending an existing messages list removes exactly the reply's `parent_id` (up to Python's equality) from the unanswered set |
| NotebookAgent.ReplacedPending | jupyter_ai_agent/agents/yagent.py:153-158 | when scaffolding replaced the container, nothing is left unanswered |
| NotebookAgent.ReplyToLastPromptSilent | jupyter_ai_agent/agents/yagent.py:53-63 | a reply to the only unanswered prompt makes re-classifying the written metadata as a one-cell update report nothing |
| NotebookAgent.CellIndex | jupyter_ai_agent/agents/yagent.py:123-137 | the first cell whose id equals the argument, with no match before it; None when no cell matches; KeyError("id") when a cell without an id comes before any match |
| NotebookAgent.UpdateTargets | jupyter_ai_agent/agents/yagent.py:150-174 | every path of `update_document`. A prompt without `id` raises KeyError("id"). An empty cell id writes to the notebook metadata, or raises what `set_message` raises. A failing cell lookup propagates its KeyError. An unmatched id raises `ValueError("Cell [<id>] not found.")` and nothing is written. A matched cell without metadata gets `{datalayer:{ai:{prompts:[],messages:[reply]}}}`. A matched cell with metadata gets `set_message` applied to that metadata, or its exception; only that cell's `metadata` key changes |
| NotebookAgent.ScaffoldWrite | jupyter_ai_agent/agents/yagent.py:168-170 | a reply written into the fresh cell metadata leaves an empty prompts list and the reply as the only message |
| NotebookAgent.UpdateAnswersCellPrompt | jupyter_ai_agent/agents/yagent.py:164-174 | after a reply is written to a cell: the other cells and the cell's other keys are unchanged. Existing metadata keeps its keys beside `datalayer` and gains the reply as its last message. The cell's metadata no longer counts the prompt as unanswered |
| NotebookAgent.YNotebookAgent.constructor | jupyter_ai_agent/agents/yagent.py:25 | a new agent holds the given document and no observer |
| NotebookAgent.YNotebookAgent.ResetYModel | jupyter_ai_agent/agents/yagent.py:105-108 | unobserve, reset, observe: afterwards the callback is registered exactly once, on the new document model only |
| NotebookAgent.YNotebookAgent.GetCell | jupyter_ai_agent/agents/yagent.py:123-137 | the index loop returns exactly `CellIndex` |
| NotebookAgent.YNotebookAgent.UpdateDocument | jupyter_ai_agent/agents/yagent.py:139-174 | the new cells and metadata are exactly `UpdatedDocument`'s, whose every path `UpdateTargets` states; on an exception nothing changes; the observer slot is untouched |
| CellScan.FirstError | jupyter_ai_agents/utils.py:51-52 | the position of the first flagged cell: no earlier cell is flagged, and it is flagged unless it is the end |
| CellScan.RetrieveCellsContent | jupyter_ai_agents/utils.py:11-21 | the loop returns the entries of the cells before `StopAt(stop)`, numbered from 0, in order |
| CellScan.RetrieveCellsContentError | jupyter_ai_agents/utils.py:24-42 | the loop returns exactly `ContentError(cells, stop)` |
| CellScan.RetrieveCellsContentUntilFirstError | jupyter_ai_agents/utils.py:45-62 | the loop returns exactly `ContentUntilFirstError(cells)` |
| CellScan.ContentListsEveryCell | jupyter_ai_agents/utils.py:11-21 | with stop -1, one entry per cell, with indices 0..n-1 |
| CellScan.ContentStopsBefore | jupyter_ai_agents/utils.py:16-19 | with any stop, the listed indices are exactly those below it, or all of them when it is negative or past the end |
| CellScan.ContentErrorStops | jupyter_ai_agents/utils.py:30-42 | an error is returned iff the cell at the stop index is flagged; the listing then ends before it; otherwise every cell is listed |
| CellScan.UntilFirstErrorShape | jupyter_ai_agents/utils.py:45-62 | an error is returned iff some cell is flagged. Its index equals the prefix length. No listed cell is flagged. With no flagged cell, every cell is listed |
| CellScan.UntilFirstErrorIsStopAtFirst | jupyter_ai_agents/utils.py:24-62 | scanning until the first error equals the stop-at-error scan given the first flagged index |
| CellScan.HttpToWsRewrite | jupyter_ai_agents/utils.py:90-91 | a leading "http" becomes "ws" and the rest is kept; any other string is unchanged, and only those |
| CellScan.HttpToWsPlain | jupyter_ai_agents/utils.py:90-91 | `http://h` becomes `ws://h` |
| CellScan.HttpToWsSecure | jupyter_ai_agents/utils.py:90-91 | `https://h` becomes `wss://h` |
| CellScan.HttpToWsStable | jupyter_ai_agents/utils.py:90-91 | a `ws` URL is not rewritten |
| McpTools.RStripSlash | jupyter_ai_agents/chat/mcp_tools.py:18 | the result is a prefix of the URL, does not end in '/', and only '/' was removed |
| McpTools.RStripSlashUnique | jupyter_ai_agents/chat/mcp_tools.py:18 | those three conditions determine the stripped URL |
| McpTools.RStripSlashIdempotent | jupyter_ai_agents/chat/mcp_tools.py:18 | stripping twice is stripping once |
| McpTools.MCPClient.constructor | jupyter_ai_agents/chat/mcp_tools.py:11-19 | the client stores the server URL with all trailing '/' removed |
| McpTools.Without | jupyter_ai_agents/chat/mcp_tools.py:90 | deleting a key from the insertion order keeps the other ids, once each, and changes nothing for an absent id |
| McpTools.WithoutAppend | jupyter_ai_agents/chat/mcp_tools.py:90 | `del` keeps the order of the remaining ids: removing from a concatenation removes from each part |
| McpTools.DistinctCardinality | jupyter_ai_agents/chat/mcp_tools.py:115 | an insertion order listing each key once is as long as the dictionary |
| McpTools.MCPToolManager.constructor | jupyter_ai_agents/chat/mcp_tools.py:66-69 | the registry starts empty, and its invariant (clients' ids ⊆ servers' ids) holds |
| McpTools.MCPToolManager.AddServer | jupyter_ai_agents/chat/mcp_tools.py:71-80 | stores the server under `server.id`, overwriting; an enabled server gets a fresh client with its normalised URL; a disabled one leaves every client, even its own; other ids unchanged; invariant kept |
| McpTools.MCPToolManager.RemoveServer | jupyter_ai_agents/chat/mcp_tools.py:82-92 | the id leaves both dictionaries; an absent id changes nothing, so a second removal is a no-op; invariant kept |
| McpTools.MCPToolManager.UpdateServer | jupyter_ai_agents/chat/mcp_tools.py:94-106 | stores under the `server_id` argument. An enabled server without a client gets a fresh one; an existing client is kept, not rebuilt. A disabled server loses its client. Invariant kept |
| McpTools.MCPToolManager.GetServers | jupyter_ai_agents/chat/mcp_tools.py:108-115 | exactly the stored configurations, one per id, in insertion order |
| Tools.UnderscoresToSpaces | jupyter_ai_agents/tools.py:33 | same length; every '_' becomes ' ', every other character kept |
| Tools.GenerateNameFromId | jupyter_ai_agents/tools.py:17-39 | "" gives ""; same length as the input, no '_'; only the first character is upper-cased and the rest equal the input with '_' as ' ' |
| Tools.GenerateNameExample | jupyter_ai_agents/tools.py:24-27 | "notebook_run-all-cells" gives "Notebook run-all-cells" |
| Tools.GenerateNameFixpoint | jupyter_ai_agents/tools.py:29-39 | a display name without '_' whose first character is not a lower-case letter is left as it is |
| Tools.GenerateNameIdempotent | jupyter_ai_agents/tools.py:29-39 | generating a name from a generated name changes nothing |
| Tools.ToolsToBuiltinList | jupyter_ai_agents/tools.py:156-166 | the names of exactly the tools whose name is truthy, never "", at most as many as tools |
| Tools.BuiltinListAppend | jupyter_ai_agents/tools.py:166 | input order is kept: listing a concatenation concatenates the listings |
| Tools.AllNamedKept | jupyter_ai_agents/tools.py:166 | when every tool has a name, every name is listed, in order |
| Ascii.LowerIdempotent | jupyter_ai_agents/utils/model.py:35 | lower-casing twice is lower-casing once |
| ModelUtils.LowerCasedProvider | jupyter_ai_agents/utils/model.py:35-51 | for a known provider (or Azure), lower-casing it before the call changes nothing |
| ModelString.ParseModelString | jupyter_ai_agents/utils/model.py:22 | a model string splits at its first ':' into a provider without ':' and the model name |
| ModelString.ParseJoin | jupyter_ai_agents/utils/model.py:52 | `provider:model` with a provider without ':' reads back as exactly that provider and model name |
| ModelUtils.RoundTrip | jupyter_ai_agents/utils/model.py:51-52 | outside Azure, the result reads back as the mapped provider and the model name |
| ModelUtils.AzureBareName | jupyter_ai_agents/utils/model.py:35-36 | every provider whose lower-case form is `azure-openai` gives the bare model name |
| ModelUtils.CaseInsensitive | jupyter_ai_agents/utils/model.py:35-51 | providers that differ only in case give the same result when the provider is known |
| ModelUtils.UnknownProviderKept | jupyter_ai_agents/utils/model.py:51-52 | an unknown provider passes through with its original casing |
| ModelUtils.CapitalisedOpenAi | jupyter_ai_agents/utils/model.py:51 | "OpenAI" gives "openai:<name>" |
| ModelUtils.Renamed | jupyter_ai_agents/utils/model.py:39-51 | github-copilot gives openai and gemini gives google |
| CliApp.RoundTrip | jupyter_ai_agents/cli/app.py:66-67 | the result reads back as the mapped provider and the model name |
| CliApp.UnknownProviderKept | jupyter_ai_agents/cli/app.py:66 | a provider that is not a key (case-sensitive) passes through unchanged |
| CliApp.Examples | jupyter_ai_agents/cli/app.py:53-67 | azure-openai and github-copilot give openai, gemini gives google, "OpenAI" is kept |
| PydanticApp.RoundTrip | jupyter_ai_agents/cli/pydantic_app.py:53-54 | the result reads back as the mapped provider and the model name |
| PydanticApp.UnknownProviderKept | jupyter_ai_agents/cli/pydantic_app.py:53 | a provider that is not a key passes through unchanged |
| PydanticApp.SelfMapped | jupyter_ai_agents/cli/pydantic_app.py:47-50 | openai, anthropic and bedrock map to themselves |
| PydanticApp.Examples | jupyter_ai_agents/cli/pydantic_app.py:45-54 | azure-openai and github-copilot give openai; gemini and "OpenAI" are kept |
| Repl.RoundTrip | jupyter_ai_agents/cli/repl.py:38-39 | the result reads back as the mapped provider and the model name |
| Repl.CaseInsensitive | jupyter_ai_agents/cli/repl.py:38 | providers that differ only in case give the same result when the provider is known |
| Repl.UnknownProviderKept | jupyter_ai_agents/cli/repl.py:38 | an unknown provider passes through with its original casing |
| Repl.AzureKept | jupyter_ai_agents/cli/repl.py:25-38 | every provider whose lower-case form is `azure-openai` gives "azure-openai:<name>" |
| Repl.Capitalised | jupyter_ai_agents/cli/repl.py:38 | "Anthropic" gives "anthropic:<name>" |
| Repl.Renamed | jupyter_ai_agents/cli/repl.py:25-38 | github-copilot gives openai and gemini gives google |
| ProviderDivergence.AzureOpenAi | jupyter_ai_agents/cli/repl.py:26 | for azure-openai the four variants give a bare name, "openai:" twice, and "azure-openai:" |
| ProviderDivergence.Gemini | jupyter_ai_agents/cli/pydantic_app.py:45-51 | gemini gives google everywhere except the pydantic application |
| ProviderDivergence.CapitalisedProvider | jupyter_ai_agents/cli/app.py:66 | "OpenAI" is recognised only by the two lower-casing variants |

## Left out

- CRDT propagation: whether nested mutation or the `datalayer` reassignment fires observers. Metadata is a plain map, and the `.copy()` reassignment keeps its content.
- The notebook client and kernel connection, and the internals of `super()._reset_y_model()`, `observe` and `unobserve`. Only the order of unobserve, reset and observe is modelled, as document generations and the set of observed generations. The new document content is a parameter.
- The callbacks' logging and the username lookup. The callbacks are recorded as events.
- The cell-list branch (an empty path) and the commented-out outputs/meta handling. They have no behaviour; an empty path is modelled as reporting nothing.
- Change records are given with an action always present. A missing `action` key, and action strings other than add, update and delete, are not modelled.
- Cells in the scanning helpers always carry `cell_type` and `source`, and every output carries `output_type` and `traceback`. The KeyErrors for missing ones are not modelled. `str(cell["source"])` is the source text.
- Floating-point JSON values are not modelled.
- Ascii.Lower: Python's `str.lower()` and `str.upper()` are Unicode-wide. The model changes the case of ASCII letters only.
- Tools.GenerateNameFromId: the same-length property relies on ASCII upper-casing. Python can upper-case one character to several (for example 'ß').
- `MCPClient`'s HTTP client, `list_tools`, `call_tool`, `close`, `get_available_tools` and `close_all`. These are network calls.
- Dictionary insertion order is modelled by an explicit `order` field beside the two maps.
- The LLM agents, provider constructors (`create_model_with_provider`), `create_mcp_server`, HTTP handlers, extension start-up, configuration files and command-line bodies. Foreign libraries, I/O and environment variables are outside this model.
- The `provider_map` dictionaries are written as lookup functions by cases, with `None` for a missing key.
- NotebookChanges.Classify: on a depth-2 path, the target is the cell's metadata mapping, and its `id` key is read as given.
