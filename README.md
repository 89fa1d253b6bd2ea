# Meeting notes agent — a Dafny model

This project models the meeting-notes agent of the Aden Hive templates. It is a seven-node
pipeline over a shared key/value memory:

1. It validates and trims a meeting transcript, and resolves the requested language-model
   provider against a registry.
2. It asks the model to extract a structured report.
3. It locates the JSON object in the model's reply, behind Markdown fences or leading prose,
   and validates it against the report schema (`ActionItem`, `MeetingNotesOutput`).
4. It renders the report as Slack Block Kit blocks.
5. It posts the blocks through a tool, if a channel was given.
6. It compiles the final output with the delivery flag.
7. Instead, on any failure of the first three stages, it produces a fixed error report.

It also models the declarative graph: seven node specifications, eight edges, the entry
point and the terminal nodes. With it come the agent's `validate` check and its `info`
summary.

Modules, in dependency order:

| module | file | what it holds |
|---|---|---|
| `Wrappers` | `wrappers.dfy` | `Option` and `Result` |
| `Json` | `json.dfy` | JSON-shaped memory values, Python truthiness, `or`, `dict.get` |
| `Text` | `text.dfy` | `strip` with Python's whitespace set, ASCII case mapping, `find`/`rfind`, `join`, `str(int)`, `s[:n]` |
| `Config` | `config.dfy` | the provider registry, the default model, the token budget, the metadata |
| `Extraction` | `extraction.dfy` | `_extract_json`: fence removal, trimming, the brace window; the decoder is a parameter |
| `Schema` | `schema.dfy` | the two report models as a validator from JSON, and `model_dump` |
| `Prompt` | `prompt.dfy` | `_build_extraction_prompt` |
| `SlackBlocks` | `slack_blocks.dfy` | `_build_slack_blocks`: `Layout` (the specification) and `BuildSlackBlocks` (builds it by appending) |
| `Context` | `context.dfy` | the memory, the language model and the tool registry a node sees |
| `Graph` | `graph.dfy` | node and edge specifications |
| `Nodes` | `nodes.dfy` | the seven node functions and their specifications |
| `Agent` | `agent.dfy` | the shipped graph, `validate`, `info`, and the routing properties of the graph |

Each node is written twice:

- **A step function.** `XStep(store, …)` maps the memory before the node to a `Step`: the
  memory after the node and how the node ended.
  - It ends as `Completed(result)` with the returned dict, or as `Raised(exception)`.
  - A raised exception is either the agent's own `ValueError` with its message, the
    schema's `ValidationError`, the `TypeError`/`AttributeError` the runtime raises when
    a memory value has the wrong shape, or whatever the language-model client raises.
- **A method.** It performs the same reads and `set` calls, one by one, on a `Memory`
  object. Its postcondition states that the memory it leaves and its outcome are what the
  step function gives.

Lemmas state each node's rules on the step functions, and how consecutive nodes combine.

## Model

| member | source | states |
|---|---|---|
| `Config.DefaultProviderRegistered` | examples/templates/meeting_notes_agent/config.py:59-64 | the fallback alias `anthropic` is registered and maps to the default model |
| `Text.StripIsSlice` | examples/templates/meeting_notes_agent/nodes.py:59 | `strip` returns the slice of the text between whitespace-only ends, and it neither starts nor ends with whitespace; it is empty exactly when the text is all whitespace |
| `Text.FindFirst` | examples/templates/meeting_notes_agent/nodes.py:335 | `find` returns the first index holding the character, and -1 (None) exactly when the character is absent |
| `Text.FindLast` | examples/templates/meeting_notes_agent/nodes.py:336 | `rfind` returns the last index holding the character, and -1 (None) exactly when the character is absent |
| `Text.Prefix` | examples/templates/meeting_notes_agent/nodes.py:338 | `raw[:200]` is a prefix of the text, of length min(length, 200) |
| `Extraction.StripFenceMarkersLeavesNoFence` | examples/templates/meeting_notes_agent/nodes.py:334 | the substitution removes every run of three backticks |
| `Extraction.CleanHasNoFence` | examples/templates/meeting_notes_agent/nodes.py:334 | the `.replace` of backticks after the substitution never changes anything, and the cleaned text holds no fence |
| `Extraction.BraceWindow` | examples/templates/meeting_notes_agent/nodes.py:335-339 | a window exists exactly when both a `{` and a `}` occur; a non-empty window is the slice from the first `{` to the last `}` (no `{` before it, no `}` after it); the window is empty exactly when every `}` comes before every `{` |
| `Extraction.JsonWindow` | examples/templates/meeting_notes_agent/nodes.py:333-338 | the window is found exactly when the cleaned reply has a `{` and a `}`; a non-empty window runs from the first `{` to the last `}` of the cleaned reply, and it is empty exactly when every `}` precedes every `{`; otherwise the error carries the first 200 characters of the reply |
| `Extraction.WindowHasNoFence` | examples/templates/meeting_notes_agent/nodes.py:333-339 | no window handed to the decoder holds a fence |
| `Extraction.NoBraceNoJson` | examples/templates/meeting_notes_agent/nodes.py:337-338 | a reply without any `{`, or without any `}`, fails with "no JSON object found", whatever the decoder |
| `Extraction.EmptyWindowIsMalformed` | examples/templates/meeting_notes_agent/nodes.py:335-339 | when the last `}` precedes the first `{`, the window is empty, and a decoder rejecting the empty text makes the extraction fail as malformed |
| `Extraction.FencedCleanUnchanged` | examples/templates/meeting_notes_agent/nodes.py:334 | wrapping a backtick-free reply in a json-tagged fence leaves the cleaned text, the window and the decoded value unchanged |
| `Extraction.PreambleIgnored` | examples/templates/meeting_notes_agent/nodes.py:333-339 | prose before the object, free of `{` and of backticks, is ignored: the window is exactly the object text, fenced or not |
| `Schema.Strings` | examples/templates/meeting_notes_agent/nodes.py:34-38 | a `list[str]` field validates exactly when every element is a string, and keeps them in order |
| `Schema.ActionItems` | examples/templates/meeting_notes_agent/nodes.py:36 | an item list validates exactly when every element validates; a validated list has one item per element, each the validation of that element |
| `Schema.ActionItemRules` | examples/templates/meeting_notes_agent/nodes.py:21-29 | with a string task and owner, an item validates exactly when its due date is absent or a string and its priority is absent or one of high/medium/low; absent fields become "TBD" and "medium" |
| `Schema.ActionItemRejections` | examples/templates/meeting_notes_agent/nodes.py:21-29 | a missing task or owner, or a priority outside the enumeration, is rejected |
| `Schema.ParsedNotesWellFormed` | examples/templates/meeting_notes_agent/nodes.py:25-36 | every validated report has admissible priorities only |
| `Schema.NotesRules` | examples/templates/meeting_notes_agent/nodes.py:32-39 | the summary is required and must be a string; absent lists default to empty, and the delivery flag to false |
| `Schema.ActionItemsRoundTrip` | examples/templates/meeting_notes_agent/nodes.py:128 | dumped items with admissible priorities validate back to themselves |
| `Schema.DumpRoundTrip` | examples/templates/meeting_notes_agent/nodes.py:128 | a dumped report validates back to itself exactly when its priorities are admissible |
| `Prompt.PromptLayout` | examples/templates/meeting_notes_agent/nodes.py:298-330 | the prompt starts with the instructions, holds the name after the title label and the date after the date label, and ends with the transcript verbatim |
| `Prompt.PromptInjective` | examples/templates/meeting_notes_agent/nodes.py:298-330 | for names and dates of equal lengths, equal prompts come from equal transcripts, names and dates |
| `SlackBlocks.ItemBlocks` | examples/templates/meeting_notes_agent/nodes.py:365-371 | one block per action item, in input order |
| `SlackBlocks.AppendMeta` | examples/templates/meeting_notes_agent/nodes.py:346-352 | appends the metadata line (a real date, then the attendees) exactly when there is something to show |
| `SlackBlocks.AppendCategory` | examples/templates/meeting_notes_agent/nodes.py:357-359 | appends a divider and the titled, marked list exactly when the list is non-empty |
| `SlackBlocks.AppendActionItems` | examples/templates/meeting_notes_agent/nodes.py:361-371 | appends a divider, the title and one block per item, item by item, exactly when there are items |
| `SlackBlocks.AppendMiddle` | examples/templates/meeting_notes_agent/nodes.py:357-379 | appends decisions, action items, blockers and follow-ups, in this order |
| `SlackBlocks.BuildSlackBlocks` | examples/templates/meeting_notes_agent/nodes.py:342-383 | the appended blocks are exactly the layout of the report |
| `SlackBlocks.LayoutShape` | examples/templates/meeting_notes_agent/nodes.py:342-383 | the layout opens with the header, the optional metadata, a divider and the summary, and closes with a divider and the footer; its length counts two blocks per non-empty category plus one per action item |
| `SlackBlocks.ActionItemsPlacement` | examples/templates/meeting_notes_agent/nodes.py:361-371 | the action items occupy a contiguous run after the decisions: a divider, the title, then each item in input order |
| `SlackBlocks.PriorityMarks` | examples/templates/meeting_notes_agent/nodes.py:364-370 | each admissible priority has its own mark, and only other values get the neutral mark |
| `SlackBlocks.WellFormedHasNoNeutralMark` | examples/templates/meeting_notes_agent/nodes.py:364-370 | a validated report never shows the neutral mark |
| `SlackBlocks.CategoriesPresentIffNonEmpty` | examples/templates/meeting_notes_agent/nodes.py:357-379 | each category title appears in the rendering exactly when its list is non-empty |
| `SlackBlocks.EveryBlockTyped` | examples/templates/meeting_notes_agent/nodes.py:344-382 | every block handed to the messaging API is a dict with a `type` |
| `Context.Memory.Set` | examples/templates/meeting_notes_agent/nodes.py:73-78 | `set` replaces or adds one entry and changes nothing else |
| `Context.Llm.Complete` | examples/templates/meeting_notes_agent/nodes.py:102-107 | one completion request is logged and answered, with a reply text or an exception |
| `Context.ToolRegistry.Call` | examples/templates/meeting_notes_agent/nodes.py:164-171 | one tool call is logged and answered |
| `Nodes.ValidateInput` | examples/templates/meeting_notes_agent/nodes.py:46-84 | the successive reads and writes of `validate_input` leave the memory and the outcome its step function gives |
| `Nodes.ValidateInputRejects` | examples/templates/meeting_notes_agent/nodes.py:54-65 | a missing, falsy, whitespace-only or too-short transcript, and only such a transcript, raises `ValueError`; a non-empty message is then recorded under `validation_error` and nothing else is written; the message names the empty transcript exactly when nothing is left after trimming |
| `Nodes.ValidateInputAccepts` | examples/templates/meeting_notes_agent/nodes.py:59-84 | a long enough string transcript is accepted exactly when the requested provider is a string or falsy; the memory then holds the trimmed transcript, a registered provider, the name and date as given when truthy and otherwise exactly "Untitled Meeting" and "Unknown Date", the channel as given and a cleared error, and only the declared output keys change |
| `Nodes.ResolveProviderIgnoresCase` | examples/templates/meeting_notes_agent/nodes.py:68-71 | provider resolution ignores ASCII letter case |
| `Nodes.ResolveProviderExamples` | examples/templates/meeting_notes_agent/nodes.py:67-71 | every registered alias resolves to itself, "Gemini" to "gemini", and an unknown provider to `anthropic` |
| `Nodes.ModelFor` | examples/templates/meeting_notes_agent/nodes.py:91-92 | the lookup succeeds exactly for hashable (scalar) providers, and always yields a registered model |
| `Nodes.ExtractMeetingData` | examples/templates/meeting_notes_agent/nodes.py:87-112 | the reads, the single model request and the write of `extract_meeting_data` agree with its step function; no request is made when the model lookup raises, and nothing is written when the model client raises |
| `Nodes.ExtractWithRegisteredProvider` | examples/templates/meeting_notes_agent/nodes.py:91-110 | with a registered provider, the request names its model and the 4096-token budget, and its prompt ends with the transcript; the node completes exactly when the model answers, storing the answer verbatim under `raw_extraction`, and otherwise raises the client's exception; nothing else changes |
| `Nodes.ValidatedExtraction` | examples/templates/meeting_notes_agent/nodes.py:87-98 | after a successful validation, the extraction asks the model registered for the resolved provider, with a prompt that ends with the trimmed transcript, and completes exactly when the model answers |
| `Nodes.ParseAndValidateOutput` | examples/templates/meeting_notes_agent/nodes.py:115-134 | the reads and writes of `parse_and_validate_output` agree with its step function |
| `Nodes.ParseRecordsOutcome` | examples/templates/meeting_notes_agent/nodes.py:115-134 | parsing succeeds exactly when a window decodes to an object that passes the schema; on success the stored `meeting_notes` is the dump of the report validated from the reply, it re-validates, and the parse error is cleared; on `ValueError` the prefixed message is recorded under `parse_error` and nothing else is written |
| `Nodes.ParseReportsMissingJson` | examples/templates/meeting_notes_agent/nodes.py:119-126 | a reply without braces fails, and the recorded message quotes the first 200 characters of the reply |
| `Nodes.ParseIgnoresFence` | examples/templates/meeting_notes_agent/nodes.py:117-128 | a reply wrapped in a json-tagged fence is parsed like the bare reply |
| `Nodes.ParseSameExtraction` | examples/templates/meeting_notes_agent/nodes.py:117-134 | two replies from which the same value is extracted give the same outcome and the same memory, apart from the raw reply |
| `Nodes.FormatSlackMessage` | examples/templates/meeting_notes_agent/nodes.py:137-151 | the reads, the rendering and the write of `format_slack_message` agree with its step function |
| `Nodes.FormatAfterParse` | examples/templates/meeting_notes_agent/nodes.py:137-151 | right after a successful parse, formatting cannot fail; the payload renders the report the reply held, and only `slack_payload` is written |
| `Nodes.FormatWithoutNotes` | examples/templates/meeting_notes_agent/nodes.py:139-140 | without a stored report, formatting raises a validation error for the missing summary |
| `Nodes.PayloadShape` | examples/templates/meeting_notes_agent/nodes.py:145-148 | the payload has exactly `blocks` and `text`, every block is a typed dict, and the text names the meeting |
| `Nodes.PostToSlack` | examples/templates/meeting_notes_agent/nodes.py:154-178 | the memory, the outcome and the tool calls of `post_to_slack` agree with its step function |
| `Nodes.PostRules` | examples/templates/meeting_notes_agent/nodes.py:154-178 | delivery never raises and writes only `slack_result`, with a boolean `sent`; without a channel no call is made; with a channel and a dict payload exactly one call to `slack_post_message` is made, carrying the channel and the payload's `blocks` and `text` (defaulting to `[]` and "Meeting Notes"), and `slack_result` records its reply; with a non-dict payload no call is made and the `AttributeError` text becomes the reason; `sent` is true exactly when the call returned, and a failed call's message becomes the reason |
| `Nodes.CompileFinalOutput` | examples/templates/meeting_notes_agent/nodes.py:181-188 | the reads and the write of `compile_final_output` agree with its step function |
| `Nodes.CompileMerges` | examples/templates/meeting_notes_agent/nodes.py:181-188 | with dict inputs, the output is the report with only `slack_message_sent` replaced by the delivery flag, and it is stored as `final_output`; otherwise the node raises and writes nothing |
| `Nodes.CompileWithoutDelivery` | examples/templates/meeting_notes_agent/nodes.py:184-185 | without a delivery record the report is compiled as not sent |
| `Nodes.PostThenCompile` | examples/templates/meeting_notes_agent/nodes.py:172-185 | after delivery, the compiled flag is a boolean, true exactly when the one tool call was made and returned |
| `Nodes.HandleError` | examples/templates/meeting_notes_agent/nodes.py:191-209 | the reads and the write of `handle_error` agree with its step function |
| `Nodes.ErrorPrecedence` | examples/templates/meeting_notes_agent/nodes.py:191-209 | the error report never fails; its message is the validation error, else the parse error, else the fixed text, so it is always truthy; it reads as the empty undelivered report, and only `final_output` is written |
| `Nodes.ErrorOutputShape` | examples/templates/meeting_notes_agent/nodes.py:196-206 | the error report carries the flag and the message, and validates as the empty undelivered report |
| `Nodes.RejectionReported` | examples/templates/meeting_notes_agent/nodes.py:193-195 | after a rejected transcript, the error report states the recorded validation error |
| `Nodes.ExtractionFailureReported` | examples/templates/meeting_notes_agent/nodes.py:102-107 | when the model client raises after a successful validation, nothing is written; given that the incoming memory holds no parse error, the error report then states "Unknown error occurred" |
| `Nodes.ValidatedErrorKeys` | examples/templates/meeting_notes_agent/nodes.py:73-78 | a successful validation clears `validation_error` and leaves `parse_error` as it was |
| `Nodes.UnknownErrorReported` | examples/templates/meeting_notes_agent/nodes.py:193-195 | with neither error recorded, the error report states "Unknown error occurred" |
| `Nodes.ParseFailureReported` | examples/templates/meeting_notes_agent/nodes.py:122-126 | after a successful validation and a failed parse, the error report states the parse error |
| `Agent.CheckEdges` | examples/templates/meeting_notes_agent/agent.py:327-331 | the loop over the edges collects a source error and then a target error per dangling edge, in order |
| `Agent.CheckTerminals` | examples/templates/meeting_notes_agent/agent.py:336-338 | the loop over the terminal nodes collects one error per unknown id, in order |
| `Agent.CheckEntryPoints` | examples/templates/meeting_notes_agent/agent.py:340-342 | the loop over the entry points collects one error per unknown target, in order |
| `Agent.Validate` | examples/templates/meeting_notes_agent/agent.py:321-348 | the errors are the edge, entry-node, terminal and entry-point errors in this order; the agent is valid exactly when there is none; there are no warnings |
| `Agent.EdgeErrorCount` | examples/templates/meeting_notes_agent/agent.py:327-331 | the number of edge errors is one per dangling source plus one per dangling target |
| `Agent.EdgeErrorsEmpty` | examples/templates/meeting_notes_agent/agent.py:327-331 | there are no edge errors exactly when every edge's endpoints are node ids, an absent target counting as valid |
| `Agent.TerminalErrorsEmpty` | examples/templates/meeting_notes_agent/agent.py:336-338 | there are no terminal errors exactly when every terminal is a node id |
| `Agent.EntryPointErrorsEmpty` | examples/templates/meeting_notes_agent/agent.py:340-342 | there are no entry-point errors exactly when every entry point names a node |
| `Agent.ValidIffWellReferenced` | examples/templates/meeting_notes_agent/agent.py:321-348 | the check passes exactly when every reference in the agent names one of its nodes |
| `Agent.NodeIdsPresent` | examples/templates/meeting_notes_agent/agent.py:99-107 | the seven ids belong to the shipped node list |
| `Agent.EdgesWithinNodes` | examples/templates/meeting_notes_agent/agent.py:110-167 | every shipped edge starts and ends at a shipped node |
| `Agent.DefaultAgentValid` | examples/templates/meeting_notes_agent/agent.py:99-173 | the shipped agent is well referenced and passes the check |
| `Agent.FallibleStagesRouteFailures` | examples/templates/meeting_notes_agent/agent.py:110-152 | validation, extraction and parsing each have exactly one success edge, to the next stage, and one failure edge, to `handle-error` |
| `Agent.DeliveryAndTerminals` | examples/templates/meeting_notes_agent/agent.py:153-173 | formatting has only a success edge, to delivery; delivery has only an always edge, to compilation; the terminal nodes have no outgoing edge |
| `Agent.SuccessPath` | examples/templates/meeting_notes_agent/agent.py:110-173 | when every stage succeeds, the run from the entry node visits validation, extraction, parsing, formatting, delivery and compilation, and stops there |
| `Agent.DeliveryCannotFail` | examples/templates/meeting_notes_agent/agent.py:139-167 | no path that starts at formatting, delivery or compilation leaves them, so none reaches `handle-error` |
| `Agent.ClientFacingMembers` | examples/templates/meeting_notes_agent/agent.py:318 | an id is listed as client-facing exactly when a client-facing node has it |
| `Agent.Info` | examples/templates/meeting_notes_agent/agent.py:302-319 | the summary lists the node ids and edge ids in order, and exactly the ids of client-facing nodes |
| `Agent.DefaultInfo` | examples/templates/meeting_notes_agent/agent.py:302-319 | the shipped agent reports its seven nodes and eight edges; its client-facing nodes are exactly its two terminal nodes |

## Left out

- The runtime that executes the graph is not modelled: the executor, the event loop, `run`/`start`/`stop`, session state, timeouts and storage. The graph is modelled as data, and its paths as sequences of linked nodes.
- Language-model internals are not modelled. The model is a fixed function from the request to its reply: a text, or an exception with its message. The sampling temperature is not part of the request, since no property depends on it.
- The `hasattr(response, "content")` test is not modelled: the reply is taken to be its text.
- `json.loads` is a parameter, a partial function from text to a JSON value. Floating-point numbers are not modelled (`JNum` holds integers).
- The exception texts are not modelled. The model uses stand-ins: `DecodeErrorText` for the JSON decoder's message, `SchemaErrorText` for Pydantic's validation message, and `PayloadNotDictText` for the `AttributeError` message Python raises when `slack_payload.get` is called on a value that is not a dict. What the model does keep is that a failed parse's message starts with the fixed prefix, and quotes the first 200 characters of the reply when no braces are found.
- Schema.ParseNotes: only JSON booleans are accepted for `slack_message_sent`, and only JSON strings for string fields. Pydantic's lax coercions, such as `0`/`1` or `"true"` for a boolean, are not modelled.
- Nodes.ExtractMeetingData, Nodes.FormatSlackMessage: `str()` of a list or dict interpolated into the prompt or the message is not modelled. These members require that the interpolated memory values be scalars: strings, numbers, booleans or None.
- Text.Lower, Text.Upper: letter case is mapped for ASCII letters only. The registry's aliases are ASCII, so provider resolution is exact for every request that is ASCII.
- Logging is not modelled. Nor is the goal's success criteria and constraints, which are documentation only: `info` reports only the goal's name and description.
- The Slack tool implementations, the MCP server, the command-line entry point and the package `__init__` are not part of this model.
- The `isinstance(item, dict)` branch of the block builder is not modelled. A validated report holds `ActionItem` values only, so that branch is never taken.
- Prompt.BuildExtractionPrompt: only the first two sentences of the fixed instructions are kept. The schema description and the extraction rules after them are not reproduced. The layout properties hold for any instruction text.
- Nodes.ValidatedExtraction: does not state the token budget or the stored reply. Both are stated by Nodes.ExtractWithRegisteredProvider, which it relies on.
