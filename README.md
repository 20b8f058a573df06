# Agent context store and task orchestrator, in Dafny

This project models the two in-memory components at the heart of a
job-search assistant backend:

- The **context manager** (`src/context/manager.js`). It keeps, per user, an
  append-only list of question/answer pairs and an append-only list of
  documents. It renders them into one labelled text block, Q&A section first.
  A block longer than 8000 characters is cut: back to its last line break
  after position 0 within the limit, followed by a `\n[Context truncated...]`
  marker, or hard at 8000 characters when there is no such line break.
- The **agent orchestrator** (`src/agents/orchestrator.js`). It checks that a
  task type is one of `analysis`, `writing` or `research`. It builds the
  prompt, with or without the context block and a `=== Task ===` header. It
  puts a persona sentence for the task type in front. It sends the prompt to
  the text provider. After a successful call it updates that user's usage
  counters and keeps a window of the last 100 history entries.

Files:

- `wrappers.dfy`: `Option` and `Outcome`.
- `context_manager.dfy` (module `Context`): entries, rendering, truncation,
  the `ContextManager` class, and the lemmas about them.
- `orchestrator.dfy` (module `Agents`): task types, personas, prompt
  composition, provider outcomes, usage accounting, the `AgentOrchestrator`
  class, and the lemmas about them.
- `scenarios.dfy` (module `Scenarios`): client methods that use only the
  contracts above. They store in call order, clear twice, and run a task on
  an empty store.

State that the source updates in place is modelled as classes.
`ContextManager` holds `userContexts: map<UserId, UserContext>` and
`userOrder`. `userOrder` is the key order that a JavaScript `Map` iterates,
which `getAllUsers` returns. `AgentOrchestrator` holds the context manager
and `usageStats: map<UserId, UsageRecord>`. Each state-changing method is
stated against a pure function of the old state: `AddEntry`, `RemoveUser`,
`RecordRequest`. The lemmas prove what those functions promise.
`formatContextForPrompt` appends with two `forEach` loops. It is a method
whose loops (`AppendEach`) are proved against the `Render` function.

The provider is a parameter of `ExecuteTask`. It is a function from the
prompt and token ceiling to an outcome: generated text with usage and cost,
or an error message. `ExecuteTask` also returns the request it sent (`None`
when it threw first), so "the provider is not asked" can be stated.

Behaviour of the code worth knowing:

- A store of a type other than `qa`/`document` creates the user's record,
  appends nothing and reports success.
- An unknown task type throws before the `try`, so `executeTask` does not
  always return a result object (`Threw`).
- The truncation cut needs a line break at an index above 0. A block whose
  only line break inside the limit is its first character is cut hard at
  8000 characters, with no marker.
- A cut result can be up to 7999 + 23 characters, so it may be longer than
  8000.

## Model

| member | source | states |
|---|---|---|
| `Context.AddEntry` | src/context/manager.js:16-32 | a `qa` store appends exactly one entry with the given question and answer to the end of `qa` and leaves `documents` alone; a `document` store does the same for `documents`; any other kind leaves the record as it was |
| `Context.StoresAppendInOrder` | src/context/manager.js:7-35 | after any sequence of stores, each list is the old list followed by the carried entries in call order, and has grown by exactly the number of requests of its kind |
| `Context.ContextManager.constructor` | src/context/manager.js:2-5 | a new manager has no users |
| `Context.ContextManager.StoreContext` | src/context/manager.js:7-35 | creates the user's empty record on first use (the user joins the end of the key order), applies the store to that record only, leaves every other user's record unchanged, and always reports success |
| `Context.ContextManager.GetContext` | src/context/manager.js:37-39 | never fails: a known user's record, or empty Q&A and document lists for an unknown user |
| `Context.AppendEach` | src/context/manager.js:45-57 | the `forEach`/`+=` loop leaves the text followed by every entry's item, in list order |
| `Context.RenderEachConcat` | src/context/manager.js:47-56 | rendering a concatenation of entry lists is the concatenation of their renderings, so entries are never reordered or merged |
| `Context.EntryRenderedInPlace` | src/context/manager.js:47-56 | entry i's item appears exactly between the rendering of the entries before it and of those after it (insertion order) |
| `Context.SectionAppend` | src/context/manager.js:45-57 | adding an entry to a list adds its item at the end of that list's section, and opens the section with its header when the list was empty |
| `Context.RenderEmptyIff` | src/context/manager.js:41-58 | the raw block is empty exactly when both lists are empty |
| `Context.SectionOrder` | src/context/manager.js:45-57 | the block opens with the Q&A header when there are Q&A entries, otherwise with the document header; the document header starts right after the whole Q&A section |
| `Context.RenderAfterStore` | src/context/manager.js:18-57 | after a `qa` store the block differs only by the new Q&A item at the end of the Q&A section; after a `document` store, only by the new item at the end of the block; any other kind leaves the block unchanged |
| `Context.ContextManager.FormatContextForPrompt` | src/context/manager.js:41-60 | the returned text is the truncation of the rendered record, Q&A section first, each in insertion order |
| `Context.LastIndexOf` | src/context/manager.js:68 | the result is -1 or a position holding the character, and no later position holds it |
| `Context.Truncate` | src/context/manager.js:62-71 | identity within 8000 characters; above it, with the last line break of the first 8000 characters at k > 0, the first k characters plus the marker; with no line break after position 0, exactly the first 8000 characters; never longer than 7999 plus the marker's length |
| `Context.TruncateKeepsPrefix` | src/context/manager.js:66-70 | the result is a prefix of the input, optionally followed by the marker placed where the input had a line break |
| `Context.TruncateEmptyIff` | src/context/manager.js:62-71 | truncation gives the empty text exactly for the empty input |
| `Context.FormattedEmptyIff` | src/context/manager.js:41-60 | the formatted context is empty exactly when the user has neither Q&A entries nor documents |
| `Context.ContextManager.GetAllUsers` | src/context/manager.js:73-75 | lists every user that has a record, each once, and nobody else |
| `Context.RemoveUser` | src/context/manager.js:78 | the user is gone from the key order; every other user stays exactly when it was there; an order without the user is returned unchanged |
| `Context.RemoveUserConcat` | src/context/manager.js:77-80 | removal works piecewise on any split of the key order, so the remaining users keep their relative order |
| `Context.RemoveUserIdempotent` | src/context/manager.js:77-80 | removing a user a second time changes nothing |
| `Context.RemoveUserKeepsDistinct` | src/context/manager.js:73-80 | removal keeps the key order free of repetitions |
| `Context.ContextManager.ClearContext` | src/context/manager.js:77-80 | drops the user's record whether or not it existed, keeps every other record and the order of the other users, and always reports success |
| `Agents.ValidateTaskType` | src/agents/orchestrator.js:65-70 | passes exactly `analysis`, `writing` and `research`; any other value fails with `Invalid task type: <t>. Valid types are: analysis, writing, research` |
| `Agents.JoinValidTaskTypes` | src/agents/orchestrator.js:66-68 | the list of valid types joined with `, ` reads `analysis, writing, research` |
| `Agents.EnhancePrompt` | src/agents/orchestrator.js:54-63 | the result is the task type's persona, a blank line, then the prompt unchanged as a suffix |
| `Agents.PersonaIff` | src/agents/orchestrator.js:55-61 | two task types get the same persona exactly when they are equal or both unknown: the three known types have distinct personas and every other value gets the generic one |
| `Agents.PersonasDifferEarly` | src/agents/orchestrator.js:55-61 | two different personas differ within their first eleven characters |
| `Agents.EnhancePromptInjective` | src/agents/orchestrator.js:54-63 | equal enhanced prompts come from the same persona and the same prompt |
| `Agents.ComposePrompt` | src/agents/orchestrator.js:16-27 | the task description is always the suffix; the prompt is the bare description exactly when context is not wanted or is empty; otherwise it is exactly the context, the `=== Task ===` header and the task description, with nothing in between |
| `Agents.ContextSectionIff` | src/agents/orchestrator.js:18-27 | with context requested, the prompt is the bare task description (no task header) exactly when the user has stored nothing |
| `Agents.TaskPromptFrame` | src/agents/orchestrator.js:16-29 | the text sent to the provider always opens with the persona and ends with the caller's prompt, whatever the context |
| `Agents.ResultOf` | src/agents/orchestrator.js:31-51 | success exactly for a generated answer, whose content, usage and cost are passed through unchanged; a failure carries the provider's message; both carry the task type |
| `Agents.RecordRequest` | src/agents/orchestrator.js:82-94 | one more request, tokens and cost added (so neither total ever decreases, cost being non-negative), the history gains the new entry last and is the most recent min(n + 1, 100) entries |
| `Agents.RecordRequestKeepsInvariant` | src/agents/orchestrator.js:72-94 | from a zeroed or well-formed record, recording keeps the history length equal to min(totalRequests, 100) |
| `Agents.ReplayFromZero` | src/agents/orchestrator.js:72-94 | after N successful calls, totalRequests is N and the token and cost totals are the exact sums (never capped), while the history holds the last min(N, 100) entries in call order |
| `Agents.ReplayNeverDecreases` | src/agents/orchestrator.js:82-85 | over any run of successful calls, the request count grows by exactly the number of later calls and the token and cost totals never decrease |
| `Agents.AgentOrchestrator.constructor` | src/agents/orchestrator.js:5-9 | a new orchestrator owns a fresh, empty context manager and no usage records |
| `Agents.AgentOrchestrator.GetUserStats` | src/agents/orchestrator.js:97-104 | a known user's stored record; a zeroed record for a user without successful requests, and nothing is inserted; when the store is well formed, totalRequests is 0 exactly for such users and the history length is min(totalRequests, 100) |
| `Agents.AgentOrchestrator.UpdateUsageStats` | src/agents/orchestrator.js:72-95 | only the user's record changes, to the recorded request applied to its previous (or zeroed) record; every record stays well formed |
| `Agents.AgentOrchestrator.ExecuteTask` | src/agents/orchestrator.js:11-52 | an invalid task type throws, the provider is not asked and nothing changes; otherwise the composed, enhanced prompt is sent with the requested or default (1000) token ceiling; a generated answer is returned unchanged and recorded; a provider error becomes a failed result with counters unchanged; stored context never changes |
| `Agents.AgentOrchestrator.StoreContext` | src/agents/orchestrator.js:106-108 | delegates to the context manager's store with the same effect; usage counters unchanged |
| `Agents.AgentOrchestrator.GetContext` | src/agents/orchestrator.js:110-112 | the context manager's answer: the stored record, or empty lists for an unknown user |

## Left out

- Entry ids, `contextId`, timestamps and `createdAt` are not modelled. They
  come from the clock (`Date.now()`, `new Date()`), and ids made in the same
  millisecond collide, so uniqueness is not claimed.
- The Anthropic provider (`src/providers/anthropic.js`) is not part of this
  model: the SDK call, the model name, the `options.maxTokens || 4000`
  fallback, and `calculateCost`'s floating-point rates with `toFixed(6)`
  rounding. The provider is a function parameter of `ExecuteTask`. Costs are
  exact non-negative `real`s (`Money`) that are only summed: the model
  assumes the non-negativity that the provider's cost computation gives.
- Request validation schemas, HTTP routes, server start-up, configuration and
  the React client are not part of this model. They are plumbing around the
  two components.
- `async`/`await`: the model runs sequentially, and the provider call is one
  opaque step.
- ContextManager.StoreContext: payload fields are modelled as strings. A
  missing field (which JavaScript would store as `undefined` and render as
  the word `undefined`) is not modelled.
- ContextManager.StoreContext: the throwing path is not modelled, and the
  model's store always succeeds. `storeContext` throws a TypeError when the
  request itself is missing (`contextData.type`, manager.js:18). It also
  throws when a `qa` or `document` request has no `data` object
  (manager.js:21, 28). In both cases a new user's empty record has already
  been created (manager.js:8-14), so the failed store is partly applied.
- Truncate: lengths count Dafny characters, not JavaScript's UTF-16 code
  units, so text outside the Basic Multilingual Plane is counted differently.
- ContextManager.GetContext: JavaScript returns the live stored object, which
  a caller could mutate. The model returns a value, so this aliasing is not
  captured. `getUserStats` is the same.
- EnhancePrompt: the JavaScript table lookup also finds inherited object
  properties, such as `constructor` or `toString`, and would use their text
  as the persona. The model gives every value outside the three task types
  the generic persona. `executeTask` validates first, so this only matters
  for direct calls.
- AgentOrchestrator.ExecuteTask: `includeContext` and `maxTokens` are typed.
  JavaScript truthiness of non-boolean `includeContext` values is not
  modelled. A malformed provider usage object, which would throw inside the
  `try` after a partial counter update, is not modelled either.
- Usage counters are exact sums. Floating-point accumulation of `totalCost`
  is not modelled.
