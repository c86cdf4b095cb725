# Home Assistant chat assistant: a Dafny model of its turn logic

The program reads lines from the console. For each line it sends the chat
model three things: the conversation history, a system message summarising
the current state of a fixed allowlist of Home Assistant entities, and the
user's line. If the reply asks for tools, it runs them (`setLight`,
`toggleSwitch`), appends their outputs and asks the model a second time.
Then it prints the content of the last message in the history.

This project models four parts of that program:

- **Entity filter** (`Entities`). `getStates` keeps the backend states whose
  `entity_id` is in the allowlist, in backend order. The backend's list is
  an input.
- **State summary** (`Summary`). `getStateSummary` builds a fixed header
  followed by one line per entity, joined with newlines. The domain is
  `entity_id.split(".")[0]`. It is computed as a scan to the first dot and
  proved equal to the first piece of JavaScript's `split`, which `Strings`
  models together with `join`. The allowlist's ids are written as a domain
  and a name (`Entities.EntityId`), which spells the same strings. The
  `light` and `sensor` domains get an attribute part. zod's
  `parse` and bun's `inspect` together are one uninterpreted `Render`
  function. It may reject the attributes, because `parse` can throw.
- **Tool executors** (`Actions`). Each executor records exactly one service
  call in an abstract trace of backend commands and returns its fixed
  confirmation string.
- **History** (`Conversation`). The class `Chat` holds the module-level
  `messages` array as a sequence. `Chat.Turn` is one pass of the loop body.
  Its inputs are the model's two answers and the tool outputs, which stand
  in for the network calls. `Chat.Session` is the read loop over a sequence
  of such turns.

Some behaviour of the code is easy to misread:

- An id without a dot is not an error. Its whole id is its domain. So the
  ids `light` and `sensor` get their schema's attribute part, and any other
  dot-free id an empty one (apart from the inherited keys below). The
  summary throws for an empty domain (an empty id, or one that starts with
  `.`), when a schema's `parse` rejects the attributes, and, as written, for
  a domain that is an `Object.prototype` key (see Findings).
- A missing `friendly_name` is printed as `undefined`. The code does not
  fall back to the entity id.
- The summary message and the user's line go into the first request only.
  They are never stored in the history.
- A summary that throws is not caught inside the loop. It ends the program
  (`Crashed` stops `Session`); it does not just abort the turn.
- `if (message.tool_calls)` treats an empty array as true, so `Some([])`
  still takes the tool branch and a second completion follows.
- If the second completion has no choice, the printed text is the last tool
  output's content. With no outputs (`tool_calls` empty) it is the first
  response's content again.

## Model

| member | source | states |
|---|---|---|
| `Strings.Split` | index.ts:96 | `split` gives at least one piece; no piece contains the separator; exactly one piece iff the string has no separator |
| `Strings.SplitHead` | index.ts:96 | the first piece is the prefix up to the first separator (or the whole string) |
| `Strings.Join` | index.ts:111 | `Array.join`: the pieces with the separator between each two; no ensures, its partner is `Strings.SplitJoin` |
| `Strings.JoinSplit` | index.ts:111 | joining the pieces of a split gives back the string |
| `Strings.SplitJoin` | index.ts:111 | splitting a join of separator-free pieces gives back the pieces |
| `Entities.TemplateString` | index.ts:109 | how a template literal prints an attribute value: `null`, `true`/`false`, a number's text, a string itself, an array's elements joined by commas, `[object Object]`; no ensures, `Entities.FriendlyName` states what a line shows |
| `Entities.ElementString` | index.ts:109 | an array element inside a template literal: a `null` element prints empty, everything else as `TemplateString`; no ensures |
| `Entities.FriendlyName` | index.ts:95 | an absent `friendly_name` renders as `undefined`; a string one renders as itself |
| `Entities.GetStates` | index.ts:132-135 | the result is no longer than the backend list, and every kept state is allowlisted |
| `Entities.GetStatesCounts` | index.ts:134 | each state occurs in the result as often as in the backend list if allowlisted, else never: nothing added or dropped |
| `Entities.GetStatesMembership` | index.ts:134 | a state is in the result iff the backend reported it and it is allowlisted |
| `Entities.GetStatesConcat` | index.ts:134 | the filter distributes over concatenation, so backend order is kept |
| `Entities.GetStatesSingle` | index.ts:134 | a single state is kept iff it is allowlisted |
| `Entities.GetStatesKeepsAllowed` | index.ts:134 | a list of allowlisted states passes through unchanged |
| `Entities.GetStatesIdempotent` | index.ts:134 | filtering twice equals filtering once |
| `Summary.Domain` | index.ts:96-99 | the domain is dot-free and is the text before the first dot; an id without a dot is its own domain; the domain is empty iff the id is empty or starts with a dot |
| `Summary.DomainIsFirstPiece` | index.ts:96 | the domain is exactly the first piece of `split(".")` |
| `Summary.DomainOf` | index.ts:96 | the domain of `p.rest` is `p` for a dot-free `p` |
| `Summary.DomainOfPrefixed` | index.ts:96 | an id starting with `p.` has domain `p` |
| `Summary.InOperator` | index.ts:102-103 | `type in schemas` as written: `light` gets the light schema and `sensor` the sensor schema, no other domain has one, and a key inherited from `Object.prototype` is found too (finding below) |
| `Summary.OwnKey` | index.ts:102-103 | `light` gets the light schema and `sensor` the sensor schema; no other domain has one, and nothing is inherited |
| `Summary.SpecificData` | index.ts:101-108 | the attribute part: empty for a domain without a schema, the rendered attributes for `light` and `sensor`, the schema's rejection as an error, and as written a TypeError for an inherited key; no ensures, `Summary.SummaryShape` and `Summary.LineOutcome` state it |
| `Summary.LineText` | index.ts:109 | the line `"<friendly name>" (<id>): <state> <attribute part>`; no ensures |
| `Summary.Line` | index.ts:94-110 | the mapping callback: the missing-domain error for an empty domain, otherwise the line text around the attribute part, or that part's error; no ensures, `Summary.LineOutcome` states it |
| `Summary.FirstError` | index.ts:93-110 | mapping stops at the first thrown error; otherwise every value comes back in order |
| `Summary.Lines` | index.ts:93-110 | one line per state in order, or the error of the first failing state with all earlier ones succeeding |
| `Summary.LineOutcome` | index.ts:96-109 | a line fails iff the domain is empty, the lookup finds an inherited key, or the schema rejects the attributes; an empty domain gives the `Could not determine type` error; a domain without schema gives `"<name>" (<id>): <state> ` with an empty attribute part |
| `Summary.Assemble` | index.ts:111-113 | the header followed by the lines joined with newlines, or the first error; no ensures |
| `Summary.GetStateSummary` | index.ts:92-114 | `getStateSummary` with the own-key lookup; no ensures, `Summary.SummaryFailsIff`, `Summary.SummaryShape` and `Summary.SummaryBodySplits` state its properties |
| `Summary.GetStateSummaryAsWritten` | index.ts:92-114 | `getStateSummary` with `type in schemas` as written; no ensures, `Summary.AsWrittenAgreesOnAllowlist` and `Summary.InheritedKeyThrows` relate it to `GetStateSummary` |
| `Summary.SummaryFailsIff` | index.ts:93-113 | the summary fails iff some state has an empty domain or its schema rejects its attributes; the first failing state decides the error |
| `Summary.SummaryShape` | index.ts:93-113 | a summary is the header plus the lines joined by newlines, one per state; each line is `"<name>" (<id>): <state> <specificData>`, with `specificData` the rendered attributes under the domain's own schema for `light` and `sensor` and empty otherwise |
| `Summary.EmptySummary` | index.ts:111-113 | no states give the header with an empty body |
| `Summary.SummaryBodySplits` | index.ts:111-113 | when no line holds a newline, the text after the header splits back into exactly the lines, one per state |
| `Entities.WhitelistEntryDomain` | index.ts:12-27 | every entry of the allowlist (the constant `Entities.Whitelist`, the 14 ids of `whitelistedEntities` in order) starts with `light.`, `switch.` or `sensor.` |
| `Summary.WhitelistDomains` | index.ts:12-27 | every allowlisted id has domain `light`, `switch` or `sensor` |
| `Summary.AllowedLineFailsOnlyOnSchema` | index.ts:96-109 | the line of an allowlisted state can fail only through a schema rejection; with a schema check that always accepts, it succeeds |
| `Summary.FilteredSummaryFailsOnlyOnSchema` | index.ts:142 | the summary of the filtered backend list can fail only through a schema rejection; with a schema check that always accepts, it succeeds |
| `Summary.AllowlistDomainNotInherited` | index.ts:102 | for the allowlist's domains, `in` and the own-key lookup agree |
| `Summary.LinesAgree` | index.ts:93-110 | two lookups that agree on every state's domain give the same lines |
| `Summary.AsWrittenAgreesOnAllowlist` | index.ts:102 | on filtered backend states, the summary as written equals the own-key summary |
| `Summary.InheritedKeyThrows` | index.ts:102-107 | an id whose domain is an `Object.prototype` key makes the summary as written throw; the own-key summary gives an empty attribute part |
| `Actions.SetLight` | index.ts:54-57 | appends exactly one `light`/`turn_on` call carrying the input, keeps the earlier trace, returns `Light updated` |
| `Actions.ToggleSwitch` | index.ts:65-68 | appends exactly one `switch`/`toggle` call carrying the input, keeps the earlier trace, returns `Switch toggled` |
| `Actions.CommandTargetsInput` | index.ts:55-66 | the issued call's domain matches the tool and targets the entity it was given |
| `Actions.ToggleTwice` | index.ts:65-67 | toggling a switch twice issues the same toggle command twice and nothing else |
| `Conversation.Extend` | index.ts:151-170 | the history after a turn whose summary was built: unchanged without a message; the response alone without tool calls; otherwise the response, the tool outputs and the second answer if any; no ensures, its partner is `Conversation.ExtendAppends` |
| `Conversation.TurnSummary` | index.ts:142 | the summary of the allowlisted backend states, with the own-key lookup; equal to the summary as written by `Summary.AsWrittenAgreesOnAllowlist`; no ensures |
| `Conversation.Step` | index.ts:137-172 | one loop pass on values: a thrown summary crashes with the history unchanged, no message gives the logged `No message returned from OpenAI` line, otherwise `Extend` and the last message's content; no ensures, `Conversation.StepExtends`, `Conversation.PrintedContent` and `Conversation.Chat.Turn` state it |
| `Conversation.Replay` | index.ts:137-173 | the read loop on values: one `Step` per line, stopping after a crash; no ensures, `Conversation.ReplayAppendOnly`, `Conversation.ReplayWithoutErrors` and `Conversation.Chat.Session` state it |
| `Conversation.ExtendAppends` | index.ts:151-170 | a turn's history update only appends, at most 2 plus the number of tool outputs; no message means no change; otherwise the first response comes first |
| `Conversation.StepExtends` | index.ts:137-173 | a whole turn keeps the old history as a prefix and grows by at most 2 plus the number of tool outputs; it crashes exactly when the summary throws |
| `Conversation.PrintedContent` | index.ts:156-172 | no tool calls: the history grows by the response alone, which is printed; tool calls with a second answer: response, outputs, second answer, and that answer is printed even if it asks for tools again; no second choice: the history grows by the response and every output, and the last tool output is printed, or the first response again when there were no outputs |
| `Conversation.ReplayAppendOnly` | index.ts:116-173 | over any number of lines the history only grows from its start (so the system prompt stays first); at most one outcome per line; only the last outcome can be a crash, and a crash is what ends the loop early |
| `Conversation.ReplayWithoutErrors` | index.ts:137-173 | when no line's summary throws, every line gets an outcome and none is a crash |
| `Conversation.ReplayNeverCrashes` | index.ts:137-142 | with a schema check that always accepts, no line crashes through the summary, so every line gets an outcome (network failures are not modelled, see Left out) |
| `Conversation.Chat.constructor` | index.ts:116-123 | the history starts as the system prompt alone (the constant `Conversation.SystemPrompt`, the source's three-line text) |
| `Conversation.Chat.Turn` | index.ts:137-172 | a failing summary leaves the history alone and crashes. Otherwise: the first request is the history plus the summary and user messages, which are not stored; no message means no change and the `No message returned from OpenAI` line; the history then grows by the response, and only if it asks for tools by the outputs and the second answer; the second request is the stored history; the output is the last message's content; the system prompt stays first |
| `Conversation.Chat.Record` | index.ts:151-172 | the loop body after the summary: a thrown summary crashes and stores nothing; otherwise the same history, requests and output as `Chat.Turn`, in terms of the given summary |
| `Conversation.Chat.Session` | index.ts:137-173 | running the loop over a sequence of lines leaves the history and outcomes that `Replay` describes, with each line's summary built from its backend states |

## Left out

- The OpenAI chat-completion calls (index.ts:7-8, 138-149, 161-165) are network calls. Their answers are the `first` and `second` fields of `TurnInput`.
- The Home Assistant websocket client is left out (index.ts:125-130). Its `getStates` result is the `backend` field of `TurnInput`, and `callService` is an entry in the `Actions` trace.
- zod's schema validation of attributes (index.ts:71-90) is part of the uninterpreted `Render`.
- `createTools` and `processChatActions` (index.ts:35-53, 159) are left out: tool-name dispatch, parameter parsing, the `brightness_pct` 0 to 100 bound, call-id correlation and error messages happen inside the library. Their result is the `outputs` field of `TurnInput`. Nothing connects the outputs to `Actions.SetLight` or `Actions.ToggleSwitch`.
- bun's `inspect` formatting (index.ts:107) is part of the uninterpreted `Render`.
- Console input and output, `await` scheduling and environment configuration (index.ts:126-129, 137, 153, 172) are left out. A printed line is an `Outcome`.
- JavaScript numbers in attributes are kept as the text `String()` gives for them. Numbers in tool inputs are `real`. Floating point is not modelled.
- Failures of the network calls are not modelled. The loop has no `try`/`catch` (index.ts:137-173), so a rejected chat completion (index.ts:138, 161) or `client.getStates()` (index.ts:133) ends the program, as a thrown summary does. In the model these inputs are always present, and `Crashed` carries only a summary error. So `Conversation.ReplayNeverCrashes` excludes only crashes through the summary.
- Actions.SetLight, Actions.ToggleSwitch: always return their confirmation. A rejected `callService` (index.ts:55, 66), which makes the executor reject, is not modelled.
- Actions.ToggleTwice: states only the commands sent. Whether the switch ends where it started is up to the backend, which is not modelled.
- Conversation.Chat.Turn: the second choice is assumed to carry a message, as its declared type says. A choice without a message, which would push `undefined`, is not modelled.

## Findings

| source | as written | input that shows it | evidently intended | confidence | as-written member | corrected member |
|---|---|---|---|---|---|---|
| index.ts:102 | `type in schemas` also finds keys inherited from `Object.prototype`, so `schemas[type].parse` is undefined and the call throws a TypeError | an entity with id `constructor.hall` (any `Object.prototype` key as domain) | only `light` and `sensor` have a schema; every other non-empty domain gets an empty attribute part | not executed; standard `in` semantics on an object literal | `Summary.InheritedKeyThrows` | `Summary.OwnKey` |

The rest of the model uses `Summary.OwnKey`. The allowlist contains only
`light`, `switch` and `sensor` entities, so both lookups give the same
summary on the filtered states (`Summary.AsWrittenAgreesOnAllowlist`). The
running program is therefore not affected.
