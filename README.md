# uigen chat core in Dafny

This project models three pieces of uigen's chat. uigen is an app where a user chats with an AI that writes React components into a virtual file system.

- **Tool-call bubble** (`ToolInvocation`): turns a tool call into a short label. Examples are "Writing App.jsx..." while the call runs and "Wrote App.jsx" once it has a result. The label is chosen from the tool name, the command and the file name at the end of the path. A check mark or a spinner sits beside it.
- **Chat provider** (`ChatContext`): owns the text box.
  - It sends the text only when it holds something other than white space, then clears the box.
  - It records the transcript as anonymous work while no project is bound.
  - It hands every tool call to the file system unchanged.
  - It attaches the project id and the files serialized when the transport was built to every request it sends.
  - `useChat` fails outside a provider.
- **Authentication hook** (`UseAuth`): `signIn` and `signUp` raise a loading flag and call the server action. On success they move the user on:
  - to a project made from the anonymous work, if the buffer holds messages;
  - otherwise to their most recent project;
  - otherwise to a new empty "New Design #n" project.

  The flag is lowered on every way out, and a thrown error is passed on. The hook's own source is not part of this model. Its behaviour is modelled as `src/hooks/__tests__/use-auth.test.ts` asserts it.

Calls into collaborators the core does not own are recorded in order in a log field of the class. These are `sendMessage`, `setHasAnonWork`, `handleToolCall`, the server actions, `getAnonWorkData`, `clearAnonWork`, `getProjects`, `createProject` and `router.push`. The answers those collaborators give are inputs. The JavaScript built-ins the core uses are stated on `seq<char>` in `JsString`: `split`/`pop`, `trim`, falsiness and the decimal rendering of a number.

Files:

- `wrappers.dfy`: `Option` and `Result`.
- `js_string.dfy`: the JavaScript built-ins.
- `chat_types.dfy`: the message and file-system snapshot types.
- `tool_invocation.dfy`, `chat_context.dfy`, `use_auth.dfy`: the three pieces.

## Model

| member | source | states |
|---|---|---|
| JsString.Split | src/components/chat/ToolInvocation.tsx:24 | `split("/")` gives at least one part, no part contains the separator, and joining the parts with it gives back the string |
| JsString.LastPartIsFinalRun | src/components/chat/ToolInvocation.tsx:24 | what `pop` takes from the split is a suffix of the string without the separator, and is either the whole string or preceded by the separator |
| JsString.LastPartAfterSeparator | src/components/chat/ToolInvocation.tsx:24 | for `prefix + sep + last` with no separator in `last`, `pop` yields exactly `last` |
| JsString.LastPartWithoutSeparator | src/components/chat/ToolInvocation.tsx:24 | a string without the separator splits into itself, so `pop` yields it whole |
| JsString.LastPartAfterTrailingSeparator | src/components/chat/ToolInvocation.tsx:24 | a string ending in the separator has an empty last part |
| JsString.TrimStart | src/lib/contexts/chat-context.tsx:68 | leading trim keeps a suffix; everything dropped is white space; what is kept does not start with white space |
| JsString.TrimEnd | src/lib/contexts/chat-context.tsx:68 | trailing trim keeps a prefix; everything dropped is white space; what is kept does not end with white space |
| JsString.Trim | src/lib/contexts/chat-context.tsx:68 | `trim()` is a slice of the string with only white space outside it; it is empty exactly when every character is white space, and otherwise neither starts nor ends with white space |
| JsString.TrimsLeaveSlice | src/lib/contexts/chat-context.tsx:68 | trimming the start and then the end leaves a slice of the original string with only white space on either side of it |
| JsString.IsWhiteSpace | src/lib/contexts/chat-context.tsx:68 | the characters `trim()` removes: the ECMAScript WhiteSpace and LineTerminator code points; used by `JsString.Trim`, `TrimStart`, `TrimEnd` and `ChatContext.HasTextIff` |
| JsString.Falsy | src/components/chat/ToolInvocation.tsx:23 | `!path` holds for a missing or empty string; its consequences are stated by `ToolInvocation.FileName` ("file" when falsy) and `ChatContext.BoundProjectExcludesAnonWork` |
| JsString.Pop | src/components/chat/ToolInvocation.tsx:24 | `pop()` takes the last element; what it yields after `split` is stated by `JsString.LastPartIsFinalRun`, `LastPartAfterSeparator`, `LastPartWithoutSeparator` and `LastPartAfterTrailingSeparator` |
| JsString.DecimalString | src/hooks/__tests__/use-auth.test.ts:382 | rendering a number gives one or more digits, without a leading zero, that denote the number |
| ToolInvocation.FileName | src/components/chat/ToolInvocation.tsx:22-25 | never empty; "file" for a missing or empty path; otherwise either the whole path or the run after its last `/` |
| ToolInvocation.FileNameIsLastPart | src/components/chat/ToolInvocation.tsx:24 | `prefix/last` with a non-empty, slash-free `last` shows `last` |
| ToolInvocation.FileNameWithoutSlash | src/components/chat/ToolInvocation.tsx:24 | a path without `/` is shown unchanged |
| ToolInvocation.FileNameOfTrailingSlash | src/components/chat/ToolInvocation.tsx:24 | a path ending in `/` has an empty last part, so the `\|\| path` fallback shows the whole path |
| ToolInvocation.ArgsOf | src/components/chat/ToolInvocation.tsx:28 | `tool.args \|\| {}`; that a missing record labels like the empty one is stated by `ToolInvocation.MissingArgsReadAsEmpty` |
| ToolInvocation.GetMessage | src/components/chat/ToolInvocation.tsx:27-82 | `getMessage`; its table is stated by `EditorDispatch`, `FileManagerDispatch` and `UnknownToolLabels`, and its invariants by `LabelsDiffer`, `EditorLabelsNameTheFile` and `EditorIgnoresNewPath` |
| ToolInvocation.IsComplete | src/components/chat/ToolInvocation.tsx:86 | `isComplete`; what it selects is stated by `ToolInvocation.DisplayedLabel` and `ToolInvocation.ShownIcon` |
| ToolInvocation.LabelsDiffer | src/components/chat/ToolInvocation.tsx:27-82 | for every call, the pending and complete labels differ and the pending label ends in "..." |
| ToolInvocation.DisplayedLabel | src/components/chat/ToolInvocation.tsx:86-96 | the complete label is shown exactly when the state is "result", and the pending label exactly otherwise |
| ToolInvocation.ShownIcon | src/components/chat/ToolInvocation.tsx:90-94 | the check mark shows exactly when the complete label does, and the spinner exactly when the pending label does |
| ToolInvocation.DisplayedLabelIgnoresResult | src/components/chat/ToolInvocation.tsx:86 | the result payload never changes what is shown |
| ToolInvocation.MissingArgsReadAsEmpty | src/components/chat/ToolInvocation.tsx:28 | missing arguments give the same labels as the empty record |
| ToolInvocation.EditorLabelsNameTheFile | src/components/chat/ToolInvocation.tsx:31-55 | for the editor tool, the complete label ends with the file name and the pending label with the file name and "..." |
| ToolInvocation.EditorIgnoresNewPath | src/components/chat/ToolInvocation.tsx:31-55 | for the editor tool, `new_path` never changes the labels |
| ToolInvocation.EditorDispatch | src/components/chat/ToolInvocation.tsx:31-55 | the editor table: create is writing/wrote, view is reading/read, str_replace and insert are editing/edited, anything else is working on/updated |
| ToolInvocation.FileManagerDispatch | src/components/chat/ToolInvocation.tsx:57-76 | the file-manager table: rename names the `new_path` file, delete and other commands name none, and `path` never matters |
| ToolInvocation.UnknownToolLabels | src/components/chat/ToolInvocation.tsx:78-81 | any other tool is "Working..." / "Done", whatever its arguments |
| ToolInvocation.CreatePendingScenario | src/components/chat/__tests__/ToolInvocation.test.tsx:9-21 | creating `/App.jsx` shows "Writing App.jsx..." while pending |
| ToolInvocation.CreateResultScenario | src/components/chat/__tests__/ToolInvocation.test.tsx:23-35 | creating `/App.jsx` shows "Wrote App.jsx" once done |
| ToolInvocation.StrReplacePendingScenario | src/components/chat/__tests__/ToolInvocation.test.tsx:37-49 | a str_replace on `/components/Button.tsx` shows "Editing Button.tsx..." |
| ToolInvocation.StrReplaceResultScenario | src/components/chat/__tests__/ToolInvocation.test.tsx:51-63 | the same call once done shows "Edited Button.tsx" |
| ToolInvocation.ViewPendingScenario | src/components/chat/__tests__/ToolInvocation.test.tsx:65-77 | viewing `/index.js` shows "Reading index.js..." |
| ToolInvocation.ViewResultScenario | src/components/chat/__tests__/ToolInvocation.test.tsx:79-91 | viewing `/index.js` once done shows "Read index.js" |
| ToolInvocation.InsertPendingScenario | src/components/chat/__tests__/ToolInvocation.test.tsx:93-105 | an insert into `/utils.ts` shows "Editing utils.ts..." |
| ToolInvocation.RenamePendingScenario | src/components/chat/__tests__/ToolInvocation.test.tsx:107-119 | a rename shows "Renaming file..." while pending |
| ToolInvocation.RenameResultScenario | src/components/chat/__tests__/ToolInvocation.test.tsx:121-133 | renaming to `/new.js` shows "Renamed to new.js" once done |
| ToolInvocation.DeletePendingScenario | src/components/chat/__tests__/ToolInvocation.test.tsx:135-147 | a delete shows "Removing file..." while pending |
| ToolInvocation.DeleteResultScenario | src/components/chat/__tests__/ToolInvocation.test.tsx:149-161 | a delete shows "Removed file" once done |
| ToolInvocation.MissingArgsScenario | src/components/chat/__tests__/ToolInvocation.test.tsx:193-204 | an editor call without arguments shows "Working on file..." |
| ToolInvocation.UnknownToolScenario | src/components/chat/__tests__/ToolInvocation.test.tsx:206-230 | an unknown tool shows "Working..." while pending and "Done" once done |
| ToolInvocation.NestedPathScenario | src/components/chat/__tests__/ToolInvocation.test.tsx:232-244 | a nested path shows only its last part |
| ChatContext.HasText | src/lib/contexts/chat-context.tsx:68 | the guard `input.trim()`; its meaning is stated by `ChatContext.HasTextIff` and `ChatContext.ChatProvider.HandleSubmit` |
| ChatContext.ShouldTrackAnonWork | src/lib/contexts/chat-context.tsx:76 | the guard `!projectId && messages.length > 0`; stated by `ChatContext.BoundProjectExcludesAnonWork` and `ChatContext.ChatProvider.TrackAnonWork` |
| ChatContext.TransportBody | src/lib/contexts/chat-context.tsx:40-46 | the request body built with the transport; `ChatContext.ChatProvider.HandleSubmit` sends it with every message, and `ChatContext.StaleSnapshotScenario` shows it keeps the snapshot from when it was built |
| ChatContext.HasTextIff | src/lib/contexts/chat-context.tsx:68 | the submit guard holds exactly when some character of the input is not white space |
| ChatContext.BoundProjectExcludesAnonWork | src/lib/contexts/chat-context.tsx:40-46 | a request body naming a project never goes with an anonymous-work record; without a project id, every non-empty transcript is recorded |
| ChatContext.UseChat | src/lib/contexts/chat-context.tsx:96-102 | succeeds with the provider's value exactly when there is a provider, and fails with "useChat must be used within a ChatProvider" otherwise |
| ChatContext.ChatProvider.constructor | src/lib/contexts/chat-context.tsx:32-46 | a provider starts with an empty text box, no calls made, and a transport whose body holds its project id and the files serialized at mount |
| ChatContext.ChatProvider.RebuildTransport | src/lib/contexts/chat-context.tsx:40-46 | rebuilding the memoised transport puts the files serialized now into its body, and the body keeps naming the provider's project |
| ChatContext.ChatProvider.HandleInputChange | src/lib/contexts/chat-context.tsx:62-64 | the text box takes exactly the typed value; nothing is sent |
| ChatContext.ChatProvider.HandleSubmit | src/lib/contexts/chat-context.tsx:66-72 | text with something besides white space is sent once, untrimmed, with the transport's body, which names the provider's project, and the box is cleared; otherwise nothing is sent and the text stays |
| ChatContext.ChatProvider.TrackAnonWork | src/lib/contexts/chat-context.tsx:74-79 | the transcript and snapshot are recorded exactly when no project id is set and the transcript is not empty |
| ChatContext.ChatProvider.OnToolCall | src/lib/contexts/chat-context.tsx:55-57 | every tool call reaches the file system's handler unchanged, after the earlier calls |
| ChatContext.ChatProvider.Value | src/lib/contexts/chat-context.tsx:83-89 | the exposed value carries the provider's current input and the chat stream's transcript and status unchanged |
| ChatContext.DefaultsScenario | src/lib/contexts/__tests__/chat-context.test.tsx:78-88 | a fresh provider offers an empty input and no messages |
| ChatContext.AnonWorkScenario | src/lib/contexts/__tests__/chat-context.test.tsx:118-138 | without a project id a non-empty transcript is recorded with the snapshot |
| ChatContext.BoundProjectScenario | src/lib/contexts/__tests__/chat-context.test.tsx:140-157 | with a project id nothing is recorded |
| ChatContext.ToolCallScenario | src/lib/contexts/__tests__/chat-context.test.tsx:181-199 | a tool call is forwarded as it came |
| ChatContext.TypeAndSubmitScenario | src/lib/contexts/__tests__/chat-context.test.tsx:216-233 | typing "Hello" and submitting sends "Hello" once, with the files from mount, and clears the box |
| ChatContext.StaleSnapshotScenario | src/lib/contexts/chat-context.tsx:40-46 | a message sent before the transport is rebuilt carries the snapshot from mount; one sent after carries the new snapshot |
| ChatContext.BlankSubmitScenario | src/lib/contexts/chat-context.tsx:68-71 | submitting white space only sends nothing and keeps the text |
| UseAuth.Decide | src/hooks/__tests__/use-auth.test.ts:253-409 | the buffer is used exactly when it holds messages; otherwise the most recent project exactly when there is one; otherwise a new empty project |
| UseAuth.MigrationEffects | src/hooks/__tests__/use-auth.test.ts:253-409 | the steps after a successful action; stated by `UseAuth.MigratesAnonWork`, `UseAuth.FallsBackToProjects` and `UseAuth.MigrationNavigatesOnce` |
| UseAuth.AuthTrace | src/hooks/__tests__/use-auth.test.ts:57-468 | the whole run of `signIn`/`signUp`; stated by `UseAuth.LoadingBracketsRun`, `UseAuth.NavigatesOnlyOnSuccess`, `UseAuth.FailureOnlyTogglesLoading` and `UseAuth.ClearsBufferIffUsed`, and carried out by `UseAuth.AuthHook.SignIn`/`SignUp` |
| UseAuth.Destination | src/hooks/__tests__/use-auth.test.ts:253-409 | the project a successful run opens; stated by `UseAuth.MigrationNavigatesOnce` and `UseAuth.NavigatesOnlyOnSuccess` |
| UseAuth.UsableAnonWork | src/hooks/__tests__/use-auth.test.ts:305-325 | a buffer is used only when it exists and holds at least one message; stated by `UseAuth.Decide` and `UseAuth.ClearsBufferIffUsed` |
| UseAuth.DesignFromName | src/hooks/__tests__/use-auth.test.ts:270-274 | the name of a project made from anonymous work is "Design from " followed by the clock text; used by `UseAuth.MigratesAnonWork` |
| UseAuth.ProjectUrl | src/hooks/__tests__/use-auth.test.ts:276 | the route of a project is "/" followed by its id; used by `UseAuth.MigrationNavigatesOnce` and the scenarios |
| UseAuth.NewDesignName | src/hooks/__tests__/use-auth.test.ts:382 | the fallback project name is "New Design #" followed by one or more digits that denote the random number |
| UseAuth.Navigations | src/hooks/__tests__/use-auth.test.ts:118 | the routes pushed are exactly the navigation steps of the trace |
| UseAuth.LoadingBracketsRun | src/hooks/__tests__/use-auth.test.ts:57-83 | the flag is raised first, the action is called next with the credentials as given, the flag is lowered last whatever the outcome, and it does not change in between |
| UseAuth.MigrationNavigatesOnce | src/hooks/__tests__/use-auth.test.ts:253-409 | after success exactly one route is pushed, to the destination project |
| UseAuth.NavigatesOnlyOnSuccess | src/hooks/__tests__/use-auth.test.ts:104-120 | a failed or thrown action pushes no route; a successful one pushes exactly one |
| UseAuth.FailureOnlyTogglesLoading | src/hooks/__tests__/use-auth.test.ts:122-151 | a failed or thrown action only raises and lowers the flag around the call; no project, buffer or route is touched |
| UseAuth.ClearsBufferIffUsed | src/hooks/__tests__/use-auth.test.ts:305-325 | the buffer is cleared exactly when the action succeeds and the buffer holds messages |
| UseAuth.MigratesAnonWork | src/hooks/__tests__/use-auth.test.ts:253-277 | with a usable buffer: create "Design from ..." from its messages and files, clear it, open the new project; the project list is not read |
| UseAuth.FallsBackToProjects | src/hooks/__tests__/use-auth.test.ts:329-409 | without a usable buffer the project list is read and the buffer kept; with projects the first opens and nothing is created; with none a "New Design #n" project is created empty and opened |
| UseAuth.AuthHook.constructor | src/hooks/__tests__/use-auth.test.ts:41-46 | the flag starts lowered |
| UseAuth.AuthHook.Begin | src/hooks/__tests__/use-auth.test.ts:57-76 | up to the await, the flag is raised and the action called with the credentials |
| UseAuth.AuthHook.Settle | src/hooks/__tests__/use-auth.test.ts:122-151 | after the await, the migration runs on success, the flag is lowered on every way out, and the action's outcome is handed back |
| UseAuth.AuthHook.SignIn | src/hooks/__tests__/use-auth.test.ts:85-102 | `signIn` returns the action's outcome, leaves the flag lowered and appends exactly the specified run to the log |
| UseAuth.AuthHook.SignUp | src/hooks/__tests__/use-auth.test.ts:183-200 | `signUp` returns the action's outcome, leaves the flag lowered and appends exactly the specified run to the log |
| UseAuth.LoadingScenario | src/hooks/__tests__/use-auth.test.ts:57-83 | the flag is lowered before, raised while the action is pending, and lowered after |
| UseAuth.FailedSignInScenario | src/hooks/__tests__/use-auth.test.ts:104-120 | a failed sign-in returns the action's error result and pushes no route |
| UseAuth.AnonWorkSignInScenario | src/hooks/__tests__/use-auth.test.ts:253-277 | a one-message buffer becomes the new project, is cleared, and the user goes to "/new-project-123" |
| UseAuth.ExistingProjectScenario | src/hooks/__tests__/use-auth.test.ts:305-325 | a buffer with no messages is ignored and kept; the project list is read and the user goes to "/existing-project" without anything created |
| UseAuth.NoProjectsScenario | src/hooks/__tests__/use-auth.test.ts:389-409 | on sign-up with no buffer and no projects, an empty "New Design #n" project is created and the user goes to "/fresh-project" |

## Left out

- React machinery is not modelled: rendering, JSX, CSS classes, hooks' re-render scheduling and the context object itself. `useEffect` is modelled as a method the caller runs with the current transcript and snapshot.
- The AI SDK's `useChat`/`DefaultChatTransport` are not modelled. The transcript and `status` are inputs, and `sendMessage` is a logged call. The chat stream, the `/api/chat` endpoint and the `status` values are outside this model.
- `sendMessage` is called whatever the stream status is. `chat-context.tsx:66-72` has no status check, so the model does not refuse a submission while a reply is streaming.
- The file system context is not modelled: `serialize()` is a `Snapshot` value passed in, and `handleToolCall` is a logged call. What the tool call does to the files is outside this model.
- The message type is kept opaque (an id, a role and text parts). The core never looks inside a message except to count the transcript.
- The hook `src/hooks/use-auth.ts` is not part of this model. Its behaviour comes from what `use-auth.test.ts` asserts. The tests fix which calls are made and with what arguments. `createProject` must come before the `push` that uses its id. Reading the buffer only after success, and `clearAnonWork` between `createProject` and `push`, are this model's choice.
- Failures of `getProjects` or `createProject` after a successful action are not modelled: no test exercises them and the hook's source is not available.
- The clock and the random number are parameters. `timeText` is the time text inside "Design from ...". `designNumber` is the number inside "New Design #...". The model does not check that `timeText` has the `h:m:s` shape the tests match.
- `ToolInvocationData.result` is an optional string, not an arbitrary value. It never affects the label.
- `trim` is modelled with the ECMAScript WhiteSpace and LineTerminator code points over `char`. A Dafny `char` is a Unicode scalar value, not a UTF-16 code unit. A character outside the Basic Multilingual Plane is one `char` here but two units in JavaScript, and a lone surrogate cannot be represented. Strings holding a lone surrogate are therefore outside the model. For every other string the split and trim results are the same sequence of characters, since no white-space character and no `/` is a surrogate.
- The transport is memoised on the file system and the project id. The model rebuilds it only when `RebuildTransport` is called, and the project id of a mounted provider never changes. When React re-runs the memo is not modelled: that depends on the file-system context's object identity, which is not part of this model. The model assumes the chat hook sends with the transport of the latest render.
- `initialMessages` are handed to the AI SDK's chat hook as its starting transcript. That hook is not modelled, and the transcript is an input, so the provider does not keep them.
