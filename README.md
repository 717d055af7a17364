# Agent chat widget: message-log state machine and its guards

This project models the core of the "Agent" chat micro-frontend, a widget that a host
shell mounts and that forwards each typed message to a translation backend. The model
covers three pieces:

- **The `useChat` hook** (`chat.dfy`, module `Chat`). A `ChatController` class holds the
  hook's state: `messages`, `input`, `busy`, `error` and `tunnelId`. The asynchronous
  `send` is split into its sequential steps:
  - `BeginSend` appends a `sent` user entry and a `pending` agent entry, raises `busy`
    and clears `error`.
  - `ResolveSuccess` or `ResolveFailure` settles the agent entry by id and drops `busy`.

  `Send` runs the two steps one after the other. The list transforms are pure functions:
  `AppendPair`, and `SettleById`, which is update-by-id written as a map over the log.
  The translation request appears only as its `Outcome`: `Ok(translated, lang)` or
  `Err(message)`.
- **The entry component `App`** (`gate.dfy`, module `Gate`). It picks the effective
  configuration and opens the gate only when the token is exactly `NICORIVERA`. It
  resolves the display name through the `auth.user.name` → `user.name` → placeholder
  chain. It constructs the main screen only behind an open gate.
- **The main screen `AgentScreen`** (`agent_screen.dfy`, module `Screen`). It guards every
  send: the hook's own `send` refuses nothing. `HandleSend` refuses whitespace-only input
  and sends made while `busy`. Otherwise it sends the trimmed text and clears the input.
  `HandleDelayNotify` shows the delayed notice only when the host supplied `notify`.
  `Complete` settles the send in flight. Every screen operation keeps the screen's
  invariant: `busy` is raised exactly while one send is in flight, and that send's agent
  entry is the only pending entry. The hook alone does not keep it
  (`Chat.UnguardedSendsBothPending`).

Support modules: `Options` (an optional value), `Host` (the host configuration record),
and `JsString` (JavaScript's `trim` and `toUpperCase`).

Where the guards live, and what the hook does not do:
- The hook's `send` has no guard of its own (`src/hooks/useChat.ts:32`). It accepts any
  text in any state, so `ChatController.BeginSend` has no precondition on the text or on
  `busy`. The "empty text or busy" guard exists only in `AgentScreen.handleSend`
  (`src/components/agent/AgentScreen.tsx:22`).
- `src/hooks/useChat.ts` has no branch for a "soft fallback" reply. Every `Ok` outcome is a
  success.

## Model

| member | source | states |
|---|---|---|
| `JsString.Trim` | src/components/agent/AgentScreen.tsx:22-23 | `input.trim()` is a contiguous slice of the input with only whitespace removed on either side, and neither of its ends is whitespace |
| `JsString.TrimEmptyIffBlank` | src/components/agent/AgentScreen.tsx:22 | `!input.trim()` holds exactly when the input is empty or all whitespace |
| `JsString.UpperChar` | src/hooks/useChat.ts:58 | a lower-case ASCII letter maps to its capital, and the result is never a lower-case ASCII letter; every other character is kept (a simplification, see "Left out") |
| `JsString.Upper` | src/hooks/useChat.ts:58 | `lang.toUpperCase()` keeps the length, maps each character by `UpperChar`, and leaves no lower-case ASCII letter |
| `Chat.SuccessText` | src/hooks/useChat.ts:58 | the success text opens with `Traducción (`, carries the upper-cased language tag right after it, then `): `, and ends with the translation |
| `Chat.Settle` | src/hooks/useChat.ts:54-73 | a settled entry keeps its id, role and creation time and is never pending; on success it is `sent`, shows the success text and records `translated`; on failure it is `error`, shows `Error al traducir` and its `translated` is unchanged |
| `Chat.AppendPair` | src/hooks/useChat.ts:47 | the log grows by exactly two entries at its end, user first and agent second, and every earlier entry is unchanged |
| `Chat.SettleById` | src/hooks/useChat.ts:53-73 | update-by-id keeps the log's length and order, settles every entry with the given id, and leaves every other entry identical |
| `Chat.SettleAbsentIsNoOp` | src/hooks/useChat.ts:54-62 | update-by-id is a no-op when the id is absent, for example after `resetTunnel` emptied the log mid-flight |
| `Chat.SettleByIdAppend` | src/hooks/useChat.ts:69-73 | update-by-id distributes over concatenation of logs |
| `Chat.SendThenSettle` | src/hooks/useChat.ts:32-74 | with fresh ids, appending the pair and then settling the agent id changes only the agent entry: the result is the old log, the user entry, and the settled agent entry |
| `Chat.SettleKeepsIds` | src/hooks/useChat.ts:55-57 | update-by-id keeps the set of ids, so it keeps them unique |
| `Chat.AppendPairKeepsUnique` | src/hooks/useChat.ts:33-47 | appending two entries with fresh, distinct ids keeps ids unique and adds exactly those two ids |
| `Chat.SettleClearsPending` | src/hooks/useChat.ts:53-73 | settling by id removes exactly that id from the set of pending entries |
| `Chat.SettleChangesAtMostOne` | src/hooks/useChat.ts:53-63 | in a log with unique ids, update-by-id replaces at most one entry |
| `Chat.AppendPairPending` | src/hooks/useChat.ts:40-47 | appending a send's pair adds exactly the agent id to the set of pending entries |
| `Chat.UnguardedSendsBothPending` | src/hooks/useChat.ts:32-49 | the hook has no guard: two sends begun back to back leave two pending agent entries |
| `Chat.ChatController.constructor` | src/hooks/useChat.ts:15-20 | a new hook has an empty log and input, is not busy, has no error, and has its first tunnel id |
| `Chat.ChatController.SetInput` | src/hooks/useChat.ts:16 | `setInput` replaces the input buffer and nothing else |
| `Chat.ChatController.ResetTunnel` | src/hooks/useChat.ts:27-30 | `resetTunnel` empties the log and installs the new tunnel id; input, `busy` and `error` are unchanged |
| `Chat.ChatController.BeginSend` | src/hooks/useChat.ts:32-49 | the log becomes the old log plus the user entry (`sent`, the given text) and the agent placeholder (`pending`, `Traduciendo...`); `busy` is true; `error` is null; exactly the agent id becomes pending |
| `Chat.ChatController.ResolveSuccess` | src/hooks/useChat.ts:51-77 | the agent entry is settled as a success by id and at most one entry changes; `busy` is false; `error` is unchanged; the agent id is no longer pending |
| `Chat.ChatController.ResolveFailure` | src/hooks/useChat.ts:65-77 | `error` holds the failure message; the agent entry is settled as a failure by id and at most one entry changes; `busy` is false |
| `Chat.ChatController.Resolve` | src/hooks/useChat.ts:51-77 | the outcome selects the success or the failure branch; either way at most one entry changes and `busy` ends false |
| `Chat.ChatController.Send` | src/hooks/useChat.ts:32-78 | a whole send leaves the old log followed by the user entry and the settled agent entry; `busy` is false; `error` is null after a success and the message after a failure; the pending set is as before |
| `Gate.EffectiveConfig` | src/App.tsx:14-15 | the effective configuration is the local one when it is defined, otherwise the host's |
| `Gate.UserName` | src/App.tsx:17-18 | the display name is `auth.user.name` if present, else `user.name` if present, else the placeholder; an empty name is kept |
| `Gate.Render` | src/App.tsx:15-27 | the main screen renders exactly when the effective configuration exists and its token equals `NICORIVERA`, and it gets that configuration and the resolved name; otherwise only the tester renders |
| `Gate.NoConfigIsRejected` | src/App.tsx:16-24 | with no configuration at all, only the tester renders |
| `Gate.AppliedConfigDecides` | src/App.tsx:15-23 | once a configuration is applied, the gate is open exactly when the applied token is `NICORIVERA`, whatever the host passed |
| `Gate.LocalShadowsProp` | src/App.tsx:14-15 | once a local configuration exists, which prop the host passes makes no difference to the rendered view |
| `Gate.App.constructor` | src/App.tsx:14 | the local configuration starts as the host's |
| `Gate.App.HostRender` | src/App.tsx:13-15 | a re-render with a new prop keeps the local configuration; while one exists the rendered view is unchanged, and only without one does the new prop decide the gate |
| `Gate.App.ApplyConfig` | src/App.tsx:20-24 | the tester applies a configuration only while the gate is closed; the applied configuration replaces the local one, the host prop stays, and the gate is then decided by the applied token alone |
| `Gate.App.Mount` | src/App.tsx:20-27 | at the render where the gate is first open (or while it is closed), a closed gate constructs no screen; an open gate constructs a fresh screen with the effective configuration and name, its own tunnel id, no notice and no send in flight, over a hook with an empty log and input, not busy, no error and its own tunnel id |
| `Gate.App.Rerender` | src/App.tsx:15-27 | a render with the gate still open keeps the mounted screen and its hook state, and hands it the current effective configuration and display name |
| `Screen.AgentScreen.constructor` | src/components/agent/AgentScreen.tsx:15-19 | a new screen owns a fresh, empty, idle hook and its own tunnel id, shows no delayed notice, and has no send in flight |
| `Screen.AgentScreen.ReceiveProps` | src/components/agent/AgentScreen.tsx:10-15 | new props replace the configuration and display name; the screen's tunnel id, notice flag, send in flight and the whole hook state are kept |
| `Screen.AgentScreen.InputChange` | src/components/agent/AgentScreen.tsx:55 | typing replaces the hook's input buffer and nothing else |
| `Screen.AgentScreen.HandleSend` | src/components/agent/AgentScreen.tsx:21-25 | the send is dispatched exactly when the input is not all whitespace and the hook is not busy; if not dispatched, nothing changes; if dispatched, the log gains the pair carrying the trimmed input, the input is empty, `busy` is true, `error` is null, and that send is the one in flight; either way the screen invariant holds (`busy` exactly while one send is in flight, and its agent entry is the only pending one) |
| `Screen.AgentScreen.Complete` | src/hooks/useChat.ts:51-77 | the send in flight settles: its agent entry is settled by id and at most one entry changes; `busy` is false; no entry is pending; `error` holds the failure message or is unchanged; nothing is in flight any more |
| `Screen.AgentScreen.NewTunnel` | src/components/agent/AgentScreen.tsx:53 | the screen's "new tunnel" installs a new screen tunnel id and leaves the hook's log alone |
| `Screen.AgentScreen.HandleDelayNotify` | src/components/agent/AgentScreen.tsx:27-29 | without a host `notify`, the notice flag is unchanged; with one, the flag is true |

## Left out

- The HTTP request of `src/api/translate.ts` is reduced to its `Outcome`. The error text `API <status>: <statusText>` is not built. A failure carries its message as an opaque string.
- `createId` (`src/utils/id`) and `Date.now()` are not part of this model. Ids and times are parameters. `BeginSend` and `HandleSend` require the two ids to be distinct and absent from the log, which is the freshness the generator is trusted to give.
- Nothing requires a new tunnel id to differ from the old one. Its freshness is likewise left to the generator.
- The auto-scroll effect (`src/hooks/useChat.ts:22-25`) is left out because it is a DOM side effect.
- The timer callback of `handleDelayNotify` (`src/components/agent/AgentScreen.tsx:30-36`) is left out: it calls `notify` and hides the notice about ten seconds later. The host's `notify` is modelled only as present or absent (`HostConfig.hasNotify`). The header's immediate "alert host" button is presentation and is left out too.
- A re-render in which the gate closes again unmounts the screen and discards its hook state. That is not modelled: `Mount` covers the first render only.
- Asynchronous interleaving is not modelled. The steps can be called in any order, but only one sequence is modelled at a time. Interleavings are not explored beyond `Chat.UnguardedSendsBothPending`, which shows that the hook alone lets two sends be pending at once.
- `sendVoiceMock` is not modelled. `AgentScreen` uses it, but the hook shown does not define it.
- The screen calls `send(text, tunnelId)`, but the hook's `send` takes only the text and ignores the second argument. So the screen's tunnel id plays no part in a send.
- `ConfigTester`, `resolveApiBase`, `src/content/agent.json` and `src/types/hostConfig` are not part of this model. The anonymous placeholder is a parameter of `UserName`. The configuration's shape is the one `App.tsx` reads.
- The presentation components and `vite.config.ts` are left out because they are rendering and build configuration.
- JsString.UpperChar: maps only the ASCII letters `a`-`z` and keeps every other character; JavaScript also maps non-ASCII letters (`é` to `É`, for instance).
- JsString.Upper: maps only the ASCII letters `a`-`z`. JavaScript's full Unicode case mapping is not modelled, including mappings that change length, such as `ß` to `SS`.
- JsString.Trim: works on Unicode scalar values rather than UTF-16 code units. The whitespace set is ECMAScript's WhiteSpace and LineTerminator code points.
