# Brepub reader core, modelled in Dafny

Brepub is an EPUB reader: a web front-end, hosted in a thin native window, that
renders books through the `epubjs` library, lets the reader tune typography, and
asks the Gemini chat service to explain a selected passage. Almost all of it is
UI wiring. This project models the three pieces that hold logic of their own:

- **The settings store** (`SettingsStore`, src/settings.js). `SettingsManager`
  is a class holding the defaults table, the live mapping and the ordered
  listener list. `Browser` stands for the page: its `localStorage` slots and a
  trace of observable effects, that is, storage writes and listener calls in
  order. `set` updates one key, writes the whole mapping to the
  `reader-settings` slot, then calls every listener. The invariant `Valid()`
  says the slot, when filled, holds the mapping in memory. Two quirks are kept
  as written: the defaults have no `theme` key, and a stored mapping is loaded
  as it is, without filling in defaults.
- **The chat service** (`Gemini`, src/gemini.js). `GeminiService` has the fields
  `genAI`, `model` and `chatSession`. `configure`, `startChat` and `sendMessage`
  are guarded transitions with fixed error messages. The provider's answer is a
  parameter (`Reply`). A `ChatSession` records the messages sent on it. The
  model keeps three details of the code:
  - `configure('')` keeps the chat session.
  - The history-seeded session is replaced at once by an unseeded one.
  - The session is stored before the request, so it survives a failed start.
- **The reader** (`Reader`, src/reader.js). It covers:
  - the `selected` handler: trim, then suppress the menu for blank text, then
    the fixed anchor formula (`SelectionMenu`, `OnSelected`);
  - `injectStyle` as find-or-append on the document head, with its idempotence
    and last-write-wins laws;
  - `applyStyles`: its no-rendition guard, its growing content-hook registry,
    and its injection into existing views;
  - `load`: it destroys the previous book and then builds the new book and
    rendition step by step.

Three behaviours of the code are kept as written, though one might expect
otherwise:
- the settings are not always fully populated;
- `configure` with an empty key does not discard the chat session;
- `sendMessage` depends on the session alone, not on the model.

## Model

| member | source | states |
|---|---|---|
| `SettingsStore.Defaults` | src/settings.js:4-10 | the defaults table has exactly fontSize, lineHeight, readerWidth, fontFamily and apiKey, and no `theme` key |
| `SettingsStore.NotificationsInOrder` | src/settings.js:37-39 | one broadcast calls each listener exactly once, in subscription order, each time with the same snapshot |
| `SettingsStore.NotificationsAppend` | src/settings.js:38 | broadcasting to a list extended by one listener is the old broadcast followed by that listener's call (what the notify loop relies on) |
| `SettingsStore.Browser.SetItem` | src/settings.js:20 | `localStorage.setItem` overwrites exactly the named slot and is recorded as a storage write |
| `SettingsStore.SettingsManager.constructor` | src/settings.js:3-13 | a new store has the defaults table, the slot's mapping or else the defaults as its settings, an empty listener list, and satisfies the slot/memory invariant |
| `SettingsStore.SettingsManager.Load` | src/settings.js:15-17 | a filled slot is returned exactly as stored, with no defaults merged in; an empty slot yields the defaults |
| `SettingsStore.SettingsManager.Save` | src/settings.js:19-22 | the whole mapping is written to the `reader-settings` slot, then every listener is called with it, in order; afterwards the slot/memory invariant holds |
| `SettingsStore.SettingsManager.Get` | src/settings.js:24-26 | returns the current mapping |
| `SettingsStore.SettingsManager.Set` | src/settings.js:28-31 | afterwards the key holds the value and every other key keeps its value; the slot holds the new mapping; the trace gains one storage write followed by one call per listener with the new mapping; the invariant is kept |
| `SettingsStore.SettingsManager.Subscribe` | src/settings.js:33-35 | appends the callback to the end of the list; no setting, no storage and no trace entry changes |
| `SettingsStore.SettingsManager.Notify` | src/settings.js:37-39 | the loop calls every listener once, in list order, with the current mapping, and keeps the slot/memory invariant |
| `SettingsStore.FreshStoreDefaults` | src/settings.js:3-17 | a store over an empty slot holds fontSize 18, lineHeight 1.6, readerWidth 80, the serif family string, an empty apiKey, and no theme |
| `SettingsStore.ReloadAfterSet` | src/settings.js:15-31 | persistence round trip: a store built over the same storage after `set(k, v)` loads the last-set mapping, which holds `v` at `k` |
| `SettingsStore.LoadKeepsPartialMapping` | src/settings.js:16 | a stored mapping holding only fontSize is loaded without apiKey or lineHeight |
| `SettingsStore.SetNotifiesSubscribers` | src/settings.js:19-39 | with two subscribers, `set` yields exactly: slot write, first subscriber, second subscriber, all with the updated mapping |
| `Gemini.ExplainRequest` | src/gemini.js:51 | the first request is the fixed instruction, a blank line, then the selected text verbatim between double quotes |
| `Gemini.ExplainRequestRoundTrip` | src/gemini.js:51 | the selected text can be read back from the request unchanged |
| `Gemini.ContextOfOnlyExplainRequests` | src/gemini.js:51 | any request from which a text reads back is exactly the request built for that text |
| `Gemini.SeedPrompt` | src/gemini.js:31-37 | the seed instruction frames the selected text verbatim between fixed opening and closing texts |
| `Gemini.ChatSession.constructor` | src/gemini.js:26-40 | a session created by the model carries the history it was started with and has sent nothing |
| `Gemini.ChatSession.SendMessage` | src/gemini.js:66-68 | the message goes out whatever the answer; the reply text or a failure comes back |
| `Gemini.GeminiService.constructor` | src/gemini.js:4-9 | client, model and session start null; the model name is `gemini-3-flash-preview` |
| `Gemini.GeminiService.Configure` | src/gemini.js:11-19 | an absent or empty key nulls the client and model and leaves the session; any other key sets both for that key and model name |
| `Gemini.GeminiService.StartChat` | src/gemini.js:21-58 | without a model: "API Key not configured" and the session is unchanged; with one: the session is a fresh unseeded session, bound to the configured key and model name, that sent exactly the explain request, kept even on failure, and the result is the reply text or "Failed to start chat. Please check your API Key." |
| `Gemini.GeminiService.SendMessage` | src/gemini.js:60-73 | without a session: "Chat session not started"; with one: the message is sent on it and the result is the reply text or "Failed to send message." |
| `Gemini.StartWithoutKey` | src/gemini.js:11-24 | after configuring an absent or empty key, starting a chat fails with "API Key not configured" |
| `Gemini.SendBeforeStart` | src/gemini.js:60-63 | before any chat is started, sending is refused with "Chat session not started", whatever key is configured |
| `Gemini.SessionOutlivesKeyReset` | src/gemini.js:11-73 | after a started chat and `configure('')`, a message still reaches the session and its answer comes back |
| `Gemini.FailedStartKeepsSession` | src/gemini.js:49-66 | a start whose request fails still leaves its session: the next message is sent on it after the explain request |
| `Reader.TrimStart` | src/reader.js:39 | only leading white space is dropped; the rest is a suffix that is empty or starts with a non-space |
| `Reader.TrimEnd` | src/reader.js:39 | only trailing white space is dropped; the rest is a prefix that is empty or ends with a non-space |
| `Reader.TrimIsInfix` | src/reader.js:39 | the trimmed text is the infix of the range text between its leading and trailing white space, and everything cut is white space |
| `Reader.TrimEdges` | src/reader.js:39 | a non-empty trimmed text neither starts nor ends with white space |
| `Reader.TrimEmptyIff` | src/reader.js:39-41 | a text trims to nothing exactly when all of it is white space |
| `Reader.TrimIdempotent` | src/reader.js:39 | trimming twice is trimming once |
| `Reader.SelectionMenu` | src/reader.js:38-47 | no menu exactly when the selected text is all white space; otherwise the trimmed text, centred horizontally on the selection (x + 75 is its page midpoint) and 50 above its top edge in page coordinates |
| `Reader.SelectionMenuExample` | src/reader.js:45-46 | a 150-wide selection of the text `w` at (100, 200) in a frame at (10, 20) puts the menu at (110, 170) |
| `Reader.FindById` | src/reader.js:111 | the selector finds the first head element with the id, and finds none exactly when no element has it |
| `Reader.InjectedSpec` | src/reader.js:108-119 | after injection the selector finds the style element holding the css; no other element changes; an element is appended exactly when none existed |
| `Reader.InjectedLastWins` | src/reader.js:111-118 | injecting css1 then css2 leaves the head as injecting css2 alone |
| `Reader.InjectedIdempotent` | src/reader.js:111-118 | two injections of the same css equal one, and the second appends nothing |
| `Reader.InjectedSingleStyle` | src/reader.js:111-118 | a head with at most one style element has exactly one after injection |
| `Reader.LatestHookWins` | src/reader.js:83-85 | however many hooks have accumulated, a newly rendered document ends with the css of the latest one |
| `Reader.StylesheetReadsTypography` | src/reader.js:69-81 | the css depends only on font family, size and line height; width, theme and API key do not change it |
| `Reader.DefaultStylesheet` | src/reader.js:69-81 | the defaults print as the serif family, `18` before `px` and a line height of `1.6`, in the fixed css template |
| `Reader.PartialStylesheet` | src/reader.js:69-81 | a stored mapping with only fontSize 24 prints `24`, with `undefined` for font family and line height, because defaults are not merged in |
| `Reader.Book.Destroy` | src/reader.js:24 | the book is marked destroyed |
| `Reader.EpubReader.constructor` | src/reader.js:5-18 | no book and no rendition; the settings store gains exactly one listener, at the end, and no setting changes |
| `Reader.EpubReader.OnSelected` | src/reader.js:37-49 | a blank selection makes no UI call; any other makes exactly one `showSelectionMenu` call with the trimmed text and the anchor |
| `Reader.EpubReader.OnContentClick` | src/reader.js:91-94 | the menu is hidden unless a non-collapsed selection remains |
| `Reader.EpubReader.InjectStyle` | src/reader.js:108-119 | the document head becomes the injected head: found style element retexted, or a new one appended |
| `Reader.EpubReader.ApplyStyles` | src/reader.js:65-106 | without a rendition nothing changes; with one, exactly one hook with the current settings' css is appended and earlier hooks stay; existing view documents are injected only when a view manager exists |
| `Reader.EpubReader.InjectIntoViews` | src/reader.js:99-105 | every view document ends up injected exactly once over, even when views share a document |
| `Reader.EpubReader.Load` | src/reader.js:20-63 | shows the loading state and destroys any previous book first; each failing step leaves book and rendition as far as they got, reports "Failed to load EPUB file." and restyles nothing: a rendition created before a display or navigation failure carries no hook; a complete load lists the contents, registers exactly one hook on the new rendition and hides the loading state |
| `Reader.EpubReader.OpenBook` | src/reader.js:27-62 | the guarded steps: a failure at opening keeps the old (destroyed) book and rendition, a failure at rendering keeps the old rendition, a later failure keeps the new rendition listening for selections, with no hook registered; each failure reports the load error |
| `Reader.EpubReader.ShowBook` | src/reader.js:53-58 | lists the contents, applies the styles as `ApplyStyles` does, then hides the loading state |

## Left out

- JSON serialisation: the storage slot holds the mapping itself. `JSON.stringify` followed by `JSON.parse` is taken as lossless. The malformed-JSON throw in `load` and falsy stored values are not modelled.
- Aliasing of the settings object: `get()` and the listeners receive the live object in the source. Here they receive a value, so later mutation seen through an old reference is not captured.
- Listener bodies: a listener call is a trace entry. What the callback then does, including a nested `set`, is not executed.
- Number printing: a number is an exact decimal, not a double. The css prints it in plain decimal form. JavaScript's exponent notation for very large or very small numbers is not modelled.
- Number encoding: one JavaScript number has several encodings `Num(m, k)` (1.6 is both `Num(16, 1)` and `Num(160, 2)`), and they compare unequal. So the equality in `Set` and `ReloadAfterSet` is about the encoding stored, not about the number. A real JSON round trip would normalise the number, and the model does not.
- `parseFloat` and bounding-rectangle doubles: the anchor uses exact `real` arithmetic.
- The provider client: the chat history kept inside the library's session object is not modelled. So the turn count of a conversation is not modelled either, only the messages sent and the reply or failure. `console.error` logging is left out.
- The rendering library: `ePub`, `renderTo`, `display`, navigation loading, `resize` and CFI ranges are represented only by the objects they return and by which step fails. The TOC navigation callback and the window resize listener are left out.
- The content hook's click listener: only the collapsed-selection check (`OnContentClick`) is modelled. Its DOM effects, closing the settings panel and the sidebar, are left out, and so is the listener's registration on each rendered document.
- Asynchronous scheduling: each operation runs to completion; there is no interleaving of pending `await`s.
- The UI object: the reader calls `showSelectionMenu` and `hideSelectionMenu` on it. The model assumes the UI object provides both methods and that each call succeeds. The `UIManager` that src/main.js passes in defines neither, so as wired there both calls would throw.
- src/ui.js, src/main.js and the native macOS shell are not part of this model.
