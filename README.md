# CyberLeaf capability registry and Ollama chat adapter, in Dafny

This project models two small pieces of the CyberLeaf desktop companion-chat
application.

- **The capability registry** (`src/lib/useApi.ts`). There are four fixed,
  ordered tables of named implementations: speech, chat-history store, chat
  backend and Live2D loader. The `useApi` store holds one current selection
  per slot. It lists the names of each table, selects an implementation by
  name, and recovers the current selection's name by identity. The store is
  the class `UseApi.ApiStore`. Its invariant `Valid()` says every current
  field is an implementation from its own table, so the non-null assertions
  of `getCurrent*` can never fail. The lookups are generic functions over
  tables, in module `Registry`.
- **The chat adapter** (`src/lib/api.chat.ts`). It builds the request: the
  fixed system prompt first, then the caller's turns. It turns every streamed
  chunk into one `{ response, done }` event. The `ollama.chat` call is a
  function parameter that answers a request with a sequence of chunks.

Implementations are opaque identities. Each slot's type (`ChatApi`,
`LoadChat`, ...) has one value per `id: nat`, just as the source's function
types have many functions, and equality stands for JavaScript's `===` on
function references. The tables register the value with id 0. Speech's
table holds an `Option`, because its off entry `'关闭'` registers `null`.

`Registry.Select` models `if (api) set(...)` for the store, chat and Live2D
slots. There, a found entry is always truthy: functions and entry objects
are never falsy. This assumes the imported `xyz` loader is a function, like
the loaders that `api.live2d.ts` does export. Speech is the exception: `UseApi.SpeakAfter` adds the
truthiness test that the `null` entry fails.

Three behaviours of the code are worth stating outright:
- Not every listed name can be selected: selecting `'关闭'` is ignored
  (see Findings).
- The done chunk's content is passed through like any other. `''` appears
  only when the content is missing.
- Nothing in the adapter enforces "exactly one `done`, last": `done` is
  copied from each chunk.

## Model

| member | source | states |
|---|---|---|
| `Registry.Names` | src/lib/useApi.ts:61-64 | the name list has the table's length, and entry i's name is at position i (registration order) |
| `Registry.FindByName` | src/lib/useApi.ts:66-78 | `find` by name: returns the first entry carrying the name, and None exactly when the name is not in the name list |
| `Registry.FindByApi` | src/lib/useApi.ts:81-84 | `find` by identity: returns the first entry holding the implementation, and None exactly when it is not registered |
| `Registry.NameOf` | src/lib/useApi.ts:81-84 | defined exactly for registered implementations; gives a listed name, namely that of the first entry holding the implementation |
| `Registry.Select` | src/lib/useApi.ts:69-80 | an unregistered name leaves the selection unchanged; a registered name installs a registered implementation; membership of the table is preserved |
| `Registry.SelectFirstNamed` | src/lib/useApi.ts:69-80 | selecting a name installs the implementation of the FIRST entry with that name |
| `Registry.NameOfFirstWith` | src/lib/useApi.ts:81-84 | the current name is the name of the first entry identical to the current implementation |
| `Registry.SelectThenNameOf` | src/lib/useApi.ts:69-84 | when implementations are distinct, selecting a listed name and then reading the current name returns that name |
| `Registry.SelectIdempotent` | src/lib/useApi.ts:69-80 | selecting the same name twice equals selecting it once |
| `UseApi.GetSpeakApiList` | src/lib/useApi.ts:61 | the speech names are `['关闭', 'Web Speech API']`, in that order |
| `UseApi.GetStoreApiList` | src/lib/useApi.ts:62 | the store names are `['IndexedDB']` |
| `UseApi.GetChatApiList` | src/lib/useApi.ts:63 | the chat names are `['Ollama']` |
| `UseApi.GetLive2dList` | src/lib/useApi.ts:64 | the Live2D names are `['小叶子']` |
| `UseApi.Loads` | src/lib/useApi.ts:82 | the store table seen through `load` alone keeps every entry's name and its `load`, in order |
| `UseApi.RegisteredLoad` | src/lib/useApi.ts:82 | a registered store triple has its `load` registered in the load-only view |
| `UseApi.SpeakAfter` | src/lib/useApi.ts:65-68 | `setSpeakApi` as written: an unknown name changes nothing; the first entry with the name is installed exactly when its implementation is non-null, otherwise the old value stays; table membership is preserved |
| `UseApi.SpeakOffIgnored` | src/lib/useApi.ts:65-68 | `setSpeakApi('关闭')` leaves speech unchanged, because that entry's `null` is falsy |
| `UseApi.SpeakStaysOn` | src/lib/useApi.ts:65-68 | once speech is non-null, every sequence of `setSpeakApi` calls keeps it non-null |
| `UseApi.SpeakIntended` | src/lib/useApi.ts:65-68 | the corrected setter: an unknown name changes nothing, and table membership is preserved |
| `UseApi.SpeakIntendedSwitches` | src/lib/useApi.ts:40-43 | with the corrected setter, `'关闭'` yields `null` and `'Web Speech API'` yields the browser implementation |
| `UseApi.SpeakIntendedRoundTrip` | src/lib/useApi.ts:65-84 | with the corrected setter, every listed speech name is what `getCurrentSpeakApi` reports afterwards |
| `UseApi.ApiStore.constructor` | src/lib/useApi.ts:54-60 | the initial state is the first entry of each table (speech `null`), and it satisfies the invariant |
| `UseApi.ApiStore.SetSpeakApi` | src/lib/useApi.ts:65-68 | demands nothing of its caller; keeps the invariant; speech becomes `SpeakAfter` of the old value; once on it stays on; other slots are unchanged |
| `UseApi.ApiStore.SetStoreApi` | src/lib/useApi.ts:69-72 | demands nothing of its caller; keeps the invariant; load, save and delete are replaced together from the first entry with the name, so a listed name makes the slot registered; other slots are unchanged; a listed name is reported back |
| `UseApi.ApiStore.SetChatApi` | src/lib/useApi.ts:73-76 | demands nothing of its caller; keeps the invariant; chat becomes the first entry with that name, so a listed name makes the slot registered; other slots are unchanged; a listed name is reported back |
| `UseApi.ApiStore.SetLive2d` | src/lib/useApi.ts:77-80 | demands nothing of its caller; keeps the invariant; the loader becomes the first entry with that name, so a listed name makes the slot registered; other slots are unchanged; a listed name is reported back |
| `UseApi.ApiStore.GetCurrentSpeakApi` | src/lib/useApi.ts:81 | always defined under the invariant; a listed name, that of the first entry identical to the current speech value |
| `UseApi.ApiStore.GetCurrentStoreApi` | src/lib/useApi.ts:82 | always defined under the invariant; the name of the first entry whose `load` matches (save and delete are not compared) |
| `UseApi.ApiStore.GetCurrentChatApi` | src/lib/useApi.ts:83 | always defined under the invariant; the name of the first entry identical to the current chat backend |
| `UseApi.ApiStore.GetCurrentLive2d` | src/lib/useApi.ts:84 | always defined under the invariant; the name of the first entry identical to the current loader |
| `UseApi.SpeechCannotBeSwitchedOff` | src/lib/useApi.ts:65-68 | after selecting `'Web Speech API'` and then `'关闭'`, the current speech name is still `'Web Speech API'` |
| `Chat.BuildRequest` | src/lib/api.chat.ts:4-11 | model `'qwen2.5:7b'`, streaming on; one system message with the prompt, then the caller's messages unchanged and in order |
| `Chat.Translate` | src/lib/api.chat.ts:13-17 | the event's `done` is the chunk's; its response is the chunk's content, or `''` when missing, also on the done chunk |
| `Chat.Stream` | src/lib/api.chat.ts:12-18 | exactly one event per chunk, in order; each keeps its chunk's `done` and its content, or `''` |
| `Chat.ChatOllama` | src/lib/api.chat.ts:6-19 | the events are the translations of the chunks the backend returns for the built request, one to one |
| `Chat.StreamAppend` | src/lib/api.chat.ts:12-18 | no state is carried between chunks: the events of a concatenation are the concatenation of the events |
| `Chat.StreamPrefix` | src/lib/api.chat.ts:12-18 | the events for the chunks received so far are a prefix of the final events |
| `Chat.StreamGreeting` | src/lib/api.chat.ts:12-18 | fragments "你", "好", "!" and a content-less done chunk give exactly the four expected events |

Two helpers have no row, because their meaning is stated by the members
that use them. `Wrappers.Option.GetOr` is the `??` operator
(src/lib/api.chat.ts:14, 16), and `Chat.Translate` and `Chat.Stream` state
its effect. `UseApi.SpeakAfterAll` is a series of `setSpeakApi` calls, and
`UseApi.SpeakStaysOn` states what it keeps.

## Findings

| source | as written | input that shows it | evidently intended | confidence | as-written member | corrected member |
|---|---|---|---|---|---|---|
| src/lib/useApi.ts:65-68 | `if (api)` treats the `null` of the `'关闭'` entry as "not found" | `setSpeakApi('Web Speech API')` then `setSpeakApi('关闭')`: speech stays on | selecting `'关闭'` sets speech to `null` | medium, not executed | `UseApi.SpeechCannotBeSwitchedOff` | `UseApi.SpeakIntended` |

`UseApi.SpeakStaysOn` generalises the as-written case: no sequence of names
turns speech off once it is on. `UseApi.SpeakIntended` is `Registry.Select`
on the speech table. `Registry.Select` is the same first-match selection
that the store, chat and Live2D setters use. `UseApi.SpeakIntendedSwitches`
and `UseApi.SpeakIntendedRoundTrip` prove the intended behaviour of the
corrected setter. `UseApi.ApiStore.SetSpeakApi` keeps the behaviour as
written.

## Left out

- The `ollama` network call, the async generator and the `Promise` wrapper `chat_ollama` (src/lib/api.chat.ts:20-22): the backend is the parameter `respond`, and laziness, suspension and cancellation are not modelled.
- Errors from the backend: in the source, a failing call or chunk raises out of the generator. The model has no failure path for it.
- Chunks keep only `message.content` and `done`. The other fields of an Ollama response are not read by the adapter.
- Zustand reactivity and subscriptions: `set` is modelled as a partial update of the store's fields.
- The concrete implementations behind the registry (`api.ollama.ts`, `api.browser.ts`, `api.live2d.ts`) are not part of this model: they are opaque values compared by identity.
- `Live2dXyz` stands for the `xyz` export that `useApi.ts` imports from `api.live2d.ts` (src/lib/useApi.ts:12-14). The version of `api.live2d.ts` read for this model exports only `catBoy` and `foxBoy`.
- `src/lib/api.store.ts`: a thin wrapper over the Tauri store plugin with file I/O, whose read-after-write behaviour belongs to that library.
- `src/components/Memory.tsx`: React UI; its date labels depend on the local clock and timezone, and export and reset call into other code.
- `src/lib/api.live2d.ts`: two loader functions (`catBoy`, `foxBoy`), each of which passes a fixed configuration to the avatar library and returns its handle. They have no logic of their own.
