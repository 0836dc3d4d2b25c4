# DogLibrary answer resolution, modelled in Dafny

DogLibrary is a desktop question-bank service. A browser helper sends it a question
(`title`, `type`, `options`) over HTTP, and the service asks a configured large-language-model
provider for the answer. Answers can be cached in a SQLite table keyed by the question text.

`AppController.search` (`src/main/app/appController.ts`) asks the active adapter and returns
the parsed reply stamped `code = 1`, `msg = 答题成功`. The `/search` routes of `httpManager.ts`
(lines 56-60 and 65-69) reply `{success: true, data: answer}` with the answer of the controller
the service was built with.

Two wirings of the service exist in the code:

- `src/main/index.ts:5` imports `src/main/app/ServiceManager.ts`. Its lines 27-29 hand the
  switch-based `AIManager` of `services/ai/aiManager.ts` and an `AppController` to `HttpManager`.
  Under it, `start` loads the switch-based dispatcher and `/search` answers with the result of
  `AppController.search`.
- `src/main/services/ServiceManager.ts:32-34` hands the map-based `AIManager` of `AI.ts` and the
  cache-first answers controller to `HttpManager`, matching the types `httpManager.ts` declares
  (lines 7 and 38-40). The `HttpManager` model follows this wiring: its dispatcher is the one of
  `AI.ts`.

The model covers:

- **The cache** (`cache_schema.dfy`, `cache_store.dfy`).
  - The `cache` table is a value: its rows, in ascending id order, plus the AUTOINCREMENT counter.
  - Insert-if-absent, lookup by question, delete by id and newest-first paging are functions on that value.
  - `CacheManager` is a class whose methods update the rows and the counter in place.
  - Lemmas cover the table invariant (unique questions, ascending ids), ids never being reused, paging and save/lookup.
- **The request schema** (`search_schema.dfy`). The `searchSchema` validator is a function from JSON to a request or an error, with a round trip from encoded requests.
- **The provider adapters** (`provider_config.dfy`, `adapters.dfy`).
  - The repository holds three copies of the five adapters: the modular files, the classes embedded in `services/ai/aiManager.ts`, and those embedded in `ai/aiManager.ts`.
  - One class `Adapter` stands for all fifteen. Its `dialect` says which copy it is, and its configuration's constructor says which provider.
  - The copies differ only in the Newapi adapter, and the lemmas pin that difference down.
- **The dispatchers** (`ai_registry.dfy`, `services_ai_manager.dfy`, `legacy_ai_manager.dfy`). These model the map-based `AIManager` of `AI.ts` and the two switch-based `AIManager`s. Each is a class with load / chat / unload, plus a hot-swap scenario.
- **The controller** (`app_controller.dfy`). `AppController.search` covers:
  - the type-specific instruction;
  - the two-message exchange;
  - parsing the reply and stamping it.
- **The HTTP service lifecycle** (`http_manager.dfy`):
  - `getLocalIP`, a loop over the network interfaces, proved against a declarative description of the address it must pick;
  - `start`, `stop` and `isRunning` on the `server` field.

The upstream model service is the parameter `net`: it maps a completion request to a list of choices, or to `None` when the SDK call rejects. `JSON.parse` is the parameter `parse`. The network interfaces and the stored configuration are likewise passed in as values.

Facts about the code that the model keeps as written:

- The instruction asks for the key `anwser`. `AppController.PromptedShapeLacksAnswerField` records the consequence: a reply in that shape has no `answer` field.
- The request schema accepts exactly four types: `single`, `multiple`, `judgement` and `completion`.
- `paginationQuery` returns one page only, with no total count.
- The fields stamped on a reply are `code` and `msg`.
- The true/false rule names the glyphs 对 and 错.
- SQLite's AUTOINCREMENT uses up an id even when `on conflict do nothing` drops the row, so an ignored save leaves a gap in the ids.

## Model

| member | source | states |
|---|---|---|
| CacheSchema.ParseType | src/main/services/http/schema/search.schema.ts:5 | a `type` string reads back into the enum exactly when it is one of the four values, and then to the member whose string it is |
| CacheSchema.TypeName | src/main/services/cache/schema/cache.ts:3-8 | every enum member is stored as one of the four strings `single`, `multiple`, `judgement`, `completion` |
| CacheSchema.TypeNameRoundTrip | src/main/services/cache/schema/cache.ts:3-8 | every enum member's string reads back as that member, and distinct members have distinct strings |
| CacheStore.Find | src/main/services/cache/cacheManager.ts:51-54 | the lookup returns a row of the table holding exactly that question, and returns nothing exactly when no row holds it |
| CacheStore.FindIsTheRow | src/main/services/cache/schema/cache.ts:21-26 | under the unique index on `question`, the lookup of a row's question returns that very row |
| CacheStore.Insert | src/main/services/cache/cacheManager.ts:42-44 | the counter advances by one on every save; an already cached question leaves the rows unchanged; a new one is appended with id = old counter; the table invariant is preserved and the new id exceeds every existing id |
| CacheStore.Without | src/main/services/cache/cacheManager.ts:59-61 | the rows left carry no row with that id, come from the table, include every other row, and are the table itself when no row has the id |
| CacheStore.WithoutFromTail | src/main/services/cache/cacheManager.ts:59-61 | every row kept by a delete on the tail is a row of that tail |
| CacheStore.WithoutKeepsIdOrder | src/main/services/cache/cacheManager.ts:59-61 | deleting keeps the rows in strictly ascending id order |
| CacheStore.WithoutKeepsQuestionsUnique | src/main/services/cache/schema/cache.ts:23 | deleting keeps the questions distinct |
| CacheStore.WithoutLeadingId | src/main/services/cache/cacheManager.ts:59-61 | deleting an id carried only by the first row leaves exactly the other rows |
| CacheStore.WithoutSoleId | src/main/services/cache/cacheManager.ts:59-61 | deleting an id carried only by row k removes exactly row k and keeps the rest in order |
| CacheStore.WithoutRemovesOne | src/main/services/cache/cacheManager.ts:59-61 | deleting the id of row k on an ordered table removes exactly row k and keeps the rest in order |
| CacheStore.Delete | src/main/services/cache/cacheManager.ts:59-61 | a row survives exactly when it was present and has another id; the counter is untouched; an absent id changes nothing; the table invariant is preserved |
| CacheStore.Skip | src/main/services/cache/cacheManager.ts:56 | the rows skipped are the offset when it is non-negative and none when it is negative |
| CacheStore.NewestFirst | src/main/services/cache/cacheManager.ts:56 | `order by id desc` yields the same rows with the last-inserted first |
| CacheStore.Page | src/main/services/cache/cacheManager.ts:55-57 | a page has min(limit, rows left after the offset) rows (all of them for a negative limit); a negative offset counts as zero; entry i is the (offset+i)-th newest row, and ids strictly decrease along the page |
| CacheStore.PagesTile | src/main/services/cache/cacheManager.ts:55-57 | page [o, o+a) followed by page [o+a, o+a+b) is page [o, o+a+b) |
| CacheStore.IdsNeverReused | src/main/services/cache/schema/cache.ts:22 | along any history of saves and deletes, the table invariant holds, the counter never goes down, and every new row has an id at or above the old counter |
| CacheStore.DeletedIdNeverReturns | src/main/services/cache/schema/cache.ts:22 | once an id is deleted, no later history of saves and deletes brings that id back |
| CacheStore.SecondSaveKeepsFirst | src/main/services/cache/cacheManager.ts:42-44 | saving a question a second time keeps the rows of the first save, so the first answer and type stay (insert-if-absent, not upsert); the counter still advances by two |
| CacheStore.IgnoredSaveLeavesGap | src/main/services/cache/cacheManager.ts:22-44 | on a fresh table, saving `a`, `a`, then `b` stores `a` under id 1 and `b` under id 3 |
| CacheStore.SaveThenFind | src/main/services/cache/cacheManager.ts:42-54 | after a save, the lookup of that question returns the new row, or the earlier row when the question was already cached |
| CacheStore.Questions | src/main/services/cache/schema/cache.ts:23 | the set of questions is exactly the questions some row holds |
| CacheStore.EntryQuestions | src/main/services/cache/cacheManager.ts:42-44 | the set holds the question of every entry and nothing else |
| CacheStore.UniqueQuestionsCount | src/main/services/cache/schema/cache.ts:23 | with distinct questions, the table has as many rows as distinct questions |
| CacheStore.InsertAddsQuestion | src/main/services/cache/cacheManager.ts:42-44 | after a save the cached questions are the old ones plus the saved question, whether or not a row was added |
| CacheStore.SavesCollectQuestions | src/main/services/cache/cacheManager.ts:42-44 | after any sequence of saves, the cached questions are the old ones plus the saved ones, and the invariant holds |
| CacheStore.SavesCountDistinctQuestions | src/main/services/cache/cacheManager.ts:42-44 | from an empty table, the row count after any sequence of saves is the number of distinct questions saved |
| CacheStore.CacheManager.constructor | src/main/services/cache/cacheManager.ts:21-31 | a fresh database starts with an empty table, counter 1 and the invariant |
| CacheStore.CacheManager.Save | src/main/services/cache/cacheManager.ts:42-44 | the new state is `Insert` of the old one, so the invariant is kept; the counter advances by one either way; a cached question leaves the rows unchanged |
| CacheStore.CacheManager.Query | src/main/services/cache/cacheManager.ts:51-54 | returns a stored row holding exactly the question; returns nothing exactly when no row holds it; returns the one row that holds it |
| CacheStore.CacheManager.PaginationQuery | src/main/services/cache/cacheManager.ts:55-57 | returns `Page` of the rows (defaults offset 0, limit 10): at most `limit` rows, newest first, with ids strictly decreasing |
| CacheStore.CacheManager.Del | src/main/services/cache/cacheManager.ts:59-61 | the new state is `Delete` of the old one: the invariant is kept and the counter is unchanged |
| SearchSchema.Parse | src/main/services/http/schema/search.schema.ts:3-7 | an input passes exactly when it is an object with string `title`, one of the four `type` values and string `options`; it then yields those three values, and any failure is the validation error |
| SearchSchema.EncodeThenParse | src/main/services/http/schema/search.schema.ts:3-7 | every request written as JSON, with any extra keys, validates back to itself |
| SearchSchema.OtherTypesRefused | src/main/services/http/schema/search.schema.ts:5 | a `type` outside the four values, such as `line` or `fill`, is refused |
| SearchSchema.OptionsAlwaysRequired | src/main/services/http/schema/search.schema.ts:6 | a request without `options` is refused for every type, `completion` included |
| ProviderConfigs.Slice | src/main/services/ai/AI.ts:71 | the configuration slot taken for a provider always belongs to that provider |
| Adapters.BaseUrl | src/main/services/ai/adapter/Newapi.ts:13-16 | the four fixed providers call an `https://` endpoint; Newapi's endpoint starts with its configured base URL, and the embedded copies use that URL unchanged |
| Adapters.ModelFor | src/main/services/ai/adapter/DeepSeek.ts:24 | DeepSeek asks for `deepseek-reasoner` exactly when `isDeep` is set and `deepseek-chat` exactly when not; every other provider asks for its configured model name |
| Adapters.ReplyText | src/main/services/ai/adapter/Newapi.ts:28 | the guarded copies yield the first choice's content, or `''` when there is no choice or no content; the unguarded Newapi fails exactly on an empty choice list and passes a null content through as `null` |
| Adapters.FixedEndpoints | src/main/services/ai/adapter/BaiLian.ts:13-16 | DeepSeek, BaiLian, Siliconflow and Volcengine call one fixed endpoint each, whatever the configuration and whichever copy |
| Adapters.NewapiEndpoint | src/main/services/ai/adapter/Newapi.ts:13-16 | the modular Newapi calls the configured base URL plus `/v1`; both embedded copies call the base URL unchanged |
| Adapters.CopiesAgreeApartFromNewapi | src/main/services/ai/aiManager.ts:111-198 | for the four fixed-endpoint providers, all three copies choose the same endpoint and extract the same reply text |
| Adapters.NewapiCopiesDisagreeOnNoChoice | src/main/services/ai/aiManager.ts:199-221 | on an empty choice list, the modular and services Newapi fail while the older embedded Newapi returns `''` |
| Adapters.Adapter.constructor | src/main/services/ai/adapter/DeepSeek.ts:11-17 | the adapter keeps its configuration, names its provider, and holds a client for its endpoint and key |
| Adapters.Adapter.Unload | src/main/services/ai/adapter/DeepSeek.ts:18-20 | the client is dropped |
| Adapters.Adapter.Request | src/main/services/ai/adapter/DeepSeek.ts:21-25 | the request carries the client's endpoint and key, the model rule, and the messages unchanged |
| Adapters.Adapter.Chat | src/main/services/ai/adapter/Newapi.ts:21-29 | an unloaded adapter fails on the null client; a rejected upstream call fails; otherwise the reply is the text extracted from the returned choices |
| AiRegistry.ProviderMap | src/main/services/ai/AI.ts:41-47 | a factory is registered exactly for the five enum members, each for its own provider |
| AiRegistry.AIManager.constructor | src/main/services/ai/AI.ts:40-48 | nothing is initialized or loaded |
| AiRegistry.AIManager.Initialize | src/main/services/ai/AI.ts:50-52 | marks the manager initialized and changes nothing else |
| AiRegistry.AIManager.Load | src/main/services/ai/AI.ts:64-73 | before `initialize` it fails and changes nothing; it stores the configuration; an unknown provider fails with its name and keeps the adapter; a known provider gets a fresh modular adapter built from its own slot; the previous adapter is dropped without being unloaded |
| AiRegistry.AIManager.Chat | src/main/services/ai/AI.ts:82-85 | with nothing loaded it fails as not loaded; otherwise it returns the active adapter's reply; it never reaches the null-client failure |
| AiRegistry.AIManager.Unload | src/main/services/ai/AI.ts:86-91 | unloads the active adapter once and clears it; without one it does nothing |
| AiRegistry.SwapProviders | src/main/services/ai/AI.ts:64-91 | load A, unload, chat, then load B and chat: the first chat fails as not loaded, and the second is answered by an adapter built from B's configuration alone |
| ServicesAiManager.AIManager.constructor | src/main/services/ai/aiManager.ts:32-34 | nothing is loaded |
| ServicesAiManager.AIManager.Load | src/main/services/ai/aiManager.ts:49-73 | stores the configuration; each of the five cases builds a fresh embedded adapter from its own slot; the default case fails with the provider name and keeps the adapter |
| ServicesAiManager.AIManager.Chat | src/main/services/ai/aiManager.ts:81-84 | with nothing loaded it fails as not loaded; otherwise it returns the active adapter's reply |
| ServicesAiManager.AIManager.Unload | src/main/services/ai/aiManager.ts:85-91 | unloads the active adapter once and clears it; without one it does nothing |
| ServicesAiManager.SwapProviders | src/main/services/ai/aiManager.ts:49-91 | a chat between unload and reload fails as not loaded; after the reload, the reply comes from the new provider's configuration |
| LegacyAiManager.AIManager.constructor | src/main/ai/aiManager.ts:33-35 | nothing is loaded |
| LegacyAiManager.AIManager.Load | src/main/ai/aiManager.ts:61-85 | stores the configuration; each of the five cases builds a fresh older-embedded adapter from its own slot; the default case fails with the provider name and keeps the adapter |
| LegacyAiManager.AIManager.Chat | src/main/ai/aiManager.ts:93-96 | with nothing loaded it fails as not loaded; otherwise it returns the active adapter's reply |
| LegacyAiManager.AIManager.Unload | src/main/ai/aiManager.ts:97-103 | unloads the active adapter once and clears it; without one it does nothing |
| LegacyAiManager.SwapProviders | src/main/ai/aiManager.ts:61-103 | a chat between unload and reload fails as not loaded; after the reload, the reply comes from the new provider's configuration |
| AppController.CreateDeveloperPrompt | src/main/app/appController.ts:8-22 | every instruction starts with the shared prefix; the four known types get a longer instruction; any other type gets the prefix alone |
| AppController.MultipleRuleJoinsWithHash | src/main/app/appController.ts:14 | the multiple-choice instruction asks for the options joined by `#` |
| AppController.CompletionRuleJoinsWithTripleHash | src/main/app/appController.ts:18 | the fill-in-the-blank instruction asks for the blanks joined by `###` |
| AppController.JudgementRuleUsesTrueGlyph | src/main/app/appController.ts:16 | the true/false instruction names the glyph 对 |
| AppController.JudgementRuleUsesFalseGlyph | src/main/app/appController.ts:16 | the true/false instruction names the glyph 错 |
| AppController.Exchange | src/main/app/appController.ts:24-27 | exactly two messages: the instruction for the request's type as system, then the user message `题目：` + title for `completion` and `题目：` + title + `,选项：` + options for every other type; so it starts with the labelled title and contains the options unless the type is `completion` |
| AppController.UserContent | src/main/app/appController.ts:26 | the user message is the labelled title alone for `completion`, and the labelled title followed by the labelled options for every other type |
| AppController.ReplyString | src/main/app/appController.ts:29 | a text reply is parsed as it is; a `null` reply is parsed as the text `null` |
| AppController.Stamp | src/main/app/appController.ts:29-32 | errors from the dispatcher propagate; an unparsable reply fails; a parsed object always succeeds, with exactly its own keys plus `code` and `msg`, `code` = 1, `msg` = `答题成功` and every other key's value kept; an array is returned as is; a parsed primitive or `null` fails on the property write |
| AppController.PromptedShapeLacksAnswerField | src/main/app/appController.ts:9 | a reply in exactly the instructed shape `{"anwser": s}` is stamped into an object with `anwser` = s and no `answer` field |
| AppController.AppController.constructor | src/main/app/appController.ts:7 | the controller keeps the dispatcher it is given |
| AppController.AppController.Search | src/main/app/appController.ts:23-33 | with nothing loaded it fails as not loaded; otherwise the result is the stamped reply of the active adapter to the two-message exchange for the request |
| HttpManager.Skipped | src/main/services/http/httpManager.ts:164-185 | an interface is passed over exactly when its name contains one of `docker`, `vmnet`, `virtual`, `VMware`, `veth`, `br-`, `virbr` |
| HttpManager.Entries | src/main/services/http/httpManager.ts:186 | an interface with no entry list is read as having no entries; otherwise its entries are used as they are |
| HttpManager.Eligible | src/main/services/http/httpManager.ts:187 | an entry is accepted exactly when it is IPv4 and not internal |
| HttpManager.BridgesSkipped | src/main/services/http/httpManager.ts:164-185 | names containing `docker`, `br-`, `virbr` or `vmnet` are passed over |
| HttpManager.NoMarkerInitial | src/main/services/http/httpManager.ts:164-185 | a name without the first letter of any marker is not passed over |
| HttpManager.OrdinaryNamesKept | src/main/services/http/httpManager.ts:164-185 | `eth0` is kept, and so is `Docker0`, since the match is case-sensitive |
| HttpManager.GetLocalIP | src/main/services/http/httpManager.ts:163-193 | returns the address of the first IPv4, non-internal entry among the interfaces not passed over, in iteration order, and `127.0.0.1` when there is none |
| HttpManager.FirstEligibleUnique | src/main/services/http/httpManager.ts:186-190 | the first acceptable entry is a single position |
| HttpManager.ChosenAddressUnique | src/main/services/http/httpManager.ts:163-193 | the interface list determines the answer of `getLocalIP` |
| HttpManager.EligibleAfterHead | src/main/services/http/httpManager.ts:164 | behind a leading skipped interface, acceptable positions shift by one |
| HttpManager.EligibleBehindSkipped | src/main/services/http/httpManager.ts:164-190 | with a skipped interface in front, every acceptable position is a shifted one |
| HttpManager.FirstBehindSkipped | src/main/services/http/httpManager.ts:164-190 | with a skipped interface in front, the first acceptable position is the shifted first one |
| HttpManager.ChoiceKeptBehindSkipped | src/main/services/http/httpManager.ts:164-193 | an address chosen among the interfaces is still chosen once a skipped interface is put in front |
| HttpManager.ChoiceFoundBehindSkipped | src/main/services/http/httpManager.ts:164-193 | an address chosen behind a skipped interface is the one chosen among the remaining interfaces |
| HttpManager.SkippedInterfaceIgnored | src/main/services/http/httpManager.ts:164-193 | placing an interface with a virtual-adapter name first does not change the address chosen |
| HttpManager.HttpManager.constructor | src/main/services/http/httpManager.ts:35-43 | nothing listens and no network settings are read yet |
| HttpManager.HttpManager.IsRunning | src/main/services/http/httpManager.ts:123-125 | true exactly when a server is held |
| HttpManager.HttpManager.Start | src/main/services/http/httpManager.ts:87-98 | stores the network settings and keeps the dispatcher's `initialized` flag; when running, changes nothing else and loads nothing; before `initialize`, the load fails as not initialized and the dispatcher keeps its adapter and configuration; otherwise the dispatcher stores the current configuration; an unknown provider fails with its name, keeps the adapter and leaves nothing listening; a known provider listens on the configured port, at the `getLocalIP` address when `isLAN` is set and at `localhost` otherwise, with a fresh modular adapter for that provider built from its own configuration slot, whose client carries that slot's endpoint and API key |
| HttpManager.HttpManager.Stop | src/main/services/http/httpManager.ts:110-121 | nothing runs afterwards; the network settings and the dispatcher's `initialized` flag and configuration are kept; when nothing was running the dispatcher keeps its adapter; otherwise the adapter is unloaded and cleared |
| HttpManager.StopThenStart | src/main/services/http/httpManager.ts:87-121 | on an initialized dispatcher with a known provider, stopping and then starting always succeeds, runs the server and leaves that provider's adapter active, built from its own slot with a client for that slot's endpoint and key |
| Strings.Includes | src/main/services/http/httpManager.ts:165 | `includes` is true exactly when the text occurs at some position |
| Strings.LacksFirstChar | src/main/services/http/httpManager.ts:165 | a text lacking the first character of a pattern does not include it |
| Strings.IncludesAfterPrefix | src/main/app/appController.ts:12-18 | an occurrence survives putting any text in front |

## Left out

- The upstream model service and the OpenAI SDK are the parameter `net`. Timeouts, HTTP status codes and streaming are not modelled.
- `JSON.parse` is the parameter `parse`. The JSON grammar is not modelled.
- SQLite and drizzle internals (SQL text, prepared statements, file I/O) are not modelled. The table is its row sequence plus the AUTOINCREMENT counter.
- `CacheStore.CacheManager.constructor` models opening a new database file. Reopening an existing file with rows in it is not modelled.
- An insert that supplies its own `id` is not modelled: the core always lets the table assign it.
- Electron IPC registration (`initialize` of `CacheManager`, `HttpManager` and the older `AIManager`) is not modelled. These only wire channels to the methods above.
- The wiring that `src/main/index.ts` starts, `HttpManager` over the switch-based dispatcher with `AppController` behind `/search`, is not modelled as one object: `HttpManager.HttpManager` holds the dispatcher of `AI.ts`. The switch-based dispatcher and `AppController` are modelled on their own.
- The Express route handlers and the `/search` response envelope are not modelled. The cache-first answers controller that the routes call is not part of this model.
- `listen` and `close` on the Node HTTP server are not modelled, and nor are their errors or callbacks. A started server is its host and port.
- The configuration managers are not modelled. Their results are passed in as values.
- The string values of the `aiProvider` enum are not part of this model. An enum member is `Known(p)`; anything else is `Unknown(raw)`.
- `providerMap` lookups with inherited object keys such as `toString` are not modelled. Any non-member name finds no factory.
- Concurrency is not modelled: overlapping `async` calls (two `start`s at once, a `chat` during `load`) are not modelled. Each call runs to completion before the next.
- JavaScript numbers: `offset`, `limit`, `id` and `port` are unbounded integers. Fractional, NaN and oversized values are not modelled.
- Logging (`console.log`) is not modelled.
- `AppController.Stamp`: on an array, the `code` and `msg` properties that JavaScript adds are not modelled, because they are not array elements and disappear when the array is serialised. The array is returned unchanged.
