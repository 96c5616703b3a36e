# Directive, memory and connector stores of LibreChat, in Dafny

This project models the small keyed stores that sit behind LibreChat's conversation
directives, conversation memory and third-party connectors, and proves what they promise.

- **Whole-map JSON stores.** `FileBackedMemoryStore` (conversation memory items) and the
  TypeScript `DirectiveStore` (one current directive per conversation, a history capped at
  ten, de-duplicated presets). Each reads one file, changes the map and writes it back through
  a temporary file and a rename.
- **File-per-key stores.** The saved-directives service (one list per user), the conversation
  directive service (one record per `userId_conversationId`), the agent directive store and
  the agent memory store (one file per conversation, plus a listing by suffix).
- **The connector registry.** An in-memory `userId -> provider -> data` map, with the Google
  Cloud and Rube connectors on top.
- **OAuth bookkeeping.** The Google login/callback `state` map and the Rube connection map.
- **Pure helpers.** The text-to-speech voice parser, the audio MIME filter and the transcript
  join; the request-body checks of the saved-directives routes.

The disk is a map from path to `Missing | Corrupt | Value(v)` (`Disk`). A parsed JSON value is
the `Json` datatype (`JsonValue`). A JavaScript object whose key order matters is an
association list (`OrderedMap`). Every file-backed save takes a fault input: a torn
temporary file, a failed rename, or, for the stores that write directly, a failed write. So
each class method states both the success path and the failure path. Clock values, uuids
and random suffixes are parameters.

Modules: `Wrappers`, `Strings`, `Seqs`, `JsonValue`, `Disk`, `OrderedMap` (helpers);
`MemoryStore`, `DirectiveStore`, `DirectivesService`, `DirectiveService`, `AgentDirective`,
`AgentMemory`, `Connectors`, `GoogleCloudConnector`, `RubeConnector`, `GoogleOAuth`,
`RubeRoutes`, `GoogleCloudSpeech`, `DirectivesRoutes` (one per source file).

### Behaviour of the code worth knowing

- **History cap.** Only a save that replaces an existing directive pushes onto the history. So
  after eleven saves of one conversation the history holds the directives of saves 1 to 10:
  `slice(-10)` evicts nothing until an eleventh prior exists
  (`DirectiveStore.ElevenSavesKeepAllTen`). In general the history is the last ten superseded
  directives (`DirectiveStore.HistoryKeepsLastTen`).
- **Google callback state.** Token entries share one map with pending login states. So
  `google_<userId>` is itself accepted as a callback `state`. It is consumed, and it writes
  tokens under `google_undefined` (`GoogleOAuth.TokenKeyAcceptedAsState`).
- **Storage key.** The conversation-directive key is a plain concatenation, so different
  (user, conversation) pairs can share a file (`DirectiveService.StorageKeyCollision`).
- **Blank names.** PATCH accepts a blank name that POST rejects
  (`DirectivesRoutes.BlankNameOnlyOnPatch`).

## Model

| member | source | states |
|---|---|---|
| MemoryStore.ItemsOf | api/server/memory/store.ts:97-100 | a conversation never written has no items; otherwise its stored list |
| MemoryStore.MemoryId | api/server/memory/store.ts:113 | an item id starts with `mem_` and ends with the random suffix |
| MemoryStore.NewItem | api/server/memory/store.ts:112-118 | a new item has the given content and conversation, the current time and `enabled = true` |
| MemoryStore.Patched | api/server/memory/store.ts:146-151 | an update overlays the fields it sets, keeps every other field, and never changes `id` or `conversationId` |
| MemoryStore.PatchedIdempotent | api/server/memory/store.ts:146-151 | applying the same update twice is applying it once |
| MemoryStore.FindItem | api/server/memory/store.ts:136-144 | a found position holds an item with that id and no earlier item has it (the first match, as `findIndex`); not found means no item of the conversation has it |
| MemoryStore.WithItem | api/server/memory/store.ts:108-120 | adding appends exactly one item to its conversation's list; every other conversation is unchanged |
| MemoryStore.AddKeepsWellFormed | api/server/memory/store.ts:105-124 | adding an item with a fresh id keeps each item under its conversation, with no duplicate ids |
| MemoryStore.UpdateKeepsWellFormed | api/server/memory/store.ts:146-153 | an in-place update keeps the store well formed (positions and length unchanged) |
| MemoryStore.DeleteKeepsWellFormed | api/server/memory/store.ts:170 | deleting by id keeps the store well formed |
| MemoryStore.DeleteUndoesAdd | api/server/memory/store.ts:105-124 | deleting a freshly added item restores the conversation's list |
| MemoryStore.EnabledItems | api/server/memory/store.ts:183-186 | the enabled filter keeps exactly the enabled items |
| MemoryStore.IdsMembership | api/server/memory/store.ts:169-174 | an id is listed exactly when some item carries it (the "length unchanged" test) |
| MemoryStore.FileBackedMemoryStore.constructor | api/server/memory/store.ts:28-33 | store path under the configured or default directory; nothing cached |
| MemoryStore.FileBackedMemoryStore.Load | api/server/memory/store.ts:44-63 | returns the cache, or the file read into the cache; a missing or unreadable file gives `{}` |
| MemoryStore.FileBackedMemoryStore.Save | api/server/memory/store.ts:68-92 | success makes file and cache equal the map; failure leaves the file and cache as they were, removes the temporary file and returns the error |
| MemoryStore.FileBackedMemoryStore.GetMemoryItems | api/server/memory/store.ts:97-100 | the loaded store's items for the conversation, `[]` when none |
| MemoryStore.FileBackedMemoryStore.AddMemoryItem | api/server/memory/store.ts:105-124 | the cache gains the item even when the save fails; the file gains it only on success; file and cache agree after success |
| MemoryStore.FileBackedMemoryStore.UpdateMemoryItem | api/server/memory/store.ts:129-157 | `null` and no save when the conversation or item is absent; otherwise only that position is replaced by the patched item |
| MemoryStore.FileBackedMemoryStore.DeleteMemoryItem | api/server/memory/store.ts:162-178 | `false` and no save when no item has the id; otherwise every item with the id is removed, the rest kept in order, `true` |
| MemoryStore.FileBackedMemoryStore.GetEnabledMemoryItems | api/server/memory/store.ts:183-186 | the order-preserving filter on `enabled` |
| MemoryStore.FileBackedMemoryStore.ClearConversationMemory | api/server/memory/store.ts:191-195 | drops the conversation from the cache and always saves |
| MemoryStore.FileBackedMemoryStore.ClearCache | api/server/memory/store.ts:200-202 | the next load reads the file again |
| DirectiveStore.PresetKeyCollision | api/server/agent/directive.ts:205 | two different directives can share a preset key: an absent personality is shown as `undefined`, the same as the text `undefined` |
| DirectiveStore.HistoryOf | api/server/agent/directive.ts:174-177 | a conversation's history, `[]` when it has none |
| DirectiveStore.WithPrior | api/server/agent/directive.ts:151-160 | pushing a superseded directive appends it and keeps the last ten; other conversations unchanged |
| DirectiveStore.WithPriorKeepsBounded | api/server/agent/directive.ts:157-160 | no history ever exceeds ten entries |
| DirectiveStore.WithPriorsHistory | api/server/agent/directive.ts:151-160 | successive saves push each prior, capping after each push |
| DirectiveStore.HistoryKeepsLastTen | api/server/agent/directive.ts:151-160 | starting from no history, the history is exactly the last ten superseded directives, in order |
| DirectiveStore.ElevenSavesKeepAllTen | api/server/agent/directive.ts:151-160 | ten superseded directives (eleven saves) are all kept, the first save's directive oldest |
| DirectiveStore.PresetsExample | api/server/agent/directive.ts:198-214 | an illustration: histories [p1,p2,p3] and [p2,p4] give presets [p1,p2,p3,p4]; the general result is `CollectPresets` with `Seqs.FirstsBySound` |
| DirectiveStore.DedupExample | api/server/agent/directive.ts:203-211 | an illustration: de-duplicating [p1,p2,p3,p2,p4] by first-seen key gives [p1,p2,p3,p4] |
| DirectiveStore.VisitHistory | api/server/agent/directive.ts:204-210 | the inner loop keeps `seen` equal to the keys kept so far and `presets` equal to the first-by-key of the entries seen |
| DirectiveStore.CollectPresets | api/server/agent/directive.ts:198-214 | the presets are the first directive of each key over all histories in order, so no two share a key |
| DirectiveStore.DirectiveStore.constructor | api/server/agent/directive.ts:29-35 | both paths under the configured or default directory; no history cached |
| DirectiveStore.DirectiveStore.LoadDirectives | api/server/agent/directive.ts:46-58 | reads the file on every call; missing or corrupt gives `{}` |
| DirectiveStore.DirectiveStore.LoadHistory | api/server/agent/directive.ts:63-82 | the cached history, or the file read into the cache |
| DirectiveStore.DirectiveStore.SaveDirectives | api/server/agent/directive.ts:87-105 | a failed save removes the temporary file and returns the error |
| DirectiveStore.DirectiveStore.SaveHistory | api/server/agent/directive.ts:110-120 | a failed save returns the error and leaves the temporary file |
| DirectiveStore.DirectiveStore.GetDirective | api/server/agent/directive.ts:125-128 | `null` for a conversation with no current directive |
| DirectiveStore.DirectiveStore.SaveDirective | api/server/agent/directive.ts:133-169 | a replaced directive goes to the capped history, which is saved first; with no prior directive history is neither changed nor saved; then the new directive becomes current |
| DirectiveStore.DirectiveStore.GetDirectiveHistory | api/server/agent/directive.ts:174-177 | oldest first, `[]` when none |
| DirectiveStore.DirectiveStore.DeleteDirective | api/server/agent/directive.ts:182-192 | `false` with no write when absent; otherwise removes only that current directive, history untouched |
| DirectiveStore.DirectiveStore.GetPresets | api/server/agent/directive.ts:198-214 | the presets of the loaded history |
| DirectiveStore.DirectiveStore.ClearCache | api/server/agent/directive.ts:219-222 | the next history load reads the file again |
| DirectivesService.Loaded | api/server/services/Directives/index.js:29-48 | a missing file gives `[]`; a corrupt one is an error, never `[]` |
| DirectivesService.NewDirective | api/server/services/Directives/index.js:97-111 | the new record has the given id (unless the data carries one), the data fields, and both timestamps from the call's clock value |
| DirectivesService.Updated | api/server/services/Directives/index.js:120-136 | the update overlays its fields, keeps every other field and sets a new `updatedAt` |
| DirectivesService.UpdatedKeepsId | api/server/services/Directives/index.js:120-136 | an update without `id` keeps the record's id |
| DirectivesService.UpdatedIdempotent | api/server/services/Directives/index.js:120-136 | applying the same update twice is applying it once |
| DirectivesService.CreatedIdsDiffer | api/server/services/Directives/index.js:101 | two created directives with different uuids get different ids |
| DirectivesService.FindCreated | api/server/services/Directives/index.js:86-89 | a created directive with a fresh id is found at the end of the list |
| DirectivesService.DeleteUndoesCreate | api/server/services/Directives/index.js:144-154 | deleting a freshly created directive restores the list |
| DirectivesService.GetPresets | api/server/services/Directives/index.js:160-191 | exactly the four presets, in order |
| DirectivesService.DirectivesStorage.constructor | api/server/services/Directives/index.js:20-22 | the storage directory and files |
| DirectivesService.DirectivesStorage.LoadUserDirectives | api/server/services/Directives/index.js:29-48 | the user's list, `[]` without a file, an error for any other read failure |
| DirectivesService.DirectivesStorage.SaveUserDirectives | api/server/services/Directives/index.js:56-69 | temporary file then rename; on success a later load returns the list |
| DirectivesService.DirectivesStorage.GetDirectives | api/server/services/Directives/index.js:76-78 | the loaded list |
| DirectivesService.DirectivesStorage.GetDirective | api/server/services/Directives/index.js:86-89 | the first record with the id, or `null` |
| DirectivesService.DirectivesStorage.CreateDirective | api/server/services/Directives/index.js:97-111 | appends one record at the end and returns it; earlier records unchanged |
| DirectivesService.DirectivesStorage.UpdateDirective | api/server/services/Directives/index.js:120-136 | `null` with no write when the id is absent; otherwise only that position changes |
| DirectivesService.DirectivesStorage.DeleteDirective | api/server/services/Directives/index.js:144-154 | removes every record with the id, keeps the others in order, `true`; `false` with no write when nothing matched |
| DirectiveService.StorageKeyCollision | api/server/services/Directive/index.js:27-29 | the key is one concatenated string: ("a_b", "c") and ("a", "b_c") share it |
| DirectiveService.Normalized | api/server/services/Directive/index.js:73-81 | falsy texts become `''`, a falsy memory policy `'auto'`, `updatedAt` is now |
| DirectiveService.ResaveKeepsFields | api/server/services/Directive/index.js:73-81 | saving a record's own fields again changes only `updatedAt` |
| DirectiveService.OmittedFieldReverts | api/server/services/Directive/index.js:73-86 | an illustration of the whole-record save: a personality omitted in a later save is `''` again, whatever the earlier save set (the general fact is `DirectiveFiles.SaveDirective`, whose stored record is `Normalized` of the new data alone) |
| DirectiveService.DirectiveFiles.constructor | api/server/services/Directive/index.js:5 | the configured or default directory |
| DirectiveService.DirectiveFiles.GetDirective | api/server/services/Directive/index.js:37-55 | `null` without a file, the stored record otherwise, an error for other read failures |
| DirectiveService.DirectiveFiles.SaveDirective | api/server/services/Directive/index.js:68-94 | returns exactly what it stored; a later get returns it; a failed save leaves the stored record as it was |
| DirectiveService.DirectiveFiles.DeleteDirective | api/server/services/Directive/index.js:102-115 | `true` exactly when a file was there, `false` for `ENOENT`, and get then returns `null`; any other `unlink` error is rethrown and the file stays |
| AgentDirective.DefaultDirective | api/server/agent/directive.js:40-48 | the default has exactly the seven fields, with `''`, `''`, `[]`, `'auto'` |
| AgentDirective.Normalized | api/server/agent/directive.js:64-73 | exactly the eight keys of the written object (other input fields are dropped); each field is the input's when truthy, else its default (`presets []`, `createdAt` now); `updatedAt` is now |
| AgentDirective.RewriteKeepsCreatedAt | api/server/agent/directive.js:64-73 | writing a written record again keeps `createdAt` and changes only `updatedAt` |
| AgentDirective.DirectiveStore.constructor | api/server/agent/directive.js:10-13 | the default directory |
| AgentDirective.DirectiveStore.Read | api/server/agent/directive.js:32-53 | an absent conversation reads as the default, with no write |
| AgentDirective.DirectiveStore.Write | api/server/agent/directive.js:61-80 | replaces the whole record and returns what it stored, so every later read returns it; a write refused at open leaves the old file readable, a torn write makes reads fail |
| AgentDirective.DirectiveStore.Delete | api/server/agent/directive.js:87-99 | `true` with or without a file, and read then yields the default; any other `unlink` error is rethrown and the file stays |
| AgentMemory.EmptyMemory | api/server/memory/store.js:40-45 | exactly the four keys `{conversationId, facts: [], createdAt: now, updatedAt: now}` and no `metadata` |
| AgentMemory.Normalized | api/server/memory/store.js:61-67 | exactly the five keys `conversationId`, `facts`, `createdAt`, `updatedAt`, `metadata` (other input fields are dropped); `facts` defaults to `[]`, `metadata` to `{}`, an input `createdAt` is kept, `updatedAt` is now |
| AgentMemory.RewriteKeepsCreatedAt | api/server/memory/store.js:61-67 | writing a written record again changes only `updatedAt` |
| AgentMemory.ConversationIds | api/server/memory/store.js:102-105 | exactly the names ending in `.json`, each with its first `.json` removed |
| AgentMemory.NameListsAsId | api/server/memory/store.js:23-25 | a conversation file's name lists as its conversation id when the id contains no `.json` |
| AgentMemory.OnlyOwnNameListsAsId | api/server/memory/store.js:102-105 | only the conversation's own file name lists as that id |
| AgentMemory.ListedName | api/server/memory/store.js:102-105 | a listed name is its id plus `.json`, unless the id itself contains `.json` |
| AgentMemory.MemoryStore.constructor | api/server/memory/store.js:10-13 | the default directory |
| AgentMemory.MemoryStore.Read | api/server/memory/store.js:32-50 | an absent conversation reads as the empty memory, with no write |
| AgentMemory.MemoryStore.Write | api/server/memory/store.js:58-74 | replaces the record and returns what it stored, so every later read returns it; a write refused at open leaves the old file readable, a torn write makes reads fail |
| AgentMemory.MemoryStore.Delete | api/server/memory/store.js:81-94 | `true` with or without a file, and read then yields the empty memory; any other `unlink` error is rethrown and the file stays |
| AgentMemory.MemoryStore.List | api/server/memory/store.js:100-110 | the ids of the listing, `[]` when listing fails |
| AgentMemory.MemoryStore.ListedIffFile | api/server/memory/store.js:100-110 | for an id without `.json`, it is listed exactly when its file exists (so after write it is, after delete it is not) |
| Connectors.ProvidersOf | api/server/services/Connectors/index.js:17 | an unknown user has no providers |
| Connectors.Lookup | api/server/services/Connectors/index.js:62-65 | data exactly when the user and provider are both present |
| Connectors.Stamped | api/server/services/Connectors/index.js:47-51 | the stored data is the given fields plus `connectedAt` |
| Connectors.StoreThenGet | api/server/services/Connectors/index.js:42-65 | get after store returns the stamped data; every other (user, provider) is unchanged |
| Connectors.StoreReplaces | api/server/services/Connectors/index.js:47-51 | a second store replaces the first wholesale |
| Connectors.RemoveThenGet | api/server/services/Connectors/index.js:72-78 | after remove, get is `null`; other users and providers unaffected |
| Connectors.RemoveAbsentNoOp | api/server/services/Connectors/index.js:72-78 | removing an absent entry changes nothing |
| Connectors.RemoveUndoesStore | api/server/services/Connectors/index.js:42-78 | removing a fresh entry restores every lookup |
| Connectors.StatusOf | api/server/services/Connectors/index.js:21-26 | `connected = true`, `connectedAt` from the data, `metadata` defaulting to `{}` |
| Connectors.ConnectorStore.constructor | api/server/services/Connectors/index.js:8 | the registry starts empty |
| Connectors.ConnectorStore.GetConnectedServices | api/server/services/Connectors/index.js:15-34 | one entry per stored provider, in insertion order; `[]` for an unknown user |
| Connectors.ConnectorStore.StoreConnectorData | api/server/services/Connectors/index.js:42-54 | the registry gains the stamped data under (user, provider) |
| Connectors.ConnectorStore.GetConnectorData | api/server/services/Connectors/index.js:62-65 | the stored data or `null` |
| Connectors.ConnectorStore.RemoveConnectorData | api/server/services/Connectors/index.js:72-78 | removes only that (user, provider) |
| Connectors.ConnectorStore.IsConnectorConnected | api/server/services/Connectors/index.js:86-89 | true exactly when get would return data |
| GoogleCloudConnector.ServiceAccountData | api/server/services/Connectors/GoogleCloud.js:17-23 | exactly the two keys `serviceAccount` (the whole account) and `metadata`, which is exactly `{projectId, clientEmail}` from the account |
| GoogleCloudConnector.StatusOf | api/server/services/Connectors/GoogleCloud.js:43-60 | not connected without data; otherwise the metadata fields and `connectedAt`; absent metadata is a `TypeError` |
| GoogleCloudConnector.CredentialsOf | api/server/services/Connectors/GoogleCloud.js:33-36 | the stored service account, or `null` |
| GoogleCloudConnector.StatusAfterUpload | api/server/services/Connectors/GoogleCloud.js:9-60 | after a valid upload, status reports its project and e-mail, and the credentials are returned |
| GoogleCloudConnector.StatusAfterDisconnect | api/server/services/Connectors/GoogleCloud.js:66-69 | after disconnect, not connected and no credentials |
| GoogleCloudConnector.UploadGoogleCloudServiceAccount | api/server/services/Connectors/GoogleCloud.js:9-26 | an error and no change unless `project_id`, `private_key` and `client_email` are all present |
| GoogleCloudConnector.GetGoogleCloudCredentials | api/server/services/Connectors/GoogleCloud.js:33-36 | the credentials of the current registry |
| GoogleCloudConnector.GetGoogleCloudStatus | api/server/services/Connectors/GoogleCloud.js:43-60 | the status of the current registry |
| GoogleCloudConnector.DisconnectGoogleCloud | api/server/services/Connectors/GoogleCloud.js:66-69 | removes only the `google-cloud` entry of that user |
| RubeConnector.ApiKeyData | api/server/services/Connectors/Rube.js:88-93 | exactly the two keys `apiKey` and `metadata`, which is exactly `{authType: 'api-key'}` |
| RubeConnector.StatusOf | api/server/services/Connectors/Rube.js:103-118 | not connected without data; otherwise `authType` and `connectedAt` |
| RubeConnector.StatusAfterConnect | api/server/services/Connectors/Rube.js:86-118 | after connecting, the status reports `api-key` and the connection time |
| RubeConnector.StatusAfterDisconnect | api/server/services/Connectors/Rube.js:103-127 | after disconnect, not connected |
| RubeConnector.ConnectRubeAPIKey | api/server/services/Connectors/Rube.js:86-96 | stores the key data under `rube`, replacing earlier data |
| RubeConnector.GetRubeStatus | api/server/services/Connectors/Rube.js:103-118 | the status of the current registry |
| RubeConnector.DisconnectRube | api/server/services/Connectors/Rube.js:124-127 | removes only the `rube` entry of that user |
| GoogleOAuth.StateFor | api/server/connectors/google_oauth.js:17 | the state starts with `userId + "_"` |
| GoogleOAuth.TokenKey | api/server/connectors/google_oauth.js:72 | the token entry's key starts with `google_` |
| GoogleOAuth.StatusCode | api/server/connectors/google_oauth.js:42-103 | 200 exactly for a connected callback |
| GoogleOAuth.AfterLogin | api/server/connectors/google_oauth.js:14-36 | login records one entry `state -> {userId, timestamp}` and changes nothing else |
| GoogleOAuth.AfterCallback | api/server/connectors/google_oauth.js:42-103 | error, missing code or state, and unknown state each leave the map unchanged; a known state is removed and tokens are set for the user recorded at login |
| GoogleOAuth.LoginThenCallback | api/server/connectors/google_oauth.js:14-75 | a callback with the state from login connects that user |
| GoogleOAuth.ReplayRejected | api/server/connectors/google_oauth.js:54-61 | replaying a consumed state is rejected |
| GoogleOAuth.TokenKeyAcceptedAsState | api/server/connectors/google_oauth.js:54-75 | `google_<userId>` is accepted as a state and writes `google_undefined` |
| GoogleOAuth.DisconnectIdempotent | api/server/connectors/google_oauth.js:128-138 | disconnect is idempotent, leaves the user disconnected and keeps other entries |
| GoogleOAuth.GoogleOAuthRouter.constructor | api/server/connectors/google_oauth.js:8 | the token map starts empty |
| GoogleOAuth.GoogleOAuthRouter.Login | api/server/connectors/google_oauth.js:14-36 | returns the recorded state |
| GoogleOAuth.GoogleOAuthRouter.Callback | api/server/connectors/google_oauth.js:42-103 | the outcome, the status and the new map, as `AfterCallback` gives them |
| GoogleOAuth.GoogleOAuthRouter.Status | api/server/connectors/google_oauth.js:109-122 | connected exactly when `google_<userId>` is present |
| GoogleOAuth.GoogleOAuthRouter.Disconnect | api/server/connectors/google_oauth.js:128-138 | deletes `google_<userId>` unconditionally |
| RubeRoutes.LoginState | api/server/connectors/rube.js:80 | the state starts with `userId + "_"` |
| RubeRoutes.CallbackStatus | api/server/connectors/rube.js:100-138 | 200 exactly without an error and with both code and state, else 400 |
| RubeRoutes.RubeRouter.constructor | api/server/connectors/rube.js:7 | the connection map starts empty |
| RubeRoutes.RubeRouter.Link | api/server/connectors/rube.js:13-36 | a missing or non-string key is 400 with no change; otherwise `rube_<userId>` is set, replacing any earlier entry |
| RubeRoutes.RubeRouter.Status | api/server/connectors/rube.js:42-55 | connected exactly when `rube_<userId>` is present |
| RubeRoutes.RubeRouter.Disconnect | api/server/connectors/rube.js:61-71 | removes `rube_<userId>`, idempotently |
| RubeRoutes.LinkThenDisconnect | api/server/connectors/rube.js:23-64 | link followed by disconnect leaves the map as a disconnect alone would |
| RubeRoutes.ConnectionKeyInjective | api/server/connectors/rube.js:23 | different users get different connection keys |
| GoogleCloudSpeech.GetVoiceConfig | api/server/connectors/google_cloud.js:33-47 | three `:`-separated parts become language, name and gender; anything else gives the default voice |
| GoogleCloudSpeech.VoiceConfigRoundTrip | api/server/connectors/google_cloud.js:33-45 | a voice written as `lang:name:gender` (parts without `:`) is read back part for part |
| GoogleCloudSpeech.NoSeparatorGivesDefault | api/server/connectors/google_cloud.js:24-30 | a value without `:` gives the default en-GB / en-GB-Wavenet-F / FEMALE |
| GoogleCloudSpeech.AcceptsAudioTypes | api/server/connectors/google_cloud.js:14-21 | an illustration: every `audio/...` type is accepted and a type too short for the prefix is not (the filter itself is the predicate `AcceptsFile`) |
| GoogleCloudSpeech.FirstAlternatives | api/server/connectors/google_cloud.js:130-132 | each result's first alternative, in order; none when a result has no alternative |
| GoogleCloudSpeech.Transcript | api/server/connectors/google_cloud.js:130-132 | the first alternatives joined by newlines |
| GoogleCloudSpeech.TranscriptLines | api/server/connectors/google_cloud.js:130-132 | with one-line transcripts, the transcript splits back into the first alternatives |
| GoogleCloudSpeech.TtsRequest | api/server/connectors/google_cloud.js:149-171 | 501 when the clients are off, before anything else; 400 for missing, empty or non-string text; a non-empty string text always gives a synthesis request with that text and the configured voice |
| GoogleCloudSpeech.VoiceNameIgnored | api/server/connectors/google_cloud.js:166-171 | an illustration of the code as written: for all inputs the requested voice name never changes the request, since both branches of the voice choice end in the configured voice |
| GoogleCloudSpeech.SttRequest | api/server/connectors/google_cloud.js:99-114 | 501 first, then 400 without a file, then the language defaulting to en-US |
| GoogleCloudSpeech.TtsStatus | api/server/connectors/google_cloud.js:150-163 | 501 exactly without clients, 400 exactly without text, 200 exactly when synthesis goes ahead |
| GoogleCloudSpeech.InitializeClients | api/server/connectors/google_cloud.js:51-90 | enabled exactly when some credential is set, the libraries load, a given key parses and the clients construct; otherwise the message for the first failing check, in the source's order: not configured, libraries fail to load (initialisation failed), key does not parse (invalid key), clients fail to construct (initialisation failed) |
| GoogleCloudSpeech.StatusReport | api/server/connectors/google_cloud.js:199-208 | the enabled flag, the clients' message or "Speech services are available", the default voice name `Vale` and the configuration `getVoiceConfig()` gives |
| GoogleCloudSpeech.AvailableIffEnabled | api/server/connectors/google_cloud.js:199-208 | for initialised clients, the status says the services are available exactly when they are enabled |
| DirectivesRoutes.Status | api/server/routes/directives.js:70-161 | 201 exactly for created, 404 for not found, 400 for a bad body, 500 for a failure, 200 exactly for the list, presets, found, changed and deleted replies |
| DirectivesRoutes.OptionalText | api/server/routes/directives.js:97-100 | absent or `null` gives `''`; a string is trimmed; anything else makes `.trim()` throw |
| DirectivesRoutes.ToObject | api/server/routes/directives.js:95-101 | the service receives exactly the five fields |
| DirectivesRoutes.CreateFields | api/server/routes/directives.js:89-101 | 400 exactly when the name is missing, not a string or blank; otherwise the trimmed name and fields, or a `TypeError` |
| DirectivesRoutes.CreatedFieldsNormal | api/server/routes/directives.js:95-101 | accepted data has a non-empty name and only trimmed fields |
| DirectivesRoutes.CreateFieldsRoundTrip | api/server/routes/directives.js:89-101 | already-normal data posted again is accepted unchanged |
| DirectivesRoutes.CreateFieldsIdempotent | api/server/routes/directives.js:89-101 | normalising POST data twice is normalising it once |
| DirectivesRoutes.UpdatesFor | api/server/routes/directives.js:118-133 | the updates hold exactly the listed fields the body has, each trimmed; a non-string one throws |
| DirectivesRoutes.UpdatesOf | api/server/routes/directives.js:116-133 | the updates over the five fields |
| DirectivesRoutes.UpdatesIdempotent | api/server/routes/directives.js:118-133 | a PATCH body built from PATCH updates gives the same updates |
| DirectivesRoutes.PatchKeepsId | api/server/routes/directives.js:118-135 | a PATCH never changes the directive's id |
| DirectivesRoutes.PatchSetsNamedFields | api/server/routes/directives.js:118-135 | a PATCH sets exactly the fields it names, trimmed, and leaves the rest |
| DirectivesRoutes.BlankNameOnlyOnPatch | api/server/routes/directives.js:91-120 | a blank name is 400 on POST but stored as `''` by PATCH |
| DirectivesRoutes.PostedName | api/server/routes/directives.js:95-103 | the created directive carries the trimmed name and a service-assigned id |
| DirectivesRoutes.PostThenGet | api/server/routes/directives.js:70-103 | a directive created by POST is the one a GET of its id finds |
| DirectivesRoutes.PresetsRoute | api/server/routes/directives.js:57-64 | exactly the service's presets `GetPresets()` (the four named presets, in order), status 200 |
| DirectivesRoutes.ListRoute | api/server/routes/directives.js:44-51 | the user's directives, or 500 when the file cannot be read |
| DirectivesRoutes.GetRoute | api/server/routes/directives.js:70-80 | 404 when no directive has the id |
| DirectivesRoutes.PostRoute | api/server/routes/directives.js:87-107 | 400 with no write for a bad name; otherwise the service's create, 201 on success |
| DirectivesRoutes.PatchRoute | api/server/routes/directives.js:114-144 | the service's update with the built updates; 404 when it reports not found |
| DirectivesRoutes.DeleteRoute | api/server/routes/directives.js:150-161 | 404 when the service reports nothing deleted |
| Strings.TrimEmptyIffBlank | api/server/routes/directives.js:91 | `trim() === ''` exactly for strings made only of white space |
| Strings.TrimIdempotent | api/server/routes/directives.js:96-100 | a trimmed string has no white space at either end and trims to itself |
| Strings.ReplaceFirst | api/server/memory/store.js:105 | `replace` with a string pattern changes nothing when the pattern does not occur |
| Strings.SplitJoin | api/server/connectors/google_cloud.js:37 | splitting a joined list of separator-free parts gives the parts back |
| Strings.JoinSplit | api/server/connectors/google_cloud.js:37 | joining a split string gives the string back |
| Seqs.Without | api/server/services/Directives/index.js:146 | the filter keeps, in order, exactly the records without the key |
| Seqs.WithoutSameLength | api/server/services/Directives/index.js:147-149 | the filter leaves the length unchanged exactly when no record has the key |
| Seqs.Only | api/server/memory/store.ts:185 | the filter keeps, in order, exactly the items with the value |
| Seqs.FindIndex | api/server/services/Directives/index.js:88 | the first position with the key, or none when no record has it |
| Seqs.Last | api/server/agent/directive.ts:159 | `slice(-n)`: the last `n` elements, or all when fewer |
| Seqs.LastAppendAll | api/server/agent/directive.ts:155-160 | capping after each push equals capping once at the end |
| Seqs.FirstsBySound | api/server/agent/directive.ts:203-211 | first-by-key keeps distinct keys and only elements of the input |
| OrderedMap.PutKeys | api/server/services/Connectors/index.js:44-48 | setting a key keeps the other keys in their insertion order and adds a new key at the end |
| Disk.AfterWrite | api/server/agent/directive.js:74 | a direct `writeFile`: on success the file holds the value; refused at open nothing changes; a torn write leaves an unreadable file; other files are untouched |
| Disk.AfterAtomicSave | api/server/services/Directives/index.js:56-69 | temporary file then rename: on success the target holds the value; on failure the target is unchanged |

## Left out

- Concurrency: the interleaving of concurrent `Promise.all` saves is not modelled; every operation runs to completion before the next starts.
- JSON text: `JSON.stringify`/`JSON.parse` and the file format are not modelled; a file is a parsed value or `Corrupt`.
- Clocks, uuids and randomness: `Date.now`, `new Date().toISOString()`, `uuidv4`, `Math.random` and `crypto.randomBytes` are parameters. One clock value stands for all clock reads within one call, so two reads that the source makes apart are equal in the model. This applies to:
  - `api/server/memory/store.ts` lines 113 and 116 (an item's id and timestamp);
  - `api/server/services/Directives/index.js` lines 103-104 (`createdAt` and `updatedAt` of a new directive);
  - `api/server/agent/directive.js` lines 46-47 and 71-72;
  - `api/server/memory/store.js` lines 43-44 and 64-65;
  - `api/server/connectors/google_oauth.js` lines 17 and 20 (login) and 66, 67 and 74 (callback).
- Network and SDK calls: the Google token exchange, the Rube OAuth and axios functions and the Google Cloud speech clients are outside the model. Client initialisation is modelled by its outcome, with library loading, key parsing and client construction as inputs; the `error` object it keeps is not.
- The Google and Rube authorization URLs (environment values and `encodeURIComponent`) are not modelled; only the recorded state is.
- Express, JWT and permission middleware, sessions and multer's size limits are outside the model; handlers are methods from request fields to replies.
- The scaffold speech modules, the thin route files other than `routes/directives.js`, the files with merge-conflict debris and all client code are not part of this model.
- The float `confidence` of a recognition result is not modelled.
- JavaScript enumerates integer-like object keys before other keys; the model uses insertion order throughout.
- Directory creation (`mkdir`, `ensureDirectoryExists`) and `path.join` normalisation are not modelled; paths are joined with `/`.
- A failure of the clean-up `unlink` after a failed save (which is only logged) is not modelled.
- Read failures other than a missing file are all `Corrupt`; file contents are assumed to have the shape each store expects.
- Request-body fields are JSON values; a missing `req.body` is not modelled.
- The directory listing of `api/server/memory/store.js` is a parameter; `ListedIffFile` assumes it lists exactly the files present.
- The `cache` field of `api/server/agent/directive.ts` is written but never read, so only `historyCache` acts as a cache.
- The spread of fields explicitly set to `undefined` is not modelled; an absent field and an `undefined` one are the same.
- Shared directories: each store class has its own `files` map, so no store sees another's writes. In the program several stores share a directory:
  - `api/server/memory/store.ts` (lines 29-30) and `api/server/memory/store.js` (lines 11, 24) both use `<cwd>/data/memory`. The conversation `memory-store` of the per-conversation store is the whole-map store's file, and its listing includes that file.
  - `api/server/agent/directive.ts` (lines 30-33), `api/server/agent/directive.js` (line 11) and `api/server/services/Directive/index.js` (lines 5, 28) all default to `<cwd>/data/directives`. The agent conversations `directives` and `directive-history` are the TypeScript store's files, and the agent conversation `u_c` is the conversation-directive record of user `u` and conversation `c`.
  - With `DIRECTIVE_STORE_PATH` set, `api/server/services/Directives/index.js` (lines 7, 21) keeps `<userId>.json` in that same directory.
  - So the read-after-save properties hold in the model only for names that no other store writes.
- Prototype keys: the whole-map stores index plain JavaScript objects (`api/server/memory/store.ts` lines 99 and 108-120, `api/server/agent/directive.ts` lines 127 and 151-189). For a conversation id such as `constructor`, the program finds the inherited `Object` member: `getMemoryItems` returns it, `addMemoryItem` throws at `.push`, and `getDirective` returns it instead of `null`. Likewise `api/server/services/Connectors/index.js` line 64 (`userConnectors?.[provider] || null`) returns an inherited member for a provider such as `constructor`, where `Connectors.Lookup` answers `None` (its callers pass only `google`, `google-cloud` and `rube`). The model treats every id as an own key, so it answers `[]`, adds the item and answers `null`.
