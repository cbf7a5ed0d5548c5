# A verified model of the Nia voice-chat client core

Nia is a desktop voice-chat client. A user talks to a realtime speech model over a
WebRTC data channel. The client keeps live transcripts and a conversation log,
counts the tokens the server reports, and saves each finished conversation to a
local SQLite store. It shows saved sessions on two pages, keeps its settings in a
key/value table, drives an avatar in VTube Studio by emotion, speaks through the
ElevenLabs text-to-speech service, and has two page hooks: one plays audio chunks
through a FIFO queue, the other records push-to-talk audio for upload.

This project models the logic of those pieces in Dafny, one module per source file:

- `RealtimeChat` (`realtime_chat.dfy`): the chat hook.
  - Server events are a pure dispatch function `Apply` over the hook's state, with the 500 ms deferred clears as a separate event.
  - The class `ChatHook` holds the state and has one method per handler; the methods are proved against `Apply`.
  - The save a disconnect makes is recorded as a store write. The teardown that follows the awaited save is a separate event, `SaveSettled`.
- `SessionStore` (`sessions.dfy`): the session history store.
  - The persisted cost is computed in whole cents.
  - The `sessions` and `messages` tables are sequences of rows with their AUTOINCREMENT counters, and the queries are functions over them.
  - The class `SessionDb` runs the save transaction, with its loop over the messages and its rollback.
- `SettingsDb` (`settings.dfy`): the settings table as a map, the row fold of `getSettings`, the upserts, and the defaulting projections.
- `VTubeStudio` (`vtube.dfy`): the emotion matcher with its keyword table, the expression lookup, and the connection guard of the service class.
- `ElevenLabs` (`elevenlabs.dfy`): the stream reader loop, the offset copy into an array, the voice mapping, and the streaming connection's state.
- `CostTracker` (`cost_tracker.dfy`): the live cost estimate, the `MM:SS` clock, and the panel's state.
- `SessionDisplay` (`session_display.dfy`): `formatDuration`, the dollars-and-cents text, and the start date.
  - `Sessions.tsx` and `SessionDetail.tsx` each carry an identical copy of `formatDuration`, so there is one function `FormatDuration`, used by both page modules.
  - A parser proves that it is injective.
- `SessionsPage` and `SessionDetailPage` (`sessions_page.dfy`, `session_detail.dfy`): the two pages' state and what they render.
- `AudioPlayer` (`audio_player.dfy`): the playback queue.
  - Each `await` in `processQueue` becomes a task waiting for an event method.
  - Ghost sequences record every chunk queued, taken, started and dropped, to prove FIFO order and that no chunk is lost.
- `Microphone` (`microphone.dfy`): the push-to-talk hook, with its chunk filter, event guards and file naming.
- `Common`, `Sorting` and `Text` (`common.dfy`, `text.dfy`): JavaScript's truthiness, `||`, `%`, `toLowerCase`, `includes`, `toString` and `padStart` on ASCII text, and the stable sort that stands for `ORDER BY`.

Where the code is evidently wrong (see "## Findings"), the members that model the pages and the hooks follow the code as written, and the corrected definitions sit beside them with the intended properties proved.

Browser, network and database I/O outcomes are parameters of the methods. Clock
readings are parameters too, and timers are explicit events.

## Model

| member | source | states |
|---|---|---|
| RealtimeChat.DeltaAccumulates | src/hooks/useRealtimeChat.ts:198-238 | a transcription delta appends its text to the user's accumulator and a text or audio-transcript delta to the agent's; an empty or missing delta changes nothing |
| RealtimeChat.CompletionAppendsOne | src/hooks/useRealtimeChat.ts:207-247 | a completion with text appends exactly one log entry for its speaker (`You` for input transcription, `Agent` otherwise) and schedules one clear of that speaker's accumulator; one without text changes nothing |
| RealtimeChat.ResetsAndUnknownKinds | src/hooks/useRealtimeChat.ts:196-271 | `response.created` empties the agent's accumulator, `input_audio_buffer.speech_started` the user's, and any other event type changes nothing |
| RealtimeChat.UsageAdds | src/hooks/useRealtimeChat.ts:259-270 | `response.done` adds each reported count, a missing one as 0, to its counter, and without usage changes nothing |
| RealtimeChat.StaleClearLosesDelta | src/hooks/useRealtimeChat.ts:211-213 | a delta that arrives between a completion and the clear it scheduled is lost, since the clear empties the accumulator unconditionally |
| RealtimeChat.TokensNeverDecrease | src/hooks/useRealtimeChat.ts:259-270 | over any run of events and clears, with non-negative reported usage, no counter ever decreases |
| RealtimeChat.LogOnlyGrows | src/hooks/useRealtimeChat.ts:193-272 | over any run of events and clears the earlier log entries stay a prefix of the log |
| RealtimeChat.FindDeviceFirst | src/hooks/useRealtimeChat.ts:45-46 | the device lookup finds nothing exactly when no device has the id, and otherwise the first device that does |
| RealtimeChat.MessagesFor | src/hooks/useRealtimeChat.ts:49-53 | one message per log entry |
| RealtimeChat.SavesOnDisconnect | src/hooks/useRealtimeChat.ts:36-71 | a disconnect writes exactly one session to the store when the start time is truthy and the log is non-empty, and none otherwise |
| RealtimeChat.SaveRequestFields | src/hooks/useRealtimeChat.ts:38-71 | the saved duration is the elapsed time in whole seconds rounded down; each log entry becomes one message in order with its speaker and text, stamped `k` seconds after the start; the cost is the persisted cost of the counters |
| RealtimeChat.DeviceLabelChoice | src/hooks/useRealtimeChat.ts:45-46 | the stored device name is the label of the first device with the selected id, or the fallback when no device has it |
| RealtimeChat.ChatHook.constructor | src/hooks/useRealtimeChat.ts:6-30 | the hook starts disconnected with an empty log, empty accumulators, zero counters, no start time, no selected devices and the default model |
| RealtimeChat.ChatHook.HandleServerEvent | src/hooks/useRealtimeChat.ts:193-272 | the hook's state after an event is the dispatch function's, whose properties are proved above |
| RealtimeChat.ChatHook.ClearFires | src/hooks/useRealtimeChat.ts:211-213 | the oldest pending 500 ms timer empties its speaker's accumulator |
| RealtimeChat.ChatHook.SendClientEvent | src/hooks/useRealtimeChat.ts:185-191 | an event is written only when the channel is open, and dropped otherwise |
| RealtimeChat.ChatHook.HandleDisconnect | src/hooks/useRealtimeChat.ts:32-113 | up to its `await`: the store receives the save decided above; with something to save the teardown waits and the session stays running, so a second disconnect meanwhile saves again; with nothing to save the hook is torn down at once; the log survives |
| RealtimeChat.ChatHook.SaveSettled | src/hooks/useRealtimeChat.ts:56-112 | when an awaited save settles, stored or failed, the hook is disconnected with empty accumulators, zero counters and no start time, discarding counts from events handled meanwhile; a later disconnect then saves nothing |
| RealtimeChat.ChatHook.Unmount | src/hooks/useRealtimeChat.ts:128-139 | the unmount cleanup runs the first render's disconnect, which sees no start time: with a peer connection the hook is torn down, and nothing is ever saved |
| RealtimeChat.ChatHook.SelectMic | src/hooks/useRealtimeChat.ts:439 | the selected microphone becomes the given device id |
| RealtimeChat.ChatHook.SelectSpeaker | src/hooks/useRealtimeChat.ts:440-445 | the selected speaker becomes the given device id |
| RealtimeChat.DisconnectTwice | src/hooks/useRealtimeChat.ts:36-56 | two disconnects before the first save settles make two store writes of the same session start |
| RealtimeChat.UnmountDropsSession | src/hooks/useRealtimeChat.ts:130-139 | unmounting during a conversation that a disconnect would save tears down and leaves the store untouched, with the log still non-empty |
| RealtimeChat.ChatHook.HandleConnect | src/hooks/useRealtimeChat.ts:274-437 | without a selected microphone nothing changes; a missing key or any failed step runs the disconnect path, leaving the peer connection and channel as far as the failed step got while a save is awaited; otherwise the peer connection exists and the channel is opening |
| RealtimeChat.ChatHook.ChannelOpened | src/hooks/useRealtimeChat.ts:353-367 | on open the hook is connected, the clock starts, and one `session.update` goes out with the saved voice or `alloy`, the prompt if any, and `gpt-4o-transcribe` |
| SessionStore.ExactCostIsNumerator | src/db/sessions.ts:38-49 | the exact cost in cents at the fixed prices (100, 200, 2.5 and 10 dollars per million) is an integer numerator over 20000 |
| SessionStore.CostIsNearestCent | src/db/sessions.ts:45-51 | the stored cost is the exact cost rounded to the nearest cent, halves rounded up, as `Math.round(total * 100)` does |
| SessionStore.CostBelowHalfCent | src/db/sessions.ts:45-51 | usage worth less than half a cent, no usage in particular, costs nothing |
| SessionStore.CostMonotone | src/db/sessions.ts:45-51 | raising any token counter never lowers the rounded cost |
| SessionStore.StoredData | src/db/sessions.ts:82-83 | an empty device label is stored as NULL and a non-empty one as itself; every other field is stored unchanged |
| SessionStore.Tagged | src/db/sessions.ts:94-99 | the inserted message rows keep the messages' order, speakers, texts and timestamps and all point at the new session |
| SessionStore.SavedWellFormed | src/db/sessions.ts:63-109 | a committed save keeps the schema's constraints: increasing keys below the counters, and every message owned by an existing session |
| SessionStore.SavedSessionsOrdered | src/db/sessions.ts:65-85 | the new session row takes the next key, above every existing key |
| SessionStore.SavedMessagesOwned | src/db/sessions.ts:94-99 | after a save every message row, old or new, points at an existing session and has a key below the counter |
| SessionStore.FindSession | src/db/sessions.ts:127-135 | the session lookup finds nothing exactly when no row has the id, and otherwise a stored row with that id |
| SessionStore.MessagesOf | src/db/sessions.ts:137-140 | the message query returns exactly the stored messages of the session |
| SessionStore.MessagesOfAppend | src/db/sessions.ts:137-140 | the message query distributes over rows appended to the table |
| SessionStore.GetSessionWithMessages | src/db/sessions.ts:122-146 | nothing exactly when no session has the id; otherwise that session with a permutation of its messages sorted by timestamp |
| SessionStore.GetAllSessions | src/db/sessions.ts:113-119 | every stored session, each exactly once, most recently created first |
| SessionStore.SavedSessionReadsBack | src/db/sessions.ts:55-146 | a committed save reads back exactly: under the returned id, the saved session and its messages in the order given |
| SessionStore.FreshIdUnused | src/db/sessions.ts:65-91 | the id the next save receives is held by no stored session |
| SessionStore.FindAfterAppend | src/db/sessions.ts:127-135 | a row appended under an unused id is what that id looks up to |
| SessionStore.NoMessagesOfFreshId | src/db/sessions.ts:137-140 | no stored message belongs to the id the next save receives |
| SessionStore.MessagesOfAll | src/db/sessions.ts:137-140 | when every message belongs to the session the query returns them all, in order |
| SessionStore.MessagesOfNone | src/db/sessions.ts:137-140 | when no message belongs to the session the query returns nothing |
| SessionStore.SaveLeavesOtherSessions | src/db/sessions.ts:55-146 | a save does not change what any other id looks up to |
| SessionStore.FindUnaffected | src/db/sessions.ts:127-135 | rows with other ids appended to the table do not change a lookup |
| SessionStore.FindMissing | src/db/sessions.ts:133-135 | an id held by no row looks up to nothing |
| SessionStore.RemoveSession | src/db/sessions.ts:151 | the delete keeps exactly the rows with another id, and removes exactly that id |
| SessionStore.RemoveSessionOrdered | src/db/sessions.ts:151 | the rows left by a delete keep their keys in increasing order |
| SessionStore.RemoveMessagesOf | src-tauri/src/lib.rs:49 | the cascade keeps exactly the messages of other sessions |
| SessionStore.DeletedWellFormed | src/db/sessions.ts:149-152 | a delete, with its cascade, keeps the schema's constraints |
| SessionStore.DeleteRemovesSession | src/db/sessions.ts:149-152 | after a delete the id looks up to nothing, none of its messages is left, and every other id looks up as before |
| SessionStore.FindAfterRemove | src/db/sessions.ts:151 | removing one id does not change the lookup of another |
| SessionStore.MessagesOfAfterRemove | src/db/sessions.ts:151 | the cascade does not change another session's messages |
| SessionStore.SumsAppend | src/db/sessions.ts:164-172 | the duration and cost sums are additive over rows appended to the table |
| SessionStore.GetSessionStats | src/db/sessions.ts:155-181 | the counts are the numbers of sessions and messages, and the sums and the average are NULL exactly when there are no sessions |
| SessionStore.SaveUpdatesStats | src/db/sessions.ts:155-181 | a save adds one session, its messages, its duration and its cost to the statistics |
| SessionStore.SessionDb.constructor | src-tauri/src/lib.rs:26-50 | a new store is empty and well-formed |
| SessionStore.SessionDb.SaveSession | src/db/sessions.ts:55-110 | the save succeeds exactly when no step fails, then returns the new id and leaves the committed tables; a missing `lastInsertId` fails with "Failed to get session ID"; any failure rolls back to the tables before the save |
| SessionStore.SessionDb.Rollback | src/db/sessions.ts:105-108 | a rollback restores the tables saved at BEGIN |
| SessionStore.SessionDb.DeleteSession | src/db/sessions.ts:149-152 | the store afterwards holds the tables with the session and its messages deleted, still well-formed |
| SettingsDb.ParseJson | src/db.ts:51 | `JSON.parse` yields `true`, `false` or `null` exactly for those three texts |
| SettingsDb.ParseOfStringify | src/db.ts:77 | a boolean or `null` saved through `JSON.stringify` parses back as itself |
| SettingsDb.ApplyRowAdds | src/db.ts:44-56 | folding the row of a key not yet seen gives the settings of the table with that row added |
| SettingsDb.UnrecognisedIgnored | src/db.ts:45-52 | rows under keys the fold does not recognise never reach the settings object |
| SettingsDb.DarkModeParseFailureIsolated | src/db.ts:51-55 | a `darkMode` row that fails to parse leaves that field unset and every other field as read |
| SettingsDb.StringRoundTrip | src/db.ts:46-52 | a string saved under a string-valued key reads back as that string |
| SettingsDb.DarkModeRoundTrip | src/db.ts:51 | a boolean dark-mode flag saved through `saveSetting` reads back as that boolean |
| SettingsDb.NullReadsBackAsText | src/db.ts:49 | `null` saved under a device key reads back as the four-letter text `null`, not as `null` |
| SettingsDb.WriteAllEffect | src/db.ts:87-93 | after `saveSettings` with distinct keys, a key given a value maps to that value's text and a key given `undefined` keeps its old row |
| SettingsDb.FieldUnwritten | src/db.ts:87-93 | a key not among the entries keeps its old row |
| SettingsDb.DeviceSettingsOf | src/db.ts:64-70 | a missing or empty device id becomes `null`; any other id is passed on |
| SettingsDb.OpenAISettingsOf | src/db.ts:108-120 | there are no provider settings exactly when key, voice, prompt and model are all missing or empty; otherwise empty fields take the defaults `''`, `alloy` and `gpt-4o-realtime-preview`, and dark mode is on only for a stored `true` |
| SettingsDb.ApiKeyAloneGivesDefaults | src/db.ts:108-120 | a saved API key alone is enough for provider settings, with the default voice and model and dark mode off |
| SettingsDb.SettingsStore.constructor | src/db.ts:4 | the store starts with its table and no loaded handle |
| SettingsDb.SettingsStore.GetDB | src/db.ts:27-34 | a call that runs alone loads the database when no handle is set and otherwise reuses the handle |
| SettingsDb.SettingsStore.StartGetDB | src/db.ts:27-32 | up to its `await`, a call returns at once exactly when the handle is set; otherwise it calls `Database.load` again, even while an earlier load is still awaited |
| SettingsDb.SettingsStore.LoadSettled | src/db.ts:32-33 | when an awaited load settles, the handle is set |
| SettingsDb.OverlappingFirstLoads | src/hooks/useSettings.ts:8 | three first calls of `getDB` that overlap at startup, as the settings hook, the chat hook's settings effect (`src/hooks/useRealtimeChat.ts:143`) and the provider settings hook make, load the database three times |
| SettingsDb.SettingsStore.GetSettings | src/db.ts:39-59 | the loop over the rows yields the settings the whole table describes |
| SettingsDb.SettingsStore.SaveSetting | src/db.ts:75-82 | the key's row is inserted or replaced with the value's text and no other row changes |
| SettingsDb.SettingsStore.SaveSettings | src/db.ts:87-93 | every entry with a value is upserted, in order, and entries without one are skipped |
| SettingsDb.SettingsStore.GetDeviceSettings | src/db.ts:64-70 | the device settings of the stored table, which is left unchanged |
| SettingsDb.SettingsStore.GetOpenAISettings | src/db.ts:108-120 | the provider settings of the stored table, which is left unchanged |
| VTubeStudio.MappingKeywordsUnique | src/services/vtubeStudio.ts:323-333 | no keyword of the emotion table belongs to two of its lists |
| VTubeStudio.FindByNameFirst | src/services/vtubeStudio.ts:339-343 | the direct lookup finds nothing exactly when no lower-cased expression name contains the lower-cased emotion, and otherwise returns the first expression whose name does |
| VTubeStudio.FindByAnyFirst | src/services/vtubeStudio.ts:346-353 | the keyword lookup finds nothing exactly when no name mentions one of the keywords, and otherwise returns the first expression that does |
| VTubeStudio.MappedMatchOneList | src/services/vtubeStudio.ts:346-355 | with keywords unique, the table loop answers from the one list that holds the emotion, and answers nothing when no list holds it |
| VTubeStudio.BestMatchTiers | src/services/vtubeStudio.ts:335-356 | a direct name hit wins outright; failing that the answer comes from the emotion's own keyword list; an emotion in no list and in no name gets no match |
| VTubeStudio.BestMatchIsInput | src/services/vtubeStudio.ts:335-356 | a match is always the name of one of the expressions passed in |
| VTubeStudio.MappedIsInput | src/services/vtubeStudio.ts:346-353 | a match found through the keyword table is the name of one of the expressions passed in |
| VTubeStudio.FindBestExpressionMatch | src/services/vtubeStudio.ts:335-356 | the loop with its early returns yields the same answer as the three-tier matcher whose properties are proved above |
| VTubeStudio.FindExpressionFirst | src/services/vtubeStudio.ts:211-214 | the expression lookup used to switch expressions finds nothing exactly when no name or file contains the requested name case-insensitively, and otherwise returns the first one that does |
| VTubeStudio.Service.constructor | src/services/vtubeStudio.ts:17-22 | a new service has no socket, is not connected and holds no token |
| VTubeStudio.Service.Connect | src/services/vtubeStudio.ts:31-41 | a stored token is adopted only when it was accepted and is non-empty; a socket is always opened |
| VTubeStudio.Service.SocketOpened | src/services/vtubeStudio.ts:43-47 | opening the socket marks the service connected |
| VTubeStudio.Service.SocketFailed | src/services/vtubeStudio.ts:49-58 | an error or a close marks the service disconnected |
| VTubeStudio.Service.Authenticate | src/services/vtubeStudio.ts:67-121 | a held token is validated first and kept when valid; otherwise it is dropped, a new token is requested, and the issued token is adopted or the call fails with "Authentication failed" |
| VTubeStudio.Service.ClearAuth | src/services/vtubeStudio.ts:163-167 | the token is forgotten |
| VTubeStudio.Service.GetExpressions | src/services/vtubeStudio.ts:169-202 | without connection, socket and token the call fails with "Not connected to VTube Studio" and sends nothing; otherwise it sends one state request and returns the listed expressions or fails |
| VTubeStudio.Service.SwitchExpression | src/services/vtubeStudio.ts:204-303 | activation and deactivation share one guard, fail when the expression is not found, send one switch request for the first matching file, succeed exactly when the reply carries no error id, and schedule an automatic deactivation only for an accepted activation with a positive duration |
| VTubeStudio.Service.ConnectionStatusOf | src/services/vtubeStudio.ts:305-310 | the status reports the connection flag and never a loaded model |
| VTubeStudio.Service.Disconnect | src/services/vtubeStudio.ts:312-319 | after disconnecting, socket, connection and token are gone, so every guarded request fails |
| VTubeStudio.Registry.constructor | src/services/vtubeStudio.ts:18 | no instance exists at first |
| VTubeStudio.Registry.GetInstance | src/services/vtubeStudio.ts:24-29 | the first call creates a fresh disconnected service and every later call returns the same one |
| ElevenLabs.FlattenLength | src/services/elevenlabs.ts:188-190 | the joined buffer is exactly as long as the sum of the chunk lengths that sizes it |
| ElevenLabs.FlattenAt | src/services/elevenlabs.ts:193-196 | byte `j` of chunk `i` lands at the offset given by the lengths of the chunks before it plus `j` |
| ElevenLabs.TotalLengthPrefix | src/services/elevenlabs.ts:189-196 | the running offset never passes the total length, so every copy fits the buffer |
| ElevenLabs.Combine | src/services/elevenlabs.ts:134-141 | the offset-copy loop fills the buffer with the chunks one after another, in order |
| ElevenLabs.CreateAudioFromChunks | src/services/elevenlabs.ts:188-199 | the blob holds the chunks joined in order, is as long as their total length, and is typed `audio/mpeg` |
| ElevenLabs.CollectedStopsAtDone | src/services/elevenlabs.ts:125-131 | nothing after the first read that reports `done` is kept |
| ElevenLabs.ReadAll | src/services/elevenlabs.ts:121-131 | the read loop keeps every present value in arrival order, up to and including the read that reports `done` |
| ElevenLabs.ReadStep | src/services/elevenlabs.ts:126-130 | one read contributes its value when present and ends the loop when it reports `done` |
| ElevenLabs.VoiceFallbacks | src/services/elevenlabs.ts:64-73 | a voice's id falls back from `voice_id` to `voiceId` to `id`, labels default to an empty map, and name and category are copied |
| ElevenLabs.Connection.constructor | src/services/elevenlabs.ts:230-236 | a new streaming connection is not connected and has sent nothing |
| ElevenLabs.Connection.Opened | src/services/elevenlabs.ts:246-263 | on open the connection is marked connected and sends one configuration message holding a single space, the voice settings and the key |
| ElevenLabs.Connection.Closed | src/services/elevenlabs.ts:286-290 | on close the connection is marked disconnected |
| ElevenLabs.Service.constructor | src/services/elevenlabs.ts:39-43 | the service is configured exactly when a non-empty key is given |
| ElevenLabs.Service.SetApiKey | src/services/elevenlabs.ts:45-52 | setting a key creates the client; the service counts as configured exactly when the key is non-empty |
| ElevenLabs.Service.GetVoices | src/services/elevenlabs.ts:54-78 | without a client the call fails with "ElevenLabs API not configured"; otherwise it maps every listed voice, in order, or fails with the SDK |
| ElevenLabs.Service.GenerateSpeech | src/services/elevenlabs.ts:94-148 | without a client the call fails; otherwise the result is the bytes of every value read before `done`, joined in order |
| ElevenLabs.Service.CreateStreamingConnection | src/services/elevenlabs.ts:221-298 | without a key the call fails and the stored connection is kept; otherwise a fresh, unconnected connection with the default model, format and voice settings filled in becomes the stored one |
| ElevenLabs.Service.SendTextToStream | src/services/elevenlabs.ts:329-347 | text is sent, with generation triggered, exactly when a stored connection is connected, and nothing is sent otherwise; the connection's state is otherwise unchanged |
| ElevenLabs.Service.FlushStream | src/services/elevenlabs.ts:349-366 | the empty text is sent exactly when a stored connection is connected, and nothing is sent otherwise; the connection's state is otherwise unchanged |
| ElevenLabs.Service.CloseStreamingConnection | src/services/elevenlabs.ts:368-377 | the stored connection is asked to close and forgotten, after which streaming is inactive; its connected flag and sent messages are unchanged |
| CostTracker.AudioPrice | src/components/SessionCostTracker.tsx:27-40 | the audio price is the selected model's table entry, or the `gpt-4o-realtime-preview` entry for a model the table does not list |
| CostTracker.AudioPriceFallback | src/components/SessionCostTracker.tsx:27-40 | only `gpt-4o-mini-realtime-preview` gets 10/20 dollars per million audio tokens; every other name is charged 40/80 |
| CostTracker.MiniIsCheaper | src/components/SessionCostTracker.tsx:27-49 | the mini model's audio and text prices are at most those of any model, in each of the four categories |
| CostTracker.EstimateOfNothing | src/components/SessionCostTracker.tsx:43-54 | no tokens give an estimate of zero |
| CostTracker.EstimateMonotone | src/components/SessionCostTracker.tsx:43-54 | more tokens in every category never lower the estimate |
| CostTracker.PerMillionMonotone | src/components/SessionCostTracker.tsx:43-44 | each per-million term grows with its token count at a non-negative price |
| CostTracker.EstimateAdds | src/components/SessionCostTracker.tsx:43-54 | the estimate is additive: the estimate of two usages added together is the sum of their estimates |
| CostTracker.PerMillionAdds | src/components/SessionCostTracker.tsx:43-44 | each per-million term is additive in its token count |
| CostTracker.LiveAndSavedPricesDiffer | src/components/SessionCostTracker.tsx:27-31 | one million input audio tokens are shown live as 40 dollars while the saved session is charged 100 dollars |
| CostTracker.FormatElapsedRoundTrip | src/components/SessionCostTracker.tsx:66-69 | the elapsed label is digits, a colon and two digits, the seconds are below 60, and minutes times 60 plus seconds gives back the elapsed seconds |
| CostTracker.UnderAMinute | src/components/SessionCostTracker.tsx:67-69 | under a minute the label starts with `00:` |
| CostTracker.Panel.constructor | src/components/SessionCostTracker.tsx:23-24 | the panel starts at `00:00` with a cost of zero and no interval |
| CostTracker.Panel.RecomputeCost | src/components/SessionCostTracker.tsx:39-56 | the cost effect stores the estimate for the current usage and model |
| CostTracker.Panel.RestartClock | src/components/SessionCostTracker.tsx:59-73 | without a connection or a start time the label resets to `00:00` and no interval runs; otherwise an interval runs for that start time |
| CostTracker.Panel.Tick | src/components/SessionCostTracker.tsx:65-70 | a tick shows the whole seconds since the start as the elapsed label |
| CostTracker.Panel.Render | src/components/SessionCostTracker.tsx:75-121 | nothing renders while disconnected; otherwise the label, the cost and the audio and text token totals |
| SessionDisplay.DurationParts | src/pages/Sessions.tsx:82-85 | for a non-negative duration, hours, minutes and seconds are its mixed-radix digits: minutes and seconds below 60, and together they add back up to the duration |
| SessionDisplay.HoursShownIff | src/pages/Sessions.tsx:87-93 | the hours part is printed exactly when the duration reaches an hour |
| SessionDisplay.MinutesShownIff | src/pages/Sessions.tsx:87-93 | the minutes part is printed exactly when the duration reaches a minute |
| SessionDisplay.FormatWithHours | src/pages/Sessions.tsx:87-88 | a duration of an hour or more prints as hours, minutes and seconds, each followed by its unit |
| SessionDisplay.FormatWithMinutes | src/pages/Sessions.tsx:89-90 | a duration from a minute to under an hour prints as minutes and seconds |
| SessionDisplay.FormatDurationRoundTrip | src/pages/Sessions.tsx:82-94 | every non-negative duration printed by `formatDuration` reads back as itself, so no two durations print alike |
| SessionDisplay.RoundTripWithMinutes | src/pages/Sessions.tsx:89-90 | the minutes-and-seconds form reads back as the duration |
| SessionDisplay.RoundTripWithHours | src/pages/Sessions.tsx:87-88 | the three-unit form reads back as the duration |
| SessionDisplay.HoursSplit | src/pages/Sessions.tsx:87-88 | the three-unit form starts with the hours and a tail that reads back as the rest of the duration |
| SessionDisplay.MinutesTextParses | src/pages/Sessions.tsx:90 | a minutes-and-seconds text reads back as minutes times 60 plus seconds |
| SessionDisplay.ParseSeconds | src/pages/Sessions.tsx:92 | a seconds-only text reads back as its seconds |
| SessionDisplay.ParseHoursPrefix | src/pages/Sessions.tsx:88 | a leading hours unit adds that many hours to what follows |
| SessionDisplay.ParseMinutesPrefix | src/pages/Sessions.tsx:88-90 | a leading minutes unit adds that many minutes to what follows |
| SessionDisplay.CentsTextRoundTrip | src/pages/Sessions.tsx:184 | a non-negative cost prints as digits, a point and exactly two digits, and the two numbers read back give the cost in cents |
| SessionDisplay.ShownStartAsWrittenMisreads | src/pages/Sessions.tsx:172 | for every session saved at a non-zero start, the date as written is a thousand times as far from the epoch as the first message's time |
| SessionDisplay.ShownStartIsFirstMessage | src/hooks/useRealtimeChat.ts:48-58 | read as milliseconds, the stored start is the first message's time and message `k` is stamped `k` seconds after it |
| SessionDetailPage.LayoutOf | src/pages/SessionDetail.tsx:182-203 | the user's messages sit on the left with the primary colour and the person icon; every other speaker's sit on the right with the secondary colour and the bot icon |
| SessionDetailPage.DeviceText | src/pages/SessionDetail.tsx:157-164 | a missing or empty device name shows as `Default`, any other name as itself |
| SessionDetailPage.Bubbles | src/pages/SessionDetail.tsx:177-215 | one bubble per message, in the order the messages come |
| SessionDetailPage.DetailPage.constructor | src/pages/SessionDetail.tsx:31-32 | the page starts with no session and no messages |
| SessionDetailPage.DetailPage.LoadSession | src/pages/SessionDetail.tsx:34-51 | a found session is shown with its messages; a missing one sends the user back; a failed query changes nothing |
| SessionDetailPage.DetailPage.Render | src/pages/SessionDetail.tsx:67-215 | `Loading...` shows exactly until a session is set; then the date as `start_time` times 1000, as written, the duration, devices with their fallback, the message count and one bubble per message in order |
| SessionDetailPage.ShowsSavedConversation | src/pages/SessionDetail.tsx:173-215 | a session just saved from a conversation shows each of its messages, in order, with the speaker and text it was saved with |
| SessionsPage.TotalCostTextAsWritten | src/pages/Sessions.tsx:128 | the total-cost card as written fails exactly when the aggregate total is SQL NULL |
| SessionsPage.EmptyStoreBreaksTotalCost | src/pages/Sessions.tsx:128 | on an empty store the card as written fails, although before the first load it shows `0.00` |
| SessionsPage.TotalCostText | src/pages/Sessions.tsx:118-128 | with the fallback to 0 that the duration card has, the cost card agrees with the card as written whenever that one shows a total |
| SessionsPage.TotalCostShown | src/db/sessions.ts:155-181 | the guarded card shows the sum of the stored session costs, whatever the store holds |
| SessionsPage.TotalDurationText | src/pages/Sessions.tsx:118 | a NULL total duration shows as `0s` |
| SessionsPage.CardsOf | src/pages/Sessions.tsx:103-143 | the four cards show the session count, the formatted total duration and the message count; the cost card fails exactly when the cost sum is NULL and otherwise shows the guarded card's text |
| SessionsPage.RowOf | src/pages/Sessions.tsx:169-190 | a row shows the start date as `start_time` times 1000, as written, the formatted duration, the audio and text token totals, the cost to two decimals and the devices of its session |
| SessionsPage.TableOf | src/pages/Sessions.tsx:160-209 | the placeholder row shows exactly when there are no sessions; otherwise there is one row per session, in order |
| SessionsPage.Page.constructor | src/pages/Sessions.tsx:35-44 | the page starts with no sessions, zero statistics and a closed dialog with nothing selected |
| SessionsPage.Page.LoadSessions | src/pages/Sessions.tsx:47-58 | a load replaces both the list and the statistics with the store's, or, when either query fails, changes neither |
| SessionsPage.Page.DeleteClick | src/pages/Sessions.tsx:64-67 | clicking delete selects the session and opens the dialog |
| SessionsPage.Page.CancelDelete | src/pages/Sessions.tsx:215-221 | cancelling closes the dialog and changes nothing else |
| SessionsPage.Page.DeleteConfirm | src/pages/Sessions.tsx:69-80 | confirming deletes and reloads only for a truthy selection; a failed delete skips the reload; the dialog always closes and the selection is cleared |
| SessionsPage.DeletedRowGone | src/pages/Sessions.tsx:69-80 | after the deletion the reloaded table has no row for the deleted session and keeps every other row |
| AudioPlayer.BufferOf | assets/js/hooks/audio-player-hook.js:21-32 | a payload is accepted exactly when it is an `ArrayBuffer` or carries one in `.buffer`, and the accepted buffer is that one |
| AudioPlayer.WaitingAppend | assets/js/hooks/audio-player-hook.js:48-49 | the chunks held by two lists of runs are those of each list together |
| AudioPlayer.WaitingRemove | assets/js/hooks/audio-player-hook.js:56-76 | a run that ends gives up exactly its own chunk |
| AudioPlayer.WaitingReplace | assets/js/hooks/audio-player-hook.js:51-62 | a run moving from resuming to decoding keeps its chunk |
| AudioPlayer.TakeHead | assets/js/hooks/audio-player-hook.js:48-49 | taking the head of the queue into a new run keeps FIFO order and keeps every chunk accounted for |
| AudioPlayer.SettleStarted | assets/js/hooks/audio-player-hook.js:61-69 | a run that starts its chunk moves that chunk from waiting to started |
| AudioPlayer.SettleDropped | assets/js/hooks/audio-player-hook.js:54-76 | a run that gives up moves its chunk from waiting to dropped |
| AudioPlayer.AudioContext.constructor | assets/js/hooks/audio-player-hook.js:7 | a new audio context starts suspended |
| AudioPlayer.Window.constructor | assets/js/hooks/audio-player-hook.js:6 | no shared audio context exists at first |
| AudioPlayer.Player.constructor | assets/js/hooks/audio-player-hook.js:2-19 | on mount the queue is empty and nothing plays; the shared context is created only when absent and reused otherwise |
| AudioPlayer.Player.Gesture | assets/js/hooks/audio-player-hook.js:11-19 | the first click or key press resumes a suspended context and disarms the listener |
| AudioPlayer.Player.PlayAudio | assets/js/hooks/audio-player-hook.js:21-32 | a payload that fails the input check is never enqueued; one that passes is enqueued at the tail |
| AudioPlayer.Player.PlayAudioChunk | assets/js/hooks/audio-player-hook.js:35-40 | the chunk is appended at the tail, and draining starts only when nothing is playing |
| AudioPlayer.Player.Enqueue | assets/js/hooks/audio-player-hook.js:36 | the chunk is appended at the tail of the queue |
| AudioPlayer.Player.ProcessQueue | assets/js/hooks/audio-player-hook.js:42-59 | on an empty queue the flag is cleared and nothing else changes; otherwise the flag is set and exactly the head is taken, so chunks leave in FIFO order |
| AudioPlayer.Player.ResumeFailed | assets/js/hooks/audio-player-hook.js:51-58 | a failed resume drops the taken chunk, clears the flag and leaves the queue untouched |
| AudioPlayer.Player.Resumed | assets/js/hooks/audio-player-hook.js:51-53 | a successful resume lets the run go on to decode its chunk |
| AudioPlayer.Player.Decoded | assets/js/hooks/audio-player-hook.js:61-69 | a decoded chunk is started and sounds until it ends |
| AudioPlayer.Player.DecodeFailed | assets/js/hooks/audio-player-hook.js:70-76 | a failed decode drops the chunk, clears the flag, and schedules a retry only when the queue is non-empty |
| AudioPlayer.Player.SourceEnded | assets/js/hooks/audio-player-hook.js:67-69 | a source that ends leaves the output and the queue is drained again |
| AudioPlayer.Player.RetryFires | assets/js/hooks/audio-player-hook.js:73-75 | the retry calls `processQueue` whatever the flag says, taking the head even while another run plays |
| AudioPlayer.Player.RetryFiresGuarded | assets/js/hooks/audio-player-hook.js:73-75 | the guarded retry leaves a playing queue alone, so at most one run is ever under way |
| AudioPlayer.MountedAndResumed | assets/js/hooks/audio-player-hook.js:2-19 | a fresh mount whose first gesture resumed the context is idle and empty |
| AudioPlayer.OneDecodingOneQueued | assets/js/hooks/audio-player-hook.js:35-49 | two chunks pushed in a row: the first is taken and decoding while the second waits |
| AudioPlayer.FirstDecodeFails | assets/js/hooks/audio-player-hook.js:70-76 | the first chunk failing to decode clears the flag and schedules one retry |
| AudioPlayer.RetryStartsSecondRun | assets/js/hooks/audio-player-hook.js:35-49 | a third chunk arriving before the retry fires starts a run, and the retry then starts a second one |
| AudioPlayer.BothSound | assets/js/hooks/audio-player-hook.js:61-69 | both runs then decode, and the two chunks sound at the same time |
| Microphone.Kept | assets/js/hooks/microphone-hook.js:33-37 | the listener keeps only pieces of positive size, each one delivered |
| Microphone.KeptAppend | assets/js/hooks/microphone-hook.js:33-37 | pieces delivered in two batches are kept as in one batch, in arrival order |
| Microphone.KeptAllNonEmpty | assets/js/hooks/microphone-hook.js:33-37 | no piece with data is lost |
| Microphone.SecondSegment | assets/js/hooks/microphone-hook.js:57 | the second `/`-separated segment exists exactly when the type has a slash, and holds no slash |
| Microphone.ExtensionAsWritten | assets/js/hooks/microphone-hook.js:57 | the extension as written is never empty, holds no slash, and is `wav` for a type without a slash |
| Microphone.Extension | assets/js/hooks/microphone-hook.js:57 | the corrected extension is never empty, holds neither a slash nor a parameter, and is `wav` for a type without a slash |
| Microphone.ExtensionOfPlainType | assets/js/hooks/microphone-hook.js:57 | for a plain `type/subtype` both read the subtype |
| Microphone.ExtensionIgnoresParameters | assets/js/hooks/microphone-hook.js:57 | for `audio/webm;codecs=opus` the extension as written is `webm;codecs=opus`, while the corrected one is `webm` |
| Microphone.MimeOrDefault | assets/js/hooks/microphone-hook.js:51 | the recorder's type is used when it is non-empty; the fallback `audio/wav` otherwise |
| Microphone.DefaultIsWav | assets/js/hooks/microphone-hook.js:51-57 | a recorder reporting no type yields a `.wav` file, both as written and corrected |
| Microphone.FileNameReadsBack | assets/js/hooks/microphone-hook.js:57 | the file name is the `audio_capture_` prefix, a run of digits worth the clock reading, a dot and the extension as written |
| Microphone.FileNameDeterminesClock | assets/js/hooks/microphone-hook.js:57 | a file name determines the clock reading and the extension as written, so captures at different readings never share a name |
| Microphone.FileNameKeepsParameters | assets/js/hooks/microphone-hook.js:57 | a type with parameters, such as `audio/webm;codecs=opus`, puts the parameters into the uploaded file's extension, where the corrected extension is the subtype alone |
| Microphone.Hook.constructor | assets/js/hooks/microphone-hook.js:2-6 | a mounted hook has no recorder and no pieces |
| Microphone.Hook.StartRecording | assets/js/hooks/microphone-hook.js:28-30 | the pieces are emptied before the microphone is requested |
| Microphone.Hook.MicGranted | assets/js/hooks/microphone-hook.js:31-38 | a granted microphone gets a new recorder that is recording, on a newly opened stream |
| Microphone.Hook.MicDenied | assets/js/hooks/microphone-hook.js:40-42 | a refused microphone changes nothing but the pending request |
| Microphone.Hook.DataAvailable | assets/js/hooks/microphone-hook.js:33-37 | a piece with data is appended and an empty one ignored |
| Microphone.Hook.StopRecording | assets/js/hooks/microphone-hook.js:45-69 | without a recorder nothing happens; otherwise the recorder stops, and a stop event is due only if it was recording |
| Microphone.Hook.Stopped | assets/js/hooks/microphone-hook.js:48-67 | with no pieces the handler returns at once and keeps recorder and stream; otherwise the pieces go to the uploader as one file named from the clock and the type as written when an uploader exists, and the stream is stopped and the recorder dropped |
| Microphone.Hook.MouseDown | assets/js/hooks/microphone-hook.js:7-12 | pressing an enabled button starts recording; a disabled one does nothing |
| Microphone.Hook.MouseUp | assets/js/hooks/microphone-hook.js:14-25 | releasing or leaving the button stops only when it is enabled and recording |
| Microphone.Hook.Destroyed | assets/js/hooks/microphone-hook.js:75-80 | a recording under way has its stream stopped and its recorder dropped; otherwise nothing changes |
| Microphone.Press | assets/js/hooks/microphone-hook.js:7-38 | a press on an enabled button with a granted microphone leaves a recording under way with no pieces |
| Microphone.Capture | assets/js/hooks/microphone-hook.js:33-37 | while recording, a piece with data is kept and an empty piece is not |
| Microphone.Release | assets/js/hooks/microphone-hook.js:14-67 | releasing the button uploads the pieces as one file named from the clock and the type as written, and releases the microphone |
| Microphone.EmptyPressKeepsMicrophone | assets/js/hooks/microphone-hook.js:45-80 | a press released before any data arrives leaves the stream open: the stop handler returns early and `destroyed` sees no recording |
| Common.OrElse | src/services/elevenlabs.ts:67-69 | JavaScript's logical or on optional strings: `a` when it is non-empty, `b` otherwise |
| Common.OrDefault | src/pages/SessionDetail.tsx:157 | the logical or with a default: the string when it is non-empty, the default otherwise |
| Common.JsRem | src/pages/Sessions.tsx:84-85 | JavaScript's `%`: for a non-negative dividend the usual remainder, for a negative one a remainder of the same sign |
| Common.Totals | src/components/SessionCostTracker.tsx:116-119 | the audio total is input plus output audio tokens and the text total input plus output text tokens |
| Sorting.Insert | src/db/sessions.ts:138 | inserting into a sorted list keeps it sorted and adds exactly the one element |
| Sorting.Sort | src/db/sessions.ts:138 | `ORDER BY timestamp` yields a sorted permutation of its rows |
| Sorting.SortOfSorted | src/db/sessions.ts:138 | rows already in timestamp order come back unchanged |
| Text.LowerChar | src/services/vtubeStudio.ts:212 | ASCII `toLowerCase`: upper-case letters move down by 32 and every other character is kept |
| Text.Lower | src/services/vtubeStudio.ts:212 | `toLowerCase` keeps the length and lowers each character |
| Text.LowerIdempotent | src/services/vtubeStudio.ts:212 | lowering twice is lowering once |
| Text.ContainsMeansOccurs | src/services/vtubeStudio.ts:212-213 | `includes` holds exactly when the needle occurs at some index |
| Text.ContainsTrivial | src/services/vtubeStudio.ts:212-213 | every string includes the empty string and itself |
| Text.NatToString | src/components/SessionCostTracker.tsx:69 | the decimal text of a number is one character long exactly below ten |
| Text.IntToString | src/components/SessionCostTracker.tsx:69 | `toString` of a negative number is a minus sign and the text of its magnitude |
| Text.DigitsValueOfNatToString | src/components/SessionCostTracker.tsx:69 | the decimal text of a number reads back as the number |
| Text.PadStart2 | src/components/SessionCostTracker.tsx:69 | `padStart(2, '0')` leaves texts of two or more characters alone and left-pads shorter ones with zeros to two |
| Text.PadStart2Value | src/components/SessionCostTracker.tsx:69 | a padded number is still all digits and reads back as the number |

## Left out

- WebRTC, `getUserMedia`, `enumerateDevices`, `MediaRecorder` and the `fetch` calls to the realtime API are browser and network I/O. `ChatHook.HandleConnect` takes only their outcome, and `ChatHook.ChannelOpened` takes the settings read when the channel opens. The SDP exchange, ICE configuration, `ontrack` and the recorders are not modelled.
- The chat hook's device enumeration, its settings-loading and device-saving effects, volume and mute, and the speaker change's `setSinkId` are not modelled. They are I/O or single state setters. The device lists are fields set by the constructor; the selections change through `ChatHook.SelectMic` and `ChatHook.SelectSpeaker`.
- `ChatHook.HandleConnect`: a failed step calls the `handleDisconnect` of the render that started the connect. The model's disconnect reads the hook's current state, which differs from that render's only when state changed while the connect awaited the network.
- Timers are events, not time: the 500 ms transcript clears (`ChatHook.ClearFires`), the cost panel's one-second interval (`Panel.Tick`), the VTube auto-deactivation (recorded as scheduled), and the 100 ms audio retry (`Player.RetryFires`).
- Costs are exact: the persisted cost is an integer number of cents and the live estimate is a `real`. IEEE rounding of the float sums is not modelled. `toFixed(4)` on the live estimate and `toLocaleString` on token counts are not modelled; the panel holds the values.
- Dates are not formatted. `date-fns` formatting is out of scope, and the pages' date is the instant, in milliseconds, that `new Date` receives.
- `SettingsDb.ParseJson` parses only `true`, `false` and `null`, the texts a boolean setting is saved as. Every other text is treated as a parse failure, although `JSON.parse` would accept numbers and quoted strings.
- `toLowerCase` is ASCII-only and `includes` is plain code-unit matching. Unicode case folding is not modelled.
- The VTube Studio token store (`getVTubeStudioSettings`, `saveVTubeStudioAuth`, `clearVTubeStudioAuth`) is imported by `vtubeStudio.ts` but is not defined in `src/db.ts`. That store is not part of this model. `Service.Connect` takes the stored token as a parameter, and the calls that save or clear it are left out.
- The VTube Studio request/reply correlation over the WebSocket (listeners keyed by request id) is left out. Each request method takes the reply as a parameter, and the `connect` promise is split into `Connect`, `SocketOpened` and `SocketFailed`.
- `ElevenLabs.Service` does not model `validateApiKey`, `playText`, `playAudio`, `playAudioChunks` or `handleAudioChunk`. They are audio playback and object URLs, plus an SDK call whose only result is its success.
- The streaming socket's `onmessage` and `onerror` handlers only log or forward to callbacks, and are not modelled.
- `ElevenLabs.Service.GetVoices` keeps the SDK's voice records as optional fields and does not model the SDK call.
- `saveDeviceSettings` and `saveOpenAISettings` in `src/db.ts` are one-line calls of `saveSettings` with fixed keys and are covered by `SettingsStore.SaveSettings`.
- The session store's `created_at` default is the parameter `now` of a save.
- `getSessionStats` falls back to zeros when the aggregate returns no row. The aggregate always returns one row, so that fallback is not modelled.
- `SessionStore.GetAllSessions` states the order by `created_at` and that every row appears once. It does not fix the order of sessions created in the same second, which SQLite leaves unspecified.
- `AudioPlayer`: audio data is identified by a chunk id. Decoding, the `slice(0)` copy and the buffer source are events: `Resumed`, `ResumeFailed`, `Decoded`, `DecodeFailed` and `SourceEnded`.
- `Microphone`: blobs are identified by an id and a size. The uploader lookup is the parameter `uploaderFound`, and the CSS ring classes are not modelled.
- Rendering is modelled only as far as the pages compute values: the rendered cards, rows and bubbles. Layout and styling are not modelled.

Where the code and its accompanying description differ, the model follows the code:
- `generateSpeech` keeps every value read, including an empty chunk, because an empty `Uint8Array` is truthy (`src/services/elevenlabs.ts:128`).
- A stale transcript clear is not guarded against (`src/hooks/useRealtimeChat.ts:211-213`).
- A saved session's `start_time` is in milliseconds (`src/hooks/useRealtimeChat.ts:58`, 355).

## Findings

| source | as written | input that shows it | evidently intended | confidence | as-written member | corrected member |
|---|---|---|---|---|---|---|
| src/pages/Sessions.tsx:172 | the session list and the detail page (`src/pages/SessionDetail.tsx:96`) multiply `start_time` by 1000, reading it as seconds | any session saved at a non-zero start, e.g. `start_time` 1700000000000: the page shows a date a thousand times as far from 1970 | show `start_time` as the millisecond instant the chat hook stores, the unit of the message timestamps | not executed | SessionDisplay.ShownStartAsWrittenMisreads | SessionDisplay.ShownStartIsFirstMessage |
| src/pages/Sessions.tsx:128 | `stats.totalCost.toFixed(2)` with no fallback, while the duration card falls back to 0 | an empty session store: `SUM(total_cost)` over no rows is NULL and the call throws | show `0.00` for an empty store | not executed | SessionsPage.EmptyStoreBreaksTotalCost | SessionsPage.TotalCostShown |
| assets/js/hooks/audio-player-hook.js:73-75 | a failed decode schedules `processQueue` whatever `isPlaying` says when the timer fires | chunks 1 and 2 queued, chunk 1 fails to decode, chunk 3 arrives before the retry: two runs decode and sound at the same time | retry only while nothing is playing, so one chunk sounds at a time | not executed | AudioPlayer.RetryStartsSecondRun | AudioPlayer.Player.RetryFiresGuarded |
| assets/js/hooks/microphone-hook.js:57 | the extension is everything after the first `/` of the MIME type | a recorder reporting `audio/webm;codecs=opus` yields the file name `audio_capture_<time>.webm;codecs=opus` | the subtype alone, `webm` | not executed | Microphone.FileNameKeepsParameters | Microphone.Extension |
