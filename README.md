# BossBattle core in Dafny

BossBattle is a browser game for practising salary and workplace negotiations. The player
talks to an AI "boss" over a live speech session. Afterwards the conversation is scored and the
player earns experience, levels, titles, achievements and skills. This project models the
deterministic rules under that UI and proves properties about them:

- the live-session hook: the transcript reconciler, the gapless playback cursor, the per-frame
  transmit gate, tool-call insights and the connection lifecycle (`LiveSession`, `SessionRules`);
- the PCM and base64 codec (`AudioUtils`), over a model of `btoa`/`atob` that follows section 4
  of RFC 4648 (`Base64`);
- the ambience generator's node bookkeeping (`Ambience`);
- progression: levels, titles, XP gain and achievements (`Gamification`), and history, custom
  scenarios, profile migration, streaks and profile updates over `localStorage` (`Storage`);
- post-game analysis: dialogue formatting, the empty-dialogue error, default objectives and the
  fallback result (`Analysis`);
- rules inside components: skill unlock, progress bar and titles (`ProfileModal`), scenario
  locks and the daily pick (`Setup`), likes and sorting (`CommunityHub`), the countdown
  (`Timer`) and tactic detection with the silence warning (`BattleCoach`).

Shared modules: `Wrappers` (Option, Result), `Text` (the JavaScript string operations the code
uses: `trim`, `split`, `includes`, `indexOf`, `replace`, `padStart`, `toLowerCase`, decimal
`toString`, and `length` and `substring` counted in UTF-16 code units) and `Types` (the records
of `types.ts`).

Objects whose fields the code updates in place are classes: `LiveSession.Session` (the hook's
state and refs), `Ambience.AmbienceGenerator`, `Storage.LocalStorage` (a key→value map),
`Timer.Countdown` and `BattleCoach.Coach`. Loops of the source are methods with loop invariants:
the codec loops, the noise buffer, `stopSoundsOnly`, the achievement merge in
`updateUserProfile`, the tool-call loop, the RMS sum and the coach's backward search for the
latest final user line. Each method is proved against a specification function. The eight
straight-line `check` calls of `checkNewAchievements` run as a loop over a list of ids, and
`Gamification.CheckOrderIsCatalogueOrder` proves that list is the catalogue's order.

The clock (`Date.now()`, the output clock's `currentTime`, day numbers) and `Math.random` (noise
samples, transcript id suffixes) are parameters. A message carries one `Stamp` (a `Date.now()`
and a `Math.random()`) for each transcript update its handler can make. What the session sends to the remote model is
recorded in the `sent` and `toolResponses` fields. Remote events arrive as the `Event` datatype.

Behaviour of the code worth noting:

- Microphone frames pass the gate whenever the script processor is wired. That includes while
  connecting and after a close or an error, until `disconnect` (hooks/useLiveSession.ts:249-258).
  The gate does not check that the session is connected.
- `onclose` and `onerror` only set the connection state; they tear nothing down
  (hooks/useLiveSession.ts:243-244).
- No message field flushes playback. Nothing in the handler reads an interruption signal.
- `disconnect` produces a recording even when no chunk was kept (hooks/useLiveSession.ts:266-269).
- The mute flag the frame gate reads is the one captured when `connect` was created. Toggling mute
  after connecting does not reach the running gate (`gateMuted`).
- When the AI's partial item is followed by the user's partial item in one turn, neither is ever
  closed. At `turnComplete` the last item is the user's, so the AI line is appended again as a new
  final item; that item is now last, so the user line is appended again too, and both partial items
  stay in the transcript (`LiveSession.InterleavedPartialsStayPartial`). In the opposite order the
  AI's partial item is last at `turnComplete` and is closed in place; only the user's stays partial.

## Model

| member | source | states |
|---|---|---|
| SessionRules.UpdateTranscript | hooks/useLiveSession.ts:109-122 | When the last item has the same role and is partial, it is replaced in place: same id and role, new text, `isPartial == !isFinal`, new timestamp, and the length and earlier items are unchanged. Otherwise a new item is appended iff the trimmed text is non-empty, and the transcript is unchanged otherwise. |
| SessionRules.OtherRoleNeverAmended | hooks/useLiveSession.ts:113 | An item of the other role is never amended: the old items are kept as a prefix. |
| SessionRules.AmendKeepsIdentity | hooks/useLiveSession.ts:113-116 | An amended item keeps its id and role. |
| SessionRules.RepeatedPartialIsIdempotent | hooks/useLiveSession.ts:109-122 | Repeating the same partial update gives the same transcript, up to the timestamp. |
| SessionRules.FinalClosesItem | hooks/useLiveSession.ts:109-122 | After a final update, the next update of either role does not amend that item. |
| SessionRules.StartTime | hooks/useLiveSession.ts:226-227 | A chunk starts at the later of the cursor and the output clock. |
| SessionRules.Schedule | hooks/useLiveSession.ts:226-229 | Gives one start time per chunk, each computed from the cursor the previous chunk left behind. |
| SessionRules.ScheduleIsGapless | hooks/useLiveSession.ts:226-229 | No chunk starts before its arrival time, and chunks never overlap. While the clock has not overtaken the cursor, each chunk starts exactly where the previous one ends. |
| SessionRules.SumSquares | hooks/useLiveSession.ts:254 | The sum of squared samples is never negative. |
| SessionRules.SquareComparison | hooks/useLiveSession.ts:255 | `sqrt(ms) < t` holds iff `t > 0` and `ms < t²`. This justifies the square-free form of the VAD gate. |
| SessionRules.PttSkipsLevel | hooks/useLiveSession.ts:251-253 | In PTT mode with the key held, an unmuted frame is sent whatever its level. |
| SessionRules.ZeroThresholdPassesAll | hooks/useLiveSession.ts:255 | In VAD mode with threshold 0, every unmuted frame is sent, silent or empty ones included. |
| SessionRules.PayloadDecodes | hooks/useLiveSession.ts:256 | The frame payload is valid base64 of 2 bytes per sample. Those bytes decode to exactly the frame's 16-bit samples. |
| SessionRules.FullFramePayload | hooks/useLiveSession.ts:249-258 | A 4096-sample frame is sent as 8192 bytes. |
| SessionRules.PushInsight | hooks/useLiveSession.ts:210 | Keeps min(n, 3) of the n previous insights and appends the new one last, so at most four remain. |
| SessionRules.PushInsightKeepsNewest | hooks/useLiveSession.ts:210 | The kept entries are the newest previous insights, in order. |
| SessionRules.PushInsightIsNewest | hooks/useLiveSession.ts:210 | A push gives the newest four of the old list with the new insight appended, and pushing onto the list already cut to four gives the same result. |
| LiveSession.Session.constructor | hooks/useLiveSession.ts:12-47 | The session starts disconnected and unmuted, in VAD mode with threshold 0. Transcript, markers, insights, accumulators, chunks, device lists, sent payloads and tool responses are empty; the mood is Neutral; the cursor is 0 and nothing is scheduled; there is no output context, processor, recorder or recording; the ambience generator is fresh with no context, no master gain and no nodes; the preset is the default, Office. |
| LiveSession.Session.ToggleMute | hooks/useLiveSession.ts:124 | Flips `isMuted` and changes no other field, so the gate's captured flag and the sent payloads stay. |
| LiveSession.Session.AddMarker | hooks/useLiveSession.ts:125 | Appends the current time to the markers and changes no other field. |
| LiveSession.Session.SetInputThreshold | hooks/useLiveSession.ts:126 | Sets the VAD threshold and changes no other field. |
| LiveSession.Session.SetInputMode | hooks/useLiveSession.ts:127 | Sets the input mode and changes no other field. |
| LiveSession.Session.SetPttPressed | hooks/useLiveSession.ts:128 | Sets the push-to-talk flag and changes no other field. |
| LiveSession.Session.LoadDevices | hooks/useLiveSession.ts:50-58 | On success, the input and output lists are the enumeration filtered by kind, in enumeration order. On failure, the previous lists are kept. |
| SessionRules.OfKind | hooks/useLiveSession.ts:53-54 | A device is kept iff it is in the list and of the kind; never more entries than given. |
| SessionRules.OfKindAppend | hooks/useLiveSession.ts:53-54 | The filter distributes over concatenation, so order and repeated entries are kept. |
| LiveSession.Session.PrepareConnect | hooks/useLiveSession.ts:138-145 | Sets connecting and clears transcript, markers, insights and mood. Ensures the 24 kHz output context exists, and the ambience gets it and a fresh gain-1 master gain pushed onto its nodes, with nothing playing yet. |
| LiveSession.Session.Connect | hooks/useLiveSession.ts:130-172 | After the reset and the ambience's master gain, a refused microphone ends in `Error` with recorder, processor, captured mute flag, start time and preset unchanged, since `getUserMedia` throws before they are set. Otherwise the recorder is recording, the start time is set, the processor is wired, the gate captures the current mute flag, and the preset is the one given or Office when left out. Chunks and fragment accumulators are not reset. |
| LiveSession.Session.OnOpen | hooks/useLiveSession.ts:199-203 | Connected, and the playback cursor moves to the output clock; no other session field changes. When the ambience was initialised, its nodes are exactly the master gain followed by the preset's nodes (`PresetNodes`: 3, or 5 for intense) over the noise drawn from `random`, and the preset's sources are playing. Otherwise it is inert. |
| LiveSession.Session.OnClose | hooks/useLiveSession.ts:243 | Disconnected, and no other field changes: recorder, processor, gate configuration, insights, markers, mood, scheduled sources and transcript stay. |
| LiveSession.Session.OnError | hooks/useLiveSession.ts:244 | Error, and no other field changes: recorder, processor, gate configuration, insights, markers, mood, scheduled sources and transcript stay. |
| LiveSession.Session.Receive | hooks/useLiveSession.ts:198-245 | Routes a remote event to its callback. The connection state is determined by the kind of event; no remote event sends microphone audio. An open moves the cursor to the output clock and starts the ambience as `OnOpen` states; it is the only event that touches the ambience. A close or an error leaves the cursor unchanged. A message gives the responses, insight list, mood, cursor, scheduled set and transcript `OnMessage` states; the other events leave the responses, insight list, mood, scheduled set and transcript unchanged. |
| LiveSession.Session.HandleToolCalls | hooks/useLiveSession.ts:205-216 | Exactly the `logTacticalInsight` calls are answered, in order. The insight list becomes `InsightsAfter`: one push per insight call, in order, so the last such call's insight ends it and at most four are kept. The boss mood becomes the mood of the last such call that carries one. |
| LiveSession.RunToolCalls | hooks/useLiveSession.ts:205-216 | The loop over the calls answers exactly the insight calls and leaves the list `InsightsAfter` gives, at most four long. It ends the list with the last insight call's insight, or leaves it unchanged when there is none, and carries the mood of the last insight call with a mood. |
| LiveSession.InsightsAfterNewest | hooks/useLiveSession.ts:205-216 | From a list of at most four, the list after the calls is the newest four of the old insights followed by every insight logged, in call order; two insight calls end it with both insights, in order. |
| LiveSession.LastInsightIsLastCall | hooks/useLiveSession.ts:205-216 | No insight is recorded iff no call is `logTacticalInsight`. Otherwise the recorded insight is that of the last such call. |
| LiveSession.Session.HandleAudio | hooks/useLiveSession.ts:218-231 | A chunk plays iff it is valid base64 of a whole, non-zero number of 16-bit samples. When it plays, the cursor becomes max(cursor, clock) + bytes/2/24000 and a fresh source joins the scheduled set, so the AI is speaking. Otherwise the cursor and scheduled set are unchanged. |
| LiveSession.DecodeChunk | hooks/useLiveSession.ts:219 | Decoding succeeds iff the chunk is valid base64 of a whole, non-zero number of 16-bit samples. The buffer then lasts bytes/2/24000 seconds. |
| LiveSession.Session.OnSourceEnded | hooks/useLiveSession.ts:230 | Removes the ended source from the scheduled set and changes no other field. |
| LiveSession.Session.HandleFragment | hooks/useLiveSession.ts:234-237 | A non-empty fragment is appended to its role's accumulator. The whole accumulator is then written to the transcript as a partial update; the other role's accumulator is untouched. |
| LiveSession.Session.HandleTurnComplete | hooks/useLiveSession.ts:238-241 | Each non-empty accumulator is written as a final update, the AI's before the user's, and both are reset to empty. |
| LiveSession.Session.OnMessage | hooks/useLiveSession.ts:204-242 | The tool calls are always handled first: responses, the whole insight list and mood as `HandleToolCalls` states. The handler runs to completion iff the message carries no audio or playable audio; playable audio moves the cursor and schedules one source. A completed message leaves the transcript and accumulators as `AfterMessage` gives; an undecodable chunk stops the handler before them and leaves them unchanged. |
| LiveSession.Session.HandleContent | hooks/useLiveSession.ts:218-241 | The audio, then the transcription unless the audio throws; cursor, scheduled set and transcript as in `OnMessage`. |
| LiveSession.Session.HandleTranscription | hooks/useLiveSession.ts:233-241 | The output fragment, the input fragment and turn completion, each with its own stamp, leave the transcript and accumulators as `AfterMessage` gives. |
| LiveSession.AfterMessage | hooks/useLiveSession.ts:233-241 | After turn completion both accumulators are empty; otherwise each accumulator has grown by exactly its fragment. |
| LiveSession.AfterMessageKeepsHistory | hooks/useLiveSession.ts:109-122 | One message rewrites at most the trailing item of the transcript and appends at most four. |
| LiveSession.AfterFragmentKeepsHistory | hooks/useLiveSession.ts:234-237 | One fragment rewrites at most the trailing item and appends at most one. |
| LiveSession.AfterTurnKeepsHistory | hooks/useLiveSession.ts:238-241 | Turn completion rewrites at most the trailing item and appends at most two. |
| SessionRules.UpdateKeepsHistory | hooks/useLiveSession.ts:109-122 | An update keeps every item but the last and adds at most one. |
| LiveSession.InterleavedPartialsStayPartial | hooks/useLiveSession.ts:109-122 | From an empty transcript, an AI fragment, a user fragment and `turnComplete` in one message give four items: both partial items stay partial, and each line is appended again as a final item with a different id. |
| LiveSession.FirstFragmentAppends | hooks/useLiveSession.ts:234-237 | A role's first fragment of a turn after the other role's item opens a new partial item and becomes the accumulator. |
| LiveSession.TurnAppendsBoth | hooks/useLiveSession.ts:238-241 | Turn completion after a user item appends the AI line and then the user line as final items. |
| LiveSession.AppendsNewItem | hooks/useLiveSession.ts:117-118 | A non-blank update that cannot amend appends one item with a fresh id. |
| LiveSession.Session.OnAudioProcess | hooks/useLiveSession.ts:249-258 | A frame is sent iff the processor is wired, the captured mute flag is clear, PTT mode has the key held, and in VAD mode the frame's RMS is not below the threshold. The payload sent is the frame's base64 PCM. Only `sent` changes, so consecutive frames meet the same gate. |
| LiveSession.EncodeFrame | hooks/useLiveSession.ts:256 | The float frame becomes 16-bit samples, then their little-endian bytes, then base64. |
| LiveSession.SumOfSquares | hooks/useLiveSession.ts:254 | The loop computes the sum of squared samples. |
| LiveSession.Session.OnRecorderData | hooks/useLiveSession.ts:170 | Keeps a chunk iff its size is non-zero, and changes no other field. |
| LiveSession.Session.Disconnect | hooks/useLiveSession.ts:263-278 | Ends disconnected with the processor unwired and the ambience stopped. A recording recorder becomes inactive, and its chunks, possibly none, become the recording. The scheduled set is not emptied. Only the connection state, processor, recorder, recording, chunks and ambience change, so insights, markers, mood, transcript and gate configuration stay. |
| AudioUtils.Base64ToUint8Array | utils/audioUtils.ts:2-10 | Fails exactly when `atob` fails. On success, the byte array has the binary string's length and byte i is char code i. |
| AudioUtils.Uint8ArrayToBase64 | utils/audioUtils.ts:13-20 | Yields the RFC 4648 encoding of the bytes, which `atob` maps back to the bytes' binary string. |
| AudioUtils.Base64BytesRoundTrip | utils/audioUtils.ts:2-20 | Decoding an encoded byte sequence gives the bytes back. |
| Base64.EncodeDecode | utils/audioUtils.ts:2-20 | `atob(btoa(s)) == s` for every binary string. |
| AudioUtils.Int16SampleRange | utils/audioUtils.ts:26-27 | Every converted sample is in [-32768, 32767] and has the sign of the clamped input. |
| AudioUtils.Float32ToInt16PCM | utils/audioUtils.ts:23-30 | Same length as the input. Sample i is clamped to [-1, 1], scaled by 0x8000 if negative and by 0x7FFF otherwise, and truncated. |
| AudioUtils.Int16Bytes | utils/audioUtils.ts:39 | Gives two little-endian bytes per sample. |
| AudioUtils.Int16View | utils/audioUtils.ts:39 | The 16-bit view of a byte buffer exists iff its length is even. |
| AudioUtils.Int16BytesRoundTrip | utils/audioUtils.ts:23-39 | Viewing the bytes of in-range samples as 16-bit values gives the samples back. |
| AudioUtils.FillChannel | utils/audioUtils.ts:43-48 | Channel c's sample i is `int16[i*channels + c] / 32768`. |
| AudioUtils.ChannelSampleRange | utils/audioUtils.ts:46 | Every decoded sample is in [-1, 1). |
| AudioUtils.FrameIndexInBounds | utils/audioUtils.ts:45-46 | Every index read by the de-interleaving loop is in bounds. |
| AudioUtils.PcmToAudioBuffer | utils/audioUtils.ts:33-51 | An odd byte length is a RangeError and zero frames is a NotSupportedError. Otherwise the buffer has `(bytes/2)/channels` frames at the given rate, and each channel holds its de-interleaved samples. Any non-empty even buffer of at least one frame succeeds. |
| Ambience.CreateNoiseBuffer | utils/ambience.ts:11-19 | Holds 2·sampleRate frames, and sample i is `random[i]·2 − 1`, in [-1, 1). |
| Ambience.PresetNodes | utils/ambience.ts:43-117 | Quiet and office add 3 nodes and intense adds 5: noise source, lowpass filter at 400/800/150 Hz, gain 0.02/0.04/0.08, and for intense a 100 Hz sine with gain 0.02. Node ids are fresh and consecutive. |
| Ambience.AmbienceGenerator.constructor | utils/ambience.ts:4-8 | Starts with no context, no master gain and no nodes. |
| Ambience.AmbienceGenerator.Init | utils/ambience.ts:28-33 | Sets the context. A fresh gain-1 master node is connected and pushed onto the node list. |
| Ambience.AmbienceGenerator.StopSoundsOnly | utils/ambience.ts:120-137 | The node list becomes exactly `[masterGain]`, or empty when there is none. Nothing keeps playing, and every node but the master gain is disconnected. |
| Ambience.AmbienceGenerator.Start | utils/ambience.ts:35-118 | Does nothing without a context or master gain. Otherwise previous sounds stop first, so presets never layer. The list becomes the master gain plus the preset's nodes, and exactly the preset's sources are playing. |
| Ambience.AmbienceGenerator.Stop | utils/ambience.ts:139-146 | Stops the sounds, and the context and master gain become null. A later `start` is therefore inert. |
| Gamification.CalculateLevel | utils/gamification.ts:41-43 | `(level−1)·500 ≤ xp < level·500`, so the level is at least 1 for non-negative xp. |
| Gamification.LevelMonotone | utils/gamification.ts:41-43 | More xp never gives a lower level. |
| Gamification.GetTitle | utils/gamification.ts:45-48 | The title is `TITLES[level−1]`, capped at the last title "Wolf of AI Street" from level 13 on. |
| Gamification.NextLevelXpIsThreshold | utils/gamification.ts:41-52 | `getNextLevelXp(L)` is the least xp whose level exceeds L. |
| Gamification.Multiplier | utils/gamification.ts:60-63 | Defined as the exact rationals 1, 6/5, 3/2 and 2 for Easy, Medium, Hard and Extreme; its contract states 1 ≤ m ≤ 2. |
| Gamification.CalculateXpGain | utils/gamification.ts:54-75 | The step-by-step computation equals the XP-gain formula. For a non-negative score it is at least twice the score. |
| Gamification.XpGainAtLeastTwiceScore | utils/gamification.ts:55-65 | For a non-negative score, the gain is at least 2·score. |
| Gamification.DailyAddsExactlyHundred | utils/gamification.ts:72 | A daily battle adds exactly 100 after all multipliers. |
| Gamification.HighRollerOnlyOnSuccess | utils/gamification.ts:68-70 | The high-roller skill changes nothing unless the outcome is Success. |
| Gamification.HarderPaysMore | utils/gamification.ts:60-65 | For a non-negative base, a harder difficulty never pays less. |
| Gamification.Eligible | utils/gamification.ts:85-101 | The achievements earned and not owned, in catalogue order. |
| Gamification.CheckNewAchievements | utils/gamification.ts:77-103 | Returns exactly the eligible achievements in check order, none already owned and no duplicates. `first_blood` comes first whenever it is not owned. |
| Gamification.RunChecks | utils/gamification.ts:85-101 | When the checked ids are the catalogue's distinct ids in catalogue order, the `check` calls collect exactly the eligible entries. |
| Gamification.EligibleStartsWithFirstBlood | utils/gamification.ts:93 | A player who does not own `first_blood` gets it as the first new achievement. |
| Gamification.EligibleDistinct | utils/gamification.ts:85-101 | A catalogue with distinct ids yields distinct results. |
| Gamification.InitialProfile | utils/gamification.ts:105-116 | Xp 0, level 1 = `calculateLevel(0)`, title `getTitle(1)` = "Intern", and all counters and lists empty. |
| Storage.LocalStorage.GetItem | utils/storage.ts:33 | Returns a value iff the key is stored. |
| Storage.LocalStorage.SetItem | utils/storage.ts:25 | Writes one key and keeps the others. |
| Storage.LocalStorage.RemoveItem | utils/storage.ts:41 | Removes one key and keeps the others. |
| Storage.GetHistory | utils/storage.ts:31-38 | Returns the stored list, or empty when it is missing or unreadable. |
| Storage.FeedbackShort | utils/storage.ts:21 | Feedback of at most 120 UTF-16 code units is kept whole. Longer feedback is cut to a proper prefix of 120 code units (119 when the 120th would split a surrogate pair) and "..." is appended. |
| Text.Utf16Length | utils/storage.ts:21 | JavaScript's `length`: between the number of characters and twice it. |
| Text.Utf16Prefix | utils/storage.ts:21 | `substring(0, n)` on whole characters: a prefix of at most n code units, the whole string when it fits, and otherwise one the next character would overflow. |
| Storage.Capped | utils/storage.ts:24 | The new entry comes first, followed by the newest existing ones, with at most 20 in total. |
| Storage.SaveHistory | utils/storage.ts:11-29 | Stores the capped list. The new entry is first and the history never exceeds 20 entries. |
| Storage.ClearHistory | utils/storage.ts:40-42 | Removes the history key, so the history reads as empty. |
| Storage.GetCustomScenarios | utils/storage.ts:56-63 | Returns the stored list, or empty when it is missing or unreadable. |
| Storage.SaveCustomScenario | utils/storage.ts:46-54 | Prepends the scenario with no de-duplication. |
| Storage.WithoutId | utils/storage.ts:68 | Keeps exactly the scenarios with another id. |
| Storage.WithoutIdAppend | utils/storage.ts:68 | The filter distributes over concatenation, so the order of the kept scenarios is preserved. |
| Storage.WithoutIdAbsent | utils/storage.ts:68 | Deleting an absent id changes nothing. |
| Storage.DeleteCustomScenario | utils/storage.ts:65-73 | Every scenario with the id is removed and the rest are kept in order. |
| Storage.Migrate | utils/storage.ts:82-90 | Missing achievements, skills, skill points, streak and last-played date take their defaults. Every other field is copied. |
| Storage.MigrateStoreRoundTrip | utils/storage.ts:77-94 | A profile that was stored reads back unchanged. |
| Storage.GetUserProfile | utils/storage.ts:77-94 | Gives the migrated stored profile, or the initial profile when nothing readable is stored. |
| Storage.NextStreak | utils/storage.ts:118-133 | Same day keeps the streak, the previous day adds 1, and a longer gap resets it to 1. On any new day the result is at least 1. |
| Storage.AdvanceStreak | utils/storage.ts:118-133 | The step-by-step streak block computes the streak rule. |
| Storage.SameDayKeepsStreak | utils/storage.ts:120 | Playing twice on one day changes the streak only once. |
| Storage.AppendAbsentProperties | utils/storage.ts:136-140 | The existing ids stay a prefix. The result holds exactly the old and new ids, and distinct lists stay distinct. |
| Storage.MergeAchievements | utils/storage.ts:136-140 | The `forEach` loop appends exactly the ids not yet owned, as `AppendAbsent` describes. |
| Storage.UpdateUserProfile | utils/storage.ts:96-148 | Xp grows by the gain, and level and title are recomputed from it. Skill points grow by the levels gained, and exactly one of won/lost grows by 1. The streak and date follow `NextStreak`, and absent achievements are appended. `leveledUp` iff the new level is higher. The profile is stored. |
| Analysis.DialogueItems | utils/analysis.ts:14 | Keeps exactly the non-partial items with non-blank text, in transcript order. |
| Analysis.DialogueItemsAppend | utils/analysis.ts:14 | The filter distributes over concatenation, so order is kept. |
| Analysis.Line | utils/analysis.ts:15 | A line ends with the item's text after a speaker prefix. |
| Analysis.Lines | utils/analysis.ts:15 | One line per kept item, "Employee: " for the user and "Boss: " otherwise. |
| Analysis.DialogueEmptyIff | utils/analysis.ts:13-18 | The dialogue is empty iff no item is kept. |
| Analysis.Objectives | utils/analysis.ts:22 | The scenario's objectives, or the three default ones when missing. |
| Analysis.ObjectiveLines | utils/analysis.ts:33 | Objective i is written as "i+1. objective". |
| Analysis.ObjectiveNumbering | utils/analysis.ts:33 | In each objective line, the digits before the first "." parse back to its 1-based number. |
| Analysis.AnalysisRequest | utils/analysis.ts:13-33 | Fails with "No conversation to analyze." iff no item is kept. Otherwise it carries the dialogue, the numbered objectives and "Polish" for `pl` or "English" otherwise. |
| Analysis.Fallback | utils/analysis.ts:133-144 | Score 0, all metrics 0, all lists empty and outcome Neutral, with the Polish feedback for `pl` and the English one otherwise. |
| Analysis.GenerateAnalysis | utils/analysis.ts:5-146 | With no kept item, the error is raised before the model is called. Otherwise the result is the model's, or the fallback when the model fails. |
| ProfileModal.Unlock | components/ProfileModal.tsx:26-37 | Unlocks iff the skill is not owned, exists in the tree and is affordable. Then the points drop by exactly its cost, staying non-negative, and the id is appended once. |
| ProfileModal.UnlockOnlyOnce | components/ProfileModal.tsx:28-31 | A skill cannot be unlocked twice. |
| ProfileModal.UnlockKeepsSkillsDistinct | components/ProfileModal.tsx:31-33 | Unlocking keeps the skill list duplicate-free. |
| ProfileModal.HandleUnlockSkill | components/ProfileModal.tsx:26-38 | The update is exactly `Unlock`'s result. On unlock, the profile is stored and the shown profile also carries the pushed id through the shared skills array. Otherwise the store and the shown profile are unchanged. |
| ProfileModal.ProgressPercent | components/ProfileModal.tsx:24 | For non-negative xp, the value is in [0, 100) and is the xp above the current level's threshold, as a percentage of 500. |
| ProfileModal.DisplayedTitle | components/ProfileModal.tsx:118-120 | The shown title is the active one: `activeTitle`, or `title` when unset. No other title is active. |
| ProfileModal.EarnedTitleUnlocked | components/ProfileModal.tsx:119 | The title a profile earned is among the unlocked ones. |
| ProfileModal.HandleSetTitle | components/ProfileModal.tsx:40-46 | An unlocked title becomes the active title and is stored. A locked one cannot be chosen and changes nothing. |
| Setup.IsScenarioLocked | components/Setup.tsx:50-55 | No profile locks nothing. Hard is locked at level < 3 with requirement 3, and Extreme at level < 5 with requirement 5. Easy and Medium never lock, and an unlocked result has requirement 0. |
| Setup.UnlockIsPermanent | components/Setup.tsx:50-55 | A higher level never re-locks a scenario. |
| Setup.PresetClick | components/Setup.tsx:160 | A preset starts iff it is unlocked and nothing is loading. A locked preset never starts. |
| Setup.DayOfYear | components/Setup.tsx:30 | The floor of the elapsed time in days. |
| Setup.DailyScenario | components/Setup.tsx:29-33 | The scenario at index `dayOfYear mod 6`, marked daily, with every other field copied. |
| Setup.DailyCycles | components/Setup.tsx:31 | The daily pick repeats every six days. |
| Setup.DailyAdvances | components/Setup.tsx:31 | The next day's pick is the next scenario, wrapping around. |
| CommunityHub.Toggled | components/CommunityHub.tsx:97-104 | If not liked, likes rise by 1 and the uid is appended. If liked, likes fall by 1 and every occurrence of the uid is removed. |
| CommunityHub.HandleLike | components/CommunityHub.tsx:90-116 | With no user, the result is the login error and nothing changes. Otherwise only the scenarios with the clicked id are toggled, by the clicked card's liked flag, and all others are identical. |
| CommunityHub.LikeThenUnlike | components/CommunityHub.tsx:97-103 | Liking then unliking restores the like count and the uid's absence. |
| CommunityHub.SortedScenarios | components/CommunityHub.tsx:118-121 | Always a permutation of the list. `newest` keeps the order, and `popular` orders by likes descending with missing likes counted as 0. |
| CommunityHub.SortByLikes | components/CommunityHub.tsx:118-119 | A permutation sorted by likes, descending. |
| Timer.FormatTime | components/Timer.tsx:33-37 | Only digits and colons, at least five characters, with the separating colon third from the end. |
| Timer.FormatTimeRoundTrip | components/Timer.tsx:33-37 | The two fields parse back to `floor(s/60)` and `s mod 60`. |
| Timer.Countdown.constructor | components/Timer.tsx:11-12 | Starts at `durationMinutes·60`, or 0 with no duration, not yet expired. |
| Timer.Countdown.Effect | components/Timer.tsx:14-31 | An interval runs iff the timer is active and has a duration. |
| Timer.Countdown.Tick | components/Timer.tsx:16-39 | Decrements, clamping at 0 and never going negative. Reaching 0 stops the interval and fires expiry once, at most once overall. A critical timer (`IsCritical`, under 30 s) stays critical. |
| BattleCoach.LastFinalUser | components/BattleCoach.tsx:22-23 | The index of the latest non-partial user item, if any. |
| BattleCoach.Overlap | components/BattleCoach.tsx:34 | Exactly the user words longer than 3 UTF-16 code units that also occur among the AI words, never more entries than user words. |
| Text.ReplaceFirst | components/BattleCoach.tsx:33 | Without the character the string is unchanged. Otherwise exactly one occurrence, the first, is removed: the text before it is kept and the rest follows. |
| BattleCoach.FindLastFinalUser | components/BattleCoach.tsx:22 | The backward search finds the latest non-partial user item, as `LastFinalUser` describes. |
| BattleCoach.Detect | components/BattleCoach.tsx:22-42 | Mirroring first, then labeling overriding it, gives the combo `DetectTactic` describes. |
| BattleCoach.DetectTacticMeaning | components/BattleCoach.tsx:21-43 | Nothing without a final user item. Labeling iff the lowercased text contains one of the four phrases, which overrides mirroring. Mirroring iff the text ends in "?", the item before the last is the AI's, and at least two long words overlap after removing the first "?". |
| BattleCoach.LabelsAnyOfFour | components/BattleCoach.tsx:40 | Labeling means containing one of the four phrases. |
| BattleCoach.OverlapTwoPositions | components/BattleCoach.tsx:34-35 | The overlap reaches two iff two user word positions hold words longer than 3 code units that the AI also said. |
| BattleCoach.TwoFromOverlap | components/BattleCoach.tsx:34-35 | An overlap of two or more has two qualifying user word positions. |
| BattleCoach.OverlapFromTwo | components/BattleCoach.tsx:34-35 | Two qualifying user word positions give an overlap of at least two, so mirroring can fire. |
| BattleCoach.Coach.OnTranscript | components/BattleCoach.tsx:44-49 | A detection sets the combo and the success hint; otherwise nothing changes. |
| BattleCoach.Coach.OnComboTimeout | components/BattleCoach.tsx:48 | Clears the combo and the hint. |
| BattleCoach.Coach.OnSilenceCheck | components/BattleCoach.tsx:53-66 | Speech resets the silence start and clears the hint. In silence the start is set once, and the warning appears iff more than 5 s passed and the last item is the AI's. |

## Left out

- Web Audio graph wiring is not modelled: contexts, analysers, `setSinkId`, node connection to destinations, and the volume meters (hooks/useLiveSession.ts:64-107). Audio nodes are abstract ids.
- The input context and the analysers are not modelled. The output context is a handle with its 24 kHz rate.
- The voice name, system instruction and tool declaration `connect` puts in the session's configuration are not modelled, so the voice's default `'Kore'` has no counterpart; the ambience default `'office'` is `DefaultAmbience`, taken when `Connect` is given no preset (hooks/useLiveSession.ts:132-135, 174-197).
- `setOutputDevice` is not modelled: it only forwards a device id to the platform.
- The GoogleGenAI session, `getUserMedia`, `enumerateDevices`, `MediaRecorder`, Blob and URL creation are not modelled. They appear as parameters (`micGranted`, the device list, chunk sizes, `Event`) and recorded outputs (`sent`, `toolResponses`, `audioUrl` as the chunk sizes it was made from).
- The recorder's asynchronous `onstop` is taken to run within `disconnect`, and a final `dataavailable` chunk emitted by `stop()` is not modelled.
- Failures inside `connect` other than a refused microphone are not modelled separately; they end in the same `Error` state.
- JSON parse and serialise are not modelled. A stored value is a tagged union, and a missing or wrongly shaped value reads as a parse failure. Quota errors on write are not modelled.
- Cloud sync (`syncProfileToCloud`, `toggleScenarioLike`) and sound effects are not modelled.
- Floating point is not modelled: samples and durations are exact reals and XP multipliers exact rationals. The RMS `sqrt` is compared as the mean square against the squared threshold.
- AudioUtils.Float32ToInt16PCM: truncation toward zero is modelled, but not the float32 rounding of inputs.
- CommunityHub.SortedScenarios: the stability of `Array.prototype.sort` for equal like counts is not stated, only a permutation that is descending.
- Lowercasing covers ASCII and the Polish capitals only. Full Unicode case mapping is not modelled.
- Storage.FeedbackShort: when the 120th code unit is the first half of a surrogate pair, `substring` keeps that lone half; a Dafny string cannot hold it, so the model cuts before the pair, at 119 code units.
- Storage.SaveHistory: the entry's `id` and `timestamp` come from two `Date.now()` readings (utils/storage.ts:18, 20); the model uses one reading, `now`, for both, a value the clock can give both calls of one synchronous expression.
- LiveSession.Session.OnMessage: the insights logged by one message share one `Date.now()` reading, a value the clock can give every call of one synchronous loop; transcript updates each get their own stamp.
- The analysis prompt's fixed template text and the remote model call are not modelled. The model is a parameter returning a result or a failure.
- Storage.UpdateUserProfile: requires the new xp to be non-negative, because `getTitle` on a level below 1 reads outside the title list.
- Dates are day numbers. `toISOString` day strings and time zones are not modelled, and an unset last-played date is `Blank`.
- The `isAiSpeaking` state is the predicate `AiSpeaking` over the scheduled set; the animation-frame polling is not modelled.
