# Proofs about the Nemotron Voice Agent

A Dafny model of the voice agent's hardest logic, and proofs of what it guarantees. `dafny verify dfyconfig.toml`
checks everything.

**The Realtime protocol.** One conversation state is shared by a pipeline observer, a client-message handler and the
audio output. `Conversation`, `Lifecycle`, `Observer` and `Serializer` hold that state and its handlers as classes,
each method proved equal to a function on values; emitting an event appends it to a log, and minted ids are fresh
numbers. `Protocol` strings handler calls together to runs. `ResponseStream` proves what every run puts on the wire:
whole responses one after the other, with ids that never recur, with the transcript, the audio and the status that
belong to them, and which inputs begin and end them. `ClientMessages` says what answer a client can expect of each
message from what it has seen on the wire, `UserTurns` predicts every event of the user's speech, `UserItems` proves
their order, and `FrameDedupe` which frames are not handled again.
In these modules a handler call is one step. `Interleaving` gives that up: a task runs from one emitted event to the
next, any number of tasks interleave, and what remains true is proved, as is what does not; `InterleavedEvents` says of
the same runs which item an event carries with its response, which events may follow the end of a response, and what
the client is told of a transcript.

**Streams of text and audio.** `TranscriptExtractor` is the incremental splitter of tagged model output, proved equal
to a parse of the whole text however the stream is cut. `SilentReply` is the filter that keeps an all-dots reply
from speech synthesis: what happens to every frame is stated by looking at the whole stream. `SpeakerLines` joins
speaker lines. `PreSpeech` is the rolling audio window before an utterance, and `AudioTimeline` places received audio
on a timeline in two passes that must agree.

**Nested configuration.** `Json` merges JSON trees, `Session` decides which fields of a session update may change and
applies it, and `ServiceSettings` resolves settings that depend on each other and writes them to paths of a tree.

**Two small algorithms.** `PullRequests` lists a date range through a capped search, and `Aggregation` counts clients
and pools averages.

## Results that are not what one would expect

- An accepted live session update can drop part of what it asks for without a word, in three ways: it erases an audio
  block, it gives one side a nested format that an older format field leaves out of force, or its two voice fields do not
  agree on a voice. `Session.NothingDroppedExactly` shows that there is no
  other way, and `Session.ErasingIsDropped`, `Session.OverriddenFormatIsDropped` and `Session.OverriddenVoiceIsDropped`
  that each happens.
- When tasks interleave between events, a response can begin without being announced, then or later
  (`Interleaving.SilentBeginHappens`, `Interleaving.SilentForGood`), and this is exactly when a task that has announced
  its text finds no response in progress as it appends it (`Interleaving.SilentBeginExactly`). When handlers run to
  completion it cannot happen: in `ResponseStream.ResponseStream` the number of responses begun equals the number of
  announced blocks.
- When tasks interleave, an event can carry the id of one response and the item of another, or no item. All events of
  a run carry the item minted with their response exactly if no task tells an item, a part or audio of its response
  from a slot that is not its own, where an item counts from when it was read (`InterleavedEvents.PairedExactly`).
  `InterleavedEvents.IdsCanMix` is a run of the observer, the audio output and a client that cancels and asks again, in
  which a part and audio of the first response carry the item of the second.
- Events of a response can follow its `response.done`: exactly those of a task that is still announcing it
  (`InterleavedEvents.AfterDoneExactly`).
- A client that truncates an item is believed if the item is that of the open response or of one that ended with a
  transcript, and then the open response is cancelled whatever the item; the item of a response that ended without text
  is refused as unknown (`ClientMessages.AnsweredAsExpected`).
- A transcript that arrives before the user's speech starts is forgotten when it starts
  (`UserTurns.UserTurnsExactly`).
- On a track that is cut at the end of the input a chunk can be moved forward, to before it came, when it follows a
  shorter one that is too late (`AudioTimeline.LateChunkMovesForward`); chunks lie where they do on the whole track
  exactly if none does so (`AudioTimeline.CutTrackExactly`), and then the cut track is the beginning of the whole one
  (`AudioTimeline.CutTrackIsPrefix`).
- The client may be told less of a transcript than the closing events carry: exactly when it cancels or truncates a
  response of which only unspoken LLM text is known (`Protocol.Faithful`, used in `ResponseStream.ResponseStream`).
- The client counts that are reported add up to the configured number exactly if the failed and silent files
  do not exceed it (`Aggregation.CountClients`).

## Model

| member | source | states |
|---|---|---|
| ResponseStream.ResponseStream | src/realtime/lifecycle.py:29-192 | In every run the response events on the wire are whole blocks (created, item created, output item added, content part added, any deltas, five closing events) followed by at most one open block; response ids and item ids are distinct; every response that was begun was announced; each block's transcript is exactly the TTS words delivered to that response, without words that repeat the end of what was told, or else exactly its LLM text; the client was told all of it unless it cut short a response with only LLM text; its audio is exactly what was resampled and sent while it was open; and its status is that of the input that ended it |
| ResponseStream.InputDecides | src/realtime/observer.py:204-258 | After any run, the open response ends exactly on a handled end of speech or of skipped speech (completed), interruption (cancelled), fatal error (failed), on a cancel that names it or none, or on a valid truncation of a known item (cancelled); with nothing open exactly handled bot speech, TTS or LLM text, or a granted request begins one, with an id never seen before; the gate is open exactly if it was at first, was opened, or some response is done |
| ClientMessages.AnsweredAsExpected | src/realtime/serializer.py:165-289 | After any run every message is answered as a table says that looks only at the responses seen, at the gate, and at whether audio was sent since the last commit or clear: ignored without effect, refused with one error and nothing else, or heeded with this pipeline frame and these events |
| ClientMessages.OthersTold | src/realtime/observer.py:204-225 | Frames, audio and the gate tell the client nothing but events of responses and of the user's speech, and of each handled pipeline error that it occurred |
| UserTurns.UserTurnsExactly | src/realtime/observer.py:261-310 | In every run the events of the user's speech are exactly those of a four-phase machine fed the handled turn frames: their items, their order, their texts, and start and end times read off the samples received until then |
| ResponseStream.WelcomeGate | src/realtime/serializer.py:214-254 | With the gate closed at first and opened only by completion, the flag is up exactly if some `response.done` is on the wire; no client text and no run request gets through before; a run request puts exactly one opening sequence on the wire, with a new response id |
| ResponseStream.RunRecords | src/realtime/observer.py:312-344 | After every run a ledger of blocks exists that matches log, response slot, text buffers, and the TTS text told and LLM text delivered to each response |
| Protocol.StepKeeps | src/realtime/observer.py:204-434 | One step of any handler keeps the ledger: at most one block is opened, extended or closed, what the open one has been told is its TTS words, and a closed one's transcript is faithful to them |
| Protocol.ShapeFinish | src/realtime/lifecycle.py:83-192 | Finishing closes the open block with the transcript held at that moment and empties the slot |
| Protocol.ShapeAnnounce | src/realtime/lifecycle.py:29-80 | Announcing opens a block if none is open, and emits nothing otherwise |
| Protocol.ObserverFinishes | src/realtime/observer.py:410-434 | The observer tells the client the unspoken buffered text before it finishes a response, so the client has been told the whole transcript |
| Protocol.ClientFinishes | src/realtime/serializer.py:626-639 | A client cancel puts unspoken buffered text in the transcript without telling it |
| UserItems.UserItemOrder | src/realtime/observer.py:261-310 | In every run every event of a user item is legal given the earlier ones: speech stops not before it starts, commit after stop, creation after commit and once, interim text only between start and stop, completion last and once |
| UserItems.TranscribedLast | src/realtime/observer.py:160-175 | A completed transcription comes after the stop, the commit and the creation of the same item, in this order |
| UserItems.OncePerItem | src/realtime/conversation.py:109-132 | No item is created twice and none is transcribed twice |
| UserItems.EndAfterStart | src/realtime/conversation.py:76-101 | The end of an item's speech is not before its start, in time and in the log |
| UserItems.CompletedIsLastFinal | src/realtime/observer.py:160-175 | Whatever transcription a step completes has the text of the last final transcription that was handled, and that was set for the very item it is completed for |
| UserItems.LaterReading | src/realtime/conversation.py:76-124 | Whatever audio comes between two readings of the clock, chunk by chunk and at whatever rates, the later reading is not smaller exactly if all samples last, at the later rate, as long as the earlier reading says; always if the rate has not grown |
| UserItems.ClockNeedsFixedRate | src/realtime/conversation.py:76-124 | No reading at one rate is ever followed by a smaller one at another exactly if the other rate is not larger |
| FrameDedupe.RemembersLast | src/realtime/observer.py:117-125 | The set and the bounded deque always hold exactly the last accepted ids since the last clear, without repeats, so an id is accepted exactly if it is not among them |
| FrameDedupe.RememberKeeps | src/realtime/observer.py:103-125 | Offering an id keeps the set equal to the elements of the deque, whose elements stay distinct |
| FrameDedupe.HandledExactly | src/realtime/observer.py:204-258 | In every run of the protocol a frame is handled exactly if it is an error or an interruption, or goes downstream, is one of the observed kinds and not the end of speech from another source than the output, and its id is not among the last ids accepted since a response ended |
| Interleaving.ClosedByOneSnapshot | src/realtime/lifecycle.py:83-192 | However tasks interleave at every emit, the snapshots taken along a run have distinct generations and distinct responses, the closing events of a response are a prefix of the finish sequence of its snapshot, and none are sent without one |
| Interleaving.CapturesTheSlot | src/realtime/conversation.py:179-200 | A snapshot holds the response, item, transcript and generation of the slot at the moment it is taken, takes the response out of progress, and has the status of the work that takes it: the observer's own, cancelled for a client, failed for an error |
| Interleaving.TellingKeepsStatus | src/realtime/observer.py:410-434 | An observer's finish that has to tell untold text first goes on to end the response with the status it came with |
| Interleaving.DoneOnce | src/realtime/lifecycle.py:106-192 | No response id has two `response.done` events |
| Interleaving.ResetIsGuarded | src/realtime/conversation.py:202-218 | The reset at the end of a finish sequence changes nothing if a newer generation has begun or a response is in progress, and otherwise only empties the slot |
| Interleaving.SilentBeginExactly | src/realtime/observer.py:320-333 | In every interleaving the responses begun are those that `response.created` told together with those begun by an append that found nothing in progress, none is both, and so all are announced exactly if no such append happens |
| Interleaving.SilentBeginHappens | src/realtime/observer.py:320-333 | It happens when a client cancels while the last event of an announcement is pending: the run, and its whole log |
| Interleaving.SilentForGood | src/realtime/lifecycle.py:29-42 | A response begun without being announced is never announced later in any run |
| InterleavedEvents.PairedExactly | src/realtime/lifecycle.py:29-80 | In every interleaving, every event with a response and an item carries the item minted with that response, exactly if no task tells an item, part or audio of its response while the slot is not its own (for an item: when it was read) |
| InterleavedEvents.IdsCanMix | src/realtime/serializer.py:613-624 | Three tasks, one for each activity: the part and the audio of the first response carry the item of the next |
| InterleavedEvents.AfterDoneExactly | src/realtime/lifecycle.py:83-192 | After the `response.done` of a response, in every interleaving, a step sends an event of it exactly if it resumes a task that is announcing it and has an event left to tell |
| InterleavedEvents.DeltasAreTheTranscript | src/realtime/observer.py:410-434 | However tasks interleave, the transcript deltas told of a response that has a snapshot are exactly the snapshot's transcript, unless a client finish appended untold text, and then none were told |
| Conversation.ConversationState.BeginUserTurn | src/realtime/conversation.py:83-94 | The turn's item and start are set once per turn; a stopped turn is cleared first; the whole new state |
| Conversation.ConversationState.StopUserTurn | src/realtime/conversation.py:96-101 | The end of the turn and the whole new state |
| Conversation.ConversationState.BeginResponse | src/realtime/conversation.py:134-156 | A response in progress is returned; otherwise a fresh one with a new generation; the whole new state |
| Conversation.ConversationState.RequestResponse | src/realtime/conversation.py:158-163 | Granted exactly if nothing is requested or in progress |
| Conversation.ConversationState.AppendAssistantTranscript | src/realtime/conversation.py:170-177 | The transcript of the slot and of its item grow by the text; the whole new state |
| Conversation.ConversationState.CompleteResponse | src/realtime/conversation.py:179-200 | A snapshot is taken exactly if a response is in progress; the whole new state |
| Conversation.ConversationState.ResetResponseSlot | src/realtime/conversation.py:202-218 | The slot is emptied unless the guard names another generation |
| Lifecycle.AnnounceResponse | src/realtime/lifecycle.py:29-80 | The new state and exactly the events of an announcement |
| Lifecycle.FinishResponse | src/realtime/lifecycle.py:83-103 | The new state and exactly the events of a finish, or nothing if no response is in progress |
| Lifecycle.EmitFinishFromSnapshot | src/realtime/lifecycle.py:106-192 | Exactly the snapshot's closing events, in order |
| Observer.LifecycleObserver.OnPushFrame | src/realtime/observer.py:204-258 | The new state and events for every kind of frame, direction and source |
| Observer.LifecycleObserver.HandleFrame | src/realtime/observer.py:260-384 | The new state and events of a frame that is handled |
| Observer.LifecycleObserver.RememberFrame | src/realtime/observer.py:117-125 | Whether the id is new, and the new memory |
| Serializer.FrameSerializer.Deserialize | src/realtime/serializer.py:165-289 | The new state, the events and the pipeline frame for every client message |
| Serializer.FrameSerializer.DeserializeTruncate | src/realtime/serializer.py:389-430 | Truncation cancels the response in progress of a known item and is refused otherwise |
| Serializer.FrameSerializer.SerializeOutputAudio | src/realtime/serializer.py:590-624 | Audio is told only for a response in progress, after announcing it |
| TranscriptExtractor.Extractor.Feed | src/examples/omni_assistant/nvidia_omni_multimodal_service.py:1061-1132 | After every delta the fields and everything released are those of reading all the text so far at once |
| TranscriptExtractor.Extractor.Finalize | src/examples/omni_assistant/nvidia_omni_multimodal_service.py:1134-1145 | Released text, remainder, transcript and flag are the one-shot parse of everything consumed |
| TranscriptExtractor.ExtractAll | src/examples/omni_assistant/nvidia_omni_multimodal_service.py:1061-1145 | For every chunking the result is the one-shot parse of the whole text |
| TranscriptExtractor.FeedAdvances | src/examples/omni_assistant/nvidia_omni_multimodal_service.py:1061-1132 | Going on with a delta from the state of a text is reading both at once |
| TranscriptExtractor.FlushIsParse | src/examples/omni_assistant/nvidia_omni_multimodal_service.py:1134-1145 | Flushing the state of a text gives the one-shot parse |
| TranscriptExtractor.NeverRetracted | src/examples/omni_assistant/nvidia_omni_multimodal_service.py:1061-1132 | What is released is a prefix of the final response text whatever follows |
| TranscriptExtractor.HeldBackIsShort | src/examples/omni_assistant/nvidia_omni_multimodal_service.py:1120-1130 | In the response section at most 10 characters are held back |
| TranscriptExtractor.RoundTrip | src/examples/omni_assistant/nvidia_omni_multimodal_service.py:1036-1145 | Printing both sections with any white space around them and parsing gives the stripped transcript and exactly the response text |
| Text.StripExactly | src/examples/omni_assistant/nvidia_omni_multimodal_service.py:1092 | What is reported as the transcript is what is left when exactly the white space at both ends is gone |
| TranscriptExtractor.BorderFreeExactly | src/examples/omni_assistant/nvidia_omni_multimodal_service.py:1036-1042 | A close tag printed after any text without it is found where it was printed exactly if no proper suffix of the tag is a prefix of it |
| SilentReply.FatesDelivered | src/examples/generic/silent_reply.py:153-203 | For every stream, the non-system frames pushed are each frame with the fate the whole stream gives it: withheld while its reply is undecided or when an interruption took it, muted exactly in a complete reply of dots, passed otherwise; what is held is the undecided reply |
| SilentReply.FramesConserved | src/examples/generic/silent_reply.py:153-203 | Frames pushed and held are the frames received, in order and each once, without those an interruption found held |
| SilentReply.SystemFramesPass | src/examples/generic/silent_reply.py:163-178 | System frames pass unchanged and in order |
| SilentReply.SilenceIsDots | src/examples/generic/silent_reply.py:138-140 | A silence reply is dots, ellipses and white space with at least one dot or ellipsis |
| SilentReply.SilentReplyFilter.ProcessFrame | src/examples/generic/silent_reply.py:153-203 | Downstream frames drive the state machine, upstream frames pass |
| SpeakerLines.JoinBackToBackLines | src/examples/generic/silent_reply.py:77-100 | The loop computes the joined list |
| SpeakerLines.OnePerRun | src/examples/generic/silent_reply.py:77-100 | The list falls into runs of speaker lines that cannot be longer and messages alone; the result has one message for each, in order: a message alone as it is, a run as its first line with exactly the run's text, each later line after a space and without the label of whoever was speaking |
| SpeakerLines.ApartIsKept | src/examples/generic/silent_reply.py:77-100 | A list is left alone exactly if no two speaker lines follow each other |
| SpeakerLines.JoinTwice | src/examples/generic/silent_reply.py:77-100 | Joining twice is joining once |
| PreSpeech.RollingIsLongestSuffix | src/examples/omni_assistant/nvidia_omni_multimodal_service.py:570-577 | With one window size the buffer is what dropping from the front leaves of everything heard |
| PreSpeech.FitIsLongest | src/examples/omni_assistant/nvidia_omni_multimodal_service.py:576-577 | Dropping from the front leaves the longest suffix that fits |
| PreSpeech.RollingIsSuffix | src/examples/omni_assistant/nvidia_omni_multimodal_service.py:570-577 | Whatever the formats, the buffer is a suffix of what was heard |
| PreSpeech.AudioBuffers.BufferIsLongestSuffix | src/examples/omni_assistant/nvidia_omni_multimodal_service.py:559-577 | Outside speech and with one window size the buffer is the longest suffix that fits, of everything that arrived since the last reset |
| PreSpeech.AudioBuffers.UserStarted | src/examples/omni_assistant/nvidia_omni_multimodal_service.py:535-549 | The utterance starts with the window, which is emptied |
| PreSpeech.AudioBuffers.AudioFrame | src/examples/omni_assistant/nvidia_omni_multimodal_service.py:559-568 | A chunk joins the utterance or the window |
| PreSpeech.AudioBuffers.UserStopped | src/examples/omni_assistant/nvidia_omni_multimodal_service.py:551-594 | The audio of an answered turn is a gap-free run of the received stream that ends now, turns never share a chunk, and a turn is answered exactly if the bot is silent and the audio is neither empty nor too short |
| PreSpeech.JoinedBytes | src/examples/omni_assistant/nvidia_omni_multimodal_service.py:585 | The joined payload has exactly the bytes of the chunks: byte i of chunk k behind all bytes of the chunks before it |
| PreSpeech.BytesForLasts | src/examples/omni_assistant/nvidia_omni_multimodal_service.py:590-592 | The number of bytes for a time is rate by channels by two bytes for each second, rounded down |
| PreSpeech.AudioBuffers.Interruption | src/examples/omni_assistant/nvidia_omni_multimodal_service.py:351-357 | An interruption outside speech empties both buffers, one in speech keeps the utterance |
| AudioTimeline.LateOutputPreserved | benchmarking_tools/Full-Duplex-Bench-Eval/inference_realtime.py:388-417 | On a track as long as the sizing pass says, every chunk lies whole where the sizing pass placed it, places ascend without overlap, and everything else is silence |
| AudioTimeline.Received.AssembleOutput | benchmarking_tools/Full-Duplex-Bench-Eval/inference_realtime.py:388-417 | The output is the assembled track; with late output preserved its length is the largest of the three ends and it holds every chunk whole |
| AudioTimeline.Received.PackedOutputEnd | benchmarking_tools/Full-Duplex-Bench-Eval/inference_realtime.py:57-72 | The sizing pass |
| AudioTimeline.PackedEndCovers | benchmarking_tools/Full-Duplex-Bench-Eval/inference_realtime.py:57-72 | The size found is the end of the last placed chunk |
| AudioTimeline.StartsAscend | benchmarking_tools/Full-Duplex-Bench-Eval/inference_realtime.py:57-72 | Each chunk is placed at or after the end of the one before it |
| AudioTimeline.StartsPlacedByTime | benchmarking_tools/Full-Duplex-Bench-Eval/inference_realtime.py:403-416 | A chunk lies directly after its predecessor if it came at most one and a half of its lengths after the end of that, and otherwise, like the first, at its rounded time |
| AudioTimeline.CutTrackExactly | benchmarking_tools/Full-Duplex-Bench-Eval/inference_realtime.py:402-417 | On a cut track every chunk lies where it lies on the whole track, or is left out if that is behind the cut, exactly if no chunk takes the place of an earlier one that is left out |
| AudioTimeline.CutTrackIsPrefix | benchmarking_tools/Full-Duplex-Bench-Eval/inference_realtime.py:402-417 | In that case the cut track is the beginning of the whole one |
| AudioTimeline.LateChunkMovesForward | benchmarking_tools/Full-Duplex-Bench-Eval/inference_realtime.py:407-410 | A cut track on which a chunk lies before it came |
| AudioTimeline.Received.TruncateAt | benchmarking_tools/Full-Duplex-Bench-Eval/inference_realtime.py:40-54 | The loop computes the truncation |
| AudioTimeline.TruncatedIsWhatWasDue | benchmarking_tools/Full-Duplex-Bench-Eval/inference_realtime.py:40-54 | Exactly the samples due before the cutoff are kept, up to the first that is not |
| AudioTimeline.KeepsWhatWasDue | benchmarking_tools/Full-Duplex-Bench-Eval/inference_realtime.py:47 | A sample of a chunk is kept exactly if it begins more than half a sample before the cutoff, ties going to the even count |
| AudioTimeline.TruncatedTwice | benchmarking_tools/Full-Duplex-Bench-Eval/inference_realtime.py:40-54 | The same interruption cuts nothing more |
| AudioTimeline.Received.Arrive | benchmarking_tools/Full-Duplex-Bench-Eval/inference_realtime.py:340-353 | A chunk in a burst is scheduled directly after the one before it, another at its arrival |
| Json.MergeSessionPatch | src/realtime/session.py:75-91 | The loop over the patch's keys, in any order, computes the merge |
| Json.MergeReads | src/realtime/session.py:75-91 | Every path of a merged tree: the patch's value, merged into the base's where both are objects; the base's value where the patch does not reach; nothing below a value the patch replaced |
| Json.MergeTwice | src/realtime/session.py:75-91 | Merging the same patch again changes nothing |
| Session.AcceptedExactly | src/realtime/serializer.py:291-326 | An update passes all checks exactly if what stands at each path that is looked at has its form (blocks, formats, a transcription selector, plain server turn detection), and every path it names can change live or reads so in the view, vendor fields that clients can set included |
| Session.WellFormedExactly | src/realtime/session.py:188-233 | The three validators let pass exactly what has the right form, path by path |
| Session.PermittedExactly | src/realtime/session.py:497-571 | Nothing is reported as unsupported exactly if every path can change live or already reads so, and turn detection is as in force |
| Session.VendorFieldsHidden | src/realtime/session.py:325-327 | After an update the view shows no vendor fields but those clients can set and the server's tools |
| Session.NothingDroppedExactly | src/realtime/serializer.py:291-387 | If every path asked for can change or already is so, every value asked for is in force afterwards (at its place, an older format at the nested one, a voice as the catalog answers it, turn detection where it is kept; vendor fields that clients cannot set exempt), exactly if the update erases no audio block, each older format has every leaf of the nested one or leaves its place alone and the view has it already, and the voice fields agree |
| Session.ErasingIsDropped | src/realtime/session.py:473-475 | A null audio block passes all checks and is not applied |
| Session.OverriddenFormatIsDropped | src/realtime/serializer.py:329-340 | An older and a nested format that differ pass all checks, and the nested one is dropped |
| Session.OverriddenVoiceIsDropped | src/realtime/serializer.py:343-369 | Two voices with different answers pass all checks, and the top-level one is dropped |
| Session.LiveUpdateLeavesAlone | src/realtime/serializer.py:328-382 | Whatever the patch, applying its live part leaves every non-live field, every vendor field clients may set and the turn detection in force unchanged |
| Session.LiveUpdateTakesEffect | src/realtime/serializer.py:329-376 | Every value of the patch that is merged, formats folded and the found voice put in, reads back afterwards; the top-level voice field is left to the rows above |
| Session.SessionUpdates.Update | src/realtime/serializer.py:291-387 | When an update is refused, by its paths and those of the view, with which code and without effect; otherwise the whole new view and the voice sent on |
| ServiceSettings.ApplyServiceSettings | src/utils.py:497-522 | The three loops compute the result |
| ServiceSettings.SettingsWritten | src/utils.py:497-522 | Each setting's path holds its outcome, given by the coerced values alone and so whatever the schema's order, and nothing if it is off |
| ServiceSettings.FinalIsOutcome | src/utils.py:511-522 | The capping loop ends with that outcome: a setting is off exactly if it has no value, its requirement is off or was turned off by a setting that cannot fit, or it cannot fit itself |
| ServiceSettings.WrittenBelowLimit | src/utils.py:463-475 | In the tree, a limit has its coerced value or is absent; a setting has its coerced value if that stays its reserve below the limit, otherwise exactly the limit without the reserve, or is absent |
| ServiceSettings.CannotFitExactly | src/utils.py:463-475 | A setting cannot fit exactly if its coerced value is over the limit less the reserve and that is under its minimum, or under zero without one |
| ServiceSettings.WrittenExactly | src/utils.py:497-522 | A setting is written exactly if it has a coerced value, can fit, and the flag it requires is on with no setting of that flag that cannot fit; without a limit it is written as coerced, but for a flag turned off so, which is written as false |
| ServiceSettings.WrittenWithItsFlag | src/utils.py:511-522 | A setting whose requirement ends off is absent from the tree, and where a setting and the flag it requires are both written the flag reads on |
| ServiceSettings.CannotFitTurnsOff | src/utils.py:463-475 | A setting that does not fit under its limit is absent from the tree, and the flag it requires reads off or is absent |
| ServiceSettings.OtherParametersKept | src/utils.py:478-494 | Parameters at paths unrelated to the schema's read as before |
| ServiceSettings.ApplyTwice | src/utils.py:497-522 | Applying twice is applying once |
| ServiceSettings.CoercedExactly | src/utils.py:431-460 | When a client value is taken and as what: a flag or its name in any case, an option of the same value, a number or its text made whole toward zero and brought to the nearer end of its range; the default in every other case |
| ServiceSettings.CoercedIsAllowed | src/utils.py:431-460 | A client value is taken only with the setting's kind, among its options and within its range, and a whole number stays whole; otherwise the default is |
| ServiceSettings.SetPathReads | src/utils.py:478-485 | A path that was set reads back, unrelated paths read as before |
| ServiceSettings.PopPathReads | src/utils.py:488-494 | A path that was removed is absent, unrelated paths read as before |
| PullRequests.ListsExactlyTheRange | scripts/docs-review-receipt.py:332-342 | Although every search is cut at 1000, the listing is exactly the range if no day has that many, and otherwise it fails and names the first such day |
| PullRequests.EachListedOnce | scripts/docs-review-receipt.py:332-342 | Distinct pull requests are each listed once |
| Aggregation.ClassesPartition | benchmarking_tools/scaling-perf/benchmark_aggregation.py:84-97 | Each file is in exactly one class |
| Aggregation.ClassesByFields | benchmarking_tools/scaling-perf/benchmark_aggregation.py:63-97 | How many files are in each class, by their error text, average latency and valid turns |
| Aggregation.CountClients | benchmarking_tools/scaling-perf/benchmark_aggregation.py:154-176 | The counts add up to the configured clients exactly if failed and silent files do not exceed them, and the number of successes is right exactly if no file is surplus or none succeeded |
| Aggregation.WeightedAverage | benchmarking_tools/scaling-perf/benchmark_aggregation.py:141-151 | The loop computes the weighted average and the total count |
| Aggregation.AverageIsPooledMean | benchmarking_tools/scaling-perf/benchmark_aggregation.py:141-151 | If each client reports its own mean and count, the weighted average is the mean of all samples pooled |
| Aggregation.P95IsNearestRank | benchmarking_tools/scaling-perf/benchmark_aggregation.py:42-47 | The percentile is one of the values; at least 95 in 100 values are not above it, fewer are below it |

## Left out

- Transport, subprocesses, files, logging, telemetry payloads, the older spellings of events and error texts.
- JSON text, base64 and resampling: a message arrives decoded, and what decoding or resampling made of its audio is a parameter, as is the catalog's answer for a voice, taken to be a function of the voice.
- The `emit` callback and the cancel hook are always set; an exception inside a handler, which the source logs, is not modelled.
- The metric counters of the observer, and the events of server-side tools.
- A pipeline rate set up during a session: the rate is fixed for a session, as `UserItems.ClockNeedsFixedRate` shows it must be (`UserItems.ClockRunsBack` has a case).
- UserItems.UserItemOrder: covers the items of the user's speech; the ids of text items that a client chooses itself may repeat, since the source does not compare them.
- The user-turn fields and the response-slot fields of the conversation state are kept in one record each, so the model's methods update a record where the source updates single fields.
- Interleaving.ClosedByOneSnapshot: the block grammar of whole responses is not claimed when tasks interleave, since announce events of two tasks can reorder and a response can begin unannounced.
- Interleaving: the observer's text buffers are not modelled; the untold text that a finish or a cancel appends is any text.
- ServiceSettings.ApplyServiceSettings: trees are values, so updating nested dictionaries in place and sharing between them is not captured; infinite numbers among client values, on which an integer setting raises an error, are not modelled; a limit that has a limit itself is excluded, because the outcome then depends on the schema's order.
- ServiceSettings: options of a choice are compared as JSON values, with flags and numbers compared by value only at the top.
- Session.Unsupported gives the set of unsupported fields without their order, which only the error text uses.
- The first session configuration (`RealtimeSession.apply_update` and the mapping to a flat configuration).
- AudioTimeline: times are exact and counted in samples, so floating-point rounding is not captured; negative times, which a monotonic clock does not give, are excluded.
- Aggregation: numbers are exact, so the rank of the percentile is not subject to floating-point rounding; latencies, identifiers and the other columns of the summary are not modelled.
- PreSpeech: numbers of seconds are exact; starting and cancelling the request for an answer is not modelled. Audio that arrives while audio input is not configured is no part of the received stream.
- SpeakerLines: the regular expression that finds speaker labels is a parameter.
- The rewriting of JSON replies (`reply_field_chunks`): the parser it uses is not part of this model.
- PullRequests: the search is a parameter that returns only pull requests of the range, and all of them up to the limit.
- The RTVI benchmark client, whose rounding differs, and the user interface.
