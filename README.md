# MirrorSpeech dialogue modules, modelled in Dafny

The application is a voice dialogue with one job: ask the user a generated question, listen
for the answer, and say the answer back. It is built from event-driven modules. The host
feeds each module events and calls its `Update` periodically. A module's `Update` result
(`IN_PROGRESS`, `FINISHED_POP`, `FINISHED_APPEND`) tells the host whether to keep it, pop it,
or append the child its `NextModule` returns.

This project models the modules' dialogue logic and proves what they promise:

- **RepeatAfterMe** is a single-module controller that goes CHECK_SERVICE → ASK_OUTPUT →
  LISTEN_INPUT → REPEAT_OUTPUT → CLOSE_APP. It keeps:
  - a two-bit service mask;
  - an arm-once timer per state;
  - acknowledgements correlated by output id;
  - a send loop that emits a split string as fragments in part order, with only the last
    fragment marked END.
- **MirrorSpeech** is the orchestrator. Each `Update` moves it at most one state on. It
  appends when it moves, and pops in CLOSE_APP or when nothing was heard. Its string is
  shared by reference with the listening child.
- **SpeechOutput** sends one string under a fresh id. It waits for the acknowledgement of
  that id or for its timer.
- **SpeechInput** clears the shared string and overwrites it with every non-empty answer it
  reads, so the last one before its next Update is kept. That Update pops once the string is
  non-empty, or when its timer has finished.
- **CheckService** is a monotone two-flag readiness gate. It reports through the caller's
  flag.

Modules and files:

- `platform.dfy` (`Platform`): the shared boundary. It holds the event kinds, the payloads the
  event codec reads, the outbound event storage, the timer, the reference cells, and the
  C-string view of character buffers.
- `speech_string.dfy` (`SpeechString`): the speech-string library as an abstract value, plus
  the fragments StateSendOutput builds from a part map.
- `repeat_after_me.dfy` (`RepeatAfterMe`): the controller. It has two parts:
  - a value model: the `Machine`, with `OnEvent` and `OnUpdate` saying what one `HandleEvent`
    and one `Update` do, and lemmas about them;
  - the class `RepeatAfterMe`, whose methods are proved to match that value model.
- `speech_output.dfy`, `speech_input.dfy`, `check_service.dfy`, `mirror_speech.dfy`: one module
  per C++ class. Each has a class with the source's fields and methods, and the functions and
  lemmas that specify it.
- `mirror_session.dfy` (`MirrorSession`): MirrorSpeech composed by hand with its children.
  It proves that the string repeated is exactly the non-empty string that was heard, cut to
  the buffer size as a C string.

External libraries are parameters:

- the timer's "has finished" is an `expired` input;
- `rand()` is a natural number `rnd`;
- the output generator's result is a `Result<string>`;
- the speech-string library's split, completeness and assembly are arbitrary functions;
- whether the event codec manages to create and fill an outbound event is a predicate
  (`delivered`) or a flag (`created`);
- the exception `MRH_EventStorage::Add` throws is an `Option<string>`.

## Model

| member | source | states |
|---|---|---|
| `Platform.CStr` | src/Module/RepeatAfterMe/RepeatAfterMe.cpp:236 | the C string of a buffer is a NUL-free prefix of it, followed in the buffer by a NUL whenever it is shorter than the buffer |
| `Platform.Truncate` | src/Module/SpeechOutput.cpp:50 | strncpy's count: the result is the prefix of length min(\|s\|, n) |
| `Platform.EventStorage.Add` | src/Module/RepeatAfterMe/RepeatAfterMe.cpp:250 | the event is appended to the outbound queue and nothing else changes |
| `SpeechString.FragmentsFromShape` | src/Module/RepeatAfterMe/RepeatAfterMe.cpp:224-239 | one fragment per remaining key; each carries the output id, a key of the map, and the C string of that key's part |
| `SpeechString.FragmentsFromEnd` | src/Module/RepeatAfterMe/RepeatAfterMe.cpp:226-234 | the last fragment, and no other, is marked END |
| `SpeechString.FragmentsFromAscending` | src/Module/RepeatAfterMe/RepeatAfterMe.cpp:224 | the fragments' part keys strictly ascend, as a `std::map` iterates |
| `SpeechString.FragmentsFromCover` | src/Module/RepeatAfterMe/RepeatAfterMe.cpp:224 | every key of the map gets a fragment |
| `SpeechString.FragmentsSpec` | src/Module/RepeatAfterMe/RepeatAfterMe.cpp:219-239 | the whole send order: one fragment per part, in ascending key order, all with the id, END on the last only, every part covered |
| `SpeechString.EmittedSubset` | src/Module/RepeatAfterMe/RepeatAfterMe.cpp:241-251 | only fragments the codec could create and fill are sent, as say-string events, never more events than fragments |
| `SpeechString.EmittedAll` | src/Module/RepeatAfterMe/RepeatAfterMe.cpp:241-251 | when the codec never fails, the events are exactly the fragments, in order |
| `SpeechString.SendStep` | src/Module/RepeatAfterMe/RepeatAfterMe.cpp:224-251 | one loop iteration: handling the least remaining key leaves exactly the other keys' events still to come |
| `RepeatAfterMe.Enter` | src/Module/RepeatAfterMe/RepeatAfterMe.cpp:182-186 | StateSet changes the state and clears the timer, also when the state does not change, and touches nothing else |
| `RepeatAfterMe.AddService` | src/Module/RepeatAfterMe/RepeatAfterMe.cpp:78-80 | adding a flag sets it, keeps the other flag as it was, changes nothing when the flag is already set, stays in 0..3, and reaches 3 exactly when the other flag was set |
| `RepeatAfterMe.OutputId` | src/Module/RepeatAfterMe/RepeatAfterMe.cpp:220 | the output id is below 2^32-1, and it equals rand() when rand() is below that |
| `RepeatAfterMe.OnEvent` | src/Module/RepeatAfterMe/RepeatAfterMe.cpp:59-146 | HandleEvent keeps the service mask in 0..3 |
| `RepeatAfterMe.OnUpdate` | src/Module/RepeatAfterMe/RepeatAfterMe.cpp:148-303 | Update keeps the service mask in 0..3 |
| `RepeatAfterMe.OnEvents` | src/Module/RepeatAfterMe/RepeatAfterMe.cpp:59-146 | any run of HandleEvent calls keeps the mask in 0..3 |
| `RepeatAfterMe.AvailabilityEvent` | src/Module/RepeatAfterMe/RepeatAfterMe.cpp:64-85 | a flag is set after one event exactly when it was set before or a successful answer for its service arrived; only availability events change the mask; reaching 3 enters AskOutput from any state; an availability event that is unreadable or not a success changes nothing at all, and a successful one that leaves the mask below 3 changes only the mask |
| `RepeatAfterMe.ServiceRecordsAvailability` | src/Module/RepeatAfterMe/RepeatAfterMe.cpp:64-85 | over any run of events, a flag is set exactly when it was set before or a successful answer for its service is among the events |
| `RepeatAfterMe.DuplicateAvailabilityRestartsAsk` | src/Module/RepeatAfterMe/RepeatAfterMe.cpp:80-83 | with a full mask, every further successful availability answer re-enters AskOutput and resets the timer, whatever the state |
| `RepeatAfterMe.AckCorrelation` | src/Module/RepeatAfterMe/RepeatAfterMe.cpp:119-141 | an acknowledgement changes the controller exactly when it carries the current output id in AskOutput or RepeatOutput; then AskOutput moves to ListenInput and RepeatOutput to CloseApp, with the timer reset; no other field changes |
| `RepeatAfterMe.ListenFragment` | src/Module/RepeatAfterMe/RepeatAfterMe.cpp:88-116 | a listen part with a new id restarts the input and one with the current id extends it; the part keeps its key, its C string, and "terminal iff END"; a complete input enters RepeatOutput in any state, and an incomplete one leaves state and timer alone |
| `RepeatAfterMe.IgnoredEvents` | src/Module/RepeatAfterMe/RepeatAfterMe.cpp:59-146 | events of kinds HandleEvent does not handle, and events of each handled kind whose data the codec cannot read as that kind (unreadable, or of another shape), leave the controller unchanged |
| `RepeatAfterMe.UpdateResult` | src/Module/RepeatAfterMe/RepeatAfterMe.cpp:148-176 | Update pops exactly in CloseApp and never asks for a successor, so the throwing NextModule is never reached; in CloseApp nothing changes and nothing is sent |
| `RepeatAfterMe.ListenInputWaits` | src/Module/RepeatAfterMe/RepeatAfterMe.cpp:158-159 | in ListenInput, Update does nothing, so that state never times out |
| `RepeatAfterMe.FirstUpdateActs` | src/Module/RepeatAfterMe/RepeatAfterMe.cpp:188-303 | the first Update in a state performs its action, arms its timer and reports IN_PROGRESS. CheckService (15000 ms) sends the listen probe, then the say probe. AskOutput (30000 ms) sends exactly the emitted fragments of the split generated question, and RepeatOutput (30000 ms) those of the split assembled input, both under the new output id. When generation or splitting throws, nothing is sent and the id stays, but the timer is armed all the same. Only the output id and the timer change |
| `RepeatAfterMe.AskSendsQuestion` | src/Module/RepeatAfterMe/RepeatAfterMe.cpp:210-290 | AskOutput sends the question's fragments under the new output id. When the codec never fails these are exactly the fragments, one per part, in part order, and the acknowledgement of that id opens ListenInput |
| `RepeatAfterMe.AskWithoutQuestion` | src/Module/RepeatAfterMe/RepeatAfterMe.cpp:267-283 | a question that cannot be generated or split sends nothing and keeps the id, and the timer is still armed |
| `RepeatAfterMe.TimerOutcome` | src/Module/RepeatAfterMe/RepeatAfterMe.cpp:188-303 | once armed, a finished timer moves every waiting state to CloseApp with the timer reset; an unfinished timer changes nothing |
| `RepeatAfterMe.ServicesReadyOnUpdate` | src/Module/RepeatAfterMe/RepeatAfterMe.cpp:197-201 | an Update in CheckService with the timer armed and a full mask enters AskOutput and clears the mask |
| `RepeatAfterMe.RepeatEchoesInput` | src/Module/RepeatAfterMe/RepeatAfterMe.cpp:210-303 | RepeatOutput sends the fragments of the assembled input under the new output id; when the codec never fails, these are exactly the fragments, one per part, and the acknowledgement of that id closes the dialogue |
| `RepeatAfterMe.StaleAckSkipsRepeat` | src/Module/RepeatAfterMe/RepeatAfterMe.cpp:111-139 | an input that completes while the question is still being spoken enters RepeatOutput. When the question's acknowledgement arrives before the next Update, it closes the dialogue, so that Update pops without repeating anything |
| `RepeatAfterMe.LateAckAfterEcho` | src/Module/RepeatAfterMe/RepeatAfterMe.cpp:119-141 | in the other order, an Update between the completing input and the question's acknowledgement sends the echo under a new id, and the late acknowledgement, whose id differs from it, is then ignored |
| `RepeatAfterMe.InitialReachable` | src/Module/RepeatAfterMe/RepeatAfterMe.cpp:44-50 | the constructed controller satisfies the reachability invariant |
| `RepeatAfterMe.OnEventReachable` | src/Module/RepeatAfterMe/RepeatAfterMe.cpp:59-146 | HandleEvent keeps the invariant: the mask stays in 0..3, and CheckService is never seen with a full mask |
| `RepeatAfterMe.OnUpdateReachable` | src/Module/RepeatAfterMe/RepeatAfterMe.cpp:148-303 | Update keeps the same invariant |
| `RepeatAfterMe.CheckServiceNeverAdvances` | src/Module/RepeatAfterMe/RepeatAfterMe.cpp:188-208 | in every reachable controller, Update in CheckService only probes, waits or times out; the branch that clears the mask never fires |
| `RepeatAfterMe.ServicesPhase` | src/Module/RepeatAfterMe/RepeatAfterMe.cpp:64-196 | from construction: the first Update sends both probes, and the two answers open AskOutput with a full mask |
| `RepeatAfterMe.AskPhase` | src/Module/RepeatAfterMe/RepeatAfterMe.cpp:119-283 | the first Update in AskOutput emits exactly the fragments of the split question under the new id, and that id's acknowledgement opens ListenInput |
| `RepeatAfterMe.HearPhase` | src/Module/RepeatAfterMe/RepeatAfterMe.cpp:88-116 | a part that completes the input on its own moves ListenInput to RepeatOutput, with that part as the input |
| `RepeatAfterMe.RepeatPhase` | src/Module/RepeatAfterMe/RepeatAfterMe.cpp:119-303 | the first Update in RepeatOutput emits exactly the fragments of the split assembled input under the new id; its acknowledgement closes; the next Update pops |
| `RepeatAfterMe.HappyPath` | src/Module/RepeatAfterMe/RepeatAfterMe.cpp:44-303 | a whole dialogue from construction ends in CloseApp: three Updates report IN_PROGRESS, the last reports FINISHED_POP, and the first two events sent are the listen probe and then the say probe |
| `RepeatAfterMe.SendParts` | src/Module/RepeatAfterMe/RepeatAfterMe.cpp:224-252 | the loop adds to the storage exactly the events `Emitted(delivered, Fragments(id, parts))`, whose order and contents FragmentsSpec and EmittedAll describe |
| `RepeatAfterMe.RepeatAfterMe.constructor` | src/Module/RepeatAfterMe/RepeatAfterMe.cpp:44-50 | construction gives CheckService, an empty mask, output id 0, input id 0 and no parts, with the timer unset |
| `RepeatAfterMe.RepeatAfterMe.StateSet` | src/Module/RepeatAfterMe/RepeatAfterMe.cpp:182-186 | the fields after StateSet are `Enter` of the fields before |
| `RepeatAfterMe.RepeatAfterMe.HandleEvent` | src/Module/RepeatAfterMe/RepeatAfterMe.cpp:59-146 | the fields after the call are `OnEvent` of the fields before |
| `RepeatAfterMe.RepeatAfterMe.Update` | src/Module/RepeatAfterMe/RepeatAfterMe.cpp:148-170 | the fields, the events added and the result are those of `OnUpdate` |
| `RepeatAfterMe.RepeatAfterMe.StateCheckService` | src/Module/RepeatAfterMe/RepeatAfterMe.cpp:188-208 | behaves as `OnUpdate` in CheckService |
| `RepeatAfterMe.RepeatAfterMe.StateSendOutput` | src/Module/RepeatAfterMe/RepeatAfterMe.cpp:210-265 | when the split succeeds, sets the output id once, then adds the emitted fragments; when the split throws, changes nothing |
| `RepeatAfterMe.RepeatAfterMe.StateAskOutput` | src/Module/RepeatAfterMe/RepeatAfterMe.cpp:267-290 | behaves as `OnUpdate` in AskOutput |
| `RepeatAfterMe.RepeatAfterMe.StateRepeatOutput` | src/Module/RepeatAfterMe/RepeatAfterMe.cpp:292-303 | behaves as `OnUpdate` in RepeatOutput |
| `SpeechOutput.SentId` | src/Module/SpeechOutput.cpp:37 | the sent id lies in 1..2^32-1, so it is never 0; it is rand()+1 when rand() is below 2^32-1 |
| `SpeechOutput.OutputBufferTerminated` | src/Module/SpeechOutput.cpp:49-51 | the payload buffer has MAX+1 characters and always ends in NUL; as a C string it holds the output cut to MAX characters |
| `SpeechOutput.FillBuffer` | src/Module/SpeechOutput.cpp:49-50 | memset then strncpy on an array yields exactly `OutputBuffer`, the buffer OutputBufferTerminated describes |
| `SpeechOutput.Acknowledge` | src/Module/SpeechOutput.cpp:87-99 | a readable acknowledgement overwrites the received id with its own id; an unreadable event leaves it as it was |
| `SpeechOutput.LastAckWins` | src/Module/SpeechOutput.cpp:87-99 | after a run of events, the received id is that of the last readable acknowledgement, or unchanged when there is none |
| `SpeechOutput.Outcome` | src/Module/SpeechOutput.cpp:104-109 | Update pops exactly when the received id equals the sent id or the timer has finished, and never appends |
| `SpeechOutput.FreshOutputWaits` | src/Module/SpeechOutput.cpp:37-109 | before any acknowledgement and while the timer runs, Update reports IN_PROGRESS, since the sent id is never 0 |
| `SpeechOutput.PopsOnLastAck` | src/Module/SpeechOutput.cpp:82-109 | without a timeout, the module pops exactly when the last acknowledgement read carries its id, and waits when it has read none |
| `SpeechOutput.SpeechOutput.constructor` | src/Module/SpeechOutput.cpp:35-38 | the fields start with the sent id, received id 0 and the 60000 ms timer |
| `SpeechOutput.SpeechOutput.Create` | src/Module/SpeechOutput.cpp:35-73 | it fails with "Failed to create output event!" when the event cannot be made, and with "Failed to send output: " plus the message when Add throws, storing nothing either way. It succeeds exactly otherwise, and then stores one say-string event carrying the sent id and the buffer, and the new module has that sent id, received id 0 and its 60000 ms timer armed |
| `SpeechOutput.SpeechOutput.HandleEvent` | src/Module/SpeechOutput.cpp:82-100 | the received id becomes `Acknowledge` of the old one |
| `SpeechOutput.SpeechOutput.Update` | src/Module/SpeechOutput.cpp:102-110 | the result is `Outcome` of the fields and the timer |
| `SpeechInput.HeardText` | src/Module/SpeechInput.cpp:53-62 | what an event offers is a NUL-free C string, and "" when it cannot be read |
| `SpeechInput.Capture` | src/Module/SpeechInput.cpp:49-64 | a non-empty string overwrites the shared string; an empty or unreadable one leaves it alone |
| `SpeechInput.LastHeardWins` | src/Module/SpeechInput.cpp:49-64 | after a run of events, the shared string holds the last non-empty string heard, or what it held when none was; once non-empty it stays non-empty |
| `SpeechInput.Outcome` | src/Module/SpeechInput.cpp:66-74 | Update pops exactly when the timer has finished or the shared string is non-empty, and never appends |
| `SpeechInput.SpeechInput.constructor` | src/Module/SpeechInput.cpp:35-40 | binds the caller's string, clears it, and arms the 30000 ms timer |
| `SpeechInput.SpeechInput.HandleEvent` | src/Module/SpeechInput.cpp:49-64 | the shared string becomes `Capture` of the old one |
| `SpeechInput.SpeechInput.Update` | src/Module/SpeechInput.cpp:66-74 | the result is `Outcome` of the shared string and the timer |
| `CheckService.Observe` | src/Module/CheckService.cpp:60-88 | a flag is set afterwards exactly when it was set before or a successful answer of its own service arrived; other kinds and unreadable or unsuccessful answers change nothing, and no flag is cleared |
| `CheckService.ObserveAllRecords` | src/Module/CheckService.cpp:60-88 | over any run of events, each flag is set exactly when it was set before or a successful answer of its service is among the events, so the flags are monotone |
| `CheckService.Decide` | src/Module/CheckService.cpp:90-103 | Update reports to the caller exactly when both flags are set, pops exactly when both are set or the timer has finished, and never appends |
| `CheckService.CheckService.constructor` | src/Module/CheckService.cpp:39-51 | both flags start false; the listen probe and then the say probe are queued; the 10000 ms timer is armed |
| `CheckService.CheckService.HandleEvent` | src/Module/CheckService.cpp:60-88 | the flags become `Observe` of the old ones |
| `CheckService.CheckService.Update` | src/Module/CheckService.cpp:90-103 | the result is `Decide`'s; the caller's flag is set to true when reported and left untouched otherwise |
| `MirrorSpeech.StepProgress` | src/Module/MirrorSpeech.cpp:56-84 | Update never goes back and moves at most one state on; it appends exactly when it moves; it pops exactly in CLOSE_APP and in LISTEN_INPUT with an empty string; it never reports IN_PROGRESS |
| `MirrorSpeech.CloseAppFixed` | src/Module/MirrorSpeech.cpp:81-82 | CLOSE_APP is a fixed point, where Update pops |
| `MirrorSpeech.RepeatNeedsInput` | src/Module/MirrorSpeech.cpp:68-75 | REPEAT_OUTPUT is entered only from LISTEN_INPUT with a non-empty string |
| `MirrorSpeech.NextChild` | src/Module/MirrorSpeech.cpp:86-111 | NextModule gives an output of the generated text in ASK_OUTPUT (or throws "Failed to generate output: " plus the message), an input on the shared string in LISTEN_INPUT, and an output of the shared string in REPEAT_OUTPUT; it throws "No module to switch to!" in START and CLOSE_APP |
| `MirrorSpeech.AppendHasChild` | src/Module/MirrorSpeech.cpp:56-111 | when the generator succeeds, every FINISHED_APPEND is followed by a NextModule that has a child, except the one from REPEAT_OUTPUT to CLOSE_APP |
| `MirrorSpeech.RepeatedTextNonEmpty` | src/Module/MirrorSpeech.cpp:68-106 | the output asked for in REPEAT_OUTPUT is the shared string, and it is never empty |
| `MirrorSpeech.MirrorSpeech.constructor` | src/Module/MirrorSpeech.cpp:41-44 | construction gives START and an empty string of its own |
| `MirrorSpeech.MirrorSpeech.Update` | src/Module/MirrorSpeech.cpp:56-84 | the new state and the result are `Step` of the old state and the shared string |
| `MirrorSpeech.MirrorSpeech.NextModule` | src/Module/MirrorSpeech.cpp:86-111 | the child or the exception is `NextChild` of the state |
| `MirrorSession.HearBatchSpec` | src/Module/SpeechInput.cpp:49-64 | from a cleared string, one batch of routed events leaves it empty exactly when no event in it carried a non-empty string. Otherwise it holds the string of the last routed event that carried a non-empty one, free of NUL |
| `MirrorSession.HeardSpec` | src/Module/SpeechInput.cpp:49-74 | nothing is heard exactly when every batch was silent; otherwise what is heard is a string carried in the first batch that was not silent, free of NUL |
| `MirrorSession.HeardFirstAudible` | src/Module/SpeechInput.cpp:49-74 | what is heard is what the first batch that is not silent leaves in the cleared string, which is the last non-empty string routed in that batch |
| `MirrorSession.Ask` | src/Module/MirrorSpeech.cpp:60-100 | START moves to ASK_OUTPUT. The output child is made exactly when generation, creation and Add all succeed, and then the child's sent id is the fresh id, its received id is 0, its 60000 ms timer is armed, and the question's buffer is queued under it; a generator failure gives "Failed to generate output: " plus the message, and every failure queues nothing |
| `MirrorSession.Deliver` | src/Module/SpeechInput.cpp:49-64 | routing a batch event by event into a cleared input child leaves the shared string as `HearBatch` says |
| `MirrorSession.Listen` | src/Module/MirrorSpeech.cpp:64-103 | the listening child fills MirrorSpeech's own string with what was heard, and pops on the first batch that hears something or on its timer; MirrorSpeech then pops exactly when nothing was heard and otherwise moves to REPEAT_OUTPUT |
| `MirrorSession.Repeat` | src/Module/MirrorSpeech.cpp:105-106 | the echo is sent exactly when the codec and the storage succeed, as the buffer of the heard string under a fresh id; that buffer, read as a C string, is the heard string cut to the buffer size; a failure queues nothing |
| `MirrorSession.Finish` | src/Module/MirrorSpeech.cpp:77-111 | after the echo, MirrorSpeech reaches CLOSE_APP with FINISHED_APPEND, and NextModule throws "No module to switch to!" |
| `MirrorSession.Answer` | src/Module/MirrorSpeech.cpp:64-111 | after the question: nothing heard pops in LISTEN_INPUT with nothing sent; a failed echo stops in REPEAT_OUTPUT with nothing sent; otherwise exactly the echo of what was heard is queued and CLOSE_APP is reached |
| `MirrorSession.Dialogue` | src/Module/MirrorSpeech.cpp:56-111 | a whole run: without a question nothing is queued; otherwise the question is queued, and then the echo of exactly the non-empty string that was heard, when there is one and it can be sent |

## Left out

- Logging (`MRH_ModuleLogger`) is left out. No module's behaviour depends on it.
- The event codec is abstract:
  - reads are the payload datatype, and an unreadable event is `Unreadable`;
  - creating and filling a say-string event succeeds or fails as an input (`delivered`, `created`);
  - the availability probes of RepeatAfterMe's StateCheckService and of CheckService's
    constructor are always queued, so a failed creation of a probe event is not modelled;
  - byte layouts and the event type numbers are not modelled.
- Randomness, generation and time are inputs. `rand()` is a parameter. The output
  generator (`MRH_OutputGenerator`, `MRH_LocalisedPath`) is a `Result<string>`. The timer's
  "has finished" is the `expired` input of each Update, so no clock arithmetic is modelled.
- `MRH_SpeechString` is a value of arbitrary functions:
  - `SplitString` is `split`, and `None` stands for its exception;
  - `GetState() == COMPLETE` is `complete`, applied to the parts since the last reset;
  - `GetString` is `assembled`;
  - `GetID` is the stored input id.
  No splitting or completion rule is assumed.
- The host's module stack (libmrhab) is not part of this model. `MirrorSession` drives
  MirrorSpeech and its listening child by hand, in the order the host would.
- The two SpeechOutput children in `MirrorSession` are created and queue their event, but
  they receive no events or Updates there. The step after each starts from the point where
  that child has popped, on its acknowledgement or its timer. The child on its own is covered
  by `SpeechOutput.PopsOnLastAck` and `SpeechOutput.Outcome`.
- In `MirrorSession.Listen`, each batch of events is followed by one Update of the child,
  and when no batch hears anything the child's timer ends the wait.
- The CheckService child is not driven by MirrorSpeech. It is modelled on its own, and
  CheckService.h is not part of this model.
- src/Main.cpp is not part of this model. It is the C entry points that forward events to
  the host library.
- RepeatAfterMe.RepeatAfterMe.StateSendOutput models characters, not bytes:
  - the fragment text is the C string of the part;
  - the fixed-size `strcpy` target and a part longer than it (a buffer overflow in C) are
    not modelled.
- RepeatAfterMe.RepeatAfterMe.StateSendOutput does not model an exception from `MRH_EventStorage::Add`
  inside the loop, which would end the loop early and be logged.
- RepeatAfterMe.RepeatAfterMe.StateSendOutput models an event whose `MRH_EVD_SetEvent` failed through the
  same `delivered` input. The retry of that event object for the next part is not modelled.
- SpeechInput.HeardText reads the whole character buffer up to its first NUL. The `strnlen`
  bound of the buffer size is not modelled.
- SpeechOutput.SpeechOutput.Create does not model the part index and string type of the
  outbound event, which the C++ constructor leaves uninitialised. The event carries only the id
  and the buffer.
- The `NextModule` of RepeatAfterMe, SpeechOutput, SpeechInput and CheckService always throws
  "No module to switch to!". It is not written as a member. The Outcome/Decide/UpdateResult
  contracts show that these modules never report FINISHED_APPEND, so it is never called.
- MirrorSpeech's `HandleEvent` (empty) and every module's `CanHandleEvent` are plain members.
  They carry no contract beyond their definitions; IgnoredEvents and
  `MirrorSession.Route` use them.
- `TIMEOUT_INPUT_MS` (60000) is defined in RepeatAfterMe.cpp but never used, so it is not
  modelled.
- Some behaviours described for other revisions of the application are not in this code and
  are not modelled: looping dialogues, states that wait for "output performed"
  separately, counter-based ids, and failure reasons. The model follows the code.

## Observations on the source

These follow from the proved lemmas.

- RepeatAfterMe's `Update` branch that moves CHECK_SERVICE to ASK_OUTPUT and clears
  `i_Service` cannot fire. The event that completes the mask already leaves CHECK_SERVICE, and
  nothing returns to it (`CheckServiceNeverAdvances`).
- After both services have answered, a repeated successful availability answer re-enters
  ASK_OUTPUT from any state, including LISTEN_INPUT and REPEAT_OUTPUT
  (`DuplicateAvailabilityRestartsAsk`).
- An answer that completes before the question's acknowledgement arrives moves to
  REPEAT_OUTPUT. When that late acknowledgement arrives before RepeatOutput's first Update, it
  closes the dialogue without repeating anything (`StaleAckSkipsRepeat`). When an Update
  comes first, the echo goes out under a new id and the late acknowledgement is ignored
  (`LateAckAfterEcho`).
- LISTEN_INPUT has no timeout in RepeatAfterMe, although a 60000 ms input timeout is defined
  (`ListenInputWaits`).
- MirrorSpeech reports FINISHED_APPEND when it moves from REPEAT_OUTPUT to CLOSE_APP, but its
  `NextModule` throws in CLOSE_APP (`AppendHasChild`, `MirrorSession.Finish`).
