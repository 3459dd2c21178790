/**
 RepeatAfterMe: the single-module dialogue controller. It checks that the listen and say
 services are available, asks a generated question, waits for the answer, repeats it and
 closes. Events drive the transitions in HandleEvent; Update performs each state's one-time
 action on the first tick after the state was entered and closes the dialogue when the
 state's timer has finished.

 The controller's fields are gathered in the value Machine. OnEvent and OnUpdate say what
 one HandleEvent and one Update do to it; the class's methods are proved to do exactly that,
 and the lemmas at the end of the module state the dialogue's properties about OnEvent and
 OnUpdate.
 */
module RepeatAfterMe {
  import opened Platform
  import opened SpeechString

  const TIMEOUT_SERVICE_MS: nat := 15000
  const TIMEOUT_OUTPUT_MS: nat := 30000

  datatype State = CheckService | AskOutput | ListenInput | RepeatOutput | CloseApp

  /**
   The controller's fields: the state, the service mask i_Service (bit 1: listen, bit 2:
   say), the id of the last output sent, the inbound speech string's bound id and the parts
   added since its last reset, and the timer.
   */
  datatype Machine = Machine(
    state: State,
    service: int,
    outputId: u32,
    inputId: u32,
    input: seq<InPart>,
    timer: Timer)

  /** What the environment decides during one Update: whether the armed timer has finished,
      the value rand() returns, the generated question (None: generation threw) and which
      outbound fragments the event codec manages to create and fill. */
  datatype Tick = Tick(expired: bool, rnd: nat, generated: Option<string>, delivered: Fragment -> bool)

  /** The new fields, the events added to the event storage and the result of one Update. */
  datatype UpdateStep = UpdateStep(next: Machine, emitted: seq<OutEvent>, result: ModuleResult)

  /** The service mask only ever holds the two flags. */
  predicate WellFormed(m: Machine)
  {
    0 <= m.service <= 3
  }

  function Initial(): (m: Machine)
  {
    Machine(CheckService, 0, 0, 0, [], Unset)
  }

  /** StateSet: change the state and reset the timer, also when the state stays the same. */
  function Enter(m: Machine, s: State): (m': Machine)
    ensures m'.state == s && m'.timer == Unset
    ensures m' == m.(state := s, timer := Unset)
  {
    m.(state := s, timer := Unset)
  }

  /** `service & flag`, the C++ bitwise and on the two small values. */
  predicate HasFlag(service: int, flag: int)
    requires 0 <= service < 256 && 0 <= flag < 256
  {
    (service as bv8) & (flag as bv8) != 0
  }

  /** The flag an availability event answers for: 1 for listen, 2 for say. */
  function ServiceFlag(kind: EventType): int
  {
    if kind == ListenAvailS then 1 else 2
  }

  /** `i_Service += (i_Service & i_Flag ? 0 : i_Flag)`: add the flag once. */
  function AddService(service: int, flag: int): (r: int)
    requires 0 <= service <= 3 && (flag == 1 || flag == 2)
    ensures 0 <= r <= 3
    ensures HasFlag(r, flag)
    ensures HasFlag(r, 3 - flag) == HasFlag(service, 3 - flag)
    ensures HasFlag(service, flag) ==> r == service
    ensures r == 3 <==> HasFlag(service, 3 - flag)
  {
    service + (if HasFlag(service, flag) then 0 else flag)
  }

  /** The output id StateSendOutput draws: `rand() % ((MRH_Uint32) - 1)`. */
  function OutputId(rnd: nat): (id: u32)
    ensures id as int < U32_MAX
    ensures rnd < U32_MAX ==> id as int == rnd
  {
    (rnd % U32_MAX) as u32
  }

  /** What one HandleEvent does to the fields. */
  function OnEvent(m: Machine, e: Event, lib: SpeechStringLib): (m': Machine)
    requires WellFormed(m)
    ensures WellFormed(m')
  {
    match e.kind
    case ListenAvailS | SayAvailS =>
      if ReadServiceAvail(e) != Some(true) then m
      else
        var service := AddService(m.service, ServiceFlag(e.kind));
        if service == 3 then Enter(m.(service := service), AskOutput) else m.(service := service)
    case ListenStringS =>
      if ReadListenString(e).None? then m
      else
        var d := ReadListenString(e).value;
        var part := InPart(d.part, CStr(d.text), d.strType == End);
        var m1 := if d.id != m.inputId then m.(inputId := d.id, input := [part])
                  else m.(input := m.input + [part]);
        if lib.complete(m1.input) then Enter(m1, RepeatOutput) else m1
    case SayStringS =>
      if ReadSayString(e) != Some(m.outputId) then m
      else if m.state == AskOutput then Enter(m, ListenInput)
      else if m.state == RepeatOutput then Enter(m, CloseApp)
      else m
    case _ => m
  }

  /**
   What StateSendOutput does: split the string (nothing happens when splitting throws),
   draw the output id, and emit the fragments of the parts that the codec lets out.
   */
  ghost function SendOutput(m: Machine, text: string, t: Tick, lib: SpeechStringLib): (Machine, seq<OutEvent>)
  {
    match lib.split(text)
    case None => (m, [])
    case Some(parts) =>
      var id := OutputId(t.rnd);
      (m.(outputId := id), Emitted(t.delivered, Fragments(id, parts)))
  }

  /** What one Update does. */
  ghost function OnUpdate(m: Machine, t: Tick, lib: SpeechStringLib): (o: UpdateStep)
    requires WellFormed(m)
    ensures WellFormed(o.next)
  {
    match m.state
    case CheckService =>
      if m.timer.Unset? then
        UpdateStep(m.(timer := Armed(TIMEOUT_SERVICE_MS)), [ListenAvailProbe, SayAvailProbe], InProgress)
      else if m.service == 3 then UpdateStep(Enter(m, AskOutput).(service := 0), [], InProgress)
      else if t.expired then UpdateStep(Enter(m, CloseApp), [], InProgress)
      else UpdateStep(m, [], InProgress)
    case AskOutput =>
      if m.timer.Unset? then
        var sent := if t.generated.Some? then SendOutput(m, t.generated.value, t, lib) else (m, []);
        UpdateStep(sent.0.(timer := Armed(TIMEOUT_OUTPUT_MS)), sent.1, InProgress)
      else if t.expired then UpdateStep(Enter(m, CloseApp), [], InProgress)
      else UpdateStep(m, [], InProgress)
    case ListenInput => UpdateStep(m, [], InProgress)
    case RepeatOutput =>
      if m.timer.Unset? then
        var sent := SendOutput(m, lib.assembled(m.input), t, lib);
        UpdateStep(sent.0.(timer := Armed(TIMEOUT_OUTPUT_MS)), sent.1, InProgress)
      else if t.expired then UpdateStep(Enter(m, CloseApp), [], InProgress)
      else UpdateStep(m, [], InProgress)
    case CloseApp => UpdateStep(m, [], FinishedPop)
  }

  /** The four event kinds the controller asks the host to route to it. */
  predicate CanHandleEvent(kind: EventType)
  {
    kind in {ListenAvailS, ListenStringS, SayAvailS, SayStringS}
  }

  /** HandleEvent applied to each event in turn. */
  function OnEvents(m: Machine, es: seq<Event>, lib: SpeechStringLib): (m': Machine)
    requires WellFormed(m)
    ensures WellFormed(m')
    decreases |es|
  {
    if es == [] then m else OnEvents(OnEvent(m, es[0], lib), es[1..], lib)
  }

  /**
   One event and the service mask: a service's flag becomes set exactly when a successful
   availability answer for it arrives, no flag is ever cleared, and reaching both flags
   enters AskOutput from whatever state the controller is in.
   */
  lemma AvailabilityEvent(m: Machine, e: Event, lib: SpeechStringLib)
    requires WellFormed(m)
    ensures var m' := OnEvent(m, e, lib);
      && (forall kind :: kind in {ListenAvailS, SayAvailS} ==>
            (HasFlag(m'.service, ServiceFlag(kind)) <==>
               HasFlag(m.service, ServiceFlag(kind))
               || (e.kind == kind && ReadServiceAvail(e) == Some(true))))
      && (m'.service != m.service ==> e.kind in {ListenAvailS, SayAvailS})
      && ((e.kind in {ListenAvailS, SayAvailS} && ReadServiceAvail(e) == Some(true) && m'.service == 3)
            ==> m' == Enter(m.(service := 3), AskOutput))
      && (e.kind in {ListenAvailS, SayAvailS} && ReadServiceAvail(e) != Some(true) ==> m' == m)
      && (e.kind in {ListenAvailS, SayAvailS} && m'.service != 3 ==> m' == m.(service := m'.service))
  {
  }

  /**
   Over any run of events, the listen flag is set exactly when it was set before or a
   successful listen-availability answer arrived, and likewise for the say flag.
   */
  lemma {:induction false} ServiceRecordsAvailability(m: Machine, es: seq<Event>, lib: SpeechStringLib, kind: EventType)
    requires WellFormed(m) && kind in {ListenAvailS, SayAvailS}
    ensures HasFlag(OnEvents(m, es, lib).service, ServiceFlag(kind))
            <==> HasFlag(m.service, ServiceFlag(kind)) || Available(es, kind)
    decreases |es|
  {
    if es != [] {
      AvailabilityEvent(m, es[0], lib);
      ServiceRecordsAvailability(OnEvent(m, es[0], lib), es[1..], lib, kind);
      if Available(es[1..], kind) {
        var i :| 0 <= i < |es[1..]| && es[1..][i].kind == kind && ReadServiceAvail(es[1..][i]) == Some(true);
        assert es[i + 1] == es[1..][i];
      }
    }
  }

  /**
   Once both services have answered, the mask stays full (HandleEvent moves to AskOutput
   itself, so StateCheckService never sees it and never clears it), and every further
   successful availability answer restarts AskOutput, whatever the controller is doing.
   */
  lemma DuplicateAvailabilityRestartsAsk(m: Machine, e: Event, lib: SpeechStringLib)
    requires WellFormed(m) && m.service == 3
    requires e.kind in {ListenAvailS, SayAvailS} && ReadServiceAvail(e) == Some(true)
    ensures OnEvent(m, e, lib).state == AskOutput
    ensures OnEvent(m, e, lib).timer == Unset
    ensures OnEvent(m, e, lib) == m.(state := AskOutput, timer := Unset)
  {
  }

  /**
   A say-string acknowledgement moves the dialogue only when it carries the id of the last
   output sent and the controller is waiting on an output: AskOutput goes on to ListenInput
   and RepeatOutput to CloseApp. Nothing but the state and the timer ever changes.
   */
  lemma AckCorrelation(m: Machine, e: Event, lib: SpeechStringLib)
    requires WellFormed(m) && e.kind == SayStringS
    ensures var m' := OnEvent(m, e, lib);
      && m'.service == m.service && m'.outputId == m.outputId
      && m'.inputId == m.inputId && m'.input == m.input
      && (m' != m <==> ReadSayString(e) == Some(m.outputId) && m.state in {AskOutput, RepeatOutput})
      && (m' != m ==> m'.timer == Unset && (m.state == AskOutput ==> m'.state == ListenInput)
                                        && (m.state == RepeatOutput ==> m'.state == CloseApp))
  {
  }

  /**
   A listen-string part: a part of an input with another id starts the input over, one of
   the same id is appended; the part's terminal flag says whether it was the END part; and
   once the library calls the input complete the controller enters RepeatOutput, in any
   state, while an incomplete input leaves the state alone.
   */
  lemma ListenFragment(m: Machine, e: Event, lib: SpeechStringLib)
    requires WellFormed(m) && e.kind == ListenStringS && ReadListenString(e).Some?
    ensures var d := ReadListenString(e).value;
      var m' := OnEvent(m, e, lib);
      && m'.inputId == d.id
      && |m'.input| > 0
      && m'.input[..|m'.input| - 1] == (if d.id == m.inputId then m.input else [])
      && var last := m'.input[|m'.input| - 1];
      && last.part == d.part && last.text == CStr(d.text) && (last.terminal <==> d.strType == End)
      && m'.service == m.service && m'.outputId == m.outputId
      && (lib.complete(m'.input) ==> m'.state == RepeatOutput && m'.timer == Unset)
      && (!lib.complete(m'.input) ==> m'.state == m.state && m'.timer == m.timer)
  {
    var d := ReadListenString(e).value;
    var m' := OnEvent(m, e, lib);
    if d.id == m.inputId {
      assert m'.input[..|m'.input| - 1] == m.input;
    }
  }

  /** Events of the kinds CanHandleEvent refuses, and events the codec cannot read, change nothing. */
  lemma IgnoredEvents(m: Machine, e: Event, lib: SpeechStringLib)
    requires WellFormed(m)
    ensures !CanHandleEvent(e.kind) ==> OnEvent(m, e, lib) == m
    ensures e.payload.Unreadable? ==> OnEvent(m, e, lib) == m
    ensures e.kind in {ListenAvailS, SayAvailS} && ReadServiceAvail(e).None? ==> OnEvent(m, e, lib) == m
    ensures e.kind == ListenStringS && ReadListenString(e).None? ==> OnEvent(m, e, lib) == m
    ensures e.kind == SayStringS && ReadSayString(e).None? ==> OnEvent(m, e, lib) == m
  {
  }

  /**
   Update pops the controller exactly in CloseApp; it never asks for a successor module,
   which is why NextModule, which always throws, is never called.
   */
  lemma UpdateResult(m: Machine, t: Tick, lib: SpeechStringLib)
    requires WellFormed(m)
    ensures OnUpdate(m, t, lib).result == FinishedPop <==> m.state == CloseApp
    ensures OnUpdate(m, t, lib).result != FinishedAppend
    ensures m.state == CloseApp ==> OnUpdate(m, t, lib).next == m && OnUpdate(m, t, lib).emitted == []
  {
  }

  /** ListenInput has no timer of its own: Update leaves it waiting for the input forever. */
  lemma ListenInputWaits(m: Machine, t: Tick, lib: SpeechStringLib)
    requires WellFormed(m) && m.state == ListenInput
    ensures OnUpdate(m, t, lib) == UpdateStep(m, [], InProgress)
  {
  }

  /**
   The first Update after a state was entered performs its action and arms its timer,
   staying in the state: CheckService sends the two availability probes and waits 15 s;
   AskOutput sends the fragments of the generated question and RepeatOutput those of the
   assembled input, under a new output id, and both wait 30 s. When generation or splitting
   throws nothing is sent and the id stays, but the timer is armed all the same. Only the
   output id can change besides the timer.
   */
  lemma FirstUpdateActs(m: Machine, t: Tick, lib: SpeechStringLib)
    requires WellFormed(m) && m.timer == Unset && m.state in {CheckService, AskOutput, RepeatOutput}
    ensures var o := OnUpdate(m, t, lib);
      && o.next.state == m.state
      && o.next.timer == Armed(if m.state == CheckService then TIMEOUT_SERVICE_MS else TIMEOUT_OUTPUT_MS)
      && o.next.(timer := m.timer, outputId := m.outputId) == m
      && o.result == InProgress
      && (m.state == CheckService ==> o.emitted == [ListenAvailProbe, SayAvailProbe] && o.next.outputId == m.outputId)
      && (forall oe :: oe in o.emitted && m.state != CheckService ==> oe.SayFragment?)
      && (var text := if m.state == AskOutput then t.generated else Some(lib.assembled(m.input));
          m.state != CheckService ==>
            if text.Some? && lib.split(text.value).Some? then
              && o.next.outputId == OutputId(t.rnd)
              && o.emitted == Emitted(t.delivered, Fragments(OutputId(t.rnd), lib.split(text.value).value))
            else
              o.next.outputId == m.outputId && o.emitted == [])
  {
    var o := OnUpdate(m, t, lib);
    if m.state == AskOutput && t.generated.Some? && lib.split(t.generated.value).Some? {
      EmittedSubset(t.delivered, Fragments(OutputId(t.rnd), lib.split(t.generated.value).value));
    }
    if m.state == RepeatOutput && lib.split(lib.assembled(m.input)).Some? {
      EmittedSubset(t.delivered, Fragments(OutputId(t.rnd), lib.split(lib.assembled(m.input)).value));
    }
  }

  /**
   AskOutput asks the generated question: the fragments of its split, under a fresh output
   id, whose acknowledgement then opens listening. When the codec lets every fragment out,
   the events are exactly those fragments in part order. A question that cannot be
   generated or split sends nothing and keeps the old id.
   */
  lemma AskSendsQuestion(m: Machine, t: Tick, lib: SpeechStringLib, q: string, parts: map<u32, string>)
    requires WellFormed(m) && m.state == AskOutput && m.timer == Unset
    requires t.generated == Some(q) && lib.split(q) == Some(parts)
    requires forall f :: t.delivered(f)
    ensures var o := OnUpdate(m, t, lib);
      var fs := Fragments(OutputId(t.rnd), parts);
      && o.next.outputId == OutputId(t.rnd)
      && |fs| == |parts| && |o.emitted| == |fs|
      && (forall i :: 0 <= i < |fs| ==> o.emitted[i] == SayFragment(fs[i]))
      && OnEvent(o.next, Event(SayStringS, SayString(OutputId(t.rnd))), lib).state == ListenInput
  {
    var id := OutputId(t.rnd);
    var fs := Fragments(id, parts);
    var o := OnUpdate(m, t, lib);
    assert SendOutput(m, q, t, lib) == (m.(outputId := id), Emitted(t.delivered, fs));
    assert o.next == m.(outputId := id, timer := Armed(TIMEOUT_OUTPUT_MS));
    assert o.emitted == Emitted(t.delivered, fs);
    EmittedAll(t.delivered, fs);
    FragmentsSpec(id, parts);
  }

  /** A question that cannot be generated, or cannot be split, sends nothing and keeps the id. */
  lemma AskWithoutQuestion(m: Machine, t: Tick, lib: SpeechStringLib)
    requires WellFormed(m) && m.state == AskOutput && m.timer == Unset
    requires t.generated.None? || lib.split(t.generated.value).None?
    ensures OnUpdate(m, t, lib) == UpdateStep(m.(timer := Armed(TIMEOUT_OUTPUT_MS)), [], InProgress)
  {
  }

  /**
   Once the timer is armed, a finished timer closes the dialogue from every waiting state
   (CheckService whose services have not both answered, AskOutput, RepeatOutput), and an
   unfinished one leaves everything as it is.
   */
  lemma TimerOutcome(m: Machine, t: Tick, lib: SpeechStringLib)
    requires WellFormed(m) && m.timer.Armed? && m.state in {CheckService, AskOutput, RepeatOutput}
    requires m.state == CheckService ==> m.service != 3
    ensures t.expired ==> OnUpdate(m, t, lib) == UpdateStep(Enter(m, CloseApp), [], InProgress)
    ensures !t.expired ==> OnUpdate(m, t, lib) == UpdateStep(m, [], InProgress)
  {
  }

  /**
   The second way into AskOutput: an Update in CheckService whose timer is armed and whose
   mask is full moves on and clears the mask.
   */
  lemma ServicesReadyOnUpdate(m: Machine, t: Tick, lib: SpeechStringLib)
    requires WellFormed(m) && m.state == CheckService && m.timer.Armed? && m.service == 3
    ensures OnUpdate(m, t, lib) == UpdateStep(m.(state := AskOutput, timer := Unset, service := 0), [], InProgress)
  {
  }

  /**
   RepeatOutput sends back what was heard: the fragments of the assembled input, under a
   fresh output id, whose acknowledgement then closes the dialogue. When the codec lets
   every fragment out, the events are exactly those fragments in part order.
   */
  lemma RepeatEchoesInput(m: Machine, t: Tick, lib: SpeechStringLib, parts: map<u32, string>)
    requires WellFormed(m) && m.state == RepeatOutput && m.timer == Unset
    requires lib.split(lib.assembled(m.input)) == Some(parts)
    requires forall f :: t.delivered(f)
    ensures var o := OnUpdate(m, t, lib);
      var fs := Fragments(OutputId(t.rnd), parts);
      && o.next.outputId == OutputId(t.rnd)
      && |fs| == |parts| && |o.emitted| == |fs|
      && (forall i :: 0 <= i < |fs| ==> o.emitted[i] == SayFragment(fs[i]))
      && OnEvent(o.next, Event(SayStringS, SayString(OutputId(t.rnd))), lib).state == CloseApp
  {
    var id := OutputId(t.rnd);
    var fs := Fragments(id, parts);
    var o := OnUpdate(m, t, lib);
    assert SendOutput(m, lib.assembled(m.input), t, lib) == (m.(outputId := id), Emitted(t.delivered, fs));
    assert o.next == m.(outputId := id, timer := Armed(TIMEOUT_OUTPUT_MS));
    assert o.emitted == Emitted(t.delivered, fs);
    EmittedAll(t.delivered, fs);
    FragmentsSpec(id, parts);
  }

  /**
   An input that completes while the question is still being spoken moves to RepeatOutput
   before the question's acknowledgement comes in; that acknowledgement still carries the
   current output id, so it closes the dialogue and the input is never repeated.
   */
  lemma StaleAckSkipsRepeat(m: Machine, listen: Event, lib: SpeechStringLib, t: Tick)
    requires WellFormed(m) && m.state == AskOutput
    requires listen.kind == ListenStringS && ReadListenString(listen).Some?
    requires lib.complete(OnEvent(m, listen, lib).input)
    ensures var m1 := OnEvent(m, listen, lib);
      var m2 := OnEvent(m1, Event(SayStringS, SayString(m.outputId)), lib);
      && m1.state == RepeatOutput
      && m2.state == CloseApp
      && OnUpdate(m2, t, lib) == UpdateStep(m2, [], FinishedPop)
  {
    ListenFragment(m, listen, lib);
  }

  /**
   The other order: when an Update comes between the completing input and the question's
   acknowledgement, the echo goes out under a new output id, and the late acknowledgement
   (whose id differs from the new one) is then ignored.
   */
  lemma LateAckAfterEcho(m: Machine, listen: Event, lib: SpeechStringLib, t: Tick)
    requires WellFormed(m) && m.state == AskOutput
    requires listen.kind == ListenStringS && ReadListenString(listen).Some?
    requires lib.complete(OnEvent(m, listen, lib).input)
    requires lib.split(lib.assembled(OnEvent(m, listen, lib).input)).Some?
    requires OutputId(t.rnd) != m.outputId
    ensures var m1 := OnEvent(m, listen, lib);
      var o := OnUpdate(m1, t, lib);
      && o.next.state == RepeatOutput && o.next.outputId == OutputId(t.rnd)
      && OnEvent(o.next, Event(SayStringS, SayString(m.outputId)), lib) == o.next
  {
    ListenFragment(m, listen, lib);
  }

  /**
   What holds of every controller the constructor and the two operations can produce: the
   mask holds only the two flags, and the controller is never in CheckService with both
   flags set, because the event that sets the second flag already leaves CheckService.
   */
  predicate Reachable(m: Machine)
  {
    WellFormed(m) && (m.state == CheckService ==> m.service != 3)
  }

  lemma InitialReachable()
    ensures Reachable(Initial())
  {
  }

  lemma OnEventReachable(m: Machine, e: Event, lib: SpeechStringLib)
    requires Reachable(m)
    ensures Reachable(OnEvent(m, e, lib))
  {
  }

  lemma OnUpdateReachable(m: Machine, t: Tick, lib: SpeechStringLib)
    requires Reachable(m)
    ensures Reachable(OnUpdate(m, t, lib).next)
  {
  }

  /**
   Consequently the branch of StateCheckService that moves to AskOutput and clears the mask
   never fires: in CheckService, Update only probes, waits or times out.
   */
  lemma CheckServiceNeverAdvances(m: Machine, t: Tick, lib: SpeechStringLib)
    requires Reachable(m) && m.state == CheckService
    ensures OnUpdate(m, t, lib).next.state in {CheckService, CloseApp}
    ensures OnUpdate(m, t, lib).next.service == m.service
  {
  }

  /** What the host loop does to the controller: route an event to it, or update it. */
  datatype Stimulus = Received(e: Event) | Updated(t: Tick)

  /** The controller after a run, with everything it emitted and the result of each Update. */
  datatype Trace = Trace(final: Machine, emitted: seq<OutEvent>, results: seq<ModuleResult>)

  ghost function Run(m: Machine, script: seq<Stimulus>, lib: SpeechStringLib): (tr: Trace)
    requires WellFormed(m)
    ensures WellFormed(tr.final)
    decreases |script|
  {
    if script == [] then Trace(m, [], [])
    else match script[0]
      case Received(e) => Run(OnEvent(m, e, lib), script[1..], lib)
      case Updated(t) =>
        var o := OnUpdate(m, t, lib);
        var tr := Run(o.next, script[1..], lib);
        Trace(tr.final, o.emitted + tr.emitted, [o.result] + tr.results)
  }

  function Success(e: EventType): Event
  {
    Event(e, ServiceAvail(true))
  }

  function Ack(id: u32): Event
  {
    Event(SayStringS, SayString(id))
  }

  /** Running two scripts one after the other is running their concatenation. */
  lemma {:induction false} RunAppend(m: Machine, a: seq<Stimulus>, b: seq<Stimulus>, lib: SpeechStringLib)
    requires WellFormed(m)
    ensures var ta := Run(m, a, lib);
      var tb := Run(ta.final, b, lib);
      Run(m, a + b, lib) == Trace(tb.final, ta.emitted + tb.emitted, ta.results + tb.results)
    decreases |a|
  {
    if a != [] {
      assert (a + b)[0] == a[0] && (a + b)[1..] == a[1..] + b;
      match a[0]
      case Received(e) => RunAppend(OnEvent(m, e, lib), a[1..], b, lib);
      case Updated(t) => RunAppend(OnUpdate(m, t, lib).next, a[1..], b, lib);
    } else {
      assert a + b == b;
    }
  }

  lemma RunReceived(m: Machine, e: Event, rest: seq<Stimulus>, lib: SpeechStringLib)
    requires WellFormed(m)
    ensures Run(m, [Received(e)] + rest, lib) == Run(OnEvent(m, e, lib), rest, lib)
  {
    assert ([Received(e)] + rest)[1..] == rest;
  }

  lemma RunUpdated(m: Machine, t: Tick, rest: seq<Stimulus>, lib: SpeechStringLib)
    requires WellFormed(m)
    ensures var o := OnUpdate(m, t, lib);
      var tr := Run(o.next, rest, lib);
      Run(m, [Updated(t)] + rest, lib) == Trace(tr.final, o.emitted + tr.emitted, [o.result] + tr.results)
  {
    assert ([Updated(t)] + rest)[1..] == rest;
  }

  /** The scripts of the four phases of a dialogue. */
  function ServicesScript(t: Tick): seq<Stimulus>
  {
    [Updated(t), Received(Success(ListenAvailS)), Received(Success(SayAvailS))]
  }

  function AskScript(t: Tick): seq<Stimulus>
  {
    [Updated(t), Received(Ack(OutputId(t.rnd)))]
  }

  function HearScript(d: ListenStringData): seq<Stimulus>
  {
    [Received(Event(ListenStringS, ListenString(d)))]
  }

  function RepeatScript(t: Tick, t': Tick): seq<Stimulus>
  {
    [Updated(t), Received(Ack(OutputId(t.rnd))), Updated(t')]
  }

  /** RunAppend over four scripts. */
  lemma RunAppend4(m: Machine, a: seq<Stimulus>, b: seq<Stimulus>, c: seq<Stimulus>, d: seq<Stimulus>, lib: SpeechStringLib)
    requires WellFormed(m)
    ensures var ta := Run(m, a, lib);
      var tb := Run(ta.final, b, lib);
      var tc := Run(tb.final, c, lib);
      var td := Run(tc.final, d, lib);
      Run(m, a + b + c + d, lib)
        == Trace(td.final, ta.emitted + tb.emitted + tc.emitted + td.emitted,
                 ta.results + tb.results + tc.results + td.results)
  {
    RunAppend(m, a, b, lib);
    RunAppend(m, a + b, c, lib);
    RunAppend(m, a + b + c, d, lib);
  }

  /** Start-up: the first Update probes both services; their two answers open AskOutput. */
  lemma ServicesPhase(lib: SpeechStringLib, t: Tick)
    ensures var tr := Run(Initial(), ServicesScript(t), lib);
      && tr.final == Initial().(state := AskOutput, service := 3)
      && tr.emitted == [ListenAvailProbe, SayAvailProbe]
      && tr.results == [InProgress]
  {
    var m0 := Initial();
    var o0 := OnUpdate(m0, t, lib);
    assert o0.next == m0.(timer := Armed(TIMEOUT_SERVICE_MS)) && o0.emitted == [ListenAvailProbe, SayAvailProbe];
    var m1 := OnEvent(o0.next, Success(ListenAvailS), lib);
    assert m1 == o0.next.(service := 1);
    var m2 := OnEvent(m1, Success(SayAvailS), lib);
    assert m2 == Initial().(state := AskOutput, service := 3);
    RunReceived(m1, Success(SayAvailS), [], lib);
    RunReceived(o0.next, Success(ListenAvailS), [Received(Success(SayAvailS))], lib);
    RunUpdated(m0, t, [Received(Success(ListenAvailS)), Received(Success(SayAvailS))], lib);
    assert ServicesScript(t) == [Updated(t)] + [Received(Success(ListenAvailS)), Received(Success(SayAvailS))];
    assert [Received(Success(ListenAvailS)), Received(Success(SayAvailS))]
        == [Received(Success(ListenAvailS))] + [Received(Success(SayAvailS))];
    assert [Received(Success(SayAvailS))] == [Received(Success(SayAvailS))] + [];
  }

  /** The question: the first Update in AskOutput sends it, and its acknowledgement opens listening. */
  lemma AskPhase(m: Machine, lib: SpeechStringLib, t: Tick)
    requires WellFormed(m) && m.state == AskOutput && m.timer == Unset
    requires t.generated.Some? && lib.split(t.generated.value).Some?
    ensures var tr := Run(m, AskScript(t), lib);
      && tr.final == m.(state := ListenInput, outputId := OutputId(t.rnd))
      && tr.emitted == Emitted(t.delivered, Fragments(OutputId(t.rnd), lib.split(t.generated.value).value))
      && tr.results == [InProgress]
  {
    var o := OnUpdate(m, t, lib);
    assert o.next == m.(outputId := OutputId(t.rnd), timer := Armed(TIMEOUT_OUTPUT_MS));
    assert o.emitted == Emitted(t.delivered, Fragments(OutputId(t.rnd), lib.split(t.generated.value).value));
    assert o.emitted + [] == o.emitted;
    assert o.result == InProgress;
    RunReceived(o.next, Ack(OutputId(t.rnd)), [], lib);
    RunUpdated(m, t, [Received(Ack(OutputId(t.rnd)))], lib);
    assert AskScript(t) == [Updated(t)] + [Received(Ack(OutputId(t.rnd)))];
    assert [Received(Ack(OutputId(t.rnd)))] == [Received(Ack(OutputId(t.rnd)))] + [];
  }

  /**
   The answer: in ListenInput with nothing collected yet, a part that completes the input
   on its own moves on to RepeatOutput with that part as the input.
   */
  lemma HearPhase(m: Machine, lib: SpeechStringLib, d: ListenStringData)
    requires WellFormed(m) && m.state == ListenInput && m.input == []
    requires lib.complete([InPart(d.part, CStr(d.text), d.strType == End)])
    ensures var tr := Run(m, HearScript(d), lib);
      && tr.final.state == RepeatOutput && tr.final.timer == Unset
      && tr.final.input == [InPart(d.part, CStr(d.text), d.strType == End)]
      && tr.emitted == [] && tr.results == []
  {
    var listen := Event(ListenStringS, ListenString(d));
    assert OnEvent(m, listen, lib).input == [InPart(d.part, CStr(d.text), d.strType == End)];
    RunReceived(m, listen, [], lib);
    assert HearScript(d) == [Received(listen)] + [];
  }

  /** The echo: the first Update in RepeatOutput repeats the input; its acknowledgement closes. */
  lemma RepeatPhase(m: Machine, lib: SpeechStringLib, t: Tick, t': Tick)
    requires WellFormed(m) && m.state == RepeatOutput && m.timer == Unset
    requires lib.split(lib.assembled(m.input)).Some?
    ensures var tr := Run(m, RepeatScript(t, t'), lib);
      && tr.final.state == CloseApp
      && tr.emitted == Emitted(t.delivered, Fragments(OutputId(t.rnd), lib.split(lib.assembled(m.input)).value))
      && tr.results == [InProgress, FinishedPop]
  {
    var o := OnUpdate(m, t, lib);
    assert o.next == m.(outputId := OutputId(t.rnd), timer := Armed(TIMEOUT_OUTPUT_MS));
    assert o.emitted == Emitted(t.delivered, Fragments(OutputId(t.rnd), lib.split(lib.assembled(m.input)).value));
    assert o.emitted + [] + [] == o.emitted;
    var m1 := OnEvent(o.next, Ack(OutputId(t.rnd)), lib);
    assert m1.state == CloseApp;
    var o1 := OnUpdate(m1, t', lib);
    assert o1 == UpdateStep(m1, [], FinishedPop);
    RunUpdated(m1, t', [], lib);
    RunReceived(o.next, Ack(OutputId(t.rnd)), [Updated(t')], lib);
    RunUpdated(m, t, [Received(Ack(OutputId(t.rnd))), Updated(t')], lib);
    assert RepeatScript(t, t') == [Updated(t)] + [Received(Ack(OutputId(t.rnd))), Updated(t')];
    assert [Received(Ack(OutputId(t.rnd))), Updated(t')] == [Received(Ack(OutputId(t.rnd)))] + [Updated(t')];
    assert [Updated(t')] == [Updated(t')] + [];
  }

  /**
   The whole dialogue: the first Update probes the services, both answer, the next Update
   asks the question, its acknowledgement opens listening, a complete answer arrives, the
   next Update repeats it, its acknowledgement closes, and the last Update pops the module.
   Each Update before the last reports InProgress.
   */
  lemma HappyPath(lib: SpeechStringLib, t0: Tick, t1: Tick, t2: Tick, t3: Tick, d: ListenStringData)
    requires t1.generated.Some? && lib.split(t1.generated.value).Some?
    requires var heard := [InPart(d.part, CStr(d.text), d.strType == End)];
      lib.complete(heard) && lib.split(lib.assembled(heard)).Some?
    ensures var tr := Run(Initial(), ServicesScript(t0) + AskScript(t1) + HearScript(d) + RepeatScript(t2, t3), lib);
      && tr.final.state == CloseApp
      && tr.results == [InProgress, InProgress, InProgress, FinishedPop]
      && tr.emitted[..2] == [ListenAvailProbe, SayAvailProbe]
  {
    var heard := [InPart(d.part, CStr(d.text), d.strType == End)];
    ServicesPhase(lib, t0);
    var tr1 := Run(Initial(), ServicesScript(t0), lib);
    AskPhase(tr1.final, lib, t1);
    var tr2 := Run(tr1.final, AskScript(t1), lib);
    HearPhase(tr2.final, lib, d);
    var tr3 := Run(tr2.final, HearScript(d), lib);
    RepeatPhase(tr3.final, lib, t2, t3);
    var tr4 := Run(tr3.final, RepeatScript(t2, t3), lib);
    RunAppend4(Initial(), ServicesScript(t0), AskScript(t1), HearScript(d), RepeatScript(t2, t3), lib);
    HappyTraces(tr1, tr2, tr3, tr4);
  }

  /** How the four phase traces add up. */
  lemma HappyTraces(ta: Trace, tb: Trace, tc: Trace, td: Trace)
    requires ta.emitted == [ListenAvailProbe, SayAvailProbe]
    requires ta.results == [InProgress] && tb.results == [InProgress]
    requires tc.results == [] && td.results == [InProgress, FinishedPop]
    ensures (ta.emitted + tb.emitted + tc.emitted + td.emitted)[..2] == [ListenAvailProbe, SayAvailProbe]
    ensures ta.results + tb.results + tc.results + td.results == [InProgress, InProgress, InProgress, FinishedPop]
  {
    assert ta.emitted + tb.emitted + tc.emitted + td.emitted == ta.emitted + (tb.emitted + tc.emitted + td.emitted);
  }

  /**
   The loop of StateSendOutput: walk the part map in ascending key order, build each part's
   fragment, End on the last, and add the event when the codec could create and fill it.
   */
  method SendParts(storage: EventStorage, id: u32, parts: map<u32, string>, delivered: Fragment -> bool)
    modifies storage
    ensures storage.events == old(storage.events) + Emitted(delivered, Fragments(id, parts))
  {
    ghost var total := old(storage.events) + Emitted(delivered, Fragments(id, parts));
    var rest := parts.Keys;
    while rest != {}
      invariant rest <= parts.Keys
      invariant storage.events + Emitted(delivered, FragmentsFrom(id, parts, rest)) == total
      decreases rest
    {
      LeastExists(rest);
      var k :| IsLeast(k, rest);   // std::map iterates in ascending key order
      var fragment := FragmentFor(id, parts, k, rest - {k} == {});
      SendStep(delivered, storage.events, id, parts, rest, k, total);
      if delivered(fragment) {
        storage.Add(SayFragment(fragment));
      }                           // otherwise creating or filling the event failed
      rest := rest - {k};
    }
  }

  class RepeatAfterMe {
    var state: State
    var service: int
    var outputId: u32
    var inputId: u32
    var input: seq<InPart>
    var timer: Timer
    const storage: EventStorage
    const lib: SpeechStringLib

    function Snapshot(): Machine
      reads this
    {
      Machine(state, service, outputId, inputId, input, timer)
    }

    constructor (storage: EventStorage, lib: SpeechStringLib)
      ensures Snapshot() == Initial()
      ensures this.storage == storage && this.lib == lib
    {
      this.storage := storage;
      this.lib := lib;
      inputId, input := 0, [];
      outputId := 0;
      service := 0;
      new;
      StateSet(CheckService);
    }

    method StateSet(s: State)
      modifies this`state, this`timer
      ensures Snapshot() == Enter(old(Snapshot()), s)
    {
      state := s;
      timer := Unset;
    }

    method HandleEvent(e: Event)
      requires WellFormed(Snapshot())
      modifies this
      ensures Snapshot() == OnEvent(old(Snapshot()), e, lib)
    {
      match e.kind
      case ListenAvailS | SayAvailS =>
        var avail := ReadServiceAvail(e);
        if avail.None? || !avail.value {
          return;
        }
        var flag := if e.kind == ListenAvailS then 1 else 2;
        service := service + (if HasFlag(service, flag) then 0 else flag);
        if service == 3 {
          StateSet(AskOutput);
        }
      case ListenStringS =>
        var data := ReadListenString(e);
        if data.None? {
          return;
        }
        var d := data.value;
        var part := InPart(d.part, CStr(d.text), d.strType == End);
        if d.id != inputId {
          inputId, input := d.id, [part];   // Reset
        } else {
          input := input + [part];          // Add
        }
        if lib.complete(input) {
          StateSet(RepeatOutput);
        }
      case SayStringS =>
        var ack := ReadSayString(e);
        if ack.None? || ack.value != outputId {
          return;
        }
        if state == AskOutput {
          StateSet(ListenInput);
        } else if state == RepeatOutput {
          StateSet(CloseApp);
        }
      case _ =>
    }

    method Update(t: Tick) returns (r: ModuleResult)
      requires WellFormed(Snapshot())
      modifies this, storage
      ensures var o := OnUpdate(old(Snapshot()), t, lib);
        Snapshot() == o.next && storage.events == old(storage.events) + o.emitted && r == o.result
    {
      match state {
        case CheckService =>
          StateCheckService(t);
        case AskOutput =>
          StateAskOutput(t);
        case ListenInput =>
        case RepeatOutput =>
          StateRepeatOutput(t);
        case CloseApp =>
          return FinishedPop;
      }
      r := InProgress;
    }

    method StateCheckService(t: Tick)
      requires WellFormed(Snapshot()) && state == CheckService
      modifies this, storage
      ensures var o := OnUpdate(old(Snapshot()), t, lib);
        Snapshot() == o.next && storage.events == old(storage.events) + o.emitted
    {
      if timer.Unset? {
        storage.Add(ListenAvailProbe);
        storage.Add(SayAvailProbe);
        timer := Armed(TIMEOUT_SERVICE_MS);
      } else if service == 3 {
        StateSet(AskOutput);
        service := 0;
      } else if t.expired {
        StateSet(CloseApp);     // check service timeout
      }
    }

    method StateSendOutput(text: string, t: Tick)
      modifies this`outputId, storage
      ensures var sent := SendOutput(old(Snapshot()), text, t, lib);
        Snapshot() == sent.0 && storage.events == old(storage.events) + sent.1
    {
      var split := lib.split(text);
      if split.None? {
        return;                 // SplitString threw: logged, nothing sent
      }
      var parts := split.value;
      outputId := OutputId(t.rnd);
      SendParts(storage, outputId, parts, t.delivered);
    }

    method StateAskOutput(t: Tick)
      requires WellFormed(Snapshot()) && state == AskOutput
      modifies this, storage
      ensures var o := OnUpdate(old(Snapshot()), t, lib);
        Snapshot() == o.next && storage.events == old(storage.events) + o.emitted
    {
      if timer.Unset? {
        if t.generated.Some? {
          StateSendOutput(t.generated.value, t);
        }                       // otherwise generation threw: logged
        timer := Armed(TIMEOUT_OUTPUT_MS);
      } else if t.expired {
        StateSet(CloseApp);     // ask repeat timeout
      }
    }

    method StateRepeatOutput(t: Tick)
      requires WellFormed(Snapshot()) && state == RepeatOutput
      modifies this, storage
      ensures var o := OnUpdate(old(Snapshot()), t, lib);
        Snapshot() == o.next && storage.events == old(storage.events) + o.emitted
    {
      if timer.Unset? {
        StateSendOutput(lib.assembled(input), t);
        timer := Armed(TIMEOUT_OUTPUT_MS);
      } else if t.expired {
        StateSet(CloseApp);
      }
    }
  }
}
