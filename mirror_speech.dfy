/**
 MirrorSpeech: the orchestrating module of the application. It handles no events itself.
 Each Update moves it one step along START, ASK_OUTPUT, LISTEN_INPUT, REPEAT_OUTPUT,
 CLOSE_APP and asks the host to append a child module, which NextModule then chooses from
 the new state: a SpeechOutput with the generated question, a SpeechInput writing into the
 module's own string, a SpeechOutput repeating that string.
 */
module MirrorSpeech {
  import opened Platform

  datatype State = Start | AskOutput | ListenInput | RepeatOutput | CloseApp

  /** The numbering of the C++ enum. */
  function Ordinal(s: State): nat
  {
    match s
    case Start => 0
    case AskOutput => 1
    case ListenInput => 2
    case RepeatOutput => 3
    case CloseApp => 4
  }

  /** The new state and the result of one Update. */
  datatype Advance = Advance(next: State, result: ModuleResult)

  /** What one Update does, given the shared input string. */
  function Step(s: State, input: string): (a: Advance)
  {
    match s
    case Start => Advance(AskOutput, FinishedAppend)
    case AskOutput => Advance(ListenInput, FinishedAppend)
    case ListenInput =>
      if |input| == 0 then Advance(ListenInput, FinishedPop) else Advance(RepeatOutput, FinishedAppend)
    case RepeatOutput => Advance(CloseApp, FinishedAppend)
    case CloseApp => Advance(CloseApp, FinishedPop)
  }

  /**
   Update never goes back and moves at most one state on. It asks for a child exactly when
   it moves, and otherwise pops: in CLOSE_APP, and in LISTEN_INPUT when nothing was heard,
   where it stays. It never reports InProgress.
   */
  lemma StepProgress(s: State, input: string)
    ensures var a := Step(s, input);
      && Ordinal(s) <= Ordinal(a.next) <= Ordinal(s) + 1
      && (a.result == FinishedAppend <==> a.next != s)
      && (a.result == FinishedPop <==> s == CloseApp || (s == ListenInput && input == ""))
      && a.result != InProgress
  {
  }

  /** CLOSE_APP is a fixed point of Update. */
  lemma CloseAppFixed(input: string)
    ensures Step(CloseApp, input) == Advance(CloseApp, FinishedPop)
  {
  }

  /** REPEAT_OUTPUT is entered only with something to repeat. */
  lemma RepeatNeedsInput(s: State, input: string)
    requires s != RepeatOutput && Step(s, input).next == RepeatOutput
    ensures s == ListenInput && input != ""
  {
  }

  /** The child modules NextModule makes: an output of a string, or an input into the shared string. */
  datatype Child = Say(text: string) | Listen

  /**
   NextModule, from the state Update has just entered. `generated` is what the output
   generator returns or the message of what it throws.
   */
  function NextChild(s: State, input: string, generated: Result<string>): (r: Result<Child>)
    ensures r.Success? <==> s in {AskOutput, ListenInput, RepeatOutput} && (s == AskOutput ==> generated.Success?)
    ensures r == Success(Listen) <==> s == ListenInput
    ensures s == RepeatOutput ==> r == Success(Say(input))
    ensures s == AskOutput && generated.Success? ==> r == Success(Say(generated.value))
    ensures s == AskOutput && generated.Failure? ==> r == Failure("Failed to generate output: " + generated.error)
    ensures s in {Start, CloseApp} ==> r == Failure("No module to switch to!")
  {
    match s
    case AskOutput =>
      if generated.Success? then Success(Say(generated.value))
      else Failure("Failed to generate output: " + generated.error)
    case ListenInput => Success(Listen)
    case RepeatOutput => Success(Say(input))
    case _ => Failure("No module to switch to!")
  }

  /**
   Every Update that asks for a child leaves a state whose NextModule has one, except the
   last: leaving REPEAT_OUTPUT for CLOSE_APP reports FINISHED_APPEND, yet NextModule in
   CLOSE_APP throws.
   */
  lemma AppendHasChild(s: State, input: string, generated: Result<string>)
    requires generated.Success?
    ensures var a := Step(s, input);
      a.result == FinishedAppend ==>
        (NextChild(a.next, input, generated).Success? <==> s != RepeatOutput)
  {
  }

  /** The output REPEAT_OUTPUT asks for is never empty. */
  lemma RepeatedTextNonEmpty(s: State, input: string, generated: Result<string>)
    requires Step(s, input) == Advance(RepeatOutput, FinishedAppend)
    ensures NextChild(RepeatOutput, input, generated) == Success(Say(input)) && input != ""
  {
  }

  /** MirrorSpeech routes no events to itself. */
  predicate CanHandleEvent(kind: EventType)
  {
    false
  }

  class MirrorSpeech {
    var state: State
    const input: StringRef

    constructor ()
      ensures state == Start && fresh(input) && input.value == ""
    {
      state := Start;
      input := new StringRef("");
    }

    /** Events are ignored: the method changes nothing. */
    method HandleEvent(e: Event)
    {
    }

    method Update() returns (r: ModuleResult)
      modifies this`state
      ensures Advance(state, r) == Step(old(state), input.value)
    {
      match state {
        case Start =>
          state := AskOutput;
          return FinishedAppend;
        case AskOutput =>
          state := ListenInput;
          return FinishedAppend;
        case ListenInput =>
          if |input.value| == 0 {
            return FinishedPop;
          }
          state := RepeatOutput;
          return FinishedAppend;
        case RepeatOutput =>
          state := CloseApp;
          return FinishedAppend;
        case CloseApp =>
          return FinishedPop;
      }
    }

    method NextModule(generated: Result<string>) returns (r: Result<Child>)
      ensures r == NextChild(state, input.value, generated)
    {
      match state {
        case AskOutput =>
          if generated.Failure? {
            return Failure("Failed to generate output: " + generated.error);
          }
          return Success(Say(generated.value));
        case ListenInput =>
          return Success(Listen);
        case RepeatOutput =>
          return Success(Say(input.value));
        case _ =>
          return Failure("No module to switch to!");
      }
    }
  }
}
