/**
 SpeechInput: the child module that listens for one answer. It clears the string it shares
 with its parent, overwrites it with every non-empty listen string it reads, and pops once
 the string is non-empty or its 30 s timer has finished.
 */
module SpeechInput {
  import opened Platform

  const TIMEOUT_MS: nat := 30000

  /** The C string a readable listen-string event carries, or "" for any other event. */
  function HeardText(e: Event): (s: string)
    ensures '\0' !in s
    ensures ReadListenString(e).None? ==> s == ""
  {
    if ReadListenString(e).Some? then CStr(ReadListenString(e).value.text) else ""
  }

  /**
   What a routed event does to the shared string: a readable event whose string is not
   empty replaces it; an empty or unreadable one leaves it as it is.
   */
  function Capture(input: string, e: Event): (r: string)
    ensures HeardText(e) != "" ==> r == HeardText(e)
    ensures HeardText(e) == "" ==> r == input
  {
    var text := HeardText(e);
    if |text| > 0 then text else input
  }

  function CaptureAll(input: string, es: seq<Event>): (input': string)
    decreases |es|
  {
    if es == [] then input else CaptureAll(Capture(input, es[0]), es[1..])
  }

  /** No event after `i` carries a non-empty string. */
  ghost predicate SilentAfter(es: seq<Event>, i: int)
  {
    forall j :: 0 <= j < |es| && i < j ==> HeardText(es[j]) == ""
  }

  /**
   The last non-empty string wins: after a run of events the shared string holds the last
   non-empty string among them, or what it held before when there is none. In particular a
   non-empty string stays non-empty, and what it holds never contains NUL once written.
   */
  lemma {:induction false} LastHeardWins(input: string, es: seq<Event>)
    ensures SilentAfter(es, -1) ==> CaptureAll(input, es) == input
    ensures forall i :: 0 <= i < |es| && HeardText(es[i]) != "" && SilentAfter(es, i) ==>
      CaptureAll(input, es) == HeardText(es[i])
    ensures input != "" ==> CaptureAll(input, es) != ""
    decreases |es|
  {
    if es != [] {
      var input' := Capture(input, es[0]);
      LastHeardWins(input', es[1..]);
      assert SilentAfter(es, -1) ==> SilentAfter(es[1..], -1) by {
        if SilentAfter(es, -1) {
          forall j | 0 <= j < |es[1..]|
            ensures HeardText(es[1..][j]) == ""
          {
            assert es[1..][j] == es[j + 1];
          }
        }
      }
      forall i | 0 <= i < |es| && HeardText(es[i]) != "" && SilentAfter(es, i)
        ensures CaptureAll(input, es) == HeardText(es[i])
      {
        forall j | 0 <= j < |es[1..]| && i - 1 < j
          ensures HeardText(es[1..][j]) == ""
        {
          assert es[1..][j] == es[j + 1];
        }
        if i > 0 {
          assert es[1..][i - 1] == es[i];
        }
      }
    }
  }

  /** Update: pop once the timer has finished or something was heard. */
  function Outcome(input: string, expired: bool): (r: ModuleResult)
    ensures r != FinishedAppend
    ensures r == FinishedPop <==> expired || |input| > 0
  {
    if expired || |input| > 0 then FinishedPop else InProgress
  }

  predicate CanHandleEvent(kind: EventType)
  {
    kind == ListenStringS
  }

  class SpeechInput {
    const input: StringRef
    const timer: Timer

    /** Bind the shared string and clear it. */
    constructor (input: StringRef)
      modifies input
      ensures this.input == input && input.value == "" && timer == Armed(TIMEOUT_MS)
    {
      this.input := input;
      timer := Armed(TIMEOUT_MS);
      new;
      input.value := "";
    }

    method HandleEvent(e: Event)
      modifies input
      ensures input.value == Capture(old(input.value), e)
    {
      var data := ReadListenString(e);
      if data.None? {
        return;                     // the read failed: logged
      }
      var text := CStr(data.value.text);
      if |text| > 0 {
        input.value := text;
      }
    }

    method Update(expired: bool) returns (r: ModuleResult)
      ensures r == Outcome(input.value, expired)
    {
      if expired || |input.value| > 0 {
        return FinishedPop;
      }
      return InProgress;
    }
  }
}
