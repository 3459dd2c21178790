/**
 SpeechOutput: the child module that speaks one string. Constructing it sends the string as a
 single say-string event under a fresh id; it then waits until the say service acknowledges
 that id, or until its 60 s timer finishes, and pops itself.
 */
module SpeechOutput {
  import opened Platform

  const TIMEOUT_MS: nat := 60000

  /** The id the module sends under: `(rand() % ((MRH_Uint32) - 1)) + 1`. */
  function SentId(rnd: nat): (id: u32)
    ensures 1 <= id as int <= U32_MAX
    ensures rnd < U32_MAX ==> id as int == rnd + 1
  {
    ((rnd % U32_MAX) + 1) as u32
  }

  /**
   The payload buffer of `max + 1` characters: zeroed, then filled by strncpy with at most
   `max` characters of the output's C string.
   */
  function OutputBuffer(output: string, max: nat): seq<char>
  {
    var text := Truncate(CStr(output), max);
    text + seq(max + 1 - |text|, _ => '\0')
  }

  /**
   The buffer always ends in NUL, and as a C string it holds the output cut to `max`
   characters.
   */
  lemma OutputBufferTerminated(output: string, max: nat)
    ensures var buf := OutputBuffer(output, max);
      && |buf| == max + 1
      && buf[max] == '\0'
      && CStr(buf) == Truncate(CStr(output), max)
  {
    var text := Truncate(CStr(output), max);
    var buf := OutputBuffer(output, max);
    assert buf[..|text|] == text;
    assert '\0' !in text by {
      forall k | 0 <= k < |text|
        ensures text[k] != '\0'
      {
        assert text[k] == CStr(output)[k];
      }
    }
    CStrAt(buf, |text|);
  }

  /** memset the buffer, then strncpy the output into its first `max` characters. */
  method FillBuffer(output: string, max: nat) returns (buf: seq<char>)
    ensures buf == OutputBuffer(output, max)
  {
    var a := new char[max + 1];
    var i := 0;
    while i < max + 1
      invariant 0 <= i <= max + 1
      invariant forall k :: 0 <= k < i ==> a[k] == '\0'
    {
      a[i] := '\0';
      i := i + 1;
    }
    ghost var text := Truncate(CStr(output), max);
    var j := 0;
    while j < max && j < |output| && output[j] != '\0'
      invariant 0 <= j <= max && j <= |CStr(output)|
      invariant forall k :: 0 <= k < j ==> a[k] == output[k]
      invariant forall k :: j <= k < max + 1 ==> a[k] == '\0'
    {
      assert j < |CStr(output)|;
      a[j] := output[j];
      j := j + 1;
    }
    assert j == |text|;
    while j < max                 // strncpy pads the rest of its count with NUL
      invariant |text| <= j <= max
      invariant forall k :: 0 <= k < |text| ==> a[k] == output[k]
      invariant forall k :: |text| <= k < max + 1 ==> a[k] == '\0'
    {
      a[j] := '\0';
      j := j + 1;
    }
    buf := a[..];
    assert forall k :: 0 <= k < |text| ==> buf[k] == text[k];
  }

  /** What a routed event does to the received id: a readable acknowledgement replaces it. */
  function Acknowledge(received: u32, e: Event): (r: u32)
    ensures ReadSayString(e).Some? ==> r == ReadSayString(e).value
    ensures ReadSayString(e).None? ==> r == received
  {
    if ReadSayString(e).Some? then ReadSayString(e).value else received
  }

  function AcknowledgeAll(received: u32, es: seq<Event>): (received': u32)
    decreases |es|
  {
    if es == [] then received else AcknowledgeAll(Acknowledge(received, es[0]), es[1..])
  }

  /** The events after `i` carry no readable acknowledgement. */
  ghost predicate NoAckAfter(es: seq<Event>, i: int)
  {
    forall j :: 0 <= j < |es| && i < j ==> ReadSayString(es[j]).None?
  }

  /**
   The last acknowledgement wins: after a run of events the received id is the id of the
   last readable acknowledgement among them, or what it was when there is none.
   */
  lemma {:induction false} LastAckWins(received: u32, es: seq<Event>)
    ensures NoAckAfter(es, -1) ==> AcknowledgeAll(received, es) == received
    ensures forall i :: 0 <= i < |es| && ReadSayString(es[i]).Some? && NoAckAfter(es, i) ==>
      AcknowledgeAll(received, es) == ReadSayString(es[i]).value
    decreases |es|
  {
    if es != [] {
      var r1 := Acknowledge(received, es[0]);
      LastAckWins(r1, es[1..]);
      forall i | 0 <= i < |es| && ReadSayString(es[i]).Some? && NoAckAfter(es, i)
        ensures AcknowledgeAll(received, es) == ReadSayString(es[i]).value
      {
        if i == 0 {
          assert NoAckAfter(es[1..], -1) by {
            forall j | 0 <= j < |es[1..]|
              ensures ReadSayString(es[1..][j]).None?
            {
              assert es[1..][j] == es[j + 1];
            }
          }
        } else {
          assert es[1..][i - 1] == es[i];
          assert NoAckAfter(es[1..], i - 1) by {
            forall j | 0 <= j < |es[1..]| && i - 1 < j
              ensures ReadSayString(es[1..][j]).None?
            {
              assert es[1..][j] == es[j + 1];
            }
          }
        }
      }
      if NoAckAfter(es, -1) {
        assert NoAckAfter(es[1..], -1) by {
          forall j | 0 <= j < |es[1..]|
            ensures ReadSayString(es[1..][j]).None?
          {
            assert es[1..][j] == es[j + 1];
          }
        }
      }
    }
  }

  /** Update: pop once the sent id has been acknowledged or the timer has finished. */
  function Outcome(sent: u32, received: u32, expired: bool): (r: ModuleResult)
    ensures r != FinishedAppend
    ensures r == FinishedPop <==> sent == received || expired
  {
    if sent == received || expired then FinishedPop else InProgress
  }

  /**
   A freshly sent output waits: its id is never 0, the received id starts at 0, so before
   any acknowledgement and while the timer runs Update reports InProgress.
   */
  lemma FreshOutputWaits(rnd: nat)
    ensures Outcome(SentId(rnd), 0, false) == InProgress
  {
  }

  /**
   Without a timeout the module pops exactly when the last acknowledgement it read carries
   its id: an acknowledgement of its id followed by another one does not end it.
   */
  lemma PopsOnLastAck(rnd: nat, es: seq<Event>)
    ensures NoAckAfter(es, -1) ==> Outcome(SentId(rnd), AcknowledgeAll(0, es), false) == InProgress
    ensures forall i :: 0 <= i < |es| && ReadSayString(es[i]).Some? && NoAckAfter(es, i) ==>
      ((Outcome(SentId(rnd), AcknowledgeAll(0, es), false) == FinishedPop)
         <==> (ReadSayString(es[i]).value == SentId(rnd)))
  {
    LastAckWins(0, es);
  }

  predicate CanHandleEvent(kind: EventType)
  {
    kind == SayStringS
  }

  class SpeechOutput {
    const sentId: u32
    var receivedId: u32
    const timer: Timer

    /** The fields the module starts with once its event is out. */
    constructor (sentId: u32)
      ensures this.sentId == sentId && receivedId == 0 && timer == Armed(TIMEOUT_MS)
    {
      this.sentId := sentId;
      receivedId := 0;
      timer := Armed(TIMEOUT_MS);
    }

    /**
     The C++ constructor: fill the buffer, create and set the say-string event, add it to the
     event storage. `created` says whether the codec could create and set the event;
     `addError` is the message of the exception Add throws, if it throws. Either failure
     is thrown to the caller and nothing is stored.
     */
    static method Create(output: string, storage: EventStorage, rnd: nat, max: nat,
                         created: bool, addError: Option<string>) returns (r: Result<SpeechOutput>)
      modifies storage
      ensures !created ==> r == Failure("Failed to create output event!")
      ensures created && addError.Some? ==> r == Failure("Failed to send output: " + addError.value)
      ensures r.Failure? ==> storage.events == old(storage.events)
      ensures r.Success? <==> created && addError.None?
      ensures r.Success? ==>
        && fresh(r.value)
        && r.value.sentId == SentId(rnd) && r.value.receivedId == 0 && r.value.timer == Armed(TIMEOUT_MS)
        && storage.events == old(storage.events) + [SayBuffer(SentId(rnd), OutputBuffer(output, max))]
    {
      var id := SentId(rnd);
      var buffer := FillBuffer(output, max);
      if !created {
        return Failure("Failed to create output event!");
      }
      if addError.Some? {
        return Failure("Failed to send output: " + addError.value);   // the event is destroyed
      }
      storage.Add(SayBuffer(id, buffer));
      var speaker := new SpeechOutput(id);
      r := Success(speaker);
    }

    method HandleEvent(e: Event)
      modifies this`receivedId
      ensures receivedId == Acknowledge(old(receivedId), e)
    {
      var ack := ReadSayString(e);
      if ack.Some? {
        receivedId := ack.value;
      }                             // otherwise the read failed: logged
    }

    method Update(expired: bool) returns (r: ModuleResult)
      ensures r == Outcome(sentId, receivedId, expired)
    {
      if sentId == receivedId || expired {
        return FinishedPop;
      }
      return InProgress;
    }
  }
}
