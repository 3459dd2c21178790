/**
 The application as the host runs it: MirrorSpeech at the bottom of the module stack and,
 above it, the child each FINISHED_APPEND asks for, which receives the routed events and
 the updates until it pops. The host's module stack is not part of this model; these
 methods drive MirrorSpeech and its listening child by hand, one dialogue step each. The two
 output children are created (their event is queued) but not run: each step after one
 starts from the point where it has popped, on its acknowledgement or its timer.
 */
module MirrorSession {
  import opened Platform
  import SpeechInput
  import SpeechOutput
  import MS = MirrorSpeech

  /** A listen-input child only receives the event kinds its CanHandleEvent accepts. */
  function Route(input: string, e: Event): string
  {
    if SpeechInput.CanHandleEvent(e.kind) then SpeechInput.Capture(input, e) else input
  }

  /** The shared string after the routed events of one batch, delivered in order. */
  function HearBatch(input: string, batch: seq<Event>): (heard: string)
    decreases |batch|
  {
    if batch == [] then input
    else Route(HearBatch(input, batch[..|batch| - 1]), batch[|batch| - 1])
  }

  /** Some routed event of `batch` carries the non-empty string `text`. */
  ghost predicate HeardIn(batch: seq<Event>, text: string)
  {
    exists j :: 0 <= j < |batch| && batch[j].kind == ListenStringS && SpeechInput.HeardText(batch[j]) == text
  }

  /** Every routed event of `batch` carries an empty string or none. */
  ghost predicate SilentBatch(batch: seq<Event>)
  {
    forall j :: 0 <= j < |batch| && batch[j].kind == ListenStringS ==> SpeechInput.HeardText(batch[j]) == ""
  }

  /** No routed event of `batch` after index `i` carries a non-empty string. */
  ghost predicate SilentAfterIn(batch: seq<Event>, i: int)
  {
    forall j :: 0 <= j < |batch| && i < j && batch[j].kind == ListenStringS ==> SpeechInput.HeardText(batch[j]) == ""
  }

  /**
   Starting from a cleared string, one batch leaves it empty exactly when nothing in it was
   heard. Otherwise it holds the string of the LAST routed event that carried a non-empty
   one, since each such event overwrites the string. What it holds never contains NUL.
   */
  lemma {:induction false} HearBatchSpec(batch: seq<Event>)
    ensures HearBatch("", batch) == "" <==> SilentBatch(batch)
    ensures forall j :: 0 <= j < |batch| && batch[j].kind == ListenStringS
                        && SpeechInput.HeardText(batch[j]) != "" && SilentAfterIn(batch, j) ==>
              HearBatch("", batch) == SpeechInput.HeardText(batch[j])
    ensures HearBatch("", batch) != "" ==> HeardIn(batch, HearBatch("", batch))
    ensures '\0' !in HearBatch("", batch)
    decreases |batch|
  {
    if batch != [] {
      var init := batch[..|batch| - 1];
      var n := |batch| - 1;
      var e := batch[n];
      HearBatchSpec(init);
      var before := HearBatch("", init);
      var after := HearBatch("", batch);
      assert forall j :: 0 <= j < |init| ==> init[j] == batch[j];
      if after != "" && after != before {
        assert HeardIn(batch, after) by {
          assert batch[n].kind == ListenStringS && SpeechInput.HeardText(batch[n]) == after;
        }
      }
      if after != "" && after == before {
        var j :| 0 <= j < |init| && init[j].kind == ListenStringS && SpeechInput.HeardText(init[j]) == before;
        assert batch[j] == init[j];
      }
      forall j | 0 <= j < |batch| && batch[j].kind == ListenStringS
                 && SpeechInput.HeardText(batch[j]) != "" && SilentAfterIn(batch, j)
        ensures after == SpeechInput.HeardText(batch[j])
      {
        if j < n {
          assert !(e.kind == ListenStringS) || SpeechInput.HeardText(e) == "";
          assert after == before;
          assert init[j] == batch[j];
          assert SilentAfterIn(init, j) by {
            forall k | 0 <= k < |init| && j < k && init[k].kind == ListenStringS
              ensures SpeechInput.HeardText(init[k]) == ""
            {
              assert init[k] == batch[k];
            }
          }
        }
      }
    }
  }

  /**
   The string the listen child holds when it pops: the batches are delivered one by one,
   each followed by an Update, until one leaves the string non-empty; when none does the
   child's timer ends it with the string still empty.
   */
  function Heard(batches: seq<seq<Event>>): string
    decreases |batches|
  {
    if batches == [] then ""
    else if HearBatch("", batches[0]) != "" then HearBatch("", batches[0])
    else Heard(batches[1..])
  }

  /**
   What is heard is what the first batch that was not silent leaves in the cleared string,
   which HearBatchSpec says is the last non-empty string routed in that batch.
   */
  lemma {:induction false} HeardFirstAudible(batches: seq<seq<Event>>)
    ensures forall i :: 0 <= i < |batches| && !SilentBatch(batches[i])
                        && (forall k :: 0 <= k < i ==> SilentBatch(batches[k])) ==>
              Heard(batches) == HearBatch("", batches[i])
    decreases |batches|
  {
    if batches != [] {
      HearBatchSpec(batches[0]);
      HeardFirstAudible(batches[1..]);
      forall i | 0 <= i < |batches| && !SilentBatch(batches[i])
                 && (forall k :: 0 <= k < i ==> SilentBatch(batches[k]))
        ensures Heard(batches) == HearBatch("", batches[i])
      {
        if i > 0 {
          assert SilentBatch(batches[0]);
          assert batches[1..][i - 1] == batches[i];
          forall k | 0 <= k < i - 1
            ensures SilentBatch(batches[1..][k])
          {
            assert batches[1..][k] == batches[k + 1];
          }
        }
      }
    }
  }

  /**
   Nothing is heard exactly when every batch was silent; otherwise what is heard is the
   string of a routed event of the first batch that was not, and it holds no NUL.
   */
  lemma {:induction false} HeardSpec(batches: seq<seq<Event>>)
    ensures Heard(batches) == "" <==> forall i :: 0 <= i < |batches| ==> SilentBatch(batches[i])
    ensures Heard(batches) != "" ==>
      exists i :: 0 <= i < |batches| && HeardIn(batches[i], Heard(batches))
        && forall k :: 0 <= k < i ==> SilentBatch(batches[k])
    ensures '\0' !in Heard(batches)
    decreases |batches|
  {
    if batches != [] {
      HearBatchSpec(batches[0]);
      HeardSpec(batches[1..]);
      assert forall i :: 0 < i < |batches| ==> batches[i] == batches[1..][i - 1];
      if Heard(batches) != "" {
        if HearBatch("", batches[0]) != "" {
          assert HeardIn(batches[0], Heard(batches));
        } else {
          var i :| 0 <= i < |batches[1..]| && HeardIn(batches[1..][i], Heard(batches[1..]))
            && forall k :: 0 <= k < i ==> SilentBatch(batches[1..][k]);
          assert HeardIn(batches[i + 1], Heard(batches));
          assert forall k :: 0 <= k < i + 1 ==> SilentBatch(batches[k]) by {
            forall k | 0 <= k < i + 1
              ensures SilentBatch(batches[k])
            {
              if k > 0 {
                assert batches[k] == batches[1..][k - 1];
              }
            }
          }
        }
      }
    }
  }

  /**
   The question step. MirrorSpeech leaves START and asks for the output module of the
   generated question, which sends it; a generator failure is thrown instead.
   */
  method Ask(m: MS.MirrorSpeech, generated: Result<string>, storage: EventStorage, rnd: nat, max: nat,
             created: bool, addError: Option<string>) returns (child: Result<SpeechOutput.SpeechOutput>)
    requires m.state == MS.Start
    modifies m, storage
    ensures m.state == MS.AskOutput
    ensures child.Success? <==> generated.Success? && created && addError.None?
    ensures child.Failure? ==> storage.events == old(storage.events)
    ensures generated.Failure? ==>
      child == Failure("Failed to generate output: " + generated.error) && storage.events == old(storage.events)
    ensures generated.Success? && child.Success? ==>
      && child.value.sentId == SpeechOutput.SentId(rnd) && child.value.receivedId == 0
      && child.value.timer == Armed(SpeechOutput.TIMEOUT_MS)
      && storage.events == old(storage.events)
        + [SayBuffer(SpeechOutput.SentId(rnd), SpeechOutput.OutputBuffer(generated.value, max))]
  {
    var r := m.Update();
    assert r == FinishedAppend;
    var next := m.NextModule(generated);
    if next.Failure? {
      return Failure(next.error);
    }
    child := SpeechOutput.SpeechOutput.Create(next.value.text, storage, rnd, max, created, addError);
  }

  /** One batch, routed event by event to a listen child whose string starts cleared. */
  method Deliver(child: SpeechInput.SpeechInput, batch: seq<Event>)
    requires child.input.value == ""
    modifies child.input
    ensures child.input.value == HearBatch("", batch)
  {
    var j := 0;
    while j < |batch|
      invariant 0 <= j <= |batch|
      invariant child.input.value == HearBatch("", batch[..j])
    {
      assert batch[..j + 1][..j] == batch[..j];
      if SpeechInput.CanHandleEvent(batch[j].kind) {
        child.HandleEvent(batch[j]);
      }
      j := j + 1;
    }
    assert batch[..j] == batch;
  }

  /**
   The listening step. Once the question's output module has popped, MirrorSpeech moves to
   LISTEN_INPUT and asks for an input module on its own string; the batches go to that
   child until it pops, and MirrorSpeech's next Update pops the application when nothing
   was heard or moves to REPEAT_OUTPUT.
   */
  method Listen(m: MS.MirrorSpeech, batches: seq<seq<Event>>) returns (r: ModuleResult)
    requires m.state == MS.AskOutput
    modifies m, m.input
    ensures m.input.value == Heard(batches)
    ensures r == FinishedPop <==> Heard(batches) == ""
    ensures r == FinishedAppend <==> Heard(batches) != ""
    ensures m.state == if Heard(batches) == "" then MS.ListenInput else MS.RepeatOutput
  {
    var appended := m.Update();
    var next := m.NextModule(Failure(""));
    assert next == Success(MS.Listen);
    var child := new SpeechInput.SpeechInput(m.input);
    var k := 0;
    var popped := false;
    while k < |batches| && !popped
      invariant 0 <= k <= |batches|
      invariant m.state == MS.ListenInput && child.input == m.input
      invariant popped ==> m.input.value == Heard(batches) && m.input.value != ""
      invariant !popped ==> m.input.value == "" && Heard(batches) == Heard(batches[k..])
    {
      var batch := batches[k];
      Deliver(child, batch);
      assert batches[k..][0] == batch && batches[k..][1..] == batches[k + 1..];
      var result := child.Update(false);
      popped := result == FinishedPop;
      k := k + 1;
    }
    if !popped {
      var result := child.Update(true);   // its timer ends the wait
      assert result == FinishedPop;
    }
    r := m.Update();
  }

  /**
   The echo step. MirrorSpeech asks for an output module of what was heard, which sends it
   under a fresh id: as a C string its buffer holds the heard text cut to `max` characters.
   */
  method Repeat(m: MS.MirrorSpeech, storage: EventStorage, rnd: nat, max: nat,
                created: bool, addError: Option<string>) returns (child: Result<SpeechOutput.SpeechOutput>)
    requires m.state == MS.RepeatOutput && '\0' !in m.input.value
    modifies storage
    ensures child.Success? <==> created && addError.None?
    ensures child.Failure? ==> storage.events == old(storage.events)
    ensures child.Success? ==>
      && child.value.sentId == SpeechOutput.SentId(rnd) && child.value.receivedId == 0
      && child.value.timer == Armed(SpeechOutput.TIMEOUT_MS)
      && storage.events == old(storage.events) + [SayBuffer(child.value.sentId, SpeechOutput.OutputBuffer(m.input.value, max))]
    ensures CStr(SpeechOutput.OutputBuffer(m.input.value, max)) == Truncate(m.input.value, max)
  {
    var next := m.NextModule(Failure(""));
    assert next == Success(MS.Say(m.input.value));
    child := SpeechOutput.SpeechOutput.Create(next.value.text, storage, rnd, max, created, addError);
    SpeechOutput.OutputBufferTerminated(m.input.value, max);
    CStrOfText(m.input.value);
  }

  /**
   The end. Once the echo has popped, MirrorSpeech moves to CLOSE_APP and reports
   FINISHED_APPEND, but NextModule has no child for CLOSE_APP and throws.
   */
  method Finish(m: MS.MirrorSpeech) returns (r: ModuleResult, next: Result<MS.Child>)
    requires m.state == MS.RepeatOutput
    modifies m
    ensures m.state == MS.CloseApp && r == FinishedAppend
    ensures next == Failure("No module to switch to!")
  {
    r := m.Update();
    next := m.NextModule(Failure(""));
  }

  /** Whether the codec creates the say event of one output module, and what Add throws. */
  datatype Delivery = Delivery(created: bool, addError: Option<string>)

  predicate Delivered(d: Delivery)
  {
    d.created && d.addError.None?
  }

  /**
   Everything after the question went out: the answer is collected and, when there is one,
   it goes out again and the application reaches CLOSE_APP.
   */
  method Answer(m: MS.MirrorSpeech, batches: seq<seq<Event>>, storage: EventStorage, max: nat,
                echoRnd: nat, echo: Delivery)
    requires m.state == MS.AskOutput
    modifies m, m.input, storage
    ensures var answer := SayBuffer(SpeechOutput.SentId(echoRnd), SpeechOutput.OutputBuffer(Heard(batches), max));
      && (Heard(batches) == "" ==> m.state == MS.ListenInput && storage.events == old(storage.events))
      && (Heard(batches) != "" && !Delivered(echo) ==>
            m.state == MS.RepeatOutput && storage.events == old(storage.events))
      && (Heard(batches) != "" && Delivered(echo) ==>
            m.state == MS.CloseApp && storage.events == old(storage.events) + [answer])
  {
    var listened := Listen(m, batches);
    if listened == FinishedPop {
      return;
    }
    HeardSpec(batches);
    var echoed := Repeat(m, storage, echoRnd, max, echo.created, echo.addError);
    if echoed.Failure? {
      return;
    }
    var r, next := Finish(m);
  }

  /**
   One run of the application. The question goes out; a failure to generate or send it
   ends the application (the host closes it on the exception). Once the question's output
   module has popped, the answer is collected. When nothing
   was heard the application pops; otherwise what was heard goes out again and the
   application reaches CLOSE_APP.
   */
  method Dialogue(generated: Result<string>, batches: seq<seq<Event>>, storage: EventStorage, max: nat,
                  askRnd: nat, ask: Delivery, echoRnd: nat, echo: Delivery) returns (m: MS.MirrorSpeech)
    modifies storage
    ensures fresh(m)
    ensures !(generated.Success? && Delivered(ask)) ==>
      m.state == MS.AskOutput && storage.events == old(storage.events)
    ensures generated.Success? && Delivered(ask) ==>
      var question := SayBuffer(SpeechOutput.SentId(askRnd), SpeechOutput.OutputBuffer(generated.value, max));
      var answer := SayBuffer(SpeechOutput.SentId(echoRnd), SpeechOutput.OutputBuffer(Heard(batches), max));
      && (Heard(batches) == "" ==> m.state == MS.ListenInput && storage.events == old(storage.events) + [question])
      && (Heard(batches) != "" && !Delivered(echo) ==>
            m.state == MS.RepeatOutput && storage.events == old(storage.events) + [question])
      && (Heard(batches) != "" && Delivered(echo) ==>
            m.state == MS.CloseApp && storage.events == old(storage.events) + [question, answer])
  {
    m := new MS.MirrorSpeech();
    var asked := Ask(m, generated, storage, askRnd, max, ask.created, ask.addError);
    if asked.Failure? {
      return;
    }
    Answer(m, batches, storage, max, echoRnd, echo);
  }
}
