/**
 CheckService: the child module that asks whether the listen and say services are usable.
 Its constructor sends both probes and arms a 10 s timer; it records each successful
 answer, and pops once both services have answered, telling its caller, or once the timer
 has finished, leaving the caller's flag alone.
 */
module CheckService {
  import opened Platform

  const TIMEOUT_MS: nat := 10000

  /** b_ListenAvailable and b_SayAvailable. */
  datatype Readiness = Readiness(listen: bool, say: bool)

  /**
   What a routed event does to the flags: a readable, successful answer sets the flag of
   its own service and nothing else; every other event changes nothing. No flag is ever
   cleared.
   */
  function Observe(r: Readiness, e: Event): (r': Readiness)
    ensures r'.listen <==> r.listen || (e.kind == ListenAvailS && ReadServiceAvail(e) == Some(true))
    ensures r'.say <==> r.say || (e.kind == SayAvailS && ReadServiceAvail(e) == Some(true))
  {
    if ReadServiceAvail(e) != Some(true) then r
    else if e.kind == ListenAvailS then r.(listen := true)
    else if e.kind == SayAvailS then r.(say := true)
    else r
  }

  function ObserveAll(r: Readiness, es: seq<Event>): (r': Readiness)
    decreases |es|
  {
    if es == [] then r else ObserveAll(Observe(r, es[0]), es[1..])
  }

  /**
   Over a run of events each flag ends up set exactly when it was set before or a
   successful answer of its service arrived; so the flags only ever go from false to true.
   */
  lemma {:induction false} ObserveAllRecords(r: Readiness, es: seq<Event>)
    ensures ObserveAll(r, es).listen <==> r.listen || Available(es, ListenAvailS)
    ensures ObserveAll(r, es).say <==> r.say || Available(es, SayAvailS)
    decreases |es|
  {
    if es != [] {
      ObserveAllRecords(Observe(r, es[0]), es[1..]);
      forall kind | kind in {ListenAvailS, SayAvailS}
        ensures Available(es, kind) <==>
          (es[0].kind == kind && ReadServiceAvail(es[0]) == Some(true)) || Available(es[1..], kind)
      {
        if Available(es[1..], kind) {
          var i :| 0 <= i < |es[1..]| && es[1..][i].kind == kind && ReadServiceAvail(es[1..][i]) == Some(true);
          assert es[i + 1] == es[1..][i];
        }
        if Available(es, kind) {
          var i :| 0 <= i < |es| && es[i].kind == kind && ReadServiceAvail(es[i]) == Some(true);
          if i > 0 {
            assert es[1..][i - 1] == es[i];
          }
        }
      }
    }
  }

  /** The result of Update and whether it writes true to the caller's flag. */
  datatype Check = Check(result: ModuleResult, reportAvailable: bool)

  /**
   Both services usable: report and pop. Otherwise pop on timeout without reporting,
   and keep waiting while the timer runs.
   */
  function Decide(r: Readiness, expired: bool): (c: Check)
    ensures c.reportAvailable <==> r.listen && r.say
    ensures c.result == FinishedPop <==> (r.listen && r.say) || expired
    ensures c.result != FinishedAppend
  {
    if r.listen && r.say then Check(FinishedPop, true)
    else if expired then Check(FinishedPop, false)
    else Check(InProgress, false)
  }

  predicate CanHandleEvent(kind: EventType)
  {
    kind in {ListenAvailS, SayAvailS}
  }

  class CheckService {
    const servicesAvailable: BoolRef
    var listen: bool
    var say: bool
    const timer: Timer

    function Flags(): Readiness
      reads this
    {
      Readiness(listen, say)
    }

    /** Send the listen probe, then the say probe, and arm the timer. */
    constructor (servicesAvailable: BoolRef, storage: EventStorage)
      modifies storage
      ensures this.servicesAvailable == servicesAvailable
      ensures Flags() == Readiness(false, false) && timer == Armed(TIMEOUT_MS)
      ensures storage.events == old(storage.events) + [ListenAvailProbe, SayAvailProbe]
    {
      this.servicesAvailable := servicesAvailable;
      listen, say := false, false;
      timer := Armed(TIMEOUT_MS);
      new;
      storage.Add(ListenAvailProbe);
      storage.Add(SayAvailProbe);
    }

    method HandleEvent(e: Event)
      modifies this`listen, this`say
      ensures Flags() == Observe(old(Flags()), e)
    {
      var avail := ReadServiceAvail(e);
      if avail.None? {
        return;                     // the read failed: logged
      } else if !avail.value {
        return;
      }
      if e.kind == ListenAvailS {
        listen := true;
      } else if e.kind == SayAvailS {
        say := true;
      }
    }

    method Update(expired: bool) returns (r: ModuleResult)
      modifies servicesAvailable
      ensures var c := Decide(old(Flags()), expired);
        && r == c.result
        && servicesAvailable.value == (if c.reportAvailable then true else old(servicesAvailable.value))
    {
      if listen && say {
        servicesAvailable.value := true;
        return FinishedPop;
      } else if expired {
        return FinishedPop;
      }
      return InProgress;
    }
  }
}
