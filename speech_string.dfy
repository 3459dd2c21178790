/**
 The speech-string library the dialogue uses to split an outbound string into parts and
 to collect the parts of an inbound one. The library itself is outside this model: it is
 a value of type SpeechStringLib whose operations are arbitrary functions, so nothing
 below depends on how strings are split or when an inbound string counts as complete.
 What is modelled is how the dialogue walks the part map it gets back.
 */
module SpeechString {
  import opened Platform

  /** One inbound part, as handed to Reset/Add: its key, its C string, its terminal flag. */
  datatype InPart = InPart(part: u32, text: seq<char>, terminal: bool)

  /**
   `split` is SplitString (None: it threw); `complete` says whether the parts added since
   the last reset make a COMPLETE string; `assembled` is GetString of those parts.
   */
  datatype SpeechStringLib = SpeechStringLib(
    split: string -> Option<map<u32, string>>,
    complete: seq<InPart> -> bool,
    assembled: seq<InPart> -> string)

  predicate IsLeast(k: u32, s: set<u32>)
  {
    k in s && forall j :: j in s ==> k <= j
  }

  lemma {:induction false} LeastExists(s: set<u32>)
    requires s != {}
    ensures exists k :: IsLeast(k, s)
  {
    var x :| x in s;
    if s == {x} {
      assert IsLeast(x, s);
    } else {
      LeastExists(s - {x});
      var m :| IsLeast(m, s - {x});
      var least := if x < m then x else m;
      forall j | j in s
        ensures least <= j
      {
        if j != x {
          assert j in s - {x};
        }
      }
      assert IsLeast(least, s);
    }
  }

  /** The fragment StateSendOutput builds for key `k` when `last` says whether it is the last. */
  function FragmentFor(id: u32, parts: map<u32, string>, k: u32, last: bool): (f: Fragment)
    requires k in parts
  {
    Fragment(id, k, if last then End else Unfinished, CStr(parts[k]))
  }

  /**
   The say-string fragments StateSendOutput builds for the keys in `rest`, visiting them
   as a `std::map` iterates, in ascending order.
   */
  ghost function FragmentsFrom(id: u32, parts: map<u32, string>, rest: set<u32>): seq<Fragment>
    requires rest <= parts.Keys
    decreases rest
  {
    if rest == {} then []
    else
      LeastExists(rest);
      var k :| IsLeast(k, rest);
      [FragmentFor(id, parts, k, rest - {k} == {})] + FragmentsFrom(id, parts, rest - {k})
  }

  /** The fragment of the least remaining key is the next one out. */
  lemma FragmentsFromLeast(id: u32, parts: map<u32, string>, rest: set<u32>, k: u32)
    requires rest <= parts.Keys && IsLeast(k, rest)
    ensures FragmentsFrom(id, parts, rest)
            == [FragmentFor(id, parts, k, rest - {k} == {})] + FragmentsFrom(id, parts, rest - {k})
  {
  }

  /** One fragment per key, each for a key of `rest`, with `id` and the text of its part. */
  lemma {:induction false} FragmentsFromShape(id: u32, parts: map<u32, string>, rest: set<u32>)
    requires rest <= parts.Keys
    ensures var fs := FragmentsFrom(id, parts, rest);
      && |fs| == |rest|
      && forall i :: 0 <= i < |fs| ==>
           fs[i].id == id && fs[i].part in rest && fs[i].text == CStr(parts[fs[i].part])
    decreases rest
  {
    if rest != {} {
      LeastExists(rest);
      var k :| IsLeast(k, rest);
      FragmentsFromLeast(id, parts, rest, k);
      FragmentsFromShape(id, parts, rest - {k});
      assert |rest - {k}| == |rest| - 1;
    }
  }

  /** End marks the last fragment and no other. */
  lemma {:induction false} FragmentsFromEnd(id: u32, parts: map<u32, string>, rest: set<u32>)
    requires rest <= parts.Keys
    ensures var fs := FragmentsFrom(id, parts, rest);
      forall i :: 0 <= i < |fs| ==> (fs[i].strType == End <==> i == |fs| - 1)
    decreases rest
  {
    if rest != {} {
      LeastExists(rest);
      var k :| IsLeast(k, rest);
      FragmentsFromLeast(id, parts, rest, k);
      FragmentsFromEnd(id, parts, rest - {k});
      FragmentsFromShape(id, parts, rest - {k});
    }
  }

  /** Part indices strictly ascend. */
  lemma {:induction false} FragmentsFromAscending(id: u32, parts: map<u32, string>, rest: set<u32>)
    requires rest <= parts.Keys
    ensures var fs := FragmentsFrom(id, parts, rest);
      forall i, j :: 0 <= i < j < |fs| ==> fs[i].part < fs[j].part
    decreases rest
  {
    if rest != {} {
      LeastExists(rest);
      var k :| IsLeast(k, rest);
      FragmentsFromLeast(id, parts, rest, k);
      FragmentsFromAscending(id, parts, rest - {k});
      FragmentsFromShape(id, parts, rest - {k});
      var fs := FragmentsFrom(id, parts, rest);
      var tail := FragmentsFrom(id, parts, rest - {k});
      forall j | 0 < j < |fs|
        ensures fs[0].part < fs[j].part
      {
        assert fs[j] == tail[j - 1];
      }
    }
  }

  /** Every key of `rest` gets its fragment. */
  lemma {:induction false} FragmentsFromCover(id: u32, parts: map<u32, string>, rest: set<u32>)
    requires rest <= parts.Keys
    ensures var fs := FragmentsFrom(id, parts, rest);
      forall k :: k in rest ==> exists i :: 0 <= i < |fs| && fs[i].part == k
    decreases rest
  {
    if rest != {} {
      LeastExists(rest);
      var k :| IsLeast(k, rest);
      FragmentsFromLeast(id, parts, rest, k);
      FragmentsFromCover(id, parts, rest - {k});
      var fs := FragmentsFrom(id, parts, rest);
      var tail := FragmentsFrom(id, parts, rest - {k});
      forall k' | k' in rest
        ensures exists i :: 0 <= i < |fs| && fs[i].part == k'
      {
        if k' == k {
          assert fs[0].part == k';
        } else {
          assert k' in rest - {k};
          var i :| 0 <= i < |tail| && tail[i].part == k';
          assert fs[i + 1] == tail[i];
        }
      }
    }
  }

  /** Everything StateSendOutput builds from one split string, in the order it builds them. */
  ghost function Fragments(id: u32, parts: map<u32, string>): seq<Fragment>
  {
    FragmentsFrom(id, parts, parts.Keys)
  }

  /**
   One fragment per part, in strictly ascending part order, every one carrying `id` and the
   C string of its part, the last and only the last marked End, and every part covered.
   */
  lemma FragmentsSpec(id: u32, parts: map<u32, string>)
    ensures var fs := Fragments(id, parts);
      && |fs| == |parts|
      && (forall i :: 0 <= i < |fs| ==>
            fs[i].id == id && fs[i].part in parts && fs[i].text == CStr(parts[fs[i].part]))
      && (forall i :: 0 <= i < |fs| ==> (fs[i].strType == End <==> i == |fs| - 1))
      && (forall i, j :: 0 <= i < j < |fs| ==> fs[i].part < fs[j].part)
      && (forall k :: k in parts ==> exists i :: 0 <= i < |fs| && fs[i].part == k)
  {
    FragmentsFromShape(id, parts, parts.Keys);
    FragmentsFromEnd(id, parts, parts.Keys);
    FragmentsFromAscending(id, parts, parts.Keys);
    FragmentsFromCover(id, parts, parts.Keys);
    assert |parts.Keys| == |parts|;
  }

  /**
   The say-string events that got out: one per fragment the event codec could create and
   fill, in the order of the fragments.
   */
  function Emitted(delivered: Fragment -> bool, fs: seq<Fragment>): (events: seq<OutEvent>)
  {
    if fs == [] then []
    else (if delivered(fs[0]) then [SayFragment(fs[0])] else []) + Emitted(delivered, fs[1..])
  }

  /** Only fragments the codec let out appear, each as a say-string event, in their order. */
  lemma {:induction false} EmittedSubset(delivered: Fragment -> bool, fs: seq<Fragment>)
    ensures var es := Emitted(delivered, fs);
      && |es| <= |fs|
      && forall e :: e in es ==> e.SayFragment? && e.fragment in fs && delivered(e.fragment)
  {
    if fs != [] {
      EmittedSubset(delivered, fs[1..]);
    }
  }

  /** When every fragment gets out, the events are exactly the fragments, one by one. */
  lemma {:induction false} EmittedAll(delivered: Fragment -> bool, fs: seq<Fragment>)
    requires forall f :: f in fs ==> delivered(f)
    ensures var es := Emitted(delivered, fs);
      |es| == |fs| && forall i :: 0 <= i < |fs| ==> es[i] == SayFragment(fs[i])
  {
    if fs != [] {
      EmittedAll(delivered, fs[1..]);
    }
  }

  lemma EmittedCons(delivered: Fragment -> bool, f: Fragment, fs: seq<Fragment>)
    ensures Emitted(delivered, [f] + fs)
            == (if delivered(f) then [SayFragment(f)] else []) + Emitted(delivered, fs)
  {
    assert ([f] + fs)[1..] == fs;
  }

  /** One step of the send loop: emitting the head fragment keeps the events still to come. */
  lemma EmittedStep(delivered: Fragment -> bool, sent: seq<OutEvent>, f: Fragment, rest: seq<Fragment>, total: seq<OutEvent>)
    requires sent + Emitted(delivered, [f] + rest) == total
    ensures (sent + if delivered(f) then [SayFragment(f)] else []) + Emitted(delivered, rest) == total
  {
    EmittedCons(delivered, f, rest);
  }

  /**
   One step of the send loop: emitting the fragment of the least remaining key, or not,
   leaves the fragments of the other keys still to come.
   */
  lemma SendStep(delivered: Fragment -> bool, sent: seq<OutEvent>, id: u32, parts: map<u32, string>,
                 rest: set<u32>, k: u32, total: seq<OutEvent>)
    requires rest <= parts.Keys && IsLeast(k, rest)
    requires sent + Emitted(delivered, FragmentsFrom(id, parts, rest)) == total
    ensures var f := FragmentFor(id, parts, k, rest - {k} == {});
      && (delivered(f) ==> (sent + [SayFragment(f)]) + Emitted(delivered, FragmentsFrom(id, parts, rest - {k})) == total)
      && (!delivered(f) ==> sent + Emitted(delivered, FragmentsFrom(id, parts, rest - {k})) == total)
  {
    var f := FragmentFor(id, parts, k, rest - {k} == {});
    FragmentsFromLeast(id, parts, rest, k);
    EmittedStep(delivered, sent, f, FragmentsFrom(id, parts, rest - {k}), total);
    if !delivered(f) {
      assert sent + [] == sent;
    }
  }
}
