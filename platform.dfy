/**
 The boundary every dialogue module of the voice application shares with its host
 libraries: the event kinds and the payloads the event codec reads out of them, the
 outbound event storage, the module timer, the answer a module gives the host after
 an update, and the C-string view of character buffers.
 */
module Platform {

  /** An unsigned 32-bit value (MRH_Uint32). */
  newtype u32 = x: int | 0 <= x < 0x1_0000_0000

  /** The largest u32, written `(MRH_Uint32) - 1` in the C++ source. */
  const U32_MAX: int := 0xFFFF_FFFF

  datatype Option<T> = None | Some(value: T)

  /** A value, or the message of the exception that was thrown instead. */
  datatype Result<T> = Success(value: T) | Failure(error: string)

  /** What a module's Update tells the host loop. */
  datatype ModuleResult = InProgress | FinishedPop | FinishedAppend

  /**
   The module timer. It is either not set (never armed since the last reset) or armed
   with a duration. Whether an armed timer has finished depends on the clock, so every
   Update that asks takes it as an `expired` input.
   */
  datatype Timer = Unset | Armed(durationMs: nat)

  /** Event type codes the modules distinguish; every other code is OtherType. */
  datatype EventType =
    | ListenAvailS | SayAvailS | ListenStringS | SayStringS
    | OtherType(code: u32)

  /** The part marker of a speech string event (MRH_EVD_L_STRING_END or ..._UNFINISHED). */
  datatype StringType = Unfinished | End

  /** The fields of a listen-string event. `text` is the raw character buffer. */
  datatype ListenStringData = ListenStringData(id: u32, part: u32, strType: StringType, text: seq<char>)

  /**
   What the event codec reads out of an inbound event; Unreadable stands for a read
   that fails (MRH_EVD_ReadEvent returning a negative value) and for data of another
   shape than the one asked for.
   */
  datatype Payload =
    | Unreadable
    | ServiceAvail(success: bool)   // success: u8_Available == MRH_EVD_BASE_RESULT_SUCCESS
    | ListenString(data: ListenStringData)
    | SayString(id: u32)

  datatype Event = Event(kind: EventType, payload: Payload)

  /** The fields of one outbound say-string part. */
  datatype Fragment = Fragment(id: u32, part: u32, strType: StringType, text: seq<char>)

  /** Outbound events: the two availability probes and the two shapes of say-string event. */
  datatype OutEvent =
    | ListenAvailProbe
    | SayAvailProbe
    | SayFragment(fragment: Fragment)
    | SayBuffer(id: u32, buffer: seq<char>)

  function ReadServiceAvail(e: Event): (r: Option<bool>)
    ensures r.Some? <==> e.payload.ServiceAvail?
  {
    if e.payload.ServiceAvail? then Some(e.payload.success) else None
  }

  function ReadListenString(e: Event): (r: Option<ListenStringData>)
    ensures r.Some? <==> e.payload.ListenString?
  {
    if e.payload.ListenString? then Some(e.payload.data) else None
  }

  function ReadSayString(e: Event): (r: Option<u32>)
    ensures r.Some? <==> e.payload.SayString?
  {
    if e.payload.SayString? then Some(e.payload.id) else None
  }

  /**
   The C string a character buffer holds: its characters up to the first NUL, or all of
   them when it holds none.
   */
  function CStr(buf: seq<char>): (s: seq<char>)
    ensures |s| <= |buf| && s == buf[..|s|]
    ensures '\0' !in s
    ensures |s| < |buf| ==> buf[|s|] == '\0'
  {
    if buf == [] || buf[0] == '\0' then [] else [buf[0]] + CStr(buf[1..])
  }

  /** A buffer whose first NUL is at `n` holds the C string of its first `n` characters. */
  lemma {:induction false} CStrAt(buf: seq<char>, n: nat)
    requires n < |buf| && buf[n] == '\0' && '\0' !in buf[..n]
    ensures CStr(buf) == buf[..n]
  {
    if n > 0 {
      assert buf[0] in buf[..n];
      assert buf[1..][..n - 1] == buf[1..n];
      assert forall c :: c in buf[1..n] ==> c in buf[..n];
      CStrAt(buf[1..], n - 1);
    }
  }

  /** A string without NUL is its own C string. */
  lemma {:induction false} CStrOfText(s: seq<char>)
    requires '\0' !in s
    ensures CStr(s) == s
  {
    if s != [] {
      assert s[0] in s;
      assert forall c :: c in s[1..] ==> c in s;
      CStrOfText(s[1..]);
      assert s == [s[0]] + s[1..];
    }
  }

  /** A successful availability answer of `kind` is among `es`. */
  ghost predicate Available(es: seq<Event>, kind: EventType)
  {
    exists i :: 0 <= i < |es| && es[i].kind == kind && ReadServiceAvail(es[i]) == Some(true)
  }

  /** The first `n` characters of `s`, or all of them when there are fewer. */
  function Truncate(s: seq<char>, n: nat): (t: seq<char>)
    ensures |t| == if |s| < n then |s| else n
    ensures t == s[..|t|]
  {
    if |s| <= n then s else s[..n]
  }

  /** The process-wide outbound event queue (MRH_EventStorage). */
  class EventStorage {
    var events: seq<OutEvent>

    constructor ()
      ensures events == []
    {
      events := [];
    }

    method Add(e: OutEvent)
      modifies this
      ensures events == old(events) + [e]
    {
      events := events + [e];
    }
  }

  /** A `std::string&` that two modules share. */
  class StringRef {
    var value: string

    constructor (v: string)
      ensures value == v
    {
      value := v;
    }
  }

  /** A `bool&` a module writes for its caller. */
  class BoolRef {
    var value: bool

    constructor (v: bool)
      ensures value == v
    {
      value := v;
    }
  }
}
