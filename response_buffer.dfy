/**
  The HTTP event handler of the IoT controller: a function-static length
  counter and the caller's fixed 4096-byte response buffer. Data events are
  appended with clamping to 4095 bytes and a NUL terminator; connect, finish
  and disconnect events reset the counter.
*/
module ResponseBuffer {
  newtype byte = x: int | 0 <= x < 256

  /** The size of every response buffer the controller hands to the handler. */
  const MaxResponseBuffer: nat := 4096
  /** The most bytes a response buffer can hold before its NUL terminator. */
  const Capacity: nat := MaxResponseBuffer - 1

  /** The events of the ESP HTTP client. A data event carries its bytes and
      whether the response uses chunked transfer encoding. */
  datatype HttpEvent =
    | EventError | OnConnected | HeaderSent | OnHeader
    | OnData(data: seq<byte>, chunked: bool)
    | OnFinish | Disconnected | Redirect

  function Zeros(n: nat): (z: seq<byte>)
    ensures |z| == n && forall i :: 0 <= i < n ==> z[i] == 0
  {
    seq(n, _ => 0)
  }

  /** The first `n` elements of `s`, or all of `s` when it is shorter. */
  function Take<T>(s: seq<T>, n: nat): (t: seq<T>)
    ensures |t| == if |s| <= n then |s| else n
    ensures t <= s
  {
    if |s| <= n then s else s[..n]
  }

  /** How many bytes of a `dataLen`-byte chunk fit behind `len` stored bytes
      (zero or negative when none do). */
  function CopyLen(len: nat, dataLen: nat): int {
    if len + dataLen > Capacity then Capacity - len else dataLen
  }

  /** The buffer after copying the fitting part of `data` behind `len` bytes and
      terminating it. */
  function Append(buf: seq<byte>, len: nat, data: seq<byte>): (r: seq<byte>)
    requires |buf| == MaxResponseBuffer && len <= Capacity
    requires CopyLen(len, |data|) > 0
    ensures var n := CopyLen(len, |data|);
      && |r| == |buf|
      && len + n <= Capacity
      && r[..len] == buf[..len]
      && r[len..len + n] == data[..n]
      && r[len + n] == 0
      && r[len + n + 1..] == buf[len + n + 1..]
  {
    var n := CopyLen(len, |data|);
    seq(|buf|, i requires 0 <= i < |buf| =>
      if i < len then buf[i]
      else if i < len + n then data[i - len]
      else if i == len + n then 0
      else buf[i])
  }

  /** The counter after one event. A data event only counts when the response
      is not chunked and there is a buffer to copy into. */
  function NextLen(len: nat, e: HttpEvent, hasBuffer: bool): (r: nat)
    requires len <= Capacity
    ensures r <= Capacity
    ensures e.OnData? ==> r >= len && r - len <= |e.data|
    ensures e.OnData? && (e.chunked || !hasBuffer) ==> r == len
    ensures e.OnConnected? || e.OnFinish? || e.Disconnected? ==> r == 0
    ensures !e.OnData? && !e.OnConnected? && !e.OnFinish? && !e.Disconnected? ==> r == len
  {
    match e
    case OnConnected => 0
    case OnFinish => 0
    case Disconnected => 0
    case OnData(data, chunked) =>
      if chunked || !hasBuffer then len
      else
        var n := CopyLen(len, |data|);
        if n > 0 then len + n else len
    case _ => len
  }

  /** The buffer after one event; only a data event that copies bytes changes it. */
  function NextBuf(buf: seq<byte>, len: nat, e: HttpEvent): seq<byte>
    requires |buf| == MaxResponseBuffer && len <= Capacity
  {
    if e.OnData? && !e.chunked && CopyLen(len, |e.data|) > 0 then Append(buf, len, e.data) else buf
  }

  /** The handler's state as seen by one request: the caller's buffer and the counter. */
  datatype Sink = Sink(buf: seq<byte>, len: nat) {
    ghost predicate Valid() { |buf| == MaxResponseBuffer && len <= Capacity }
  }

  function Step(s: Sink, e: HttpEvent): (r: Sink)
    requires s.Valid()
    ensures r.Valid()
  {
    Sink(NextBuf(s.buf, s.len, e), NextLen(s.len, e, true))
  }

  /** The state after a whole sequence of events, in order. */
  function Run(s: Sink, events: seq<HttpEvent>): (r: Sink)
    requires s.Valid()
    ensures r.Valid()
    decreases events
  {
    if events == [] then s else Run(Step(s, events[0]), events[1..])
  }

  /** The data events of a plain (non-chunked) response delivered in `chunks`. */
  function DataEvents(chunks: seq<seq<byte>>, chunked: bool): (es: seq<HttpEvent>)
    ensures |es| == |chunks|
    ensures forall i :: 0 <= i < |chunks| ==> es[i] == OnData(chunks[i], chunked)
  {
    seq(|chunks|, i requires 0 <= i < |chunks| => OnData(chunks[i], chunked))
  }

  /** The whole body: the chunks concatenated in order. */
  function Flatten(chunks: seq<seq<byte>>): seq<byte> {
    if chunks == [] then [] else chunks[0] + Flatten(chunks[1..])
  }

  lemma TakeOfTake(a: seq<byte>, b: seq<byte>, n: nat)
    ensures Take(Take(a, n) + b, n) == Take(a + b, n)
  {
    if |a| > n {
      assert (a + b)[..n] == a[..n];
    }
  }

  /** One data event on a buffer that holds `p` followed by zeros leaves it
      holding the clamped concatenation followed by zeros. */
  lemma AppendToZeroPadded(p: seq<byte>, data: seq<byte>)
    requires |p| <= Capacity
    ensures var s := Step(Sink(p + Zeros(MaxResponseBuffer - |p|), |p|), OnData(data, false));
      var q := Take(p + data, Capacity);
      s == Sink(q + Zeros(MaxResponseBuffer - |q|), |q|)
  {
    var buf := p + Zeros(MaxResponseBuffer - |p|);
    var n := CopyLen(|p|, |data|);
    var q := Take(p + data, Capacity);
    if n > 0 {
      var r := Append(buf, |p|, data);
      assert |q| == |p| + n;
      assert r[..|p|] == p;
      assert q == p + data[..n];
      assert r[|p| + n..] == Zeros(MaxResponseBuffer - |q|) by {
        assert r[|p| + n] == 0;
        assert r[|p| + n + 1..] == buf[|p| + n + 1..];
      }
      assert r == r[..|p|] + r[|p|..|p| + n] + r[|p| + n..];
    } else {
      assert q == p;
    }
  }

  lemma {:induction false} RunDataOnZeroPadded(p: seq<byte>, chunks: seq<seq<byte>>)
    requires |p| <= Capacity
    ensures var q := Take(p + Flatten(chunks), Capacity);
      Run(Sink(p + Zeros(MaxResponseBuffer - |p|), |p|), DataEvents(chunks, false))
        == Sink(q + Zeros(MaxResponseBuffer - |q|), |q|)
    decreases chunks
  {
    var es := DataEvents(chunks, false);
    var s := Sink(p + Zeros(MaxResponseBuffer - |p|), |p|);
    if chunks == [] {
      assert es == [];
      assert Take(p + [], Capacity) == p;
    } else {
      var p' := Take(p + chunks[0], Capacity);
      RunFirst(s, es);
      AppendToZeroPadded(p, chunks[0]);
      DataEventsTail(chunks, false);
      RunDataOnZeroPadded(p', chunks[1..]);
      TakeOfTake(p + chunks[0], Flatten(chunks[1..]), Capacity);
      FlattenFirst(p, chunks);
    }
  }

  /** Running a non-empty sequence is one step, then the rest. */
  lemma RunFirst(s: Sink, es: seq<HttpEvent>)
    requires s.Valid() && es != []
    ensures Run(s, es) == Run(Step(s, es[0]), es[1..])
  {
  }

  lemma DataEventsTail(chunks: seq<seq<byte>>, chunked: bool)
    requires chunks != []
    ensures DataEvents(chunks, chunked)[1..] == DataEvents(chunks[1..], chunked)
  {
  }

  lemma FlattenFirst(p: seq<byte>, chunks: seq<seq<byte>>)
    requires chunks != []
    ensures p + chunks[0] + Flatten(chunks[1..]) == p + Flatten(chunks)
  {
  }

  /** Events other than data leave an empty sink empty: they copy nothing and
      either reset the counter or keep it at zero. */
  lemma {:induction false} NonDataKeepsEmpty(s: Sink, es: seq<HttpEvent>)
    requires s.Valid() && s.len == 0
    requires forall i :: 0 <= i < |es| ==> !es[i].OnData?
    ensures Run(s, es) == s
    decreases es
  {
    if es != [] {
      NonDataKeepsEmpty(Step(s, es[0]), es[1..]);
    }
  }

  /** A plain response received into a zeroed buffer: after connect, any
      header events, the data events and finish, the buffer holds exactly the
      first min(|body|, 4095) bytes of the body followed by zeros, whatever the
      counter held before. Bytes past the capacity are dropped without any
      signal. */
  lemma {:induction false} ResponseBufferHoldsClampedBody(len: nat, headers: seq<HttpEvent>,
                                                         chunks: seq<seq<byte>>)
    requires len <= Capacity
    requires forall i :: 0 <= i < |headers| ==> !headers[i].OnData?
    ensures var body := Take(Flatten(chunks), Capacity);
      var events := [OnConnected] + headers + DataEvents(chunks, false) + [OnFinish];
      Run(Sink(Zeros(MaxResponseBuffer), len), events)
        == Sink(body + Zeros(MaxResponseBuffer - |body|), 0)
  {
    var body := Take(Flatten(chunks), Capacity);
    var zs := Zeros(MaxResponseBuffer);
    var datas := DataEvents(chunks, false);
    var events := [OnConnected] + headers + datas + [OnFinish];
    RunConcat(Sink(zs, len), [OnConnected], headers + (datas + [OnFinish]));
    assert [OnConnected] + (headers + (datas + [OnFinish])) == events;
    var s1 := Step(Sink(zs, len), OnConnected);
    assert Run(Sink(zs, len), [OnConnected]) == s1 by {
      assert [OnConnected][1..] == [];
    }
    assert s1 == Sink([] + Zeros(MaxResponseBuffer - 0), 0);
    RunConcat(s1, headers, datas + [OnFinish]);
    NonDataKeepsEmpty(s1, headers);
    RunConcat(s1, datas, [OnFinish]);
    RunDataOnZeroPadded([], chunks);
    assert [] + Flatten(chunks) == Flatten(chunks);
    var s2 := Sink(body + Zeros(MaxResponseBuffer - |body|), |body|);
    assert Run(s2, [OnFinish]) == Step(s2, OnFinish) by {
      assert [OnFinish][1..] == [];
    }
  }

  /** A chunked response copies nothing: the buffer is left as it was. */
  lemma {:induction false} ChunkedResponseCopiesNothing(s: Sink, chunks: seq<seq<byte>>)
    requires s.Valid()
    ensures Run(s, DataEvents(chunks, true)) == s
    decreases chunks
  {
    var es := DataEvents(chunks, true);
    if chunks != [] {
      assert es[1..] == DataEvents(chunks[1..], true);
      ChunkedResponseCopiesNothing(Step(s, es[0]), chunks[1..]);
    }
  }

  lemma {:induction false} RunConcat(s: Sink, a: seq<HttpEvent>, b: seq<HttpEvent>)
    requires s.Valid()
    ensures Run(s, a + b) == Run(Run(s, a), b)
    decreases a
  {
    if a != [] {
      assert (a + b)[1..] == a[1..] + b;
      RunConcat(Step(s, a[0]), a[1..], b);
    } else {
      assert a + b == b;
    }
  }

  /** The handler's only state: the static length counter shared by all requests. */
  class EventHandler {
    var outputLen: int

    ghost predicate Valid() reads this {
      0 <= outputLen <= Capacity
    }

    constructor ()
      ensures Valid() && outputLen == 0
    {
      outputLen := 0;
    }

    /** Handles one client event; `userData` is the caller's response buffer, if any. */
    method HandleEvent(e: HttpEvent, userData: array?<byte>)
      requires Valid()
      requires userData != null ==> userData.Length == MaxResponseBuffer
      modifies this, userData
      ensures Valid()
      ensures outputLen == NextLen(old(outputLen), e, userData != null)
      ensures userData != null ==> userData[..] == NextBuf(old(userData[..]), old(outputLen), e)
    {
      match e {
        case OnConnected =>
          outputLen := 0;
        case OnData(data, chunked) =>
          if !chunked && userData != null {
            var copyLen := |data|;
            if outputLen + copyLen > Capacity {
              copyLen := Capacity - outputLen;
            }
            if copyLen > 0 {
              ghost var before := userData[..];
              var start := outputLen;
              for i := 0 to copyLen
                invariant forall k :: 0 <= k < start ==> userData[k] == before[k]
                invariant forall k :: 0 <= k < i ==> userData[start + k] == data[k]
                invariant forall k :: start + i <= k < MaxResponseBuffer ==> userData[k] == before[k]
                invariant outputLen == start
              {
                userData[start + i] := data[i];
              }
              outputLen := start + copyLen;
              userData[outputLen] := 0;
              assert userData[..] == Append(before, old(outputLen), data);
            }
          }
        case OnFinish =>
          outputLen := 0;
        case Disconnected =>
          outputLen := 0;
        case _ =>
      }
    }
  }
}
