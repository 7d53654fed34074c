/**
 * The bounded-wait read loop of the serial port, as a specification over a script of
 * what select and ::read report.
 *
 * Each loop iteration waits with select and, when the descriptor is ready, reads at most
 * the bytes still missing. The script says, per iteration, what happened; once it is
 * exhausted the line is taken to be silent, so the next select times out.
 */
module BoundedRead {

  /** What one iteration of the loop observes. */
  datatype Event =
    | SelectFailed              // select returned a negative value
    | SelectTimedOut            // select returned 0: no data within the wait
    | ReadyNotSet               // select returned a positive value but the descriptor is not in the set
    | ReadFailed                // the descriptor was ready and ::read returned a negative value
    | Received(chunk: seq<bv8>) // the descriptor was ready and ::read delivered these bytes
  {
    predicate IsError() { SelectFailed? || ReadFailed? }
  }

  /** The `struct timeval` handed to select. */
  datatype TimeVal = TimeVal(sec: int, usec: int)

  /** What one call of the loop produces: its return value, the bytes placed in the buffer, and how many times it waited. */
  datatype ReadOutcome = ReadOutcome(code: int, data: seq<bv8>, selects: nat)

  /** C's `/`, which truncates toward zero. */
  function CQuot(a: int, b: int): int
    requires b > 0
  {
    if a >= 0 then a / b else -((-a) / b)
  }

  /** C's `%`, whose sign follows the dividend. */
  function CRem(a: int, b: int): int
    requires b > 0
  {
    a - CQuot(a, b) * b
  }

  /**
   * The wait armed before each select: `_timeout / 1000` seconds and
   * `(_timeout % 1000) * 1000` microseconds, with C's division.
   */
  function SelectTimeout(ms: int): (tv: TimeVal)
    ensures tv.sec * 1_000_000 + tv.usec == ms * 1000
    ensures ms >= 0 ==> tv.sec >= 0 && 0 <= tv.usec < 1_000_000
    ensures ms < 0 ==> tv.sec <= 0 && -1_000_000 < tv.usec <= 0
  {
    TimeVal(CQuot(ms, 1000), CRem(ms, 1000) * 1000)
  }

  /** The number of bytes a call may place in the buffer: `len`, or none when `len` is not positive. */
  function Want(len: int): nat
  {
    if len < 0 then 0 else len
  }

  /** The bytes ::read returns when asked for at most `want` of the `chunk` waiting on the line. */
  function Take(chunk: seq<bv8>, want: nat): (r: seq<bv8>)
    ensures |r| <= want && |r| <= |chunk| && r == chunk[..|r|]
    ensures |chunk| <= want ==> r == chunk
  {
    if |chunk| <= want then chunk else chunk[..want]
  }

  /** `r` with `n` more select calls counted. */
  function Waited(r: ReadOutcome, n: nat): ReadOutcome
  {
    r.(selects := r.selects + n)
  }

  /**
   * The outcome of the loop from script position `from` on, once `got` has already been
   * read: -1 on a select or ::read error, otherwise the count accumulated when `len` is
   * reached or a wait times out. `data` is everything placed in the buffer, also when the
   * call ends in an error.
   */
  function ReadLoop(events: seq<Event>, from: nat, len: int, got: seq<bv8>): (r: ReadOutcome)
    requires from <= |events|
    requires |got| <= Want(len)
    ensures |got| <= |r.data| <= Want(len)
    ensures r.code == -1 || r.code == |r.data|
    ensures |got| < len ==> r.selects > 0
    decreases |events| - from
  {
    if |got| >= len then ReadOutcome(|got|, got, 0)
    else if from == |events| then ReadOutcome(|got|, got, 1)
    else match events[from]
      case SelectFailed => ReadOutcome(-1, got, 1)
      case SelectTimedOut => ReadOutcome(|got|, got, 1)
      case ReadyNotSet => Waited(ReadLoop(events, from + 1, len, got), 1)
      case ReadFailed => ReadOutcome(-1, got, 1)
      case Received(chunk) => Waited(ReadLoop(events, from + 1, len, got + Take(chunk, len - |got|)), 1)
  }

  /** The outcome of one call of the loop over the whole script. */
  function ReadCall(events: seq<Event>, len: int): (r: ReadOutcome)
    ensures r.code == -1 || 0 <= r.code <= Want(len)
    ensures r.code != -1 ==> r.code == |r.data|
  {
    ReadLoop(events, 0, len, [])
  }

  /** Bytes already accumulated stay at the head of the buffer, whatever the rest of the call does. */
  lemma {:induction false} ReadKeepsAccumulated(events: seq<Event>, from: nat, len: int, got: seq<bv8>)
    requires from <= |events|
    requires |got| <= Want(len)
    ensures ReadLoop(events, from, len, got).data[..|got|] == got
    decreases |events| - from
  {
    if |got| < len && from < |events| {
      match events[from]
      case ReadyNotSet =>
        ReadKeepsAccumulated(events, from + 1, len, got);
      case Received(chunk) =>
        var next := got + Take(chunk, len - |got|);
        ReadKeepsAccumulated(events, from + 1, len, next);
        assert next[..|got|] == got;
      case _ =>
    }
  }

  /** The script that delivers each of `chunks` in turn. */
  function Deliveries(chunks: seq<seq<bv8>>): (events: seq<Event>)
    ensures |events| == |chunks|
    ensures forall j :: 0 <= j < |chunks| ==> events[j] == Received(chunks[j])
  {
    seq(|chunks|, j requires 0 <= j < |chunks| => Received(chunks[j]))
  }

  /** All of `chunks`, back to back. */
  function Concat(chunks: seq<seq<bv8>>): seq<bv8>
  {
    if chunks == [] then [] else chunks[0] + Concat(chunks[1..])
  }

  /**
   * Chunks that together stay short of `len` are accumulated across as many waits as they
   * take; the loop then goes on with the rest of the script from the accumulated bytes.
   */
  lemma {:induction false} AccumulatesAcrossWaits(chunks: seq<seq<bv8>>, events: seq<Event>, from: nat, len: int, got: seq<bv8>)
    requires from + |chunks| <= |events|
    requires forall j :: 0 <= j < |chunks| ==> events[from + j] == Received(chunks[j])
    requires |got + Concat(chunks)| < len
    ensures ReadLoop(events, from, len, got)
         == Waited(ReadLoop(events, from + |chunks|, len, got + Concat(chunks)), |chunks|)
    decreases |chunks|
  {
    if chunks == [] {
      assert got + Concat(chunks) == got;
    } else {
      var c := chunks[0];
      assert events[from] == Received(c);
      assert Take(c, len - |got|) == c;
      assert got + c + Concat(chunks[1..]) == got + Concat(chunks);
      forall j | 0 <= j < |chunks[1..]|
        ensures events[from + 1 + j] == Received(chunks[1..][j])
      {
        assert events[from + (j + 1)] == Received(chunks[j + 1]);
      }
      AccumulatesAcrossWaits(chunks[1..], events, from + 1, len, got + c);
    }
  }

  /** A wait that times out after a short delivery returns the partial count, not an error. */
  lemma TimeoutReturnsPartialCount(chunks: seq<seq<bv8>>, rest: seq<Event>, len: int)
    requires |Concat(chunks)| < len
    ensures ReadCall(Deliveries(chunks) + [SelectTimedOut] + rest, len).code == |Concat(chunks)|
    ensures ReadCall(Deliveries(chunks) + [SelectTimedOut] + rest, len).data == Concat(chunks)
  {
    var events := Deliveries(chunks) + [SelectTimedOut] + rest;
    assert [] + Concat(chunks) == Concat(chunks);
    AccumulatesAcrossWaits(chunks, events, 0, len, []);
    assert events[|chunks|] == SelectTimedOut;
  }

  /** A select or ::read error returns -1 even after bytes were accumulated in the same call. */
  lemma ErrorDiscardsPartialCount(chunks: seq<seq<bv8>>, failure: Event, rest: seq<Event>, len: int)
    requires |Concat(chunks)| < len
    requires failure.IsError()
    ensures ReadCall(Deliveries(chunks) + [failure] + rest, len).code == -1
    ensures ReadCall(Deliveries(chunks) + [failure] + rest, len).data == Concat(chunks)
  {
    var events := Deliveries(chunks) + [failure] + rest;
    assert [] + Concat(chunks) == Concat(chunks);
    AccumulatesAcrossWaits(chunks, events, 0, len, []);
    assert events[|chunks|] == failure;
  }

  /**
   * Once the deliveries reach `len` bytes, the call returns `len` and the buffer holds the
   * first `len` bytes delivered; the rest of the script is never consulted.
   */
  lemma {:induction false} FullRequestReturnsLen(chunks: seq<seq<bv8>>, events: seq<Event>, from: nat, len: int, got: seq<bv8>)
    requires from + |chunks| <= |events|
    requires forall j :: 0 <= j < |chunks| ==> events[from + j] == Received(chunks[j])
    requires |got| <= len <= |got + Concat(chunks)|
    ensures ReadLoop(events, from, len, got).code == len
    ensures ReadLoop(events, from, len, got).data == (got + Concat(chunks))[..len]
    decreases |chunks|
  {
    if |got| == len {
      assert (got + Concat(chunks))[..len] == got;
    } else {
      assert chunks != [];
      var c := chunks[0];
      assert events[from] == Received(c);
      var next := got + Take(c, len - |got|);
      assert got + Concat(chunks) == got + c + Concat(chunks[1..]);
      if |c| <= len - |got| {
        assert next == got + c;
        assert next + Concat(chunks[1..]) == got + Concat(chunks);
      } else {
        assert |next| == len;
        assert next == (got + Concat(chunks))[..len];
        assert (next + Concat(chunks[1..]))[..len] == next;
      }
      forall j | 0 <= j < |chunks[1..]|
        ensures events[from + 1 + j] == Received(chunks[1..][j])
      {
        assert events[from + (j + 1)] == Received(chunks[j + 1]);
      }
      FullRequestReturnsLen(chunks[1..], events, from + 1, len, next);
    }
  }

  /** A script whose deliveries reach `len` bytes makes the call return `len` with those bytes. */
  lemma FilledRequest(chunks: seq<seq<bv8>>, rest: seq<Event>, len: int)
    requires 0 <= len <= |Concat(chunks)|
    ensures ReadCall(Deliveries(chunks) + rest, len).code == len
    ensures ReadCall(Deliveries(chunks) + rest, len).data == Concat(chunks)[..len]
  {
    assert [] + Concat(chunks) == Concat(chunks);
    FullRequestReturnsLen(chunks, Deliveries(chunks) + rest, 0, len, []);
  }

  /** The call returns -1 only when the script reports a select or ::read error. */
  lemma {:induction false} ErrorOnlyFromFailedCall(events: seq<Event>, from: nat, len: int, got: seq<bv8>)
    requires from <= |events|
    requires |got| <= Want(len)
    ensures ReadLoop(events, from, len, got).code == -1 ==>
      exists k :: from <= k < |events| && events[k].IsError()
    decreases |events| - from
  {
    if |got| < len && from < |events| {
      match events[from]
      case ReadyNotSet =>
        ErrorOnlyFromFailedCall(events, from + 1, len, got);
      case Received(chunk) =>
        ErrorOnlyFromFailedCall(events, from + 1, len, got + Take(chunk, len - |got|));
      case _ =>
    }
  }

  /**
   * The single-byte read: the byte when exactly one arrived, else -1. A timeout with no
   * byte is reported like an error, unlike the multi-byte read.
   */
  function ByteReply(r: ReadOutcome): (b: int)
    ensures b == -1 || 0 <= b < 256
    ensures b != -1 <==> r.code == 1 && |r.data| >= 1
    ensures b != -1 ==> b == r.data[0] as int
  {
    if r.code == 1 && |r.data| >= 1 then r.data[0] as int else -1
  }

  /** One delivered byte comes back from the single-byte read; a silent line gives -1 where the multi-byte read gives 0. */
  lemma SingleByteReplies(b: bv8, rest: seq<Event>)
    ensures ByteReply(ReadCall([Received([b])] + rest, 1)) == b as int
    ensures ReadCall([SelectTimedOut] + rest, 1).code == 0
    ensures ByteReply(ReadCall([SelectTimedOut] + rest, 1)) == -1
  {
    var events := [Received([b])] + rest;
    assert events[0] == Received([b]);
    assert [] + Take([b], 1) == [b];
    assert ReadLoop(events, 1, 1, [b]) == ReadOutcome(1, [b], 0);
  }
}
