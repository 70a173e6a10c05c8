/** Reading a content stream to completion (`streamToBuffer`). */
module Streams {
  import opened Outcomes

  newtype byte = x: int | 0 <= x < 256

  type Bytes = seq<byte>

  /** What a readable stream emits, in order: data chunks, then "end" or "error". */
  datatype Event = Data(chunk: Bytes) | Error(message: string) | End

  /** `Buffer.concat(chunks)`: the chunks joined in order; empty only when every chunk is. */
  function Concat(chunks: seq<Bytes>): (r: Bytes)
    ensures r == [] <==> forall k :: 0 <= k < |chunks| ==> chunks[k] == []
  {
    if chunks == [] then [] else chunks[0] + Concat(chunks[1..])
  }

  lemma {:induction false} ConcatAppend(chunks: seq<Bytes>, chunk: Bytes)
    ensures Concat(chunks + [chunk]) == Concat(chunks) + chunk
    decreases |chunks|
  {
    if chunks != [] {
      assert (chunks + [chunk])[1..] == chunks[1..] + [chunk];
      ConcatAppend(chunks[1..], chunk);
    }
  }

  /** What the promise of reading the events settles to, taken event by event: the first
      "error" rejects it, the first "end" fulfils it with the chunks seen so far, and without
      either it never settles. */
  function Drained(events: seq<Event>): (r: Settlement<Bytes>)
    ensures r.Rejected? ==> r.reason.StreamError?
    decreases |events|
  {
    if events == [] then Pending
    else match events[0]
      case Data(chunk) => Prefixed(chunk, Drained(events[1..]))
      case Error(message) => Rejected(StreamError(message))
      case End => Fulfilled([])
  }

  /** Bytes put in front of a fulfilled value; other settlements unchanged. */
  function Prefixed(bytes: Bytes, s: Settlement<Bytes>): Settlement<Bytes> {
    if s.Fulfilled? then Fulfilled(bytes + s.value) else s
  }

  lemma PrefixedTwice(first: Bytes, second: Bytes, s: Settlement<Bytes>)
    ensures Prefixed(first, Prefixed(second, s)) == Prefixed(first + second, s)
  {
    if s.Fulfilled? {
      assert first + (second + s.value) == (first + second) + s.value;
    }
  }

  /** The events a stream emits when it delivers these chunks and ends. */
  function Delivering(chunks: seq<Bytes>): (events: seq<Event>)
    ensures |events| == |chunks|
    ensures forall i :: 0 <= i < |chunks| ==> events[i] == Data(chunks[i])
  {
    if chunks == [] then [] else [Data(chunks[0])] + Delivering(chunks[1..])
  }

  /** A stream that delivers its chunks and ends yields their concatenation, in arrival order,
      whatever it emits afterwards. */
  lemma {:induction false} DrainedDelivering(chunks: seq<Bytes>, after: seq<Event>)
    ensures Drained(Delivering(chunks) + [End] + after) == Fulfilled(Concat(chunks))
    decreases |chunks|
  {
    var events := Delivering(chunks) + [End] + after;
    if chunks == [] {
      assert events[0] == End;
    } else {
      assert events[0] == Data(chunks[0]);
      assert events[1..] == Delivering(chunks[1..]) + [End] + after;
      DrainedDelivering(chunks[1..], after);
    }
  }

  /** A stream that delivers some chunks and then fails rejects, whatever it emits afterwards. */
  lemma {:induction false} DrainedFailing(chunks: seq<Bytes>, message: string, after: seq<Event>)
    ensures Drained(Delivering(chunks) + [Error(message)] + after) == Rejected(StreamError(message))
    decreases |chunks|
  {
    var events := Delivering(chunks) + [Error(message)] + after;
    if chunks == [] {
      assert events[0] == Error(message);
    } else {
      assert events[0] == Data(chunks[0]);
      assert events[1..] == Delivering(chunks[1..]) + [Error(message)] + after;
      DrainedFailing(chunks[1..], message, after);
    }
  }

  /** A stream that only delivers data never settles. */
  lemma {:induction false} DrainedOpen(chunks: seq<Bytes>)
    ensures Drained(Delivering(chunks)) == Pending
    decreases |chunks|
  {
    if chunks != [] {
      assert Delivering(chunks)[1..] == Delivering(chunks[1..]);
      DrainedOpen(chunks[1..]);
    }
  }

  /** `streamToBuffer`: the "data" listener pushes every chunk, the "error" listener rejects,
      the "end" listener resolves with the chunks so far; a promise settles only once. */
  method StreamToBuffer(events: seq<Event>) returns (r: Settlement<Bytes>)
    ensures r == Drained(events)
  {
    var chunks: seq<Bytes> := [];
    r := Pending;
    var i := 0;
    assert events[i..] == events;
    assert Prefixed(Concat(chunks), Drained(events)) == Drained(events) by {
      if Drained(events).Fulfilled? {
        assert [] + Drained(events).value == Drained(events).value;
      }
    }
    while i < |events|
      invariant 0 <= i <= |events|
      invariant r.Pending? ==> Drained(events) == Prefixed(Concat(chunks), Drained(events[i..]))
      invariant !r.Pending? ==> r == Drained(events)
    {
      assert events[i..][0] == events[i] && events[i..][1..] == events[i + 1..];
      match events[i] {
        case Data(chunk) =>
          ConcatAppend(chunks, chunk);
          PrefixedTwice(Concat(chunks), chunk, Drained(events[i + 1..]));
          chunks := chunks + [chunk];
        case Error(message) =>
          assert Drained(events[i..]) == Rejected(StreamError(message));
          if r.Pending? {
            r := Rejected(StreamError(message));
          }
        case End =>
          assert Drained(events[i..]) == Fulfilled([]);
          assert Concat(chunks) + [] == Concat(chunks);
          if r.Pending? {
            r := Fulfilled(Concat(chunks));
          }
      }
      i := i + 1;
    }
  }
}
