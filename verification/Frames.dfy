/** Newline-delimited watch frames arriving in arbitrary chunks. */
module Frames {
  import opened Wrappers

  type Byte = b: int | 0 <= b < 256

  const NEWLINE: Byte := 10
  const MAX_FRAME := 16 * 1024 * 1024

  datatype Error = TooLong | NotJson

  /** What is left pending after some bytes, and the events they completed. */
  datatype Progress<T> = Reading(pending: seq<Byte>, events: seq<T>) | Broken(error: Error)

  /** `u8::is_ascii_whitespace`. */
  predicate IsBlank(b: Byte) { b in {32, 9, 10, 12, 13} }

  predicate AllBlank(frame: seq<Byte>) { forall b | b in frame :: IsBlank(b) }

  // ---------------------------------------------------------------- the stream, byte by byte

  /** The end of a frame: a blank line is a heartbeat, anything else must decode. */
  function Complete<T>(frame: seq<Byte>, events: seq<T>, decode: seq<Byte> -> Option<T>): Progress<T> {
    if AllBlank(frame) then Reading([], events)
    else match decode(frame)
      case None => Broken(NotJson)
      case Some(event) => Reading([], events + [event])
  }

  function Consume<T>(s: Progress<T>, b: Byte, decode: seq<Byte> -> Option<T>): Progress<T> {
    if s.Broken? then s
    else if |s.pending| >= MAX_FRAME then Broken(TooLong)
    else if b == NEWLINE then Complete(s.pending + [b], s.events, decode)
    else Reading(s.pending + [b], s.events)
  }

  /** What a byte stream means, whatever it is cut into. */
  function Scan<T>(s: Progress<T>, bytes: seq<Byte>, decode: seq<Byte> -> Option<T>): Progress<T> {
    if bytes == [] then s
    else Consume(Scan(s, bytes[..|bytes| - 1], decode), bytes[|bytes| - 1], decode)
  }

  lemma {:induction false} ScanAppend<T>(s: Progress<T>, a: seq<Byte>, b: seq<Byte>, decode: seq<Byte> -> Option<T>)
    ensures Scan(s, a + b, decode) == Scan(Scan(s, a, decode), b, decode)
  {
    if b == [] {
      assert a + b == a;
    } else {
      assert (a + b)[..|a + b| - 1] == a + b[..|b| - 1];
      ScanAppend(s, a, b[..|b| - 1], decode);
    }
  }

  /** Events already delivered do not affect what follows. */
  function After<T>(events: seq<T>, s: Progress<T>): Progress<T> {
    if s.Broken? then s else Reading(s.pending, events + s.events)
  }

  lemma {:induction false} ScanAfter<T>(pending: seq<Byte>, events: seq<T>, bytes: seq<Byte>, decode: seq<Byte> -> Option<T>)
    ensures Scan(Reading(pending, events), bytes, decode) == After(events, Scan(Reading(pending, []), bytes, decode))
  {
    if bytes == [] {
      assert events + [] == events;
    } else {
      var before := bytes[..|bytes| - 1];
      ScanAfter(pending, events, before, decode);
      var s := Scan(Reading(pending, []), before, decode);
      if s.Reading? {
        forall e: T ensures events + s.events + [e] == events + (s.events + [e]) {
        }
      }
    }
  }

  ghost predicate Plain(bytes: seq<Byte>) { forall i | 0 <= i < |bytes| :: bytes[i] != NEWLINE }

  /** A stretch without a newline only grows the pending frame, until it is too long. */
  lemma {:induction false} ScanPlain<T>(pending: seq<Byte>, events: seq<T>, part: seq<Byte>, decode: seq<Byte> -> Option<T>)
    requires Plain(part) && |pending| <= MAX_FRAME
    ensures Scan(Reading(pending, events), part, decode) ==
            if |pending| + |part| <= MAX_FRAME then Reading(pending + part, events) else Broken(TooLong)
  {
    if part != [] {
      var before := part[..|part| - 1];
      assert part == before + [part[|part| - 1]];
      ScanPlain(pending, events, before, decode);
    }
  }

  /** One part of `split_inclusive`: up to and including the first newline. */
  ghost predicate IsPart(part: seq<Byte>) {
    part != [] && Plain(part[..|part| - 1])
  }

  lemma {:induction false} ScanPart<T>(pending: seq<Byte>, events: seq<T>, part: seq<Byte>, decode: seq<Byte> -> Option<T>)
    requires IsPart(part) && |pending| <= MAX_FRAME
    ensures Scan(Reading(pending, events), part, decode) ==
            if |pending| + |part| > MAX_FRAME then Broken(TooLong)
            else if part[|part| - 1] == NEWLINE then Complete(pending + part, events, decode)
            else Reading(pending + part, events)
  {
    var before := part[..|part| - 1];
    assert part == before + [part[|part| - 1]];
    assert pending + part == pending + before + [part[|part| - 1]];
    ScanPlain(pending, events, before, decode);
  }

  // ---------------------------------------------------------------- the buffer

  class Buffer<T> {
    var pending: seq<Byte>
    const decode: seq<Byte> -> Option<T>

    constructor (decode: seq<Byte> -> Option<T>)
      ensures pending == [] && this.decode == decode
    {
      pending := [];
      this.decode := decode;
    }

    method Push(chunk: seq<Byte>) returns (r: Result<seq<T>, Error>)
      requires |pending| <= MAX_FRAME
      modifies this
      ensures match Scan(Reading(old(pending), []), chunk, decode)
              case Reading(left, events) => r == Ok(events) && pending == left && |pending| <= MAX_FRAME
              case Broken(error) => r == Err(error)
    {
      var events: seq<T> := [];
      var done := 0;
      while done < |chunk|
        invariant 0 <= done <= |chunk| && |pending| <= MAX_FRAME
        invariant Scan(Reading(old(pending), []), chunk[..done], decode) == Reading(pending, events)
      {
        var next := EndOfPart(chunk, done);
        var part := chunk[done..next];
        assert chunk[..next] == chunk[..done] + part;
        ScanAppend(Reading(old(pending), []), chunk[..done], part, decode);
        ScanPart(pending, events, part, decode);
        assert chunk == chunk[..next] + chunk[next..];
        ScanAppend(Reading(old(pending), []), chunk[..next], chunk[next..], decode);
        if |pending| + |part| > MAX_FRAME {
          BrokenStays(TooLong, chunk[next..], decode);
          return Err(TooLong);
        }
        pending := pending + part;
        if part[|part| - 1] == NEWLINE {
          if !AllBlank(pending) {
            var event := decode(pending);
            if event.None? {
              BrokenStays(NotJson, chunk[next..], decode);
              return Err(NotJson);
            }
            events := events + [event.value];
          }
          pending := [];
        }
        done := next;
      }
      assert chunk[..done] == chunk;
      return Ok(events);
    }
  }

  method EndOfPart(chunk: seq<Byte>, from: nat) returns (next: nat)
    requires from < |chunk|
    ensures from < next <= |chunk| && IsPart(chunk[from..next])
    ensures next == |chunk| || chunk[next - 1] == NEWLINE
  {
    next := from + 1;
    while next < |chunk| && chunk[next - 1] != NEWLINE
      invariant from < next <= |chunk| && forall i | from <= i < next - 1 :: chunk[i] != NEWLINE
    {
      next := next + 1;
    }
    assert chunk[from..next][..next - from - 1] == chunk[from..next - 1];
  }

  lemma {:induction false} BrokenStays<T>(error: Error, bytes: seq<Byte>, decode: seq<Byte> -> Option<T>)
    ensures Scan(Broken(error), bytes, decode) == Broken(error)
  {
    if bytes != [] {
      BrokenStays(error, bytes[..|bytes| - 1], decode);
    }
  }

  // ---------------------------------------------------------------- chunking

  /** Pushing chunks one after another: the events of all of them, or the first failure. */
  function PushAll<T>(s: Progress<T>, chunks: seq<seq<Byte>>, decode: seq<Byte> -> Option<T>): Progress<T>
    decreases chunks
  {
    if chunks == [] || s.Broken? then s
    else PushAll(After(s.events, Scan(Reading(s.pending, []), chunks[0], decode)), chunks[1..], decode)
  }

  function Concat(chunks: seq<seq<Byte>>): seq<Byte> {
    if chunks == [] then [] else chunks[0] + Concat(chunks[1..])
  }

  /**
   * Chunking invariance: however a stream is cut, the events, the pending tail and any failure
   * are those of pushing it whole.
   */
  lemma {:induction false} ChunkingIsIrrelevant<T>(s: Progress<T>, chunks: seq<seq<Byte>>, decode: seq<Byte> -> Option<T>)
    decreases chunks
    ensures PushAll(s, chunks, decode) == Scan(s, Concat(chunks), decode)
  {
    if s.Broken? {
      BrokenStays(s.error, Concat(chunks), decode);
    } else if chunks != [] {
      ScanAfter(s.pending, s.events, chunks[0], decode);
      ScanAppend(s, chunks[0], Concat(chunks[1..]), decode);
      ChunkingIsIrrelevant(Scan(s, chunks[0], decode), chunks[1..], decode);
    }
  }
}
