// The incremental decoders, updated in place by each chunk that arrives
// (src/cookie-bridge/framing.js MessageReader, src/cookie-bridge/line-channel.js
// readLines, src/broker/cdp-proxy.js PipeConnection).
module Decoders {
  import opened Cookies
  import opened Streams

  lemma ConcatOne<T>(part: seq<T>)
    ensures Concat([part]) == part && Concat<T>([]) == []
  {
    assert Concat([part]) == part + Concat([part][1..]);
  }

  const MAX_TO_CHROME_BYTES := 1048576

  /** One message for Chrome, or None past its limit. The reader gives it back. */
  method EncodeMessage(body: seq<Byte>) returns (frame: Option<seq<Byte>>)
    ensures frame.None? <==> |body| > MAX_TO_CHROME_BYTES
    ensures frame.Some? ==> Frames(frame.value, MAX_TO_CHROME_BYTES) == Outcome([Message(body)], Waiting([]))
    ensures frame.Some? ==>
      var f := frame.value;
      |f| == 4 + |body| && f[4..] == body && f[0] as int + f[1] as int * 256 + f[2] as int * 65536 + f[3] as int * 16777216 == |body|
  {
    if |body| > MAX_TO_CHROME_BYTES { return None; }
    var head := Header(|body|);
    FrameFirst(body, [], MAX_TO_CHROME_BYTES);
    assert head + body + [] == head + body;
    HeaderRead(|body|, body);
    frame := Some(head + body);
  }

  /** `events`: what was reported, in order. Whether a message parses is a function of its bytes. */
  class MessageReader {
    const maxBytes: nat
    var chunks: seq<seq<Byte>>
    var size: nat
    var len: Option<nat>
    var failed: bool
    var events: seq<Event>

    constructor (maxBytes: nat)
      ensures Valid() && View() == Outcome([], Waiting([])) && this.maxBytes == maxBytes
    {
      this.maxBytes := maxBytes;
      chunks, size, len, failed, events := [], 0, None, false, [];
    }

    ghost function View(): Outcome
      reads this
    {
      Outcome(events, if failed then Dead else Waiting(Concat(chunks)))
    }

    ghost predicate Consistent()
      reads this
    {
      && size == |Concat(chunks)|
      && (len.Some? ==> !failed && size >= 4 && Word(Concat(chunks)) == len.value <= maxBytes)
    }

    ghost predicate Valid()
      reads this
    {
      Consistent()
    }

    method Push(chunk: seq<Byte>)
      requires Valid()
      modifies `chunks, `size, `len, `failed, `events
      ensures Valid() && View() == Take(Framed(maxBytes), old(View()), chunk)
    {
      hide Frames, Concat;
      if failed { return; }
      ghost var before := events;
      ghost var target := Frames(Concat(chunks) + chunk, maxBytes);
      ConcatThen(chunks, chunk);
      chunks := chunks + [chunk];
      size := size + |chunk|;
      while size >= 4
        invariant Consistent() && !failed
        invariant var o := Frames(Concat(chunks), maxBytes);
                  before + target.events == events + o.events && target.rest == o.rest
        decreases size
      {
        ReadLength();
        if failed { return; }
        FrameNext(Concat(chunks), maxBytes);
        if size < 4 + len.value { return; }
        NextFrame();
      }
      FrameNext(Concat(chunks), maxBytes);
    }

    /** The header is in: remember the length, or give up when it is too large. */
    method ReadLength()
      requires Consistent() && !failed && size >= 4
      modifies `chunks, `size, `len, `failed, `events
      ensures Consistent()
      ensures var s := old(Concat(chunks));
              if Word(s) > maxBytes then failed && events == old(events) + [Fatal(Word(s))]
              else !failed && len == Some(Word(s)) && Concat(chunks) == s && events == old(events)
      ensures failed ==> Frames(old(Concat(chunks)), maxBytes) == Outcome([Fatal(Word(old(Concat(chunks))))], Dead)
    {
      if len.Some? { return; }
      if |chunks[0]| < 4 {
        ConcatOne(Concat(chunks));
        chunks := [Concat(chunks)];
      }
      assert Concat(chunks) == chunks[0] + Concat(chunks[1..]);
      len := Some(Word(chunks[0]));
      if len.value > maxBytes {
        events := events + [Fatal(len.value)];
        failed, chunks, size, len := true, [], 0, None;
      }
    }

    method NextFrame()
      requires Consistent() && len.Some? && size >= 4 + len.value
      modifies `chunks, `size, `len, `events
      ensures Consistent() && len.None?
      ensures var s, n := old(Concat(chunks)), old(len.value);
              events == old(events) + [Message(s[4..4 + n])] && Concat(chunks) == s[4 + n..]
    {
      ConcatOne(Concat(chunks));
      var buf := if |chunks| == 1 then chunks[0] else Concat(chunks);
      assert |chunks| == 1 ==> chunks == [chunks[0]];
      if |chunks| == 1 { ConcatOne(chunks[0]); }
      var n := len.value;
      len := None;
      var rest := buf[4 + n..];
      ConcatOne(rest);
      chunks := if |rest| > 0 then [rest] else [];
      size := |rest|;
      events := events + [Message(buf[4..4 + n])];
    }
  }

  /** The first frame of a stream, when it is all there. */
  lemma FrameNext(s: seq<Byte>, max: nat)
    ensures |s| < 4 ==> Frames(s, max) == Outcome([], Waiting(s))
    ensures |s| >= 4 && Word(s) <= max && |s| < 4 + Word(s) ==> Frames(s, max) == Outcome([], Waiting(s))
    ensures |s| >= 4 && Word(s) <= max && |s| >= 4 + Word(s) ==>
      var o := Frames(s[4 + Word(s)..], max);
      Frames(s, max) == Outcome([Message(s[4..4 + Word(s)])] + o.events, o.rest)
  {
  }

  /** Where d is next, from `start`; -1 if nowhere. */
  method IndexOf(buf: seq<Byte>, d: Byte, start: nat) returns (i: int)
    requires start <= |buf|
    ensures i == -1 || start <= i < |buf|
    ensures i == -1 ==> Find(buf[start..], d) == |buf| - start
    ensures i >= 0 ==> Find(buf[start..], d) == i - start
  {
    for j := start to |buf|
      invariant forall x :: start <= x < j ==> buf[x] != d
    {
      if buf[j] == d {
        FindIs(buf[start..], d, j - start);
        return j;
      }
    }
    FindIs(buf[start..], d, |buf| - start);
    i := -1;
  }

  lemma FindAfter(pending: seq<Byte>, tail: seq<Byte>, d: Byte)
    requires d !in pending
    ensures Find(pending + tail, d) == |pending| + Find(tail, d)
  {
    FindIs(pending + tail, d, |pending| + Find(tail, d));
  }

  lemma LineAt(s: seq<Byte>, d: Byte, max: Option<nat>)
    ensures
      var i := Find(s, d);
      && (Over(i, max) ==> Lines(s, d, max) == Outcome([Fatal(max.value)], Dead))
      && (!Over(i, max) && i == |s| ==> Lines(s, d, max) == Outcome([], Waiting(s)))
      && (!Over(i, max) && i < |s| ==>
            var o := Lines(s[i + 1..], d, max);
            Lines(s, d, max) == Outcome([Message(s[..i])] + o.events, o.rest))
  {
    hide Find;
  }

  lemma LineNext(pending: seq<Byte>, tail: seq<Byte>, d: Byte, max: Option<nat>)
    requires d !in pending
    ensures
      var i := Find(tail, d);
      && (Over(|pending| + i, max) ==> Lines(pending + tail, d, max) == Outcome([Fatal(max.value)], Dead))
      && (!Over(|pending| + i, max) && i == |tail| ==> Lines(pending + tail, d, max) == Outcome([], Waiting(pending + tail)))
      && (!Over(|pending| + i, max) && i < |tail| ==>
            var o := Lines(tail[i + 1..], d, max);
            Lines(pending + tail, d, max) == Outcome([Message(pending + tail[..i])] + o.events, o.rest))
  {
    hide Find, Lines;
    var i := Find(tail, d);
    var s := pending + tail;
    FindAfter(pending, tail, d);
    LineAt(s, d, max);
    if i < |tail| {
      assert s[..|pending| + i] == pending + tail[..i] && s[|pending| + i + 1..] == tail[i + 1..];
    }
  }

  const NEWLINE: Byte := 10

  class LineReader {
    const maxBytes: nat
    var chunks: seq<seq<Byte>>
    var size: nat
    var dead: bool
    var events: seq<Event>

    constructor (maxBytes: nat)
      ensures Valid() && View() == Outcome([], Waiting([])) && this.maxBytes == maxBytes
    {
      this.maxBytes := maxBytes;
      chunks, size, dead, events := [], 0, false, [];
    }

    ghost function View(): Outcome
      reads this
    {
      Outcome(events, if dead then Dead else Waiting(Concat(chunks)))
    }

    ghost predicate Valid()
      reads this
    {
      size == |Concat(chunks)| && NEWLINE !in Concat(chunks)
    }

    method Receive(buf: seq<Byte>)
      requires Valid()
      modifies `chunks, `size, `dead, `events
      ensures Valid() && View() == Take(Delimited(NEWLINE, Some(maxBytes)), old(View()), buf)
    {
      hide Lines, Concat, Find;
      if dead { return; }
      ghost var before, pending := events, Concat(chunks);
      ghost var target := Lines(pending + buf, NEWLINE, Some(maxBytes));
      var start := 0;
      assert buf[0..] == buf;
      var i := IndexOf(buf, NEWLINE, start);
      while i >= 0
        invariant Valid() && !dead && 0 <= start <= |buf| && (i == -1 || start <= i < |buf|)
        invariant Find(buf[start..], NEWLINE) == if i >= 0 then i - start else |buf| - start
        invariant var o := Lines(Concat(chunks) + buf[start..], NEWLINE, Some(maxBytes));
                  before + target.events == events + o.events && target.rest == o.rest
        decreases |buf| - start, i
      {
        if size + (i - start) > maxBytes { break; }
        LineNext(Concat(chunks), buf[start..], NEWLINE, Some(maxBytes));
        assert buf[start..][i - start + 1..] == buf[i + 1..] && buf[start..][..i - start] == buf[start..i];
        ConcatThen(chunks, buf[start..i]);
        ghost var line, rest := Concat(chunks) + buf[start..i], Lines(buf[i + 1..], NEWLINE, Some(maxBytes));
        assert events + ([Message(line)] + rest.events) == events + [Message(line)] + rest.events;
        events := events + [Message(Concat(chunks + [buf[start..i]]))];
        assert before + target.events == events + rest.events && target.rest == rest.rest;
        ConcatNone();
        chunks, size := [], 0;
        start := i + 1;
        assert [] + buf[start..] == buf[start..];
        i := IndexOf(buf, NEWLINE, start);
      }
      LineNext(Concat(chunks), buf[start..], NEWLINE, Some(maxBytes));
      var tail := buf[start..];
      size := size + |tail|;
      ConcatThen(chunks, tail);
      if size > maxBytes {
        events := events + [Fatal(maxBytes)];
        ConcatNone();
        dead, chunks, size := true, [], 0;
        return;
      }
      if |tail| > 0 { chunks := chunks + [tail]; }
    }
  }

  lemma ConcatNone()
    ensures Concat<Byte>([]) == []
  {
  }

  const NUL: Byte := 0

  /** Brave's side of the pipe: no limit. */
  class PipeReader {
    var chunks: seq<seq<Byte>>
    var events: seq<Event>

    constructor ()
      ensures Valid() && View() == Outcome([], Waiting([]))
    {
      chunks, events := [], [];
    }

    ghost function View(): Outcome
      reads this
    {
      Outcome(events, Waiting(Concat(chunks)))
    }

    ghost predicate Valid()
      reads this
    {
      NUL !in Concat(chunks)
    }

    method OnData(buf: seq<Byte>)
      requires Valid()
      modifies `chunks, `events
      ensures Valid() && View() == Take(Delimited(NUL, None), old(View()), buf)
    {
      hide Lines, Concat, Find;
      ghost var before := events;
      ghost var target := Lines(Concat(chunks) + buf, NUL, None);
      var start := 0;
      assert buf[0..] == buf;
      var i := IndexOf(buf, NUL, start);
      while i != -1
        invariant Valid() && 0 <= start <= |buf| && (i == -1 || start <= i < |buf|)
        invariant Find(buf[start..], NUL) == if i >= 0 then i - start else |buf| - start
        invariant var o := Lines(Concat(chunks) + buf[start..], NUL, None);
                  before + target.events == events + o.events && target.rest == o.rest
        decreases |buf| - start, i
      {
        LineNext(Concat(chunks), buf[start..], NUL, None);
        assert buf[start..][i - start + 1..] == buf[i + 1..] && buf[start..][..i - start] == buf[start..i];
        ConcatThen(chunks, buf[start..i]);
        ghost var line, rest := Concat(chunks) + buf[start..i], Lines(buf[i + 1..], NUL, None);
        assert events + ([Message(line)] + rest.events) == events + [Message(line)] + rest.events;
        events := events + [Message(Concat(chunks + [buf[start..i]]))];
        assert before + target.events == events + rest.events && target.rest == rest.rest;
        ConcatNone();
        chunks := [];
        start := i + 1;
        assert [] + buf[start..] == buf[start..];
        i := IndexOf(buf, NUL, start);
      }
      LineNext(Concat(chunks), buf[start..], NUL, None);
      ConcatThen(chunks, buf[start..]);
      if start < |buf| { chunks := chunks + [buf[start..]]; }
    }
  }
}
