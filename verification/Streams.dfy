// What a byte stream says, whatever chunks it arrives in: length-prefixed messages
// (src/cookie-bridge/framing.js) and delimited ones (src/cookie-bridge/line-channel.js,
// src/broker/cdp-proxy.js PipeConnection).
module Streams {
  import opened Cookies

  type Byte = b: nat | b < 256

  /** What a decoder reports: a message's bytes, or that it gives up. */
  datatype Event = Message(body: seq<Byte>) | Fatal(size: nat)

  /** Where it stands: the bytes of an unfinished message, or given up. */
  datatype Rest = Waiting(bytes: seq<Byte>) | Dead

  datatype Outcome = Outcome(events: seq<Event>, rest: Rest)

  function Concat<T>(parts: seq<seq<T>>): seq<T> {
    if parts == [] then [] else parts[0] + Concat(parts[1..])
  }

  lemma {:induction false} ConcatThen<T>(parts: seq<seq<T>>, last: seq<T>)
    ensures Concat(parts + [last]) == Concat(parts) + last
  {
    if parts == [] {
      assert parts + [last] == [last];
      assert Concat([last]) == last + Concat([last][1..]);
    } else {
      assert (parts + [last])[1..] == parts[1..] + [last];
      ConcatThen(parts[1..], last);
    }
  }

  // ── length-prefixed ──

  function Word(head: seq<Byte>): nat
    requires |head| >= 4
  {
    head[0] as int + 256 * (head[1] as int + 256 * (head[2] as int + 256 * head[3] as int))
  }

  function Header(n: nat): (head: seq<Byte>)
    ensures |head| == 4
  {
    [n % 256, n / 256 % 256, n / 65536 % 256, n / 16777216 % 256]
  }

  lemma HeaderRead(n: nat, body: seq<Byte>)
    requires n < 4294967296
    ensures Word(Header(n) + body) == n
  {
    assert n / 65536 == n / 256 / 256 && n / 16777216 == n / 65536 / 256;
  }

  /** The frames of a stream; a frame over `max` bytes ends it. */
  function Frames(s: seq<Byte>, max: nat): (o: Outcome)
    decreases |s|
  {
    if |s| < 4 then Outcome([], Waiting(s))
    else if Word(s) > max then Outcome([Fatal(Word(s))], Dead)
    else if |s| < 4 + Word(s) then Outcome([], Waiting(s))
    else
      var o := Frames(s[4 + Word(s)..], max);
      Outcome([Message(s[4..4 + Word(s)])] + o.events, o.rest)
  }

  // ── delimited ──

  /** The first place of d, or the length. */
  function Find(s: seq<Byte>, d: Byte): (i: nat)
    ensures i <= |s| && (i < |s| ==> s[i] == d) && forall j :: 0 <= j < i ==> s[j] != d
  {
    if s == [] || s[0] == d then 0 else Find(s[1..], d) + 1
  }

  lemma FindIs(s: seq<Byte>, d: Byte, i: nat)
    requires i <= |s| && (i < |s| ==> s[i] == d) && forall j :: 0 <= j < i ==> s[j] != d
    ensures Find(s, d) == i
  {
  }

  predicate Over(i: nat, max: Option<nat>) {
    max.Some? && i > max.value
  }

  /** The lines of a stream; a line over the limit, if there is one, finished or not, ends it. */
  function Lines(s: seq<Byte>, d: Byte, max: Option<nat>): (o: Outcome)
    decreases |s|
  {
    var i := Find(s, d);
    if Over(i, max) then Outcome([Fatal(max.value)], Dead)
    else if i == |s| then Outcome([], Waiting(s))
    else
      var o := Lines(s[i + 1..], d, max);
      Outcome([Message(s[..i])] + o.events, o.rest)
  }

  // ── a decoder's state takes one chunk after another ──

  /** Either decoder, on a stream that goes on after `rest`. */
  datatype Format = Framed(max: nat) | Delimited(d: Byte, lineMax: Option<nat>)

  function Decode(f: Format, s: seq<Byte>): Outcome {
    match f
    case Framed(max) => Frames(s, max)
    case Delimited(d, max) => Lines(s, d, max)
  }

  /** A chunk arrives. */
  function Take(f: Format, o: Outcome, chunk: seq<Byte>): Outcome {
    match o.rest
    case Dead => o
    case Waiting(bytes) => var next := Decode(f, bytes + chunk); Outcome(o.events + next.events, next.rest)
  }

  function TakeAll(f: Format, o: Outcome, chunks: seq<seq<Byte>>): Outcome
    decreases |chunks|
  {
    if chunks == [] then o else TakeAll(f, Take(f, o, chunks[0]), chunks[1..])
  }

  lemma {:induction false} FramesThen(s: seq<Byte>, more: seq<Byte>, max: nat)
    ensures Frames(s + more, max) == Take(Framed(max), Frames(s, max), more)
    decreases |s|
  {
    if |s| >= 4 {
      var n := Word(s);
      assert Word(s + more) == n;
      if n <= max && |s| >= 4 + n {
        assert (s + more)[4 + n..] == s[4 + n..] + more;
        assert (s + more)[4..4 + n] == s[4..4 + n];
        FramesThen(s[4 + n..], more, max);
        OneMore(Framed(max), Message(s[4..4 + n]), Frames(s[4 + n..], max), more);
      }
    }
  }

  lemma FindThen(s: seq<Byte>, more: seq<Byte>, d: Byte)
    ensures Find(s + more, d) == if Find(s, d) < |s| then Find(s, d) else |s| + Find(more, d)
  {
    var i := if Find(s, d) < |s| then Find(s, d) else |s| + Find(more, d);
    FindIs(s + more, d, i);
  }

  lemma {:induction false} LinesThen(s: seq<Byte>, more: seq<Byte>, d: Byte, max: Option<nat>)
    ensures Lines(s + more, d, max) == Take(Delimited(d, max), Lines(s, d, max), more)
    decreases |s|
  {
    hide Find;
    var i := Find(s, d);
    FindThen(s, more, d);
    if !Over(i, max) && i < |s| {
      assert (s + more)[i + 1..] == s[i + 1..] + more && (s + more)[..i] == s[..i];
      LinesThen(s[i + 1..], more, d, max);
      var tail := Lines(s[i + 1..], d, max);
      OneMore(Delimited(d, max), Message(s[..i]), tail, more);
    }
  }

  /** A message before everything stays before everything. */
  lemma OneMore(f: Format, e: Event, o: Outcome, more: seq<Byte>)
    ensures Take(f, Outcome([e] + o.events, o.rest), more) == Outcome([e] + Take(f, o, more).events, Take(f, o, more).rest)
  {
    if o.rest.Waiting? {
      var next := Decode(f, o.rest.bytes + more);
      assert [e] + o.events + next.events == [e] + (o.events + next.events);
    }
  }

  lemma DecodeThen(f: Format, s: seq<Byte>, more: seq<Byte>)
    ensures Decode(f, s + more) == Take(f, Decode(f, s), more)
  {
    match f
    case Framed(max) => FramesThen(s, more, max);
    case Delimited(d, max) => LinesThen(s, more, d, max);
  }

  lemma {:induction false} ChunksFrom(f: Format, s: seq<Byte>, chunks: seq<seq<Byte>>)
    ensures TakeAll(f, Decode(f, s), chunks) == Decode(f, s + Concat(chunks))
    decreases |chunks|
  {
    hide Decode, Take;
    if chunks == [] {
      assert s + Concat(chunks) == s;
    } else {
      DecodeThen(f, s, chunks[0]);
      ChunksFrom(f, s + chunks[0], chunks[1..]);
      assert s + chunks[0] + Concat(chunks[1..]) == s + Concat(chunks);
    }
  }

  /** However the stream is split, the decoder reports what the whole stream says and ends where it does. */
  lemma ChunkingIsInvisible(f: Format, chunks: seq<seq<Byte>>)
    ensures TakeAll(f, Outcome([], Waiting([])), chunks) == Decode(f, Concat(chunks))
  {
    assert Find([], 0) == 0;
    assert Decode(f, []) == Outcome([], Waiting([]));
    ChunksFrom(f, [], chunks);
    assert [] + Concat(chunks) == Concat(chunks);
  }

  // ── encoding ──

  function Messages(bodies: seq<seq<Byte>>): seq<Event> {
    if bodies == [] then [] else [Message(bodies[0])] + Messages(bodies[1..])
  }

  function FramesOf(bodies: seq<seq<Byte>>): seq<Byte> {
    if bodies == [] then [] else Header(|bodies[0]|) + bodies[0] + FramesOf(bodies[1..])
  }

  function LinesOf(bodies: seq<seq<Byte>>, d: Byte): seq<Byte> {
    if bodies == [] then [] else bodies[0] + [d] + LinesOf(bodies[1..], d)
  }

  lemma FrameFirst(body: seq<Byte>, rest: seq<Byte>, max: nat)
    requires |body| <= max < 4294967296
    ensures Frames(Header(|body|) + body + rest, max) == Outcome([Message(body)] + Frames(rest, max).events,
        Frames(rest, max).rest)
  {
    var s := Header(|body|) + body + rest;
    assert s == Header(|body|) + (body + rest);
    HeaderRead(|body|, body + rest);
    assert s[4..4 + |body|] == body && s[4 + |body|..] == rest;
  }

  /** Decoding a concatenation of frames gives the messages back, and nothing is left over. */
  lemma {:induction false} FramesRoundTrip(bodies: seq<seq<Byte>>, max: nat)
    requires max < 4294967296 && forall b :: b in bodies ==> |b| <= max
    ensures Frames(FramesOf(bodies), max) == Outcome(Messages(bodies), Waiting([]))
    decreases |bodies|
  {
    if bodies != [] {
      FramesRoundTrip(bodies[1..], max);
      FrameFirst(bodies[0], FramesOf(bodies[1..]), max);
    }
  }

  lemma LineFirst(body: seq<Byte>, d: Byte, rest: seq<Byte>, max: Option<nat>)
    requires d !in body && !Over(|body|, max)
    ensures Lines(body + [d] + rest, d, max) == Outcome([Message(body)] + Lines(rest, d, max).events, Lines(rest, d, max).rest)
  {
    var s := body + [d] + rest;
    FindIs(s, d, |body|);
    assert s[..|body|] == body && s[|body| + 1..] == rest;
  }

  lemma {:induction false} LinesRoundTrip(bodies: seq<seq<Byte>>, d: Byte, max: Option<nat>)
    requires forall b :: b in bodies ==> d !in b && !Over(|b|, max)
    ensures Lines(LinesOf(bodies, d), d, max) == Outcome(Messages(bodies), Waiting([]))
    decreases |bodies|
  {
    if bodies != [] {
      LinesRoundTrip(bodies[1..], d, max);
      LineFirst(bodies[0], d, LinesOf(bodies[1..], d), max);
    }
  }

  // ── what is not whole, and what is too long ──

  lemma NothingLeftOver(bytes: seq<Byte>)
    ensures [] + bytes == bytes
  {
  }

  /** After whole messages, the start of a frame within the limit is waited for. */
  lemma PartIsAwaited(bodies: seq<seq<Byte>>, part: seq<Byte>, max: nat)
    requires max < 4294967296 && forall b :: b in bodies ==> |b| <= max
    requires |part| >= 4 ==> Word(part) <= max && |part| < 4 + Word(part)
    ensures Frames(FramesOf(bodies) + part, max) == Outcome(Messages(bodies), Waiting(part))
  {
    FramesRoundTrip(bodies, max);
    FramesThen(FramesOf(bodies), part, max);
    NothingLeftOver(part);
    assert Messages(bodies) + [] == Messages(bodies);
  }

  /** A frame said to be longer than the limit ends the stream as soon as its length is in, whatever follows: nothing after it is read. */
  lemma LongFrameIsFatal(bodies: seq<seq<Byte>>, n: nat, more: seq<Byte>, max: nat)
    requires max < n < 4294967296 && forall b :: b in bodies ==> |b| <= max
    ensures Frames(FramesOf(bodies) + (Header(n) + more), max) == Outcome(Messages(bodies) + [Fatal(n)], Dead)
  {
    FramesRoundTrip(bodies, max);
    FramesThen(FramesOf(bodies), Header(n) + more, max);
    NothingLeftOver(Header(n) + more);
    HeaderRead(n, more);
  }

  /** A line longer than the limit ends the stream too, finished or not, and what follows it is not read. */
  lemma LongLineIsFatal(bodies: seq<seq<Byte>>, line: seq<Byte>, more: seq<Byte>, d: Byte, max: nat)
    requires d !in line && |line| > max && (forall b :: b in bodies ==> d !in b && |b| <= max)
    ensures Lines(LinesOf(bodies, d) + (line + more), d, Some(max)) == Outcome(Messages(bodies) + [Fatal(max)], Dead)
  {
    hide Find;
    LinesRoundTrip(bodies, d, Some(max));
    LinesThen(LinesOf(bodies, d), line + more, d, Some(max));
    NothingLeftOver(line + more);
    FindThen(line, more, d);
    FindIs(line, d, |line|);
  }

  /** An unfinished line within the limit is waited for. */
  lemma LineIsAwaited(bodies: seq<seq<Byte>>, line: seq<Byte>, d: Byte, max: Option<nat>)
    requires d !in line && !Over(|line|, max) && (forall b :: b in bodies ==> d !in b && !Over(|b|, max))
    ensures Lines(LinesOf(bodies, d) + line, d, max) == Outcome(Messages(bodies), Waiting(line))
  {
    hide Find;
    LinesRoundTrip(bodies, d, max);
    LinesThen(LinesOf(bodies, d), line, d, max);
    NothingLeftOver(line);
    FindIs(line, d, |line|);
    assert Messages(bodies) + [] == Messages(bodies);
  }
}
