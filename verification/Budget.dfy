// Text clipped to a budget of JSON characters, and the budgets kept with it
// (src/own-tools/_tool-args.js fitJson, capture-xhr.js, extract-structured.js).
module Budget {
  import opened Cookies

  /** A UTF-16 code unit. */
  type Unit = c: nat | c < 0x10000

  type Text = seq<Unit>

  predicate High(c: Unit) { 0xD800 <= c < 0xDC00 }

  predicate Low(c: Unit) { 0xDC00 <= c < 0xE000 }

  /** Units i and i + 1 are the two halves of one character. */
  predicate PairAt(t: Text, i: nat) {
    i + 1 < |t| && High(t[i]) && Low(t[i + 1])
  }

  predicate EndsInPair(t: Text) {
    |t| >= 2 && PairAt(t, |t| - 2)
  }

  /** What a unit that is no half of a pair takes in JSON: quotes and backslashes double, other control characters and lone
      surrogates become \uXXXX. */
  function Cost(c: Unit): (n: nat)
    ensures 1 <= n <= 6
  {
    if c == 0x22 || c == 0x5C || 8 <= c <= 10 || c == 12 || c == 13 then 2
    else if c < 0x20 || High(c) || Low(c) then 6
    else 1
  }

  /** The length of the text written as a JSON string. */
  function Escaped(t: Text): (n: nat)
    ensures n >= |t| + 2
  {
    if t == [] then 2
    else if EndsInPair(t) then Escaped(t[..|t| - 2]) + 2
    else Escaped(t[..|t| - 1]) + Cost(t[|t| - 1])
  }

  /** The characters of "...[truncated]". */
  const MARKER := 14

  /** The length of the first n units with the marker. */
  function CostAt(t: Text, n: nat): (c: nat)
    requires n <= |t|
    ensures c >= n + 2 + MARKER
  {
    Escaped(t[..n]) + MARKER
  }

  /** A prefix that ends inside no pair costs less than what is longer. */
  lemma {:induction false} PrefixCosts(t: Text, m: nat, n: nat)
    requires m <= n <= |t| && (m > 0 ==> !PairAt(t, m - 1))
    ensures CostAt(t, m) + (n - m) <= CostAt(t, n)
  {
    if m < n {
      if EndsInPair(t[..n]) {
        assert PairAt(t, n - 2) && m != n - 1;
        PrefixCosts(t, m, n - 2);
        assert t[..n][..n - 2] == t[..n - 2];
      } else {
        PrefixCosts(t, m, n - 1);
        assert t[..n][..n - 1] == t[..n - 1];
      }
    }
  }

  /** What is kept of a text under a cap: its first n units, and the marker if that is not all. */
  datatype Fit = Fit(n: nat, cost: nat, cut: bool)

  /** All of it if that fits; else a prefix that fits with the marker, and does not with one unit more, or the marker alone. */
  ghost predicate IsFit(t: Text, cap: int, f: Fit) {
    && f.n <= |t|
    && (f.cut <==> Escaped(t) > cap)
    && (!f.cut ==> f.n == |t| && f.cost == Escaped(t))
    && (f.cut ==> f.cost == CostAt(t, f.n) && (f.n > 0 ==> f.cost <= cap) && (f.n < |t| ==> CostAt(t, f.n + 1) > cap))
  }

  /** Where the binary search between lo and hi ends. */
  function Search(t: Text, cap: int, lo: nat, hi: nat): (n: nat)
    requires lo <= hi <= |t|
    ensures lo <= n <= hi
    decreases hi - lo
  {
    if lo == hi then lo
    else
      var mid := (lo + hi + 1) / 2;
      if CostAt(t, mid) <= cap then Search(t, cap, mid, hi) else Search(t, cap, lo, mid - 1)
  }

  lemma {:induction false} SearchFits(t: Text, cap: int, lo: nat, hi: nat)
    requires lo <= hi <= |t| && (lo > 0 ==> CostAt(t, lo) <= cap) && (hi < |t| ==> CostAt(t, hi + 1) > cap)
    ensures var n := Search(t, cap, lo, hi);
      lo <= n <= hi && (n > 0 ==> CostAt(t, n) <= cap) && (n < |t| ==> CostAt(t, n + 1) > cap)
    decreases hi - lo
  {
    hide CostAt;
    if lo < hi {
      var mid := (lo + hi + 1) / 2;
      if CostAt(t, mid) <= cap { SearchFits(t, cap, mid, hi); } else { SearchFits(t, cap, lo, mid - 1); }
    }
  }

  function Smaller(a: int, b: int): int { if a < b then a else b }

  /** Where the search begins from above. */
  function Top(t: Text, cap: int): nat {
    if cap < 0 then 0 else Smaller(|t|, cap)
  }

  function FitOf(t: Text, cap: int): (f: Fit)
    ensures f.n <= |t|
  {
    if Escaped(t) <= cap then Fit(|t|, Escaped(t), false)
    else
      var n := Search(t, cap, 0, Top(t, cap));
      Fit(n, CostAt(t, n), true)
  }

  /** What fitting gives, and that it is within the cap, or 16. */
  lemma FitHolds(t: Text, cap: int)
    ensures IsFit(t, cap, FitOf(t, cap)) && FitOf(t, cap).cost <= if cap > 16 then cap else 16
  {
    hide Search;
    if Escaped(t) > cap {
      assert t[..0] == [];
      var hi := Top(t, cap);
      if hi < |t| { assert CostAt(t, hi + 1) > cap; }
      SearchFits(t, cap, 0, hi);
    }
  }

  method FitJson(t: Text, cap: int) returns (f: Fit)
    ensures f == FitOf(t, cap)
    ensures IsFit(t, cap, f) && f.cost <= if cap > 16 then cap else 16
  {
    hide CostAt, IsFit;
    FitHolds(t, cap);
    var whole := Escaped(t);
    if whole <= cap { return Fit(|t|, whole, false); }
    var lo, hi := 0, Smaller(|t|, cap);
    while lo < hi
      invariant 0 <= lo <= |t| && hi <= |t| && (lo <= hi || (hi < 0 == lo && cap < 0))
      invariant hi >= 0 ==> Search(t, cap, lo, hi) == Search(t, cap, 0, Top(t, cap))
    {
      var mid := (lo + hi + 1) / 2;
      if CostAt(t, mid) <= cap { lo := mid; } else { hi := mid - 1; }
    }
    f := Fit(lo, CostAt(t, lo), true);
  }

  // ── the longest prefix that fits ──

  /** No longer prefix fits with the marker. */
  ghost predicate Longest(t: Text, cap: int, n: nat) {
    forall m :: n < m <= |t| ==> CostAt(t, m) > cap
  }

  /** Half a pair costs more than the pair. */
  lemma HalfCosts(t: Text, n: nat)
    requires PairAt(t, n)
    ensures CostAt(t, n + 1) == CostAt(t, n) + 6 && CostAt(t, n + 2) == CostAt(t, n) + 2
  {
    var whole, half := t[..n + 2], t[..n + 1];
    assert EndsInPair(whole) && whole[..|whole| - 2] == t[..n];
    assert !EndsInPair(half) && half[..|half| - 1] == t[..n] && Cost(half[|half| - 1]) == 6;
  }

  /** The two halves of a character are kept or left together. */
  lemma NeverHalves(t: Text, cap: int, f: Fit)
    requires IsFit(t, cap, f)
    ensures f.n > 0 ==> !PairAt(t, f.n - 1)
  {
    hide CostAt;
    if f.n > 0 && PairAt(t, f.n - 1) { HalfCosts(t, f.n - 1); }
  }

  /** What is kept of a text that is cut is the longest prefix that fits, unless the character after it is a pair that would
      have fitted whole; and a longer prefix that fits is longer by 5 units at most. */
  lemma LongestUnlessPair(t: Text, cap: int, f: Fit)
    requires IsFit(t, cap, f) && f.cut
    ensures Longest(t, cap, f.n) <==> !(PairAt(t, f.n) && CostAt(t, f.n + 2) <= cap)
    ensures forall m :: f.n < m <= |t| && CostAt(t, m) <= cap ==> m <= f.n + 5
  {
    NeverHalves(t, cap, f);
    var next := if PairAt(t, f.n) then f.n + 2 else f.n + 1;
    forall m | next <= m <= |t| ensures CostAt(t, next) + (m - next) <= CostAt(t, m) {
      PrefixCosts(t, next, m);
    }
    if PairAt(t, f.n) { HalfCosts(t, f.n); }
  }

  predicate SurrogateFree(t: Text) {
    forall c :: c in t ==> !High(c) && !Low(c)
  }

  /** Of a text without surrogates the longest prefix that fits is kept. */
  lemma LongestIsKept(t: Text, cap: int, f: Fit)
    requires IsFit(t, cap, f) && f.cut && SurrogateFree(t)
    ensures Longest(t, cap, f.n)
  {
    LongestUnlessPair(t, cap, f);
  }

  lemma Grows(t: Text, n: nat)
    requires n < |t| && !(High(t[n]) || Low(t[n]))
    ensures CostAt(t, n + 1) == CostAt(t, n) + Cost(t[n])
  {
    assert t[..n + 1][..n] == t[..n] && !EndsInPair(t[..n + 1]);
  }

  /** With a pair it may not be: of a pair and three control characters under a cap of 18 nothing is kept, though the pair fits. */
  lemma LongestCanFail()
    ensures var t: Text := [0xD83D, 0xDE00, 1, 1, 1]; FitOf(t, 18) == Fit(0, 16, true) && CostAt(t, 2) == 18
  {
    var t: Text := [0xD83D, 0xDE00, 1, 1, 1];
    assert t[..0] == [] && t[..5] == t && PairAt(t, 0);
    assert CostAt(t, 0) == 16 && CostAt(t, 5) == Escaped(t) + MARKER;
    hide CostAt, Escaped;
    HalfCosts(t, 0);
    Grows(t, 2);
    Grows(t, 3);
    Grows(t, 4);
    assert Search(t, 18, 0, 0) == 0;
    assert Search(t, 18, 0, 2) == 0;
    assert Search(t, 18, 0, 5) == 0;
  }

  /** There is one way to keep the longest prefix under a cap. */
  lemma FitIsUnique(t: Text, cap: int, f: Fit, g: Fit)
    requires IsFit(t, cap, f) && IsFit(t, cap, g) && (f.cut ==> Longest(t, cap, f.n) && Longest(t, cap, g.n))
    ensures f == g
  {
  }

  // ── clipping before decoding ──

  function Sum(widths: seq<nat>): nat {
    if widths == [] then 0 else Sum(widths[..|widths| - 1]) + widths[|widths| - 1]
  }

  lemma {:induction false} SumBounds(widths: seq<nat>)
    requires forall i :: 0 <= i < |widths| ==> widths[i] <= 4
    ensures Sum(widths) <= 4 * |widths|
  {
    if widths != [] { SumBounds(widths[..|widths| - 1]); }
  }

  /** The bytes a body spends on each unit: 1 to 4 for a character, those of a pair counted at its first half. */
  ghost predicate WidthsOf(t: Text, widths: seq<nat>) {
    && |widths| == |t|
    && forall i :: 0 <= i < |t| ==> if i > 0 && PairAt(t, i - 1) then widths[i] == 0 else 1 <= widths[i] <= 4
  }

  /** What decoding the first `limit` bytes gives: the characters that lie in them, and what a cut one decodes to. */
  ghost predicate DecodesTo(t: Text, widths: seq<nat>, limit: nat, k: nat, junk: Text, part: Text) {
    && WidthsOf(t, widths)
    && if Sum(widths) <= limit then part == t
       else k < |t| && Sum(widths[..k]) <= limit < Sum(widths[..k + 1]) && part == t[..k] + junk
  }

  /** Decoding only the first 4 * room + 4 bytes of a body and fitting that keeps exactly what decoding all of it would. */
  lemma PrefixIsEnough(t: Text, widths: seq<nat>, room: nat, k: nat, junk: Text, part: Text)
    requires DecodesTo(t, widths, 4 * room + 4, k, junk, part)
    ensures FitOf(part, room) == FitOf(t, room)
    ensures part[..FitOf(t, room).n] == t[..FitOf(t, room).n]
  {
    hide Escaped;
    FitHolds(t, room);
    if Sum(widths) > 4 * room + 4 {
      SumBounds(widths[..k + 1]);
      assert k > room;
      forall m | 0 <= m <= room ensures part[..m] == t[..m] {}
      SameSearch(t, part, room, 0, room);
    }
  }

  /** The search reads no more than the first `hi` units. */
  lemma {:induction false} SameSearch(t: Text, u: Text, cap: int, lo: nat, hi: nat)
    requires lo <= hi <= |t| && hi <= |u| && forall m :: 0 <= m <= hi ==> t[..m] == u[..m]
    ensures Search(t, cap, lo, hi) == Search(u, cap, lo, hi)
    decreases hi - lo
  {
    hide Escaped;
    if lo < hi {
      var mid := (lo + hi + 1) / 2;
      assert t[..mid] == u[..mid];
      if CostAt(t, mid) <= cap { SameSearch(t, u, cap, mid, hi); } else { SameSearch(t, u, cap, lo, mid - 1); }
    }
  }

  // ── captured responses: one budget for everything kept ──

  const MAX_BODY_FETCHES := 32

  /** What decoding the first `limit` bytes of a body may give. */
  ghost predicate PrefixOf(t: Text, widths: seq<nat>, limit: nat, part: Text) {
    exists k, junk :: DecodesTo(t, widths, limit, k, junk, part)
  }

  lemma FitsTheSame(t: Text, widths: seq<nat>, room: nat, part: Text)
    requires PrefixOf(t, widths, 4 * room + 4, part)
    ensures FitOf(part, room) == FitOf(t, room)
  {
    var k, junk :| DecodesTo(t, widths, 4 * room + 4, k, junk, part);
    hide FitOf;
    PrefixIsEnough(t, widths, room, k, junk, part);
  }

  /** What became of a captured response's body: kept in part or whole, or not at all. */
  type Settled = map<nat, Option<Fit>>

  /** What the first n captured responses were charged: their metadata and their bodies. */
  ghost function Charged(meta: seq<nat>, settled: Settled, n: nat): nat
    requires n <= |meta|
  {
    if n == 0 then 0
    else Charged(meta, settled, n - 1) + meta[n - 1] + if n - 1 in settled &&
        settled[n - 1].Some? then settled[n - 1].value.cost else 0
  }

  lemma {:induction false} ChargedMore(meta: seq<nat>, more: nat, settled: Settled, n: nat)
    requires n <= |meta|
    ensures Charged(meta + [more], settled, n) == Charged(meta, settled, n)
  {
    if n > 0 { ChargedMore(meta, more, settled, n - 1); }
  }

  lemma {:induction false} ChargedBody(meta: seq<nat>, settled: Settled, i: nat, fit: Option<Fit>, n: nat)
    requires n <= |meta| && i !in settled
    ensures Charged(meta, settled[i := fit], n) == Charged(meta, settled, n) + if i < n && fit.Some? then fit.value.cost else 0
  {
    if n > 0 { ChargedBody(meta, settled, i, fit, n - 1); }
  }

  class Capture {
    const maxBodyBytes: nat
    const maxTotalBytes: nat
    const maxResponses: nat
    const includeBody: bool
    var used: int
    var meta: seq<nat>
    var settled: Settled
    var dropped: nat
    var aggregateCapHit: bool
    var queue: seq<nat>
    var inFlight: set<nat>

    constructor (maxBodyBytes: nat, maxTotalBytes: nat, maxResponses: nat, includeBody: bool)
      ensures Valid() && meta == [] && settled == map[]
      ensures this.maxBodyBytes == maxBodyBytes && this.maxTotalBytes == maxTotalBytes
      ensures this.maxResponses == maxResponses && this.includeBody == includeBody
    {
      this.maxBodyBytes, this.maxTotalBytes, this.maxResponses, this.includeBody := maxBodyBytes, maxTotalBytes,
          maxResponses, includeBody;
      used, meta, settled, dropped, aggregateCapHit, queue, inFlight := 0, [], map[], 0, false, [], {};
    }

    /** Each captured body waits, holds a fetch slot, or is settled, and never waits twice. */
    ghost predicate Placed()
      reads this
    {
      && (forall i :: i in queue ==> i < |meta| && i !in inFlight && i !in settled)
      && (forall i, j :: 0 <= i < j < |queue| ==> queue[i] != queue[j])
      && (forall i :: i in inFlight ==> i < |meta|)
      && (forall i :: i in settled ==> i < |meta|)
      && (includeBody ==> forall i :: 0 <= i < |meta| ==> i in queue || i in inFlight || i in settled)
    }

    /** What was kept is what was charged, and it is over the cap by 15 at most. */
    ghost predicate Bounded()
      reads this
    {
      used == Charged(meta, settled, |meta|) && used <= maxTotalBytes + 15 && |meta| <= maxResponses &&
          |inFlight| <= MAX_BODY_FETCHES
    }

    ghost predicate Valid()
      reads this
    {
      Placed() && Bounded() && (queue != [] ==> |inFlight| == MAX_BODY_FETCHES)
    }

    method PumpBodies()
      requires Placed() && Bounded()
      modifies `queue, `inFlight, `settled, `aggregateCapHit
      ensures Valid() && used == old(used) && meta == old(meta)
      ensures forall i :: i in inFlight ==> i in old(inFlight) || i in old(queue)
      ensures forall i :: i in settled <==> i in old(settled) || (i in old(queue) && i !in queue && i !in inFlight)
      ensures forall i :: i in settled ==> settled[i] == if i in old(settled) then old(settled)[i] else None
      ensures used < maxTotalBytes ==> settled == old(settled)
    {
      while |inFlight| < MAX_BODY_FETCHES && |queue| > 0
        invariant Placed() && Bounded()
        invariant forall i :: i in queue ==> i in old(queue)
        invariant forall i :: i in inFlight ==> i in old(inFlight) || i in old(queue)
        invariant forall i :: i in settled <==> i in old(settled) || (i in old(queue) && i !in queue && i !in inFlight)
        invariant forall i :: i in settled ==> settled[i] == if i in old(settled) then old(settled)[i] else None
        invariant used < maxTotalBytes ==> settled == old(settled)
        decreases |queue|
      {
        var i := queue[0];
        assert forall j :: j in queue <==> j == i || j in queue[1..];
        queue := queue[1..];
        if used >= maxTotalBytes {
          ChargedBody(meta, settled, i, None, |meta|);
          settled := settled[i := None];
          aggregateCapHit := true;
        } else {
          inFlight := inFlight + {i};
        }
      }
    }

    /** A response is captured when it fits, and otherwise counted as dropped. */
    method OnResponse(entryBytes: nat)
      requires Valid()
      modifies this
      ensures Valid()
      ensures var fits := |old(meta)| < maxResponses && old(used) + entryBytes <= maxTotalBytes;
              if fits then meta == old(meta) + [entryBytes] && dropped == old(dropped)
              else meta == old(meta) && settled == old(settled) && dropped == old(dropped) + 1
    {
      if |meta| >= maxResponses {
        dropped := dropped + 1;
        return;
      }
      if used + entryBytes > maxTotalBytes {
        dropped := dropped + 1;
        aggregateCapHit := true;
        return;
      }
      ChargedMore(meta, entryBytes, settled, |meta|);
      used := used + entryBytes;
      meta := meta + [entryBytes];
      if includeBody {
        assert |meta| - 1 !in queue;
        queue := queue + [|meta| - 1];
        PumpBodies();
      }
    }

    /** A body arrives: it is kept clipped to the room left, exactly as if all of it had been decoded. Its slot is still taken. */
    method BodyArrives(i: nat, decode: nat -> Text, ghost t: Text, ghost widths: seq<nat>)
      requires Valid() && i in inFlight && i !in settled && forall limit :: PrefixOf(t, widths, limit, decode(limit))
      modifies `used, `settled, `aggregateCapHit
      ensures Valid()
      ensures var room := Smaller(maxBodyBytes, maxTotalBytes - old(used));
              settled == old(settled)[i := if room <= 0 then None else Some(FitOf(t, room))]
    {
      hide FitOf, IsFit, PrefixOf;
      var room := Smaller(maxBodyBytes, maxTotalBytes - used);
      if room <= 0 {
        ChargedBody(meta, settled, i, None, |meta|);
        settled := settled[i := None];
        aggregateCapHit := true;
      } else {
        var fit := FitJson(decode(4 * room + 4), room);
        FitsTheSame(t, widths, room, decode(4 * room + 4));
        FitHolds(t, room);
        ChargedBody(meta, settled, i, Some(fit), |meta|);
        settled := settled[i := Some(fit)];
        used := used + fit.cost;
        if fit.cut && room < maxBodyBytes { aggregateCapHit := true; }
      }
    }

    /** The fetch failed: the body is not kept. */
    method BodyFails(i: nat)
      requires Valid() && i in inFlight && i !in settled
      modifies `settled
      ensures Valid() && settled == old(settled)[i := None]
    {
      ChargedBody(meta, settled, i, None, |meta|);
      settled := settled[i := None];
    }

    /** Later the slot is free again, and waiting bodies are fetched. */
    method FetchOver(i: nat)
      requires Valid() && i in inFlight && i in settled
      modifies `queue, `inFlight, `settled, `aggregateCapHit
      ensures Valid() && i !in inFlight
      ensures forall j :: j in old(settled) ==> j in settled && settled[j] == old(settled)[j]
      ensures forall j :: j in settled && j !in old(settled) ==> j in old(queue) && settled[j].None? && used >= maxTotalBytes
    {
      inFlight := inFlight - {i};
      PumpBodies();
    }
  }

  // ── extracted fields: an even split of what is left ──

  /** What the page has for a field: one element's value, several, or a failed selector. A value that is no string is not charged. */
  datatype Field = Single(value: Option<Text>) | Multiple(values: seq<Option<Text>>) | Failing

  function Costs(fits: seq<Option<Fit>>): nat {
    if fits == [] then 0 else Costs(fits[..|fits| - 1]) + if fits[|fits| - 1].Some? then fits[|fits| - 1].value.cost else 0
  }

  ghost function TotalCosts(results: seq<seq<Option<Fit>>>): nat {
    if results == [] then 0 else TotalCosts(results[..|results| - 1]) + Costs(results[|results| - 1])
  }

  method Take(value: Option<Text>, share: int) returns (fit: Option<Fit>, rest: int)
    ensures fit.Some? <==> value.Some?
    ensures fit.Some? ==> fit.value == FitOf(value.value, share) && rest == share - fit.value.cost
    ensures fit.None? ==> rest == share
    ensures share - rest <= if share > 16 then share else 16
  {
    if value.None? { return None, share; }
    hide FitOf;
    var f := FitJson(value.value, share);
    FitHolds(value.value, share);
    fit, rest := Some(f), share - f.cost;
  }

  /** Element j got what the elements before it left of the share. */
  ghost predicate TakenAt(values: seq<Option<Text>>, share: int, fits: seq<Option<Fit>>, j: nat)
    requires j < |fits| <= |values|
  {
    (fits[j].Some? <==> values[j].Some?) && (fits[j].Some? ==> fits[j].value == FitOf(values[j].value, share - Costs(fits[..j])))
  }

  lemma OneMoreTaken(values: seq<Option<Text>>, share: int, fits: seq<Option<Fit>>, fit: Option<Fit>)
    requires |fits| < |values| && forall j :: 0 <= j < |fits| ==> TakenAt(values, share, fits, j)
    requires (fit.Some? <==> values[|fits|].Some?) && (fit.Some? ==> fit.value == FitOf(values[|fits|].value, share - Costs(fits)))
    ensures forall j :: 0 <= j <= |fits| ==> TakenAt(values, share, fits + [fit], j)
  {
    hide FitOf, Costs;
    var more := fits + [fit];
    assert more[..|fits|] == fits;
    forall j | 0 <= j <= |fits| ensures TakenAt(values, share, more, j) {
      if j < |fits| { assert TakenAt(values, share, fits, j) && more[..j] == fits[..j]; }
    }
  }

  /** Elements until there are maxItems or the share is used up. */
  method TakeMany(values: seq<Option<Text>>, maxItems: nat, share: int) returns (fits: seq<Option<Fit>>, rest: int)
    ensures |fits| <= |values| && |fits| <= maxItems && rest == share - Costs(fits)
    ensures |fits| < |values| ==> |fits| == maxItems || rest <= 0
    ensures share > 0 ==> rest >= -15
    ensures share <= 0 ==> fits == []
    ensures forall j :: 0 <= j < |fits| ==> TakenAt(values, share, fits, j)
  {
    hide TakenAt, FitOf;
    fits, rest := [], share;
    var i := 0;
    while i < |values| && !(|fits| >= maxItems || rest <= 0)
      invariant i == |fits| <= |values| && |fits| <= maxItems && rest == share - Costs(fits)
      invariant share > 0 ==> rest >= -15
      invariant share <= 0 ==> fits == []
      invariant forall j :: 0 <= j < |fits| ==> TakenAt(values, share, fits, j)
    {
      var fit, left := Take(values[i], rest);
      assert (fits + [fit])[..|fits|] == fits;
      OneMoreTaken(values, share, fits, fit);
      fits, rest := fits + [fit], left;
      i := i + 1;
    }
  }

  /** After i fields, an even split of what is left is no less than the first one was. */
  ghost predicate EvenSplit(total: nat, n: nat, i: nat, room: int)
    requires i <= n
  {
    n > 0 ==> room >= (total / n) * (n - i)
  }

  lemma FirstSplit(total: nat, n: nat)
    ensures EvenSplit(total, n, 0, total)
  {
  }

  lemma Division(a: int, d: nat)
    requires d > 0
    ensures (a / d) * d <= a < (a / d) * d + d
  {
  }

  lemma Product(a: int, b: int, c: nat)
    requires a <= b
    ensures a * c <= b * c
  {
  }

  lemma DivisionAtLeast(a: int, d: nat, q: int)
    requires d > 0 && q * d <= a
    ensures q <= a / d
  {
    Division(a, d);
    if a / d <= q - 1 { Product(a / d, q - 1, d); }
  }

  lemma SplitKept(total: nat, n: nat, i: nat, room: int, charge: nat)
    requires i < n && total >= 16 * n && EvenSplit(total, n, i, room)
    requires charge <= if room / (n - i) > 16 then room / (n - i) else 16
    ensures room / (n - i) >= total / n >= 16 && EvenSplit(total, n, i + 1, room - charge) && room - charge >= 0
  {
    var first, left := total / n, n - i;
    var share := room / left;
    DivisionAtLeast(total, n, 16);
    DivisionAtLeast(room, left, first);
    Division(room, left);
    assert share * (left - 1) == share * left - share;
    Product(first, share, left - 1);
    assert first * (n - (i + 1)) == first * (left - 1) >= 0;
  }

  lemma ShareIsLess(room: int, left: nat)
    requires left > 0
    ensures room >= 0 ==> 0 <= room / left <= room
    ensures room < 0 ==> room / left < 0
  {
    Division(room, left);
    if room >= 0 {
      DivisionAtLeast(room, left, 0);
      Product(1, left, room / left);
    } else if room / left >= 0 {
      Product(0, room / left, left);
    }
  }

  /** A field within its share. */
  ghost predicate FieldTaken(field: Field, maxItems: nat, share: int, fits: seq<Option<Fit>>) {
    && (field.Single? ==>
          |fits| == 1 && (fits[0].Some? <==> field.value.Some?) &&
              (fits[0].Some? ==> fits[0].value == FitOf(field.value.value, share)))
    && (field.Multiple? ==>
          && |fits| <= maxItems && |fits| <= |field.values| && (|fits| < |field.values| ==>
              |fits| == maxItems || share <= Costs(fits))
          && forall j :: 0 <= j < |fits| ==> TakenAt(field.values, share, fits, j))
    && (field.Failing? ==> fits == [])
  }

  /** What one field's share gives it. */
  method TakeField(field: Field, maxItems: nat, share: int) returns (fits: seq<Option<Fit>>, rest: int)
    ensures rest == share - Costs(fits)
    ensures Costs(fits) <= if share > 0 then share + 15 else 16
    ensures !field.Multiple? ==> Costs(fits) <= if share > 16 then share else 16
    ensures FieldTaken(field, maxItems, share, fits)
  {
    match field
    case Single(value) =>
      var fit, left := Take(value, share);
      fits, rest := [fit], left;
      assert [fit][..0] == [];
    case Multiple(values) =>
      fits, rest := TakeMany(values, maxItems, share);
    case Failing =>
      fits, rest := [], share;
  }

  /** No field has more than one value, and the budget gives each at least 16. */
  predicate Roomy(fields: seq<Field>, maxBytes: nat) {
    maxBytes >= 16 * |fields| && forall i :: 0 <= i < |fields| ==> !fields[i].Multiple?
  }

  /** Each share is the floor of what was left before its field, divided by the fields still to come then. */
  ghost predicate Shared(results: seq<seq<Option<Fit>>>, shares: seq<int>, n: nat, maxBytes: nat)
    requires |results| == |shares| <= n
  {
    forall i :: 0 <= i < |shares| ==> shares[i] == (maxBytes - TotalCosts(results[..i])) / (n - i)
  }

  lemma FirstShares(n: nat, maxBytes: nat)
    ensures Shared([], [], n, maxBytes)
  {
  }

  lemma OneMoreShare(results: seq<seq<Option<Fit>>>, shares: seq<int>, n: nat, maxBytes: nat, fits: seq<Option<Fit>>, share: int)
    requires |results| == |shares| < n && Shared(results, shares, n, maxBytes)
    requires share == (maxBytes - TotalCosts(results)) / (n - |results|)
    ensures Shared(results + [fits], shares + [share], n, maxBytes)
  {
    hide TotalCosts;
    var more, all := results + [fits], shares + [share];
    assert more[..|results|] == results;
    forall i | 0 <= i < |all| ensures all[i] == (maxBytes - TotalCosts(more[..i])) / (n - i) {
      if i < |shares| { assert more[..i] == results[..i]; }
    }
  }

  /** The fields in order, each with an even split of the budget still left. `room`: what is left at the end. */
  method ExtractFields(fields: seq<Field>, maxItems: nat, maxBytes: nat) returns (results: seq<seq<Option<Fit>>>,
      shares: seq<int>, room: int)
    ensures |results| == |shares| == |fields|
    ensures room == maxBytes - TotalCosts(results) && room >= -16 * |fields|
    ensures forall i :: 0 <= i < |fields| ==> FieldTaken(fields[i], maxItems, shares[i], results[i])
    ensures Shared(results, shares, |fields|, maxBytes)
    ensures Roomy(fields, maxBytes) ==> room >= 0 && forall i :: 0 <= i < |fields| ==> shares[i] >= maxBytes / |fields|
  {
    hide IsFit, FieldTaken, Costs, EvenSplit, Shared;
    FirstShares(|fields|, maxBytes);
    results, shares, room := [], [], maxBytes;
    FirstSplit(maxBytes, |fields|);
    for i := 0 to |fields|
      invariant |results| == |shares| == i && room == maxBytes - TotalCosts(results) && room >= -16 * i
      invariant forall j :: 0 <= j < i ==> FieldTaken(fields[j], maxItems, shares[j], results[j])
      invariant Shared(results, shares, |fields|, maxBytes)
      invariant Roomy(fields, maxBytes) ==>
        room >= 0 && EvenSplit(maxBytes, |fields|, i, room) && forall j :: 0 <= j < i ==> shares[j] >= maxBytes / |fields|
    {
      var share := room / (|fields| - i);
      var fits, rest := TakeField(fields[i], maxItems, share);
      ShareIsLess(room, |fields| - i);
      if Roomy(fields, maxBytes) { SplitKept(maxBytes, |fields|, i, room, Costs(fits)); }
      room := room - (share - rest);
      assert (results + [fits])[..i] == results;
      OneMoreShare(results, shares, |fields|, maxBytes, fits, share);
      results, shares := results + [fits], shares + [share];
    }
  }
}
