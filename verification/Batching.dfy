// Splitting what a full sync read, or a burst of changes, into messages of bounded
// size (extensions/cookie-bridge/bridge-core.js batchCookies, batchChanges).
module Batching {
  import opened Cookies
  import opened BridgeSteps

  /** The size of a batch written out: the brackets, and each element with a comma. */
  function Bytes<T>(b: seq<T>, size: T -> nat): nat {
    if b == [] then 2 else Bytes(b[..|b| - 1], size) + size(b[|b| - 1]) + 1
  }

  ghost predicate Fits<T>(b: seq<T>, size: T -> nat, maxBytes: nat) {
    b != [] && (|b| == 1 || Bytes(b, size) <= maxBytes)
  }

  /** Batch i takes no more: the next batch's first element would not have fit. */
  ghost predicate Taken<T>(batches: seq<seq<T>>, i: nat, size: T -> nat, maxBytes: nat)
    requires i + 1 < |batches| && batches[i + 1] != []
  {
    Bytes(batches[i], size) + size(batches[i + 1][0]) + 1 > maxBytes
  }

  /** Every batch fits, and no batch could have taken the element after it. */
  ghost predicate Greedy<T>(batches: seq<seq<T>>, size: T -> nat, maxBytes: nat) {
    && (forall i :: 0 <= i < |batches| ==> Fits(batches[i], size, maxBytes))
    && (forall i :: 0 <= i < |batches| - 1 ==> Taken(batches, i, size, maxBytes))
  }

  lemma GreedyThen<T>(batches: seq<seq<T>>, b: seq<T>, size: T -> nat, maxBytes: nat)
    requires Greedy(batches, size, maxBytes) && Fits(b, size, maxBytes)
    requires batches != [] ==> Bytes(batches[|batches| - 1], size) + size(b[0]) + 1 > maxBytes
    ensures Greedy(batches + [b], size, maxBytes)
  {
    hide Bytes;
    var all := batches + [b];
    forall i | 0 <= i < |all| ensures Fits(all[i], size, maxBytes) {
      if i < |batches| { assert Fits(batches[i], size, maxBytes); }
    }
    hide Fits;
    forall i | 0 <= i < |all| - 1 ensures Taken(all, i, size, maxBytes) {
      if i < |batches| - 1 { assert Taken(batches, i, size, maxBytes); }
    }
  }

  lemma FlattenThen<T>(batches: seq<seq<T>>, b: seq<T>)
    ensures Flatten(batches + [b]) == Flatten(batches) + b
  {
    assert (batches + [b])[..|batches|] == batches;
  }

  lemma BytesThen<T>(b: seq<T>, x: T, size: T -> nat)
    ensures Bytes(b + [x], size) == Bytes(b, size) + size(x) + 1
  {
    assert (b + [x])[..|b|] == b;
  }

  method Batch<T>(items: seq<T>, size: T -> nat, maxBytes: nat) returns (batches: seq<seq<T>>)
    ensures Flatten(batches) == items && Greedy(batches, size, maxBytes)
  {
    hide Flatten, Bytes, Greedy;
    batches := [];
    var cur: seq<T> := [];
    var curBytes := 2;
    NoBatches(size, maxBytes);
    for i := 0 to |items|
      invariant Flatten(batches) + cur == items[..i]
      invariant curBytes == Bytes(cur, size)
      invariant cur == [] ==> batches == [] && i == 0
      invariant cur != [] ==> Fits(cur, size, maxBytes)
      invariant Greedy(batches, size, maxBytes)
      invariant batches != [] && cur != [] ==> Bytes(batches[|batches| - 1], size) + size(cur[0]) + 1 > maxBytes
    {
      var sz := size(items[i]) + 1;
      if cur != [] && curBytes + sz > maxBytes {
        GreedyThen(batches, cur, size, maxBytes);
        FlattenThen(batches, cur);
        batches := batches + [cur];
        cur, curBytes := [], 2;
        NoBatches(size, maxBytes);
      }
      BytesThen(cur, items[i], size);
      cur := cur + [items[i]];
      curBytes := curBytes + sz;
    }
    if cur != [] {
      GreedyThen(batches, cur, size, maxBytes);
      FlattenThen(batches, cur);
      batches := batches + [cur];
    }
    assert items[..|items|] == items;
  }

  lemma NoBatches<T>(size: T -> nat, maxBytes: nat)
    ensures Flatten<T>([]) == [] && Bytes<T>([], size) == 2 && Greedy<T>([], size, maxBytes)
  {
  }

  // ── a jar cut into batches ──

  type Entry = (Key, Param)

  ghost predicate Distinct(items: seq<Entry>) {
    forall i, j :: 0 <= i < j < |items| ==> items[i].0 != items[j].0
  }

  function JarOf(items: seq<Entry>): (jar: Jar)
    ensures forall k :: k in jar <==> exists i :: 0 <= i < |items| && items[i].0 == k
  {
    if items == [] then map[] else JarOf(items[..|items| - 1])[items[|items| - 1].0 := items[|items| - 1].1]
  }

  function JarsOf(batches: seq<seq<Entry>>): (jars: seq<Jar>)
    ensures |jars| == |batches| && forall i :: 0 <= i < |jars| ==> jars[i] == JarOf(batches[i])
  {
    seq(|batches|, i requires 0 <= i < |batches| => JarOf(batches[i]))
  }

  lemma {:induction false} JarHolds(items: seq<Entry>, i: nat)
    requires Distinct(items) && i < |items|
    ensures items[i].0 in JarOf(items) && JarOf(items)[items[i].0] == items[i].1
  {
    var n := |items| - 1;
    if i < n {
      assert items[..n][i] == items[i];
      JarHolds(items[..n], i);
    }
  }

  /** An element of a batch is an element of the whole, at this place. */
  ghost function Place(batches: seq<seq<Entry>>, b: nat, i: nat): (p: nat)
    requires b < |batches| && i < |batches[b]|
    ensures p < |Flatten(batches)| && Flatten(batches)[p] == batches[b][i]
  {
    var n := |batches| - 1;
    if b == n then |Flatten(batches[..n])| + i else Place(batches[..n], b, i)
  }

  lemma {:induction false} PlacesGrow(batches: seq<seq<Entry>>, b: nat, i: nat, c: nat, j: nat)
    requires b < |batches| && i < |batches[b]| && c < |batches| && j < |batches[c]|
    requires b < c || (b == c && i < j)
    ensures Place(batches, b, i) < Place(batches, c, j)
  {
    var n := |batches| - 1;
    if c < n { PlacesGrow(batches[..n], b, i, c, j); }
  }

  lemma {:induction false} EveryPlace(batches: seq<seq<Entry>>, p: nat) returns (b: nat, i: nat)
    requires p < |Flatten(batches)|
    ensures b < |batches| && i < |batches[b]| && batches[b][i] == Flatten(batches)[p]
  {
    var n := |batches| - 1;
    if p >= |Flatten(batches[..n])| {
      b, i := n, p - |Flatten(batches[..n])|;
    } else {
      b, i := EveryPlace(batches[..n], p);
    }
  }

  lemma BatchDistinct(batches: seq<seq<Entry>>, b: nat)
    requires Distinct(Flatten(batches)) && b < |batches|
    ensures Distinct(batches[b])
  {
    forall i, j | 0 <= i < j < |batches[b]| ensures batches[b][i].0 != batches[b][j].0 {
      PlacesGrow(batches, b, i, b, j);
      assert Flatten(batches)[Place(batches, b, i)] == batches[b][i];
    }
  }

  /** Cutting a list of distinct cookies into batches loses and repeats nothing. */
  lemma BatchesSplit(batches: seq<seq<Entry>>, items: seq<Entry>)
    requires batches != [] && Flatten(batches) == items && Distinct(items)
    ensures Splits(JarsOf(batches), JarOf(items))
  {
    var jars := JarsOf(batches);
    forall b, c | 0 <= b < c < |jars| ensures jars[b].Keys !! jars[c].Keys {
      forall i, j | 0 <= i < |batches[b]| && 0 <= j < |batches[c]| ensures batches[b][i].0 != batches[c][j].0 {
        PlacesGrow(batches, b, i, c, j);
        assert items[Place(batches, b, i)] == batches[b][i] && items[Place(batches, c, j)] == batches[c][j];
      }
    }
    forall b, k | 0 <= b < |jars| && k in jars[b] ensures k in JarOf(items) && JarOf(items)[k] == jars[b][k] {
      var i :| 0 <= i < |batches[b]| && batches[b][i].0 == k;
      BatchDistinct(batches, b);
      JarHolds(batches[b], i);
      JarHolds(items, Place(batches, b, i));
    }
    forall k | k in JarOf(items) ensures exists b :: 0 <= b < |jars| && k in jars[b] {
      var p :| 0 <= p < |items| && items[p].0 == k;
      var b, i := EveryPlace(batches, p);
      assert k in jars[b];
    }
  }
}
