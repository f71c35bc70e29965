/** A visualiser that keys markers by (namespace, id) and applies each
    published marker array in turn, and the proof that what the node
    publishes leaves exactly the current batch's markers on display. */
module Renderer {
  import opened ConeMessages
  import opened MarkerSynthesis

  /** What a visualiser keys a marker by. */
  type Key = (string, int)

  /** Showing one marker: ADD shows (or replaces) its key, DELETE removes it. */
  function Apply(shown: set<Key>, m: Marker): set<Key>
  {
    match m.action
    case Add => shown + {(m.ns, m.id)}
    case Delete => shown - {(m.ns, m.id)}
  }

  /** Showing a marker array, marker by marker, in order. */
  function ApplyAll(shown: set<Key>, markers: seq<Marker>): set<Key>
    decreases |markers|
  {
    if markers == [] then shown else ApplyAll(Apply(shown, markers[0]), markers[1..])
  }

  /** The keys of the node's namespace with ids lo .. hi-1. */
  function Keys(lo: int, hi: int): (r: set<Key>)
    ensures forall key :: key in r <==> key.0 == Namespace && lo <= key.1 < hi
  {
    set i | lo <= i < hi :: (Namespace, i)
  }

  /** Applying two arrays one after the other is applying their concatenation. */
  lemma {:induction false} ApplyAllAppend(shown: set<Key>, a: seq<Marker>, b: seq<Marker>)
    ensures ApplyAll(shown, a + b) == ApplyAll(ApplyAll(shown, a), b)
    decreases |a|
  {
    if a != [] {
      assert (a + b)[1..] == a[1..] + b;
      ApplyAllAppend(Apply(shown, a[0]), a[1..], b);
    } else {
      assert a + b == b;
    }
  }

  /** A run of ADD markers of the node's namespace with ids first, first+1, ...
      adds exactly those keys. */
  lemma {:induction false} ApplyAdds(shown: set<Key>, markers: seq<Marker>, first: int)
    requires forall k :: 0 <= k < |markers| ==>
               markers[k].action == Add && markers[k].ns == Namespace && markers[k].id == first + k
    ensures ApplyAll(shown, markers) == shown + Keys(first, first + |markers|)
    decreases |markers|
  {
    if markers != [] {
      ApplyAdds(Apply(shown, markers[0]), markers[1..], first + 1);
      assert Keys(first, first + |markers|) == {(Namespace, first)} + Keys(first + 1, first + |markers|);
    }
  }

  /** A run of DELETE markers of the node's namespace with ids first,
      first+1, ... removes exactly those keys. */
  lemma {:induction false} ApplyDeletes(shown: set<Key>, markers: seq<Marker>, first: int)
    requires forall k :: 0 <= k < |markers| ==>
               markers[k].action == Delete && markers[k].ns == Namespace && markers[k].id == first + k
    ensures ApplyAll(shown, markers) == shown - Keys(first, first + |markers|)
    decreases |markers|
  {
    if markers != [] {
      ApplyDeletes(Apply(shown, markers[0]), markers[1..], first + 1);
      assert Keys(first, first + |markers|) == {(Namespace, first)} + Keys(first + 1, first + |markers|);
    }
  }

  /** Whatever is on display, applying one call's output shows every id
      0 .. N-1 of the node's namespace, removes the ids N .. lastMarkerCount-1
      and leaves every other key as it was. */
  lemma Reconcile(shown: set<Key>, msg: ConeArray, lastMarkerCount: nat)
    ensures ApplyAll(shown, MarkerArray(msg, lastMarkerCount))
         == (shown + Keys(0, TotalCones(msg))) - Keys(TotalCones(msg), lastMarkerCount)
  {
    var out := MarkerArray(msg, lastMarkerCount);
    var n := TotalCones(msg);
    assert out == out[..n] + out[n..];
    ApplyAllAppend(shown, out[..n], out[n..]);
    ApplyAdds(shown, out[..n], 0);
    ApplyDeletes(shown + Keys(0, n), out[n..], n);
  }

  /** If the display shows exactly the markers of the previous call, then
      after this call's output it shows exactly ids 0 .. N-1: no stale
      marker survives. */
  lemma ReconcileDisplay(msg: ConeArray, lastMarkerCount: nat)
    ensures ApplyAll(Keys(0, lastMarkerCount), MarkerArray(msg, lastMarkerCount)) == Keys(0, TotalCones(msg))
  {
    Reconcile(Keys(0, lastMarkerCount), msg, lastMarkerCount);
  }

  /** The display after a stream of batches, each processed with the count
      retained from the one before. */
  function Replay(shown: set<Key>, lastMarkerCount: nat, batches: seq<ConeArray>): set<Key>
    decreases |batches|
  {
    if batches == [] then shown
    else Replay(ApplyAll(shown, MarkerArray(batches[0], lastMarkerCount)), TotalCones(batches[0]), batches[1..])
  }

  /** Over any stream of batches, starting from a display that matches the
      retained count, the display ends up showing exactly the markers of the
      last batch. */
  lemma {:induction false} ReplayShowsLatest(lastMarkerCount: nat, batches: seq<ConeArray>)
    requires batches != []
    ensures Replay(Keys(0, lastMarkerCount), lastMarkerCount, batches) == Keys(0, TotalCones(batches[|batches| - 1]))
    decreases |batches|
  {
    ReconcileDisplay(batches[0], lastMarkerCount);
    if |batches| > 1 {
      ReplayShowsLatest(TotalCones(batches[0]), batches[1..]);
    }
  }
}
