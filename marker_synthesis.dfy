/** What one call of the marker synthesiser publishes, as functions of the
    cone batch and the marker count retained from the previous call, and the
    properties of that output. */
module MarkerSynthesis {
  import opened ConeMessages

  /** Every marker is in the lidar frame, carries the batch's stamp and the
      shared namespace. */
  predicate Labelled(m: Marker, stamp: Stamp)
  {
    m.frameId == FrameId && m.stamp == stamp && m.ns == Namespace
  }

  /** The ADD marker drawn for one cone: a cube at the cone's position with
      the axes swapped, the new y negated and a fixed height. */
  function ConeMarker(cone: Cone, colour: Rgb, id: int, stamp: Stamp): Marker
  {
    Marker(FrameId, stamp, Namespace, id, Cube, Add,
           Point(cone.y, -cone.x, ConeZ), 1.0, ConeSize, colour, 1.0)
  }

  /** The DELETE marker for one id; every field it does not set keeps the
      message default. */
  function DeleteMarker(id: int, stamp: Stamp): Marker
  {
    Marker(FrameId, stamp, Namespace, id, Arrow, Delete,
           Point(0.0, 0.0, 0.0), 1.0, 0.0, Rgb(0, 0, 0), 0.0)
  }

  /** The markers for one category's cone list, ids counting up from firstId. */
  function ConeMarkers(cones: seq<Cone>, colour: Rgb, firstId: int, stamp: Stamp): (r: seq<Marker>)
    ensures |r| == |cones|
  {
    if cones == [] then []
    else [ConeMarker(cones[0], colour, firstId, stamp)] + ConeMarkers(cones[1..], colour, firstId + 1, stamp)
  }

  /** The j-th cone of a list gets the j-th marker, with id firstId + j. */
  lemma {:induction false} ConeMarkersAt(cones: seq<Cone>, colour: Rgb, firstId: int, stamp: Stamp)
    ensures forall j :: 0 <= j < |cones| ==>
              ConeMarkers(cones, colour, firstId, stamp)[j] == ConeMarker(cones[j], colour, firstId + j, stamp)
  {
    if cones != [] {
      ConeMarkersAt(cones[1..], colour, firstId + 1, stamp);
    }
  }

  /** Appending a cone appends its marker, with the next id. */
  lemma {:induction false} ConeMarkersSnoc(cones: seq<Cone>, cone: Cone, colour: Rgb, firstId: int, stamp: Stamp)
    ensures ConeMarkers(cones + [cone], colour, firstId, stamp)
         == ConeMarkers(cones, colour, firstId, stamp) + [ConeMarker(cone, colour, firstId + |cones|, stamp)]
    decreases |cones|
  {
    if cones == [] {
      assert [] + [cone] == [cone];
    } else {
      assert (cones + [cone])[1..] == cones[1..] + [cone];
      ConeMarkersSnoc(cones[1..], cone, colour, firstId + 1, stamp);
    }
  }

  /** Number of cones in a list of groups. */
  function Count(groups: seq<Group>): nat
  {
    if groups == [] then 0 else |groups[0].cones| + Count(groups[1..])
  }

  /** The ADD markers of a list of groups: group by group and, within a
      group, in list order, each in its category's colour, ids counting up
      from firstId. */
  function GroupMarkers(groups: seq<Group>, firstId: int, stamp: Stamp): (r: seq<Marker>)
    ensures |r| == Count(groups)
  {
    if groups == [] then []
    else
      ConeMarkers(groups[0].cones, ColourOf(groups[0].category), firstId, stamp)
      + GroupMarkers(groups[1..], firstId + |groups[0].cones|, stamp)
  }

  /** N: the number of cones in a batch, over all five categories. */
  function TotalCones(msg: ConeArray): (n: nat)
    ensures n == |msg.blueCones| + |msg.yellowCones| + |msg.orangeCones|
                 + |msg.bigOrangeCones| + |msg.unknownColorCones|
  {
    var g := Groups(msg);
    assert Count(g[4..]) == |msg.unknownColorCones| by { assert g[4..][1..] == []; }
    assert Count(g[3..]) == |msg.bigOrangeCones| + Count(g[4..]) by { assert g[3..][1..] == g[4..]; }
    assert Count(g[2..]) == |msg.orangeCones| + Count(g[3..]) by { assert g[2..][1..] == g[3..]; }
    assert Count(g[1..]) == |msg.yellowCones| + Count(g[2..]) by { assert g[1..][1..] == g[2..]; }
    Count(g)
  }

  /** All ADD markers of a batch; ids start at 0. */
  function AddMarkers(msg: ConeArray): seq<Marker>
  {
    GroupMarkers(Groups(msg), 0, msg.stamp)
  }

  /** DELETE markers for the ids from up to (but not including) to, in increasing order. */
  function DeleteMarkers(from: nat, to: nat, stamp: Stamp): (r: seq<Marker>)
    ensures |r| == if from < to then to - from else 0
    decreases if from < to then to - from else 0
  {
    if from < to then [DeleteMarker(from, stamp)] + DeleteMarkers(from + 1, to, stamp) else []
  }

  /** The k-th DELETE marker is for id from + k. */
  lemma {:induction false} DeleteMarkersAt(from: nat, to: nat, stamp: Stamp)
    ensures forall k :: 0 <= k < |DeleteMarkers(from, to, stamp)| ==>
              DeleteMarkers(from, to, stamp)[k] == DeleteMarker(from + k, stamp)
    decreases if from < to then to - from else 0
  {
    if from < to {
      DeleteMarkersAt(from + 1, to, stamp);
    }
  }

  /** Extending the id range by one id appends its DELETE marker, also
      after any markers already in the array. */
  lemma {:induction false} DeleteMarkersSnoc(prefix: seq<Marker>, from: nat, to: nat, stamp: Stamp)
    requires from <= to
    ensures DeleteMarkers(from, to + 1, stamp) == DeleteMarkers(from, to, stamp) + [DeleteMarker(to, stamp)]
    ensures prefix + DeleteMarkers(from, to + 1, stamp) == prefix + DeleteMarkers(from, to, stamp) + [DeleteMarker(to, stamp)]
    decreases (to as int) - (from as int)
  {
    if from < to {
      DeleteMarkersSnoc(prefix, from + 1, to, stamp);
    }
    assert prefix + (DeleteMarkers(from, to, stamp) + [DeleteMarker(to, stamp)])
        == prefix + DeleteMarkers(from, to, stamp) + [DeleteMarker(to, stamp)];
  }

  /** The ADD markers of a list of groups are labelled and their ids count
      up from firstId without gaps. */
  lemma {:induction false} GroupMarkersIds(groups: seq<Group>, firstId: int, stamp: Stamp)
    ensures forall k :: 0 <= k < |GroupMarkers(groups, firstId, stamp)| ==>
              GroupMarkers(groups, firstId, stamp)[k].id == firstId + k
              && GroupMarkers(groups, firstId, stamp)[k].action == Add
              && Labelled(GroupMarkers(groups, firstId, stamp)[k], stamp)
  {
    if groups != [] {
      var head := ConeMarkers(groups[0].cones, ColourOf(groups[0].category), firstId, stamp);
      var tail := GroupMarkers(groups[1..], firstId + |head|, stamp);
      GroupMarkersIds(groups[1..], firstId + |head|, stamp);
      ConeMarkersAt(groups[0].cones, ColourOf(groups[0].category), firstId, stamp);
      assert GroupMarkers(groups, firstId, stamp) == head + tail;
      forall k | |head| <= k < |head| + |tail|
        ensures (head + tail)[k] == tail[k - |head|]
      {
      }
    }
  }

  /** The marker array published for a batch when the previous call emitted
      lastMarkerCount markers: all ADD markers, then the DELETE markers for
      the ids of the previous call that this one does not reuse.
      The k-th marker has id k, so ids are unique; it is an ADD exactly
      when k < N; the array is as long as the larger of N and the old count. */
  function MarkerArray(msg: ConeArray, lastMarkerCount: nat): (r: seq<Marker>)
    ensures |r| == if TotalCones(msg) < lastMarkerCount then lastMarkerCount else TotalCones(msg)
    ensures forall k :: 0 <= k < |r| ==>
              r[k].id == k && Labelled(r[k], msg.stamp) && (r[k].action == Add <==> k < TotalCones(msg))
  {
    GroupMarkersIds(Groups(msg), 0, msg.stamp);
    DeleteMarkersAt(TotalCones(msg), lastMarkerCount, msg.stamp);
    AddMarkers(msg) + DeleteMarkers(TotalCones(msg), lastMarkerCount, msg.stamp)
  }

  /** Counting one more group adds its cones. */
  lemma {:induction false} CountPrefix(groups: seq<Group>, g: nat)
    requires g < |groups|
    ensures Count(groups[..g + 1]) == Count(groups[..g]) + |groups[g].cones|
  {
    if g == 0 {
      assert groups[..1][1..] == [];
    } else {
      CountPrefix(groups[1..], g - 1);
      assert groups[..g + 1][1..] == groups[1..][..g];
      assert groups[..g][1..] == groups[1..][..g - 1];
    }
  }

  /** The markers of group g sit, one per cone and in list order, right after
      those of the groups before it. */
  lemma {:induction false} GroupMarkersAt(groups: seq<Group>, firstId: int, stamp: Stamp, g: nat, j: nat)
    requires g < |groups|
    requires j < |groups[g].cones|
    ensures Count(groups[..g]) + j < |GroupMarkers(groups, firstId, stamp)|
    ensures GroupMarkers(groups, firstId, stamp)[Count(groups[..g]) + j]
         == ConeMarker(groups[g].cones[j], ColourOf(groups[g].category), firstId + Count(groups[..g]) + j, stamp)
  {
    var head := ConeMarkers(groups[0].cones, ColourOf(groups[0].category), firstId, stamp);
    var tail := GroupMarkers(groups[1..], firstId + |head|, stamp);
    assert GroupMarkers(groups, firstId, stamp) == head + tail;
    if g == 0 {
      assert groups[..0] == [];
      ConeMarkersAt(groups[0].cones, ColourOf(groups[0].category), firstId, stamp);
      assert (head + tail)[j] == head[j];
    } else {
      var t := Count(groups[1..][..g - 1]) + j;
      assert Count(groups[..g]) + j == |head| + t by {
        assert groups[..g][1..] == groups[1..][..g - 1];
      }
      GroupMarkersAt(groups[1..], firstId + |head|, stamp, g - 1, j);
      assert groups[1..][g - 1] == groups[g];
      assert (head + tail)[|head| + t] == tail[t];
    }
  }

  /** The id of the first marker of category c. */
  function Offset(msg: ConeArray, c: Category): nat
  {
    Count(Groups(msg)[..Rank(c)])
  }

  /** Category c sits at position Rank(c) of the category order. */
  lemma GroupOfRank(msg: ConeArray, c: Category)
    ensures Rank(c) < |Groups(msg)|
    ensures Groups(msg)[Rank(c)] == Group(c, ConesOf(msg, c))
  {
  }

  /** The categories occupy consecutive id ranges in the order blue, yellow,
      orange, big orange, unknown, and together cover 0 .. N-1. */
  lemma CategoryOffsets(msg: ConeArray)
    ensures Offset(msg, Blue) == 0
    ensures Offset(msg, Yellow) == Offset(msg, Blue) + |msg.blueCones|
    ensures Offset(msg, Orange) == Offset(msg, Yellow) + |msg.yellowCones|
    ensures Offset(msg, BigOrange) == Offset(msg, Orange) + |msg.orangeCones|
    ensures Offset(msg, Unknown) == Offset(msg, BigOrange) + |msg.bigOrangeCones|
    ensures TotalCones(msg) == Offset(msg, Unknown) + |msg.unknownColorCones|
  {
    var gs := Groups(msg);
    assert gs[..0] == [];
    CountPrefix(gs, 0);
    CountPrefix(gs, 1);
    CountPrefix(gs, 2);
    CountPrefix(gs, 3);
    CountPrefix(gs, 4);
    assert gs[..5] == gs;
  }

  /** Every cone of category c gets an ADD marker at id Offset(c) + j (its
      position j in the list), with the category's colour at full opacity,
      positioned at (y, -x, -0.7) and drawn as a fixed-size cube. */
  lemma CategoryPlacement(msg: ConeArray, lastMarkerCount: nat, c: Category, j: nat)
    requires j < |ConesOf(msg, c)|
    ensures Offset(msg, c) + j < TotalCones(msg)
    ensures var cone := ConesOf(msg, c)[j];
            var m := MarkerArray(msg, lastMarkerCount)[Offset(msg, c) + j];
            m.action == Add && m.id == Offset(msg, c) + j && Labelled(m, msg.stamp)
            && m.position == Point(cone.y, -cone.x, ConeZ)
            && m.colour == ColourOf(c) && m.alpha == 1.0
            && m.shape == Cube && m.scale == ConeSize && m.orientationW == 1.0
  {
    GroupOfRank(msg, c);
    GroupMarkersAt(Groups(msg), 0, msg.stamp, Rank(c), j);
    var adds := AddMarkers(msg);
    var out := MarkerArray(msg, lastMarkerCount);
    assert out == adds + DeleteMarkers(TotalCones(msg), lastMarkerCount, msg.stamp);
    assert out[Offset(msg, c) + j] == adds[Offset(msg, c) + j];
  }

  /** Regrouping a concatenation of five marker lists. A proof step of
      AddMarkersByCategory, kept as a lemma so that proof stays within its
      resource budget. */
  lemma ConcatAssoc(a: seq<Marker>, b: seq<Marker>, c: seq<Marker>, d: seq<Marker>, e: seq<Marker>)
    ensures a + (b + (c + (d + e))) == a + b + c + d + e
  {
  }

  /** The markers of a non-empty list of groups: those of its first group,
      then those of the rest. One unfolding of GroupMarkers, kept as a lemma
      so the proofs that use it stay within their resource budget. */
  lemma GroupMarkersCons(groups: seq<Group>, firstId: int, stamp: Stamp)
    requires groups != []
    ensures GroupMarkers(groups, firstId, stamp)
         == ConeMarkers(groups[0].cones, ColourOf(groups[0].category), firstId, stamp)
          + GroupMarkers(groups[1..], firstId + |groups[0].cones|, stamp)
  {
  }

  /** The ADD markers of a batch, written out category by category as the
      node produces them: each category's ids start where the previous
      category's end. */
  lemma AddMarkersByCategory(msg: ConeArray, b: nat, y: nat, o: nat, bo: nat)
    requires b == |msg.blueCones| && y == b + |msg.yellowCones|
    requires o == y + |msg.orangeCones| && bo == o + |msg.bigOrangeCones|
    ensures AddMarkers(msg)
         == ConeMarkers(msg.blueCones, ColourOf(Blue), 0, msg.stamp)
          + ConeMarkers(msg.yellowCones, ColourOf(Yellow), b, msg.stamp)
          + ConeMarkers(msg.orangeCones, ColourOf(Orange), y, msg.stamp)
          + ConeMarkers(msg.bigOrangeCones, ColourOf(BigOrange), o, msg.stamp)
          + ConeMarkers(msg.unknownColorCones, ColourOf(Unknown), bo, msg.stamp)
  {
    var s := msg.stamp;
    var gs := Groups(msg);
    var m0 := ConeMarkers(msg.blueCones, ColourOf(Blue), 0, s);
    var m1 := ConeMarkers(msg.yellowCones, ColourOf(Yellow), b, s);
    var m2 := ConeMarkers(msg.orangeCones, ColourOf(Orange), y, s);
    var m3 := ConeMarkers(msg.bigOrangeCones, ColourOf(BigOrange), o, s);
    var m4 := ConeMarkers(msg.unknownColorCones, ColourOf(Unknown), bo, s);
    var t4 := GroupMarkers(gs[4..], bo, s);
    assert t4 == m4 by {
      GroupMarkersCons(gs[4..], bo, s);
      assert gs[4..][1..] == [];
      assert m4 + [] == m4;
    }
    var t3 := GroupMarkers(gs[3..], o, s);
    assert t3 == m3 + t4 by {
      GroupMarkersCons(gs[3..], o, s);
      assert gs[3..][1..] == gs[4..];
    }
    var t2 := GroupMarkers(gs[2..], y, s);
    assert t2 == m2 + t3 by {
      GroupMarkersCons(gs[2..], y, s);
      assert gs[2..][1..] == gs[3..];
    }
    var t1 := GroupMarkers(gs[1..], b, s);
    assert t1 == m1 + t2 by {
      GroupMarkersCons(gs[1..], b, s);
      assert gs[1..][1..] == gs[2..];
    }
    assert AddMarkers(msg) == m0 + t1 by {
      GroupMarkersCons(gs, 0, s);
    }
    ConcatAssoc(m0, m1, m2, m3, m4);
  }

  /** The ids of the ADD markers, as a set. */
  function AddIds(markers: seq<Marker>): set<int>
  {
    set k | 0 <= k < |markers| && markers[k].action == Add :: markers[k].id
  }

  /** The ids of the DELETE markers, as a set. */
  function DeleteIds(markers: seq<Marker>): set<int>
  {
    set k | 0 <= k < |markers| && markers[k].action == Delete :: markers[k].id
  }

  /** The ADD markers carry exactly the ids 0 .. N-1 and the DELETE markers
      exactly the ids N .. lastMarkerCount-1; no id occurs twice. */
  lemma MarkerIds(msg: ConeArray, lastMarkerCount: nat)
    ensures forall i :: i in AddIds(MarkerArray(msg, lastMarkerCount)) <==> 0 <= i < TotalCones(msg)
    ensures forall i :: i in DeleteIds(MarkerArray(msg, lastMarkerCount)) <==> TotalCones(msg) <= i < lastMarkerCount
    ensures forall j, k :: 0 <= j < k < |MarkerArray(msg, lastMarkerCount)| ==>
              MarkerArray(msg, lastMarkerCount)[j].id != MarkerArray(msg, lastMarkerCount)[k].id
  {
    var out := MarkerArray(msg, lastMarkerCount);
    var n := TotalCones(msg);
    forall i | 0 <= i < n ensures i in AddIds(out) {
      assert out[i].id == i;
    }
    forall i | n <= i < lastMarkerCount ensures i in DeleteIds(out) {
      assert out[i].id == i && out[i].action == Delete;
    }
  }

  /** Once the batch has at least as many cones as the previous call emitted
      markers, nothing is deleted. */
  lemma NoDeletesWhenNotShrinking(msg: ConeArray, lastMarkerCount: nat)
    requires lastMarkerCount <= TotalCones(msg)
    ensures MarkerArray(msg, lastMarkerCount) == AddMarkers(msg)
  {
    assert DeleteMarkers(TotalCones(msg), lastMarkerCount, msg.stamp) == [];
    assert AddMarkers(msg) + [] == AddMarkers(msg);
  }

  /** A batch without cones publishes no ADD markers and retracts every id
      the previous call emitted, in increasing order. */
  lemma EmptyBatchRetractsAll(msg: ConeArray, lastMarkerCount: nat)
    requires TotalCones(msg) == 0
    ensures MarkerArray(msg, lastMarkerCount) == DeleteMarkers(0, lastMarkerCount, msg.stamp)
  {
  }
}
