/** The cone visualisation node: it turns each cone batch into a marker
    array and remembers how many markers it published last time. */
module Foxglove {
  import opened ConeMessages
  import opened MarkerSynthesis

  /** Appends one ADD marker per cone, all in one colour, numbering them on
      from markerId; returns the extended array and the next free id. */
  method AddCones(markers: seq<Marker>, markerId: nat, cones: seq<Cone>, colour: Rgb, stamp: Stamp)
    returns (extended: seq<Marker>, nextId: nat)
    ensures extended == markers + ConeMarkers(cones, colour, markerId, stamp)
    ensures nextId == markerId + |cones|
  {
    extended, nextId := markers, markerId;
    for i := 0 to |cones|
      invariant nextId == markerId + i
      invariant extended == markers + ConeMarkers(cones[..i], colour, markerId, stamp)
    {
      ConeMarkersSnoc(cones[..i], cones[i], colour, markerId, stamp);
      assert cones[..i + 1] == cones[..i] + [cones[i]];
      extended := extended + [ConeMarker(cones[i], colour, nextId, stamp)];
      nextId := nextId + 1;
    }
    assert cones[..|cones|] == cones;
  }

  class FoxgloveNode {
    /** Whether the per-category counts are printed; never changes. */
    const printCounts: bool
    /** How many markers the previous call published as ADD markers. */
    var lastMarkerCount: nat

    constructor (printCounts: bool)
      ensures this.printCounts == printCounts
      ensures lastMarkerCount == 0
    {
      this.printCounts := printCounts;
      lastMarkerCount := 0;
    }

    /** Builds the marker array for one batch: the ADD markers of the five
        categories in order, then DELETE markers for the ids the previous
        call used and this one does not; retains the new count. */
    method CreateMarkerArray(msg: ConeArray) returns (markerArray: seq<Marker>)
      modifies this`lastMarkerCount
      ensures markerArray == MarkerArray(msg, old(lastMarkerCount))
      ensures lastMarkerCount == TotalCones(msg)
    {
      markerArray := [];
      var markerId: nat := 0;
      markerArray, markerId := AddCones(markerArray, markerId, msg.blueCones, ColourOf(Blue), msg.stamp);
      assert markerArray == ConeMarkers(msg.blueCones, ColourOf(Blue), 0, msg.stamp);
      ghost var b := markerId;
      markerArray, markerId := AddCones(markerArray, markerId, msg.yellowCones, ColourOf(Yellow), msg.stamp);
      ghost var y := markerId;
      markerArray, markerId := AddCones(markerArray, markerId, msg.orangeCones, ColourOf(Orange), msg.stamp);
      ghost var o := markerId;
      markerArray, markerId := AddCones(markerArray, markerId, msg.bigOrangeCones, ColourOf(BigOrange), msg.stamp);
      ghost var bo := markerId;
      markerArray, markerId := AddCones(markerArray, markerId, msg.unknownColorCones, ColourOf(Unknown), msg.stamp);
      ghost var adds := markerArray;
      assert adds == AddMarkers(msg) by {
        AddMarkersByCategory(msg, b, y, o, bo);
      }
      assert markerId == TotalCones(msg);
      assert markerArray == adds + DeleteMarkers(markerId, markerId, msg.stamp) by {
        assert adds + [] == adds;
      }

      // The loop stops at the old count, or at once when there is nothing to delete.
      ghost var end := if markerId < lastMarkerCount then lastMarkerCount else markerId;
      assert DeleteMarkers(markerId, end, msg.stamp) == DeleteMarkers(markerId, lastMarkerCount, msg.stamp);
      var idToDelete := markerId;
      while idToDelete < lastMarkerCount
        invariant lastMarkerCount == old(lastMarkerCount)
        invariant markerId <= idToDelete <= end
        invariant markerArray == adds + DeleteMarkers(markerId, idToDelete, msg.stamp)
        decreases lastMarkerCount - idToDelete
      {
        DeleteMarkersSnoc(adds, markerId, idToDelete, msg.stamp);
        markerArray := markerArray + [DeleteMarker(idToDelete, msg.stamp)];
        idToDelete := idToDelete + 1;
      }
      lastMarkerCount := markerId;
    }
  }
}

/** Two batches through one node: three cones, then one. What a caller can
    conclude from the contracts alone. */
module FoxgloveScenario {
  import opened ConeMessages
  import opened MarkerSynthesis
  import opened Foxglove

  method TwoBatches(stamp: Stamp, c0: Cone, c1: Cone, c2: Cone)
  {
    var node := new FoxgloveNode(false);
    var first := ConeArray(stamp, [c0, c1], [], [c2], [], []);
    var out := node.CreateMarkerArray(first);
    assert node.lastMarkerCount == 3 && |out| == 3;
    CategoryPlacement(first, 0, Blue, 1);
    CategoryPlacement(first, 0, Orange, 0);
    CategoryOffsets(first);
    assert out[1].id == 1 && out[1].colour == ColourOf(Blue) && out[1].position == Point(c1.y, -c1.x, ConeZ);
    assert out[2].id == 2 && out[2].colour == ColourOf(Orange) && out[2].position == Point(c2.y, -c2.x, ConeZ);

    var second := ConeArray(stamp, [c2], [], [], [], []);
    out := node.CreateMarkerArray(second);
    assert node.lastMarkerCount == 1 && |out| == 3;
    assert out[0].action == Add && out[1].action == Delete && out[2].action == Delete;
    assert out[1].id == 1 && out[2].id == 2;
  }
}
