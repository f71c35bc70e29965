# Foxglove cone visualiser: marker synthesis

This project models the core of a ROS 2 node, `FoxgloveNode`, which turns each
perception batch of detected cones into a Foxglove `MarkerArray`.
- Every cone becomes one ADD marker: a cube in its category's colour, at
  `(y, -x, -0.7)` in the `hesai_lidar` frame.
- Markers are numbered 0 .. N-1 in a fixed order: blue, yellow, orange, big
  orange, unknown, and within a category in list order.
- The node remembers how many markers the previous call emitted
  (`last_marker_count`). Whenever the new batch is smaller, it appends DELETE
  markers for the ids the previous call used and this one does not.

The Dafny modules follow the program's structure:

- `ConeMessages` (`messages.dfy`): the messages. It holds the cone batch with
  its five category lists, the markers (the fields the node sets, plus the
  shape, pose, scale and colour fields a DELETE marker leaves at their
  defaults), the five categories with their fixed colours,
  and the frame, namespace, height and size constants.
- `MarkerSynthesis` (`marker_synthesis.dfy`): what one call publishes, as
  functions of the batch and the retained count (`MarkerArray` and the
  functions it is built from). It also holds the lemmas about that output:
  id density and uniqueness, placement and colour per category, and the
  exact set of retracted ids.
- `Renderer` (`renderer.dfy`): a model of the visualiser that keys markers by
  (namespace, id). ADD shows or replaces a key and DELETE removes it. It
  proves that applying the node's output leaves exactly the current batch's
  markers visible. Over any stream of batches, the display ends up showing
  the last batch only.
- `Foxglove` (`foxglove_node.dfy`): the node itself.
  - The class `FoxgloveNode` holds the mutable field `lastMarkerCount`.
  - `CreateMarkerArray` is the source method. Its loop appends the DELETE
    markers, and it calls `AddCones`, the nested `add_cones` helper, once per
    category.
  - Both methods are proved against the `MarkerSynthesis` functions.
- `FoxgloveScenario.TwoBatches` (`foxglove_node.dfy`) states, as verified
  assertions, what the contracts give for two batches through one node
  (three cones, then one): ids, colours, positions and retractions.

## Model

| member | source | states |
|---|---|---|
| MarkerSynthesis.ConeMarkers | FoxgloveNode.py:57-80 | one category's cone list yields exactly one marker per cone |
| MarkerSynthesis.ConeMarkersAt | FoxgloveNode.py:59-80 | the j-th cone of a list gets a CUBE ADD marker with id firstId + j, position (cone.y, -cone.x, -0.7), scale 0.2, orientation w 1.0, the category colour at alpha 1.0, the batch stamp, frame `hesai_lidar` and namespace `cone_markers` |
| MarkerSynthesis.ConeMarkersSnoc | FoxgloveNode.py:79-80 | appending one more cone appends one marker whose id is the next id after the list's markers |
| MarkerSynthesis.GroupMarkers | FoxgloveNode.py:83-87 | the category-by-category output has as many markers as the categories have cones |
| MarkerSynthesis.TotalCones | FoxgloveNode.py:54-87 | the id counter reached after the five categories equals the sum of the five list lengths |
| MarkerSynthesis.DeleteMarkers | FoxgloveNode.py:90-97 | the delete loop emits to - from markers when from < to and none otherwise |
| MarkerSynthesis.DeleteMarkersAt | FoxgloveNode.py:90-97 | the k-th DELETE marker is for id from + k, with the batch stamp, frame and namespace |
| MarkerSynthesis.DeleteMarkersSnoc | FoxgloveNode.py:90-97 | one more loop iteration appends the DELETE marker for the next id, after whatever the array already holds |
| MarkerSynthesis.GroupMarkersIds | FoxgloveNode.py:60-66 | the ADD markers are labelled with the frame, stamp and namespace, and their ids count up from the first id without gaps |
| MarkerSynthesis.MarkerArray | FoxgloveNode.py:52-102 | the published array has max(N, lastMarkerCount) markers; the k-th has id k and carries frame, stamp and namespace; it is an ADD exactly when k < N |
| MarkerSynthesis.GroupMarkersAt | FoxgloveNode.py:83-87 | cone j of group g gets the marker at index (cones of the earlier groups) + j, with that id and its group's colour |
| MarkerSynthesis.CategoryOffsets | FoxgloveNode.py:83-87 | the categories take consecutive id ranges in the order blue, yellow, orange, big orange, unknown, and together they cover 0 .. N-1 |
| MarkerSynthesis.CategoryPlacement | FoxgloveNode.py:60-78 | every cone of every category gets an ADD marker at its category's first id + its position in the list. The marker has position (y, -x, -0.7), the category's fixed RGB triple at full opacity, and a 0.2 cube with orientation w 1.0 |
| MarkerSynthesis.AddMarkersByCategory | FoxgloveNode.py:83-87 | the ADD markers are the five categories' markers in order, each category numbered on from where the previous one stopped |
| MarkerSynthesis.MarkerIds | FoxgloveNode.py:52-102 | the ADD ids are exactly {0 .. N-1}, the DELETE ids are exactly {N .. lastMarkerCount-1}, and no id occurs twice in one array |
| MarkerSynthesis.NoDeletesWhenNotShrinking | FoxgloveNode.py:90 | when the batch is at least as large as the previous one, the array holds no DELETE markers |
| MarkerSynthesis.EmptyBatchRetractsAll | FoxgloveNode.py:89-97 | a batch without cones publishes only DELETE markers, for every id 0 .. lastMarkerCount-1 in increasing order |
| Renderer.Reconcile | FoxgloveNode.py:89-100 | whatever a keyed display shows, applying one call's output shows ids 0 .. N-1, hides ids N .. lastMarkerCount-1 and leaves every other key unchanged |
| Renderer.ReconcileDisplay | FoxgloveNode.py:89-100 | if the display showed exactly the previous call's markers, it shows exactly ids 0 .. N-1 of the new batch afterwards, so no stale marker remains |
| Renderer.ReplayShowsLatest | FoxgloveNode.py:99-100 | over any stream of batches, each using the count kept from the one before, the display ends up showing exactly the last batch's markers |
| Foxglove.AddCones | FoxgloveNode.py:57-80 | the loop appends one ADD marker per cone to the array, ids counting on from the current counter, and advances the counter by the number of cones |
| Foxglove.FoxgloveNode.constructor | FoxgloveNode.py:19-23 | a new node keeps its print flag and starts with a retained count of 0 |
| Foxglove.FoxgloveNode.CreateMarkerArray | FoxgloveNode.py:52-102 | the returned array is MarkerArray(batch, previous count), and the retained count becomes the batch's cone total N |

## Left out

- ROS plumbing is not modelled: node creation, the `cone_markers` publisher,
  the `/perc_cones` subscription and its best-effort QoS profile, and the
  `publish` call (FoxgloveNode.py:9-16, 25-36, 49-50). The model returns the
  array that would be published.
- `cone_array_callback` printing the per-category counts (FoxgloveNode.py:38-47)
  is console output only. `printCounts` is kept as a field that no operation
  changes; the formatting itself is left out.
- `main`, argument parsing and the rclpy lifecycle (FoxgloveNode.py:105-118) are
  process start-up, not logic.
- Colours are kept as the byte triples the source writes. The division by
  255.0 into floating-point channels is left out, since floating point is not
  modelled.
- Positions, the height -0.7, the size 0.2, orientation w and alpha are exact
  reals. Python's double rounding is not modelled; negation is exact in both.
- Marker scale is one value, because the source sets x, y and z to the same
  0.2.
- MarkerArray: ids are unbounded integers. Past 2^31-1 markers in one array
  the ROS `int32` id would be rejected by the message setter; this is not
  modelled.
- DELETE markers: the source sets only frame, stamp, namespace, id and action.
  Of the fields it leaves at the message default, the model writes out the
  shape (ARROW), position (origin), orientation w (1.0), scale (0), colour (0)
  and alpha (0).
- Marker fields not modelled at all, for ADD and DELETE markers alike:
  `lifetime`, `frame_locked`, orientation x, y and z, `points`, `colors`,
  `text`, `mesh_resource` and `mesh_use_embedded_materials`. The node never
  sets them, so all keep their defaults. `Renderer.Apply` relies on `lifetime`
  being 0 (never expires): a shown marker stays until a DELETE removes it.
- Cone fields other than the planar position are not read by the node and
  are not modelled.
- Concurrency is out of scope: the node handles one batch at a time.
