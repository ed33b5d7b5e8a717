// Queue-family discovery: one scan over the device's queue families, in index
// order, that overwrites the graphics / transfer / presentation index with every
// family having that capability and stops right after the first index at which
// all three are known.
module QueueFamilies {

  import opened Wrappers
  import opened VkTypes

  /** The two `queueFlags` bits the scan looks at. */
  datatype QueueFamily = QueueFamily(graphics: bool, transfer: bool)

  const NoIndices := QueueFamilyIndices(None, None, None)

  /** One loop iteration: index `i` overwrites every capability family `i` has. */
  function Step(acc: QueueFamilyIndices, family: QueueFamily, present: bool, i: nat): QueueFamilyIndices
  {
    QueueFamilyIndices(
      if family.graphics then Some(i) else acc.graphics,
      if family.transfer then Some(i) else acc.transfer,
      if present then Some(i) else acc.presentation)
  }

  /** The scan from index `i` on, starting from `acc`; what the loop computes. */
  function ScanFrom(families: seq<QueueFamily>, present: seq<bool>, i: nat, acc: QueueFamilyIndices): QueueFamilyIndices
    requires |present| == |families| && i <= |families|
    decreases |families| - i
  {
    if i == |families| then acc
    else
      var next := Step(acc, families[i], present[i], i);
      if next.IsValid() then next else ScanFrom(families, present, i + 1, next)
  }

  /**
   * `families` are the properties vkGetPhysicalDeviceQueueFamilyProperties
   * reports; `present[i]` is what vkGetPhysicalDeviceSurfaceSupportKHR reports
   * for family `i`.
   */
  method GetQueueFamilies(families: seq<QueueFamily>, present: seq<bool>) returns (indices: QueueFamilyIndices)
    requires |present| == |families|
    ensures indices == ScanFrom(families, present, 0, NoIndices)
  {
    indices := NoIndices;
    var i := 0;
    while i < |families|
      invariant i <= |families|
      invariant ScanFrom(families, present, i, indices) == ScanFrom(families, present, 0, NoIndices)
    {
      var family := families[i];
      if family.graphics {
        indices := indices.(graphics := Some(i));
      }
      if family.transfer {
        indices := indices.(transfer := Some(i));
      }
      if present[i] {
        indices := indices.(presentation := Some(i));
      }
      if indices.IsValid() {
        break;
      }
      i := i + 1;
    }
  }

  // ---------------------------------------------------------------------------
  // A reference definition that does not scan: the last family with a
  // capability among the first `p`.

  function LastGraphics(families: seq<QueueFamily>, p: nat): (r: Option<nat>)
    requires p <= |families|
    ensures r.Some? ==> r.value < p && families[r.value].graphics
    ensures r.Some? ==> forall j :: r.value < j < p ==> !families[j].graphics
    ensures r.None? ==> forall j :: 0 <= j < p ==> !families[j].graphics
  {
    if p == 0 then None
    else if families[p - 1].graphics then Some(p - 1)
    else LastGraphics(families, p - 1)
  }

  function LastTransfer(families: seq<QueueFamily>, p: nat): (r: Option<nat>)
    requires p <= |families|
    ensures r.Some? ==> r.value < p && families[r.value].transfer
    ensures r.Some? ==> forall j :: r.value < j < p ==> !families[j].transfer
    ensures r.None? ==> forall j :: 0 <= j < p ==> !families[j].transfer
  {
    if p == 0 then None
    else if families[p - 1].transfer then Some(p - 1)
    else LastTransfer(families, p - 1)
  }

  function LastPresent(present: seq<bool>, p: nat): (r: Option<nat>)
    requires p <= |present|
    ensures r.Some? ==> r.value < p && present[r.value]
    ensures r.Some? ==> forall j :: r.value < j < p ==> !present[j]
    ensures r.None? ==> forall j :: 0 <= j < p ==> !present[j]
  {
    if p == 0 then None
    else if present[p - 1] then Some(p - 1)
    else LastPresent(present, p - 1)
  }

  /** The indices an unconditional scan over the first `p` families yields. */
  function Snapshot(families: seq<QueueFamily>, present: seq<bool>, p: nat): QueueFamilyIndices
    requires |present| == |families| && p <= |families|
  {
    QueueFamilyIndices(LastGraphics(families, p), LastTransfer(families, p), LastPresent(present, p))
  }

  /** A complete snapshot stays complete over a longer prefix. */
  lemma {:induction false} SnapshotMonotone(families: seq<QueueFamily>, present: seq<bool>, p: nat, q: nat)
    requires |present| == |families| && p <= q <= |families|
    requires Snapshot(families, present, p).IsValid()
    ensures Snapshot(families, present, q).IsValid()
  {
    var s := Snapshot(families, present, p);
    assert families[s.graphics.value].graphics && families[s.transfer.value].transfer && present[s.presentation.value];
  }

  lemma {:induction false} ScanFromSnapshot(families: seq<QueueFamily>, present: seq<bool>, i: nat, k: nat)
    requires |present| == |families| && i <= k <= |families|
    requires forall q :: 0 <= q < k ==> !Snapshot(families, present, q).IsValid()
    requires k == |families| || Snapshot(families, present, k).IsValid()
    requires !Snapshot(families, present, i).IsValid()
    ensures ScanFrom(families, present, i, Snapshot(families, present, i)) == Snapshot(families, present, k)
    decreases |families| - i
  {
    if i < |families| {
      var next := Step(Snapshot(families, present, i), families[i], present[i], i);
      assert next == Snapshot(families, present, i + 1);
      if !next.IsValid() {
        ScanFromSnapshot(families, present, i + 1, k);
      }
    }
  }

  /**
   * The scan returns the last-match indices of the shortest prefix in which
   * all three capabilities occur, or of the whole list when there is none:
   * it stops immediately after the first index that completes the set.
   */
  lemma QueueFamiliesStopAtFirstComplete(families: seq<QueueFamily>, present: seq<bool>, k: nat)
    requires |present| == |families| && k <= |families|
    requires forall q :: 0 <= q < k ==> !Snapshot(families, present, q).IsValid()
    requires k == |families| || Snapshot(families, present, k).IsValid()
    ensures ScanFrom(families, present, 0, NoIndices) == Snapshot(families, present, k)
  {
    assert Snapshot(families, present, 0) == NoIndices;
    ScanFromSnapshot(families, present, 0, k);
  }

  lemma {:induction false} ScanFromSound(families: seq<QueueFamily>, present: seq<bool>, i: nat, acc: QueueFamilyIndices)
    requires |present| == |families| && i <= |families|
    requires acc == Snapshot(families, present, i)
    ensures ScanFrom(families, present, i, acc).IsValid() <==> Snapshot(families, present, |families|).IsValid()
    decreases |families| - i
  {
    if i < |families| {
      var next := Step(acc, families[i], present[i], i);
      assert next == Snapshot(families, present, i + 1);
      if next.IsValid() {
        SnapshotMonotone(families, present, i + 1, |families|);
      } else {
        ScanFromSound(families, present, i + 1, next);
      }
    }
  }

  lemma {:induction false} ScanFromAgrees(families: seq<QueueFamily>, present: seq<bool>, i: nat, acc: QueueFamilyIndices)
    requires |present| == |families| && i <= |families|
    requires acc == Snapshot(families, present, i)
    ensures exists p :: i <= p <= |families| && ScanFrom(families, present, i, acc) == Snapshot(families, present, p)
    decreases |families| - i
  {
    if i == |families| {
      assert ScanFrom(families, present, i, acc) == Snapshot(families, present, i);
    } else {
      var next := Step(acc, families[i], present[i], i);
      assert next == Snapshot(families, present, i + 1);
      if next.IsValid() {
        assert ScanFrom(families, present, i, acc) == Snapshot(families, present, i + 1);
      } else {
        ScanFromAgrees(families, present, i + 1, next);
      }
    }
  }

  /**
   * Every index the scan returns names a family with that capability, and
   * the result is complete exactly when each capability occurs somewhere.
   */
  lemma QueueFamiliesSound(families: seq<QueueFamily>, present: seq<bool>)
    requires |present| == |families|
    ensures var r := ScanFrom(families, present, 0, NoIndices);
      && (r.graphics.Some? ==> r.graphics.value < |families| && families[r.graphics.value].graphics)
      && (r.transfer.Some? ==> r.transfer.value < |families| && families[r.transfer.value].transfer)
      && (r.presentation.Some? ==> r.presentation.value < |families| && present[r.presentation.value])
      && (r.IsValid() <==>
            (exists g :: 0 <= g < |families| && families[g].graphics)
            && (exists t :: 0 <= t < |families| && families[t].transfer)
            && (exists p :: 0 <= p < |present| && present[p]))
  {
    assert Snapshot(families, present, 0) == NoIndices;
    ScanFromAgrees(families, present, 0, NoIndices);
    ScanFromSound(families, present, 0, NoIndices);
    var all := Snapshot(families, present, |families|);
    if (exists g :: 0 <= g < |families| && families[g].graphics) {
      assert all.graphics.Some?;
    }
    if (exists t :: 0 <= t < |families| && families[t].transfer) {
      assert all.transfer.Some?;
    }
    if (exists p :: 0 <= p < |present| && present[p]) {
      assert all.presentation.Some?;
    }
  }
}
