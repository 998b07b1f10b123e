/**
 * Device lists keyed by backend index. The haptic session keeps one (its registry) and the
 * coordinator keeps another (its mirror); both change only through "found", "lost" and
 * "disconnected". Replay is the effect of a sequence of updates on such a list.
 */
module DeviceRegistry {
  import opened Wrappers
  import opened Messages

  predicate HasBackendIndex(devices: seq<Device>, index: nat) {
    exists k :: 0 <= k < |devices| && devices[k].backendIndex == index
  }

  /** No backend index occurs twice. */
  predicate DistinctIndices(devices: seq<Device>) {
    forall j, k :: 0 <= j < k < |devices| ==> devices[j].backendIndex != devices[k].backendIndex
  }

  /** `retain(|d| d.index() != index)`: drop every entry with that backend index, keep the rest in order. */
  function WithoutBackendIndex(devices: seq<Device>, index: nat): (r: seq<Device>)
    ensures forall d :: d in r <==> d in devices && d.backendIndex != index
    ensures |r| <= |devices|
    ensures !HasBackendIndex(devices, index) ==> r == devices
    ensures HasBackendIndex(devices, index) ==> |r| < |devices|
  {
    if devices == [] then []
    else
      var init := devices[..|devices| - 1];
      var last := devices[|devices| - 1];
      assert devices == init + [last];
      assert HasBackendIndex(init, index) ==> HasBackendIndex(devices, index);
      WithoutBackendIndex(init, index) + (if last.backendIndex == index then [] else [last])
  }

  /** The last entry with that backend index, the one the session reports as lost. */
  function LastWithBackendIndex(devices: seq<Device>, index: nat): (r: Option<Device>)
    ensures r.Some? <==> HasBackendIndex(devices, index)
    ensures r.Some? ==> r.value in devices && r.value.backendIndex == index
  {
    if devices == [] then None
    else
      var init := devices[..|devices| - 1];
      var last := devices[|devices| - 1];
      assert devices == init + [last];
      if last.backendIndex == index then Some(last) else LastWithBackendIndex(init, index)
  }

  /**
   * `retain(|d| d.index() != index)` over a device list: keeps the entries with another backend
   * index, in order, and captures the last entry it drops.
   */
  method RetainOthers(devices: seq<Device>, index: nat) returns (kept: seq<Device>, lost: Option<Device>)
    ensures kept == WithoutBackendIndex(devices, index)
    ensures lost == LastWithBackendIndex(devices, index)
  {
    kept, lost := [], None;
    var i := 0;
    while i < |devices|
      invariant 0 <= i <= |devices|
      invariant kept == WithoutBackendIndex(devices[..i], index)
      invariant lost == LastWithBackendIndex(devices[..i], index)
    {
      RetainStep(devices, i, index);
      if devices[i].backendIndex == index {
        lost := Some(devices[i]);
      } else {
        kept := kept + [devices[i]];
      }
      i := i + 1;
    }
    assert devices[..i] == devices;
  }

  /** One more entry examined by the `retain`. */
  lemma RetainStep(devices: seq<Device>, i: nat, index: nat)
    requires i < |devices|
    ensures WithoutBackendIndex(devices[..i + 1], index) ==
              WithoutBackendIndex(devices[..i], index) + if devices[i].backendIndex == index then [] else [devices[i]]
    ensures LastWithBackendIndex(devices[..i + 1], index) ==
              if devices[i].backendIndex == index then Some(devices[i]) else LastWithBackendIndex(devices[..i], index)
  {
    assert devices[..i + 1][..i] == devices[..i];
  }

  /**
   * `retain` keeps the order of what it keeps: filtering a list is filtering its two halves
   * and joining the results. With `WithoutBackendIndexSingle` this fixes the result entry by
   * entry.
   */
  lemma {:induction false} WithoutBackendIndexAppend(first: seq<Device>, second: seq<Device>, index: nat)
    ensures WithoutBackendIndex(first + second, index) == WithoutBackendIndex(first, index) + WithoutBackendIndex(second, index)
    decreases |second|
  {
    if second == [] {
      assert first + second == first;
    } else {
      var init := second[..|second| - 1];
      var last := second[|second| - 1];
      var tail := if last.backendIndex == index then [] else [last];
      assert (first + second)[..|first + second| - 1] == first + init;
      assert (first + second)[|first + second| - 1] == last;
      assert WithoutBackendIndex(first + second, index) == WithoutBackendIndex(first + init, index) + tail;
      assert WithoutBackendIndex(second, index) == WithoutBackendIndex(init, index) + tail;
      WithoutBackendIndexAppend(first, init, index);
      JoinedTail(WithoutBackendIndex(first + second, index), WithoutBackendIndex(first, index), WithoutBackendIndex(init, index), WithoutBackendIndex(second, index), tail);
    }
  }

  /** A single entry is kept exactly when its backend index differs. */
  lemma WithoutBackendIndexSingle(device: Device, index: nat)
    ensures WithoutBackendIndex([device], index) == if device.backendIndex == index then [] else [device]
  {
    assert [device][..0] == [];
  }

  /** Filtering by halves: the whole joins the filtered front with the filtered back. */
  lemma JoinedTail<T>(whole: seq<T>, front: seq<T>, middle: seq<T>, back: seq<T>, tail: seq<T>)
    requires whole == front + middle + tail && back == middle + tail
    ensures whole == front + back
  {
  }

  /** The effect of one update on a device list; updates that are not about devices leave it alone. */
  function ApplyToRegistry(devices: seq<Device>, u: Update): seq<Device> {
    match u
    case ButtplugDeviceFound(d) => if HasBackendIndex(devices, d.backendIndex) then devices else devices + [d]
    case ButtplugDeviceLost(d) => WithoutBackendIndex(devices, d.backendIndex)
    case ButtplugDisconnected => []
    case _ => devices
  }

  /** The effect of a sequence of updates, applied in order. */
  function Replay(devices: seq<Device>, updates: seq<Update>): seq<Device> {
    if updates == [] then devices
    else ApplyToRegistry(Replay(devices, updates[..|updates| - 1]), updates[|updates| - 1])
  }

  /**
   * What one update does to a device list: "found" makes its backend index listed (appending
   * the device if the index is new, adding nothing else), "lost" unlists its backend index and
   * keeps every other entry, "disconnected" empties the list, and anything else leaves it alone.
   */
  lemma ApplyToRegistryEffect(devices: seq<Device>, u: Update)
    ensures u.ButtplugDeviceFound? ==>
              && HasBackendIndex(ApplyToRegistry(devices, u), u.found.backendIndex)
              && |ApplyToRegistry(devices, u)| <= |devices| + 1
              && forall d :: d in ApplyToRegistry(devices, u) ==> d in devices || d == u.found
    ensures u.ButtplugDeviceFound? ==>
              && devices <= ApplyToRegistry(devices, u)
              && (|ApplyToRegistry(devices, u)| == |devices| <==> HasBackendIndex(devices, u.found.backendIndex))
    ensures u.ButtplugDeviceLost? ==>
              && !HasBackendIndex(ApplyToRegistry(devices, u), u.lost.backendIndex)
              && forall d :: d in devices ==> (d in ApplyToRegistry(devices, u) <==> d.backendIndex != u.lost.backendIndex)
    ensures u.ButtplugDisconnected? ==> ApplyToRegistry(devices, u) == []
    ensures !IsDeviceEvent(u) ==> ApplyToRegistry(devices, u) == devices
  {
    var r := ApplyToRegistry(devices, u);
    if u.ButtplugDeviceFound? && !HasBackendIndex(devices, u.found.backendIndex) {
      assert r[|devices|] == u.found;
    }
  }

  /** Every device a replay lists was listed at the start or announced by a "found" update. */
  lemma {:induction false} ReplayProvenance(devices: seq<Device>, updates: seq<Update>)
    ensures forall d :: d in Replay(devices, updates) ==> d in devices || ButtplugDeviceFound(d) in updates
    decreases |updates|
  {
    if updates != [] {
      var init := updates[..|updates| - 1];
      var last := updates[|updates| - 1];
      assert updates == init + [last];
      ReplayProvenance(devices, init);
      ApplyToRegistryEffect(Replay(devices, init), last);
    }
  }

  predicate IsDeviceEvent(u: Update) {
    u.ButtplugDeviceFound? || u.ButtplugDeviceLost? || u.ButtplugDisconnected?
  }

  /** The updates that concern the device list, in their original order. */
  function DeviceEvents(updates: seq<Update>): (r: seq<Update>)
    ensures forall u :: u in r <==> u in updates && IsDeviceEvent(u)
  {
    if updates == [] then []
    else
      var init := updates[..|updates| - 1];
      var last := updates[|updates| - 1];
      assert updates == init + [last];
      DeviceEvents(init) + (if IsDeviceEvent(last) then [last] else [])
  }

  /**
   * The device updates keep their arrival order: those of a joined list are those of its
   * halves, joined. With `DeviceEventsSingle` this fixes the result update by update.
   */
  lemma {:induction false} DeviceEventsAppend(first: seq<Update>, second: seq<Update>)
    ensures DeviceEvents(first + second) == DeviceEvents(first) + DeviceEvents(second)
    decreases |second|
  {
    if second == [] {
      assert first + second == first;
    } else {
      var init := second[..|second| - 1];
      var last := second[|second| - 1];
      var tail := if IsDeviceEvent(last) then [last] else [];
      assert (first + second)[..|first + second| - 1] == first + init;
      assert (first + second)[|first + second| - 1] == last;
      assert DeviceEvents(first + second) == DeviceEvents(first + init) + tail;
      assert DeviceEvents(second) == DeviceEvents(init) + tail;
      DeviceEventsAppend(first, init);
      JoinedTail(DeviceEvents(first + second), DeviceEvents(first), DeviceEvents(init), DeviceEvents(second), tail);
    }
  }

  /** A single update is kept exactly when it is a device update. */
  lemma DeviceEventsSingle(u: Update)
    ensures DeviceEvents([u]) == if IsDeviceEvent(u) then [u] else []
  {
    assert [u][..0] == [];
  }

  /** A list without device updates has none to keep. */
  lemma {:induction false} DeviceEventsNone(updates: seq<Update>)
    requires forall u :: u in updates ==> !IsDeviceEvent(u)
    ensures DeviceEvents(updates) == []
    decreases |updates|
  {
    if updates != [] {
      var init := updates[..|updates| - 1];
      assert forall u :: u in init ==> u in updates;
      DeviceEventsNone(init);
      assert updates[|updates| - 1] in updates;
    }
  }

  lemma ReplayStep(devices: seq<Device>, updates: seq<Update>, u: Update)
    ensures Replay(devices, updates + [u]) == ApplyToRegistry(Replay(devices, updates), u)
  {
    assert (updates + [u])[..|updates|] == updates;
  }

  /** Replaying two batches one after the other is replaying them joined. */
  lemma {:induction false} ReplayAppend(devices: seq<Device>, first: seq<Update>, second: seq<Update>)
    ensures Replay(devices, first + second) == Replay(Replay(devices, first), second)
    decreases |second|
  {
    if second == [] {
      assert first + second == first;
    } else {
      var init := second[..|second| - 1];
      var last := second[|second| - 1];
      assert second == init + [last];
      assert first + second == (first + init) + [last];
      ReplayStep(devices, first + init, last);
      ReplayAppend(devices, first, init);
      ReplayStep(Replay(devices, first), init, last);
    }
  }

  /** Replaying a longer list of updates is replaying what it adds on top of the shorter one. */
  lemma ReplaySuffix(before: seq<Update>, after: seq<Update>)
    requires before <= after
    ensures Replay([], after) == Replay(Replay([], before), after[|before|..])
  {
    assert after == before + after[|before|..];
    ReplayAppend([], before, after[|before|..]);
  }

  /** Only device events matter to a replay. */
  lemma {:induction false} ReplayOnlyDeviceEvents(devices: seq<Device>, updates: seq<Update>)
    ensures Replay(devices, updates) == Replay(devices, DeviceEvents(updates))
    decreases |updates|
  {
    if updates != [] {
      var init := updates[..|updates| - 1];
      var last := updates[|updates| - 1];
      assert updates == init + [last];
      ReplayOnlyDeviceEvents(devices, init);
      if IsDeviceEvent(last) {
        ReplayStep(devices, DeviceEvents(init), last);
      } else {
        assert DeviceEvents(updates) == DeviceEvents(init) + [];
        assert DeviceEvents(init) + [] == DeviceEvents(init);
      }
    }
  }

  lemma {:induction false} WithoutKeepsDistinct(devices: seq<Device>, index: nat)
    requires DistinctIndices(devices)
    ensures DistinctIndices(WithoutBackendIndex(devices, index))
    decreases |devices|
  {
    if devices != [] {
      var init := devices[..|devices| - 1];
      var last := devices[|devices| - 1];
      assert devices == init + [last];
      assert DistinctIndices(init);
      WithoutKeepsDistinct(init, index);
      var kept := WithoutBackendIndex(init, index);
      if last.backendIndex != index {
        forall j | 0 <= j < |kept| ensures kept[j].backendIndex != last.backendIndex {
          assert kept[j] in init;
          var k :| 0 <= k < |init| && init[k] == kept[j];
          assert devices[k] == kept[j];
        }
        assert WithoutBackendIndex(devices, index) == kept + [last];
      }
    }
  }

  /** A replay never puts the same backend index into the list twice. */
  lemma {:induction false} ReplayKeepsDistinct(devices: seq<Device>, updates: seq<Update>)
    requires DistinctIndices(devices)
    ensures DistinctIndices(Replay(devices, updates))
    decreases |updates|
  {
    if updates != [] {
      var init := updates[..|updates| - 1];
      var last := updates[|updates| - 1];
      ReplayKeepsDistinct(devices, init);
      var before := Replay(devices, init);
      match last
      case ButtplugDeviceLost(d) => WithoutKeepsDistinct(before, d.backendIndex);
      case _ =>
    }
  }

  /**
   * A mirror that reflects the first `delivered` updates of a sender catches up with the
   * sender's registry by replaying a queue that holds the rest of the sender's device updates
   * in order, whatever else is interleaved with them.
   */
  lemma MirrorCatchesUp(sent: seq<Update>, delivered: nat, queued: seq<Update>)
    requires delivered <= |sent|
    requires DeviceEvents(queued) == DeviceEvents(sent[delivered..])
    ensures Replay(Replay([], sent[..delivered]), queued) == Replay([], sent)
  {
    var mirror := Replay([], sent[..delivered]);
    ReplayOnlyDeviceEvents(mirror, queued);
    ReplayOnlyDeviceEvents(mirror, sent[delivered..]);
    ReplayAppend([], sent[..delivered], sent[delivered..]);
    assert sent[..delivered] + sent[delivered..] == sent;
  }

  /**
   * The coordinator addresses devices by position in its mirror, the session by position in
   * its registry. When the coordinator has seen exactly the session's device events, in the
   * order they were sent, whatever else was interleaved with them, a position names the same
   * device on both sides.
   */
  lemma PositionsAgree(sessionSent: seq<Update>, coordinatorSeen: seq<Update>)
    requires DeviceEvents(sessionSent) == DeviceEvents(coordinatorSeen)
    ensures |Replay([], sessionSent)| == |Replay([], coordinatorSeen)|
    ensures forall p :: 0 <= p < |Replay([], sessionSent)| ==>
              Replay([], sessionSent)[p] == Replay([], coordinatorSeen)[p]
  {
    ReplayOnlyDeviceEvents([], sessionSent);
    ReplayOnlyDeviceEvents([], coordinatorSeen);
  }
}
