// Physical-device selection and logical-device creation: the first
// enumerated GPU that offers the swapchain extension, a usable surface and
// all three queue capabilities is chosen, and one queue is requested from
// each distinct family among graphics, presentation and transfer.
module Device {

  import opened Wrappers
  import opened VkTypes
  import QF = QueueFamilies

  const DEVICE_EXTENSIONS: seq<string> := ["VK_KHR_swapchain"]

  /** What enumerating and querying one physical device reports. */
  datatype PhysicalDevice = PhysicalDevice(
    handle: Handle,
    families: seq<QF.QueueFamily>,
    presentSupport: seq<bool>,
    extensions: seq<string>,
    formats: seq<SurfaceFormat>,
    presentModes: seq<PresentMode>)
  {
    /** One presentation answer per queue family, and a real handle. */
    predicate WellFormed()
    {
      |presentSupport| == |families| && handle != NULL_HANDLE
    }
  }

  predicate ExtensionsSupported(available: seq<string>)
  {
    forall i :: 0 <= i < |DEVICE_EXTENSIONS| ==> DEVICE_EXTENSIONS[i] in available
  }

  /** Some family draws, some family transfers, and some family presents to the surface. */
  predicate HasQueueCapabilities(gpu: PhysicalDevice)
  {
    && (exists g :: 0 <= g < |gpu.families| && gpu.families[g].graphics)
    && (exists t :: 0 <= t < |gpu.families| && gpu.families[t].transfer)
    && (exists p :: 0 <= p < |gpu.presentSupport| && gpu.presentSupport[p])
  }

  /** A device the engine can render and present with. */
  predicate Suitable(gpu: PhysicalDevice)
  {
    && ExtensionsSupported(gpu.extensions)
    && |gpu.formats| > 0 && |gpu.presentModes| > 0
    && HasQueueCapabilities(gpu)
  }

  /** Starts from the required names and erases every available name; supported iff nothing is left. */
  method CheckDeviceExtensionsSupport(available: seq<string>) returns (b: bool)
    ensures b <==> ExtensionsSupported(available)
  {
    var required: set<string> := set i | 0 <= i < |DEVICE_EXTENSIONS| :: DEVICE_EXTENSIONS[i];
    ghost var all := required;
    var i := 0;
    while i < |available|
      invariant i <= |available|
      invariant required == all - set k | 0 <= k < i :: available[k]
    {
      required := required - {available[i]};
      i := i + 1;
    }
    assert forall r :: r in available <==> r in set k | 0 <= k < i :: available[k];
    b := required == {};
  }

  /**
   * Extensions, then (only when they are supported) the surface formats and
   * present modes, then the queue families.  `detailsQueried` says whether
   * the surface was queried.
   */
  method CheckDeviceSuitable(gpu: PhysicalDevice) returns (b: bool, detailsQueried: bool)
    requires gpu.WellFormed()
    ensures b <==> Suitable(gpu)
    ensures detailsQueried <==> ExtensionsSupported(gpu.extensions)
  {
    var indices := QF.GetQueueFamilies(gpu.families, gpu.presentSupport);
    QF.QueueFamiliesSound(gpu.families, gpu.presentSupport);
    var extensionsSupported := CheckDeviceExtensionsSupport(gpu.extensions);
    var swapChainAdequate := false;
    detailsQueried := false;
    if extensionsSupported {
      detailsQueried := true;
      swapChainAdequate := |gpu.formats| > 0 && |gpu.presentModes| > 0;
    }
    b := extensionsSupported && swapChainAdequate && indices.IsValid();
  }

  /**
   * No devices raises `Error`; otherwise the first suitable device in
   * enumeration order is chosen, and raising `Error` when there is none.
   */
  method SelectPhysicalDevice(gpus: seq<PhysicalDevice>) returns (r: Result<nat, Error>)
    requires forall i :: 0 <= i < |gpus| ==> gpus[i].WellFormed()
    ensures |gpus| == 0 <==> r == Fail(NoVulkanDevice)
    ensures r.Fail? <==> forall i :: 0 <= i < |gpus| ==> !Suitable(gpus[i])
    ensures r == Fail(NoSuitableDevice) <==> |gpus| > 0 && forall i :: 0 <= i < |gpus| ==> !Suitable(gpus[i])
    ensures r.Ok? ==> r.value < |gpus| && Suitable(gpus[r.value])
    ensures r.Ok? ==> forall i :: 0 <= i < r.value ==> !Suitable(gpus[i])
  {
    if |gpus| == 0 {
      return Fail(NoVulkanDevice);
    }
    var physical := NULL_HANDLE;
    var chosen := 0;
    var i := 0;
    while i < |gpus|
      invariant i <= |gpus|
      invariant forall j :: 0 <= j < i ==> !Suitable(gpus[j])
      invariant physical == NULL_HANDLE
    {
      var suitable, _ := CheckDeviceSuitable(gpus[i]);
      if suitable {
        physical := gpus[i].handle;
        chosen := i;
        break;
      }
      i := i + 1;
    }
    if physical == NULL_HANDLE {
      return Fail(NoSuitableDevice);
    }
    return Ok(chosen);
  }


  /** The order in which a std::set of family indices is visited: ascending. */
  ghost function Ascending(s: set<nat>): seq<nat>
    decreases |s|
  {
    if s == {} then [] else [Least(s)] + Ascending(s - {Least(s)})
  }

  /** The ascending visit lists each element exactly once, in strictly increasing order. */
  lemma {:induction false} AscendingOrdered(s: set<nat>)
    ensures |Ascending(s)| == |s|
    ensures forall x :: x in s <==> x in Ascending(s)
    ensures forall i, j :: 0 <= i < j < |Ascending(s)| ==> Ascending(s)[i] < Ascending(s)[j]
    decreases |s|
  {
    if s != {} {
      var m := Least(s);
      var rest := s - {m};
      AscendingOrdered(rest);
      var all := Ascending(s);
      assert all == [m] + Ascending(rest);
      forall i, j | 0 <= i < j < |all|
        ensures all[i] < all[j]
      {
        if i == 0 {
          assert all[j] == Ascending(rest)[j - 1] && all[j] in rest;
        }
      }
    }
  }

  /** The smallest element of a non-empty set of family indices. */
  ghost function Least(s: set<nat>): (m: nat)
    requires s != {}
    ensures m in s && forall x :: x in s ==> m <= x
  {
    var x :| x in s;
    if s == {x} then
      assert forall y :: y in s ==> y == x;
      x
    else
      var rest := Least(s - {x});
      assert forall y :: y in s ==> y == x || y in s - {x};
      if x < rest then x else rest
  }

  /** Three family indices name one, two or three distinct families. */
  lemma DistinctFamilies(a: nat, b: nat, c: nat)
    ensures 1 <= |{a, b, c}| <= 3
  {
    if a == b {
      assert {a, b, c} == {a, c};
    } else {
      assert {a, b, c} == {a, b} + {c};
    }
  }

  datatype QueueCreateInfo = QueueCreateInfo(queueFamilyIndex: nat, queueCount: nat)

  /**
   * One single-queue request per distinct family, visited in the ascending
   * order of the std::set they are collected in.
   */
  method CreateQueueInfos(graphics: nat, presentation: nat, transfer: nat) returns (infos: seq<QueueCreateInfo>)
    ensures |infos| == |Ascending({graphics, presentation, transfer})|
    ensures forall i :: 0 <= i < |infos| ==> infos[i] == QueueCreateInfo(Ascending({graphics, presentation, transfer})[i], 1)
  {
    var families: set<nat> := {graphics, presentation, transfer};
    ghost var all := families;
    ghost var visited: seq<nat> := [];
    infos := [];
    while families != {}
      invariant visited + Ascending(families) == Ascending(all)
      invariant |infos| == |visited|
      invariant forall i :: 0 <= i < |infos| ==> infos[i] == QueueCreateInfo(visited[i], 1)
      decreases |families|
    {
      ghost var least := Least(families);
      var f :| f in families && forall g :: g in families ==> f <= g;
      assert f == least;
      visited := visited + [f];
      infos := infos + [QueueCreateInfo(f, 1)];
      families := families - {f};
    }
  }

  /** The families a list of queue requests asks for. */
  function RequestedFamilies(infos: seq<QueueCreateInfo>): set<nat>
  {
    set i | 0 <= i < |infos| :: infos[i].queueFamilyIndex
  }

  /** The queue requests: 1 to 3 of them, one queue each, for exactly the three families, in increasing family order. */
  lemma QueueInfosDeduplicated(graphics: nat, presentation: nat, transfer: nat, infos: seq<QueueCreateInfo>)
    requires |infos| == |Ascending({graphics, presentation, transfer})|
    requires forall i :: 0 <= i < |infos| ==> infos[i] == QueueCreateInfo(Ascending({graphics, presentation, transfer})[i], 1)
    ensures 1 <= |infos| <= 3
    ensures forall i :: 0 <= i < |infos| ==> infos[i].queueCount == 1
    ensures forall i, j :: 0 <= i < j < |infos| ==> infos[i].queueFamilyIndex < infos[j].queueFamilyIndex
    ensures RequestedFamilies(infos) == {graphics, presentation, transfer}
  {
    var families := {graphics, presentation, transfer};
    var order := Ascending(families);
    AscendingOrdered(families);
    DistinctFamilies(graphics, presentation, transfer);
    forall f | f in families
      ensures f in RequestedFamilies(infos)
    {
      var i :| 0 <= i < |order| && order[i] == f;
      assert infos[i].queueFamilyIndex == f;
    }
    forall f | f in RequestedFamilies(infos)
      ensures f in families
    {
      var i :| 0 <= i < |infos| && infos[i].queueFamilyIndex == f;
      assert order[i] == f;
    }
  }

  /** `gpus[k]` is the first suitable device, and `device` uses it with families of the right capability. */
  predicate FirstSuitableWith(gpus: seq<PhysicalDevice>, k: nat, device: LogicalDevice)
    requires k < |gpus|
  {
    && Suitable(gpus[k]) && device.physical == gpus[k].handle
    && (forall j :: 0 <= j < k ==> !Suitable(gpus[j]))
    && device.graphicsFamily < |gpus[k].families| && gpus[k].families[device.graphicsFamily].graphics
    && device.transferFamily < |gpus[k].families| && gpus[k].families[device.transferFamily].transfer
    && device.presentationFamily < |gpus[k].presentSupport| && gpus[k].presentSupport[device.presentationFamily]
  }

  datatype DeviceCreateInfo = DeviceCreateInfo(
    queueCreateInfos: seq<QueueCreateInfo>,
    enabledExtensions: seq<string>,
    enabledLayerCount: nat,
    samplerAnisotropy: bool)

  /** The chosen GPU, the logical device, and the family each queue is fetched from. */
  datatype LogicalDevice = LogicalDevice(
    physical: Handle,
    logical: Handle,
    graphicsFamily: nat,
    presentationFamily: nat,
    transferFamily: nat)

  /**
   * Selects a device, then creates the logical device with the swapchain
   * extension, no layers and one queue per distinct family.
   * `samplerAnisotropy` is the one feature the revision under `Source/`
   * enables; the one under `source/` enables none.
   */
  method Build(gpus: seq<PhysicalDevice>, samplerAnisotropy: bool, created: Created)
    returns (r: Result<LogicalDevice, Error>, info: Option<DeviceCreateInfo>)
    requires forall i :: 0 <= i < |gpus| ==> gpus[i].WellFormed()
    ensures |gpus| == 0 ==> r == Fail(NoVulkanDevice) && info == None
    ensures info.None? <==> forall i :: 0 <= i < |gpus| ==> !Suitable(gpus[i])
    ensures r.Ok? <==> info.Some? && created.result == Success
    ensures info.Some? && r.Fail? ==> r.error == DeviceCreateFailed
    ensures info.Some? ==>
      && info.value.enabledExtensions == DEVICE_EXTENSIONS && info.value.enabledLayerCount == 0
      && info.value.samplerAnisotropy == samplerAnisotropy
      && 1 <= |info.value.queueCreateInfos| <= 3
      && (forall i :: 0 <= i < |info.value.queueCreateInfos| ==> info.value.queueCreateInfos[i].queueCount == 1)
      && (forall i, j :: 0 <= i < j < |info.value.queueCreateInfos| ==>
            info.value.queueCreateInfos[i].queueFamilyIndex < info.value.queueCreateInfos[j].queueFamilyIndex)
    ensures |gpus| > 0 && (forall i :: 0 <= i < |gpus| ==> !Suitable(gpus[i])) ==> r == Fail(NoSuitableDevice)
    ensures r.Ok? ==>
      exists k :: 0 <= k < |gpus| && FirstSuitableWith(gpus, k, r.value) && gpus[k].WellFormed()
        && var q := QF.ScanFrom(gpus[k].families, gpus[k].presentSupport, 0, QF.NoIndices);
        && q.graphics == Some(r.value.graphicsFamily)
        && q.transfer == Some(r.value.transferFamily)
        && q.presentation == Some(r.value.presentationFamily)
    ensures r.Ok? ==>
      RequestedFamilies(info.value.queueCreateInfos) == {r.value.graphicsFamily, r.value.presentationFamily, r.value.transferFamily}
    ensures r.Ok? ==> r.value.logical == created.handle
  {
    var selected := SelectPhysicalDevice(gpus);
    if selected.Fail? {
      return Fail(selected.error), None;
    }
    var k := selected.value;
    var gpu := gpus[k];
    var indices := QF.GetQueueFamilies(gpu.families, gpu.presentSupport);
    QF.QueueFamiliesSound(gpu.families, gpu.presentSupport);
    var graphics := indices.graphics.value;
    var presentation := indices.presentation.value;
    var transfer := indices.transfer.value;
    var queueInfos := CreateQueueInfos(graphics, presentation, transfer);
    QueueInfosDeduplicated(graphics, presentation, transfer, queueInfos);
    info := Some(DeviceCreateInfo(queueInfos, DEVICE_EXTENSIONS, 0, samplerAnisotropy));
    if created.result != Success {
      return Fail(DeviceCreateFailed), info;
    }
    r := Ok(LogicalDevice(gpu.handle, created.handle, graphics, presentation, transfer));
    assert FirstSuitableWith(gpus, k, r.value);
  }
}
