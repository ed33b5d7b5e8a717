// Vulkan instance creation: which extensions and validation layers are
// requested, the checks that they are available, and the order in which a
// failed check or a failed driver call raises `Error`.
module Instance {

  import opened Wrappers
  import opened VkTypes

  const PROPERTIES_2_EXTENSION: string := "VK_KHR_get_physical_device_properties2"
  const DEBUG_REPORT_EXTENSION: string := "VK_EXT_debug_report"
  const VALIDATION_LAYERS: seq<string> := ["VK_LAYER_KHRONOS_validation"]

  /** True iff one of the available extension properties carries the queried name. */
  method IsExtensionAvailable(properties: seq<string>, extension: string) returns (b: bool)
    ensures b <==> extension in properties
  {
    var i := 0;
    while i < |properties|
      invariant i <= |properties|
      invariant extension !in properties[..i]
    {
      if properties[i] == extension {
        return true;
      }
      i := i + 1;
    }
    assert properties[..i] == properties;
    return false;
  }

  /**
   * The nested search both support checks use: for each required name in
   * turn, scan the available names for it; a name not found ends the check.
   */
  method AllAvailable(required: seq<string>, available: seq<string>) returns (b: bool)
    ensures b <==> forall i :: 0 <= i < |required| ==> required[i] in available
  {
    var i := 0;
    while i < |required|
      invariant i <= |required|
      invariant forall k :: 0 <= k < i ==> required[k] in available
    {
      var found := false;
      var j := 0;
      while j < |available|
        invariant j <= |available|
        invariant !found ==> required[i] !in available[..j]
        invariant found ==> required[i] in available
      {
        if available[j] == required[i] {
          found := true;
          break;
        }
        j := j + 1;
      }
      if !found {
        assert available[..j] == available;
        return false;
      }
      i := i + 1;
    }
    return true;
  }

  /** Every required instance extension is among the enumerated ones. */
  method CheckInstanceExtensionsSupport(required: seq<string>, available: seq<string>) returns (b: bool)
    ensures b <==> forall i :: 0 <= i < |required| ==> required[i] in available
  {
    b := AllAvailable(required, available);
  }

  /** Every validation layer the engine asks for is among the enumerated layers. */
  method CheckValidationLayersSupport(availableLayers: seq<string>) returns (b: bool)
    ensures b <==> forall i :: 0 <= i < |VALIDATION_LAYERS| ==> VALIDATION_LAYERS[i] in availableLayers
  {
    b := AllAvailable(VALIDATION_LAYERS, availableLayers);
  }

  /**
   * The window system's extensions in their order, then the
   * physical-device-properties-2 extension only when the driver offers it,
   * and the debug-report extension always last.
   */
  method GetRequiredExtensions(windowExtensions: seq<string>, properties: seq<string>) returns (extensions: seq<string>)
    ensures |extensions| == |windowExtensions| + (if PROPERTIES_2_EXTENSION in properties then 2 else 1)
    ensures extensions[..|windowExtensions|] == windowExtensions
    ensures extensions[|extensions| - 1] == DEBUG_REPORT_EXTENSION
    ensures PROPERTIES_2_EXTENSION in properties ==> extensions[|windowExtensions|] == PROPERTIES_2_EXTENSION
  {
    extensions := windowExtensions;
    var available := IsExtensionAvailable(properties, PROPERTIES_2_EXTENSION);
    if available {
      extensions := extensions + [PROPERTIES_2_EXTENSION];
    }
    extensions := extensions + [DEBUG_REPORT_EXTENSION];
  }

  datatype InstanceCreateInfo = InstanceCreateInfo(enabledExtensions: seq<string>, enabledLayers: seq<string>)

  /** The instance and the debug-report callback registered for it. */
  datatype VulkanInstance = VulkanInstance(handle: Handle, debugReport: Handle)

  /** What the driver and the window system report while the instance is built. */
  datatype InstanceDriver = InstanceDriver(
    availableLayers: seq<string>,
    windowExtensions: seq<string>,
    availableExtensions: seq<string>,
    instance: Created,
    debugReportLoaded: bool,
    debugReport: Created)

  /**
   * Validation layers are checked first (only when enabled), then the
   * required extensions; the create info enables the validation layers
   * exactly when validation is enabled.  Each failure raises `Error`.
   */
  method Build(enableValidationLayers: bool, d: InstanceDriver) returns (r: Result<VulkanInstance, Error>, info: Option<InstanceCreateInfo>)
    ensures enableValidationLayers && !(forall i :: 0 <= i < |VALIDATION_LAYERS| ==> VALIDATION_LAYERS[i] in d.availableLayers) ==>
      r == Fail(ValidationLayersUnavailable) && info == None
    ensures
      && (enableValidationLayers ==> forall i :: 0 <= i < |VALIDATION_LAYERS| ==> VALIDATION_LAYERS[i] in d.availableLayers)
      && !((forall i :: 0 <= i < |d.windowExtensions| ==> d.windowExtensions[i] in d.availableExtensions)
           && DEBUG_REPORT_EXTENSION in d.availableExtensions)
      ==> r == Fail(ExtensionsUnsupported) && info == None
    ensures info.Some? ==> info.value.enabledLayers == if enableValidationLayers then VALIDATION_LAYERS else []
    ensures info.Some? ==>
      info.value.enabledExtensions
        == d.windowExtensions
           + (if PROPERTIES_2_EXTENSION in d.availableExtensions then [PROPERTIES_2_EXTENSION] else [])
           + [DEBUG_REPORT_EXTENSION]
    ensures info.Some? <==>
      && (enableValidationLayers ==> forall i :: 0 <= i < |VALIDATION_LAYERS| ==> VALIDATION_LAYERS[i] in d.availableLayers)
      && (forall i :: 0 <= i < |d.windowExtensions| ==> d.windowExtensions[i] in d.availableExtensions)
      && DEBUG_REPORT_EXTENSION in d.availableExtensions
    ensures info.Some? ==>
      && |d.windowExtensions| < |info.value.enabledExtensions|
      && info.value.enabledExtensions[..|d.windowExtensions|] == d.windowExtensions
      && info.value.enabledExtensions[|info.value.enabledExtensions| - 1] == DEBUG_REPORT_EXTENSION
      && (forall i :: 0 <= i < |info.value.enabledExtensions| ==> info.value.enabledExtensions[i] in d.availableExtensions)
    ensures r.Ok? ==> info.Some? && DEBUG_REPORT_EXTENSION in d.availableExtensions
    ensures r.Ok? <==> info.Some? && d.instance.result == Success && d.debugReportLoaded && d.debugReport.result == Success
    ensures r.Ok? ==> r.value == VulkanInstance(d.instance.handle, d.debugReport.handle)
    ensures info.Some? && r.Fail? ==>
      r.error == if d.instance.result != Success then InstanceCreateFailed
                 else if !d.debugReportLoaded then DebugReportUnavailable
                 else DebugReportCreateFailed
  {
    info := None;
    if enableValidationLayers {
      var supported := CheckValidationLayersSupport(d.availableLayers);
      if !supported {
        return Fail(ValidationLayersUnavailable), None;
      }
    }

    var extensions := GetRequiredExtensions(d.windowExtensions, d.availableExtensions);
    assert extensions
      == d.windowExtensions
         + (if PROPERTIES_2_EXTENSION in d.availableExtensions then [PROPERTIES_2_EXTENSION] else [])
         + [DEBUG_REPORT_EXTENSION];
    var supported := CheckInstanceExtensionsSupport(extensions, d.availableExtensions);
    if !supported {
      return Fail(ExtensionsUnsupported), None;
    }

    var layers := if enableValidationLayers then VALIDATION_LAYERS else [];
    info := Some(InstanceCreateInfo(extensions, layers));
    if d.instance.result != Success {
      return Fail(InstanceCreateFailed), info;
    }
    if !d.debugReportLoaded {
      return Fail(DebugReportUnavailable), info;
    }
    if d.debugReport.result != Success {
      return Fail(DebugReportCreateFailed), info;
    }
    r := Ok(VulkanInstance(d.instance.handle, d.debugReport.handle));
  }
}
