// VulkanDevice, the move-only pair of a physical and a logical device
// handle.  Copying is not offered; moving hands both handles over and
// nulls the moved-from object, so one device is held by one object.
module DeviceHandle {

  import opened VkTypes

  class VulkanDevice {
    var physicalDevice: Handle
    var logicalDevice: Handle

    /** Holds a device: both handles are set. */
    predicate HoldsDevice()
      reads this
    {
      physicalDevice != NULL_HANDLE && logicalDevice != NULL_HANDLE
    }

    /** Empty: both handles are null. */
    predicate IsEmpty()
      reads this
    {
      physicalDevice == NULL_HANDLE && logicalDevice == NULL_HANDLE
    }

    constructor (physicalDevice: Handle, logicalDevice: Handle)
      ensures this.physicalDevice == physicalDevice && this.logicalDevice == logicalDevice
    {
      this.physicalDevice := physicalDevice;
      this.logicalDevice := logicalDevice;
    }

    /** Move construction: the new object takes both handles, `source` is left with null ones. */
    constructor Move(source: VulkanDevice)
      modifies source
      ensures physicalDevice == old(source.physicalDevice) && logicalDevice == old(source.logicalDevice)
      ensures source.IsEmpty()
      ensures old(source.HoldsDevice()) ==> HoldsDevice() && !source.HoldsDevice()
    {
      physicalDevice := source.physicalDevice;
      logicalDevice := source.logicalDevice;
      new;
      source.physicalDevice := NULL_HANDLE;
      source.logicalDevice := NULL_HANDLE;
    }

    /** Move assignment: self-assignment changes nothing; otherwise both handles move over. */
    method MoveAssign(source: VulkanDevice)
      modifies this, source
      ensures source == this ==> physicalDevice == old(physicalDevice) && logicalDevice == old(logicalDevice)
      ensures source != this ==>
        && physicalDevice == old(source.physicalDevice)
        && logicalDevice == old(source.logicalDevice)
        && source.IsEmpty()
      ensures source != this && old(source.HoldsDevice()) ==> HoldsDevice() && !source.HoldsDevice()
    {
      if source == this {
        return;
      }
      physicalDevice := source.physicalDevice;
      logicalDevice := source.logicalDevice;
      source.physicalDevice := NULL_HANDLE;
      source.logicalDevice := NULL_HANDLE;
    }
  }
}
