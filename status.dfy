/** Values standing in for absl::optional, Status and StatusOr. */
module Status {

  /** absl::optional: a value or nothing. */
  datatype Option<+T> = None | Some(value: T)

  /** StatusOr<T>: a value on success, an error otherwise. */
  datatype Result<+T> = Success(value: T) | Failure(error: Error)

  /** Status without a value. */
  datatype Outcome = Pass | Fail(error: Error)

  /** The rules of the device-selection policy that make a set of devices unusable. */
  datatype Conflict =
    | MultipleCpuDevices
    | MultipleGpuDevices
    | MultipleUnknownDevices
    | UnknownAndGpuDevices
    | UnknownAndCpuDevices

  /** Every error this core returns. The source reports each of them as an
      internal error; the message text is not modelled, only its cause. */
  datatype Error =
    | EmptyDeviceName                        // TF_RET_CHECK(!name.empty())
    | MalformedAssignedDevice(device: string) // DeviceNameToDeviceType could not parse the name
    | NoDevicesToChooseFrom                  // TF_RET_CHECK(!devices.IsEmpty())
    | FailedToPickDevice(conflict: Conflict) // FAILED_TO_PICK_DEVICE in PickDeviceForXlaImpl
}
