/** Reason codes and device answers. */
module Results {

  /** A subscriber's final reason.  `DeviceError` stands for the device's own error text. */
  datatype Reason =
    | ProvisionSuccess
    | TpInstanceCreationFailed
    | FlowIdGenerationFailed
    | FlowAddFailed
    | SchedCreationFailed
    | QueueCreationFailed
    | DeviceError

  /** How the device answers a call. */
  datatype Code = Ok | AlreadyExists | Failed

  datatype Option<+T> = None | Some(value: T)
}
