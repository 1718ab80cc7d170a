/** The setup vocabulary of src/machine.rs. */
module Machine {
  import opened Collections

  datatype SetupFailure =
    | EnvironmentUnavailable | AdapterUnavailable | AdapterPoweredOff | AdapterCapabilityMissing
    | CandidateTimeout | ConfirmationTimeout | AncsTimeout | Cancelled | Rejected
    | InvalidProtocol | UnsupportedApiVersion | StdinClosed
    | PairingFailed | TrustFailed | RepairRequired | RepairTargetUnknown
    | AudioUnavailable | AudioRuleConflict | AudioRestartFailed | ConfigurationWriteFailed
    | CleanupFailed | BackendFailed

  datatype SetupState = CheckingEnvironment | WaitingForIphone | VerifyingAncs | ApplyingConfiguration

  datatype SetupCommand = Confirm | Reject | Cancel

  datatype ProtocolError = Malformed | UnsupportedVersion | WrongState

  function ValidateCommand(command: SetupCommand, confirmationActive: bool): Result<(), ProtocolError> {
    if command.Cancel? || confirmationActive then Ok(()) else Err(WrongState)
  }
}
