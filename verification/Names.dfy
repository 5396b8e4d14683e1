/** The stage and step names of the transfer workflows.

    The program compares names as strings. The ones its transfer workflows use are
    constructors here; any other name is an `OtherStage` or an `OtherStep`. The empty
    string, which stands for "not set", is `None` wherever a name may be missing. */
module Names {
  datatype StageName =
    | StageBeforeSending
    | StageSending
    | StageAfterSending
    | StageCompensateOnFail
    | OtherStage(name: string)

  datatype StepName =
    | StepValidateRequest
    | StepSending
    | StepWaitingInMempool
    | StepWaitingForTheFirstConfirmation
    | StepWaitingConfirmations
    | StepSendSuccessEvent
      // EVM
    | StepSendBaseAssetForBurn
    | StepWaitingSendBaseAssetForBurnConfirmations
      // Tron
    | StepCheckActivateWallet
    | StepBeforeActivationCheckTransferKind
    | StepActiveWalletResources
    | StepWaitingResourcesActivateWalletConfirmations
    | StepWaitingExternalActivateWalletConfirmations
    | StepActivateWalletBurnTRX
    | StepActivateWallet
    | StepWaitingActivateWalletConfirmations
    | StepBeforeSendingCheckTransferKind
    | StepSendTRXForBurn
    | StepWaitingSendTRXForBurnConfirmations
    | StepDelegateResources
    | StepWaitingDelegateConfirmations
    | StepWaitingExternalDelegateConfirmations
    | StepAfterSendingCheckTransferKind
    | StepReclaimResources
    | StepWaitingReclaimResourcesConfirmations
    | StepDetermineCompensationFlow
    | StepReclaimOnError
    | StepWaitingReclaimOnErrorConfirmation
    | StepSendFailureEvent
    | OtherStep(name: string)
}
