/** The permission tables of AuthController and SignContractController. */
module Endpoints {
  import opened Prelude
  import opened SessionRecord
  import opened PermissionGate

  const REQUEST_OTP := Endpoint([], [], Some(FlowMeta(SignContract, [], [OtpRequested])))
  const CHECK_OTP := Endpoint([], [], Some(FlowMeta(SignContract, [OtpRequested], [FlowOtpVerified])))
  const CHECK_SELFIE :=
    Endpoint([], [], Some(FlowMeta(SignContract, [OtpRequested, FlowOtpVerified], [SelfieVerified])))
  const ADD_PERMISSION := Endpoint([], [OtpVerified], None)
  const ADD_SESSION_LOCAL := Endpoint([OtpVerified], [ForgotPassword], None)

  const TABLE: set<Endpoint> := {NO_METADATA, REQUEST_OTP, CHECK_OTP, CHECK_SELFIE, ADD_PERMISSION, ADD_SESSION_LOCAL}

  /** The flow session requestOtp writes; an omitted selfieId may be a property with value undefined. */
  function RequestOtpPatch(contractId: string, otpId: string, selfieUndefined: bool): FlowPatch {
    var ids := map["contractId" := Some(contractId), "otpId" := Some(otpId)];
    FlowPatch(Some(SignContract), Value([]), if selfieUndefined then ids["selfieId" := None] else ids)
  }

  /** The partial flow session checkSelfie writes. */
  function CheckSelfiePatch(selfieId: string): FlowPatch {
    FlowPatch(Some(SignContract), Missing, map["selfieId" := Some(selfieId)])
  }
}
