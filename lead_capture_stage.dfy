/**
 * The lead-capture stage: basic customer details, then mobile verification
 * by a one-time password. The demo accepts the code "1234".
 */
module LeadCaptureStage {

  import opened Js
  import opened GlobalContext
  import opened MultiStageForm

  const DemoOtp: string := "1234"

  /** The basic-details Continue button. */
  predicate BasicContinueEnabled(data: FormData) {
    Truthy(Get(data, "fullName")) && Truthy(Get(data, "email")) && Truthy(Get(data, "phone"))
  }

  /** The button and the hook's validation of the sub-stage are the same test. */
  lemma BasicGateMatchesValidation(data: FormData)
    ensures BasicContinueEnabled(data) <==> IsSubStageValid("basic-details", data)
  {
  }

  /** Continue on the basic details moves to the verification step exactly when the three fields are filled. */
  lemma BasicContinueMovesToVerification(s: GlobalState, data: FormData, now: Time)
    requires s.workflow == Workflow("lead-capture", "basic-details")
    ensures Advance(s, data, now) ==
      if BasicContinueEnabled(data) then s.(workflow := Workflow("lead-capture", "otp-verification")) else s
  {
    var i := 0;
    assert Order[i] == Workflow("lead-capture", "basic-details");
    assert Order[i + 1] == Workflow("lead-capture", "otp-verification");
    assert KnownSubStage("otp-verification") by {
      assert Order[i + 1].currentSubStageId == "otp-verification";
    }
    CanAccessIff(RoleOf(s), "otp-verification");
    NextFollowsOrder(s, data, now, i);
  }

  /** `nextSubStage` from the verification step moves on exactly when the rendered data has `otpVerified`. */
  lemma VerificationStepNeedsRenderedFlag(s: GlobalState, data: FormData, now: Time)
    requires s.workflow == Workflow("lead-capture", "otp-verification")
    ensures Advance(s, data, now) ==
      if Truthy(Get(data, "otpVerified")) then s.(workflow := Workflow("application", "primary-applicant")) else s
  {
    var i := 1;
    assert Order[i] == Workflow("lead-capture", "otp-verification");
    assert Order[i + 1] == Workflow("application", "primary-applicant");
    assert KnownSubStage("primary-applicant") by {
      assert Order[i + 1].currentSubStageId == "primary-applicant";
    }
    CanAccessIff(RoleOf(s), "primary-applicant");
    NextFollowsOrder(s, data, now, i);
  }

  /**
   * The first correct code writes the flag but navigates with the data of the
   * render before that write, so it stays put; pressing Verify again after
   * the re-render moves on.
   */
  lemma FirstCorrectCodeStaysSecondAdvances(s: GlobalState, data: FormData, now: Time)
    requires s.workflow == Workflow("lead-capture", "otp-verification")
    requires !Truthy(Get(data, "otpVerified"))
    ensures Advance(s, data, now) == s
    ensures Advance(s, data["otpVerified" := Bool(true)], now).workflow == Workflow("application", "primary-applicant")
  {
    VerificationStepNeedsRenderedFlag(s, data, now);
    VerificationStepNeedsRenderedFlag(s, data["otpVerified" := Bool(true)], now);
  }

  /** The verification panel's local state beside one instance of the form hook. */
  class OtpPanel {
    const form: FormSession
    var otpSent: bool
    var otp: string

    constructor (form: FormSession)
      ensures this.form == form && !otpSent && otp == ""
    {
      this.form := form;
      otpSent := false;
      otp := "";
    }

    /** Send (or resend) the code: only a filled-in phone number gets one. */
    method SendOtp()
      modifies this
      ensures otpSent == (old(otpSent) || Truthy(Get(form.formData, "phone")))
      ensures otp == old(otp)
    {
      if Truthy(Get(form.formData, "phone")) {
        otpSent := true;
      }
    }

    method EnterOtp(code: string)
      modifies this
      ensures otp == code && otpSent == old(otpSent)
    {
      otp := code;
    }

    /**
     * Verify: the demo code writes `otpVerified` and requests the next
     * sub-stage with the data of the render the press happened in; any other
     * code touches neither the form nor the position.
     */
    method VerifyOtp(now: Time) returns (accepted: bool)
      requires form.Valid()
      modifies form, form.global
      ensures accepted <==> otp == DemoOtp
      ensures form.Valid()
      ensures accepted ==>
        form.State() == FieldUpdated(old(form.State()), "otpVerified", Bool(true))
        && form.global.state == Advance(old(form.global.state), old(form.formData), now)
      ensures !accepted ==> form.State() == old(form.State()) && form.global.state == old(form.global.state)
    {
      accepted := otp == DemoOtp;
      if accepted {
        var rendered := form.formData;
        form.UpdateField("otpVerified", Bool(true));
        form.DispatchEach(NextSubStageActions(Catalogue, form.global.state.workflow, rendered, RoleOf(form.global.state)), now);
      }
    }
  }
}
