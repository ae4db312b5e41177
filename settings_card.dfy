/** The danger zone of a workspace's settings (frontend/src/pages/WorkSpaceDetail/SettingsCard.tsx):
 *  deleting a workspace takes its name typed back, then a six-digit code sent by e-mail. */
module SettingsCard {
  import opened Common
  import OtpCells

  const CODE_LENGTH: nat := 6
  const NAME_MISMATCH := "Workspace name does not match."
  const CODE_TOO_SHORT := "Code must be 6 digits."
  const INVALID_CODE := "Invalid code provided."
  const CODE_SENT := "Verification code sent to email"
  const NETWORK_ERROR := "Network error, please try again."
  const HOME_PATH := "/home"

  datatype Step = ConfirmName | VerifyOtp | Success

  /** The card is drawn for the workspace owner only; for anyone else nothing is drawn, so
   *  neither handler can run. */
  predicate Rendered(isOwner: bool)
  {
    isOwner
  }

  /** The code input's `onChange`: the browser keeps at most six characters (`maxLength`),
   *  and every non-digit is removed. */
  function CodeInput(typed: string): (r: string)
    ensures AllDigits(r) && |r| <= CODE_LENGTH
    ensures |typed| <= CODE_LENGTH && AllDigits(typed) ==> r == typed
  {
    KeepDigits(if |typed| <= CODE_LENGTH then typed else typed[..CODE_LENGTH])
  }

  /** A code the input accepts is one UTF-16 unit per digit, so `otp.length !== 6` tests the
   *  number of digits. */
  lemma CodeInputLength(typed: string)
    ensures Utf16Length(CodeInput(typed)) == |CodeInput(typed)|
  {
    OtpCells.DigitsUtf16Length(CodeInput(typed));
  }

  /** Six digits typed are kept as they are and pass the length check. */
  lemma SixDigitsTypedAreKept(typed: string)
    requires |typed| == CODE_LENGTH && AllDigits(typed)
    ensures CodeInput(typed) == typed && Utf16Length(CodeInput(typed)) == CODE_LENGTH
  {
    CodeInputLength(typed);
  }

  /** `err.response?.data?.detail || "Invalid code provided."`. */
  function DeleteFailureMessage(detail: Option<string>): (m: string)
    ensures m != []
    ensures detail.Some? && detail.value != [] ==> m == detail.value
    ensures detail.None? || detail.value == [] ==> m == INVALID_CODE
  {
    if detail.Some? && detail.value != [] then detail.value else INVALID_CODE
  }

  class DeleteFlow {
    var isModalOpen: bool
    var step: Step
    var confirmationText: string
    var otp: string
    var isLoading: bool
    var inputError: bool
    var errorMessage: string

    /** The code field only ever holds what the input accepts. */
    predicate Valid()
      reads this
    {
      AllDigits(otp) && |otp| <= CODE_LENGTH
    }

    constructor ()
      ensures Valid()
      ensures step == ConfirmName && !isModalOpen && confirmationText == [] && otp == []
      ensures !isLoading && !inputError && errorMessage == []
    {
      isModalOpen := false;
      step := ConfirmName;
      confirmationText := [];
      otp := [];
      isLoading := false;
      inputError := false;
      errorMessage := [];
    }

    /** Opening and closing the dialog (closing is refused while a request runs). The step
     *  is not reset, so a reopened dialog resumes where it was left. */
    method SetModalOpen(open: bool)
      requires Valid()
      modifies this
      ensures Valid()
      ensures isModalOpen == (if !open && old(isLoading) then old(isModalOpen) else open)
      ensures step == old(step) && otp == old(otp) && confirmationText == old(confirmationText)
      ensures isLoading == old(isLoading) && inputError == old(inputError) && errorMessage == old(errorMessage)
    {
      if open || !isLoading {
        isModalOpen := open;
      }
    }

    method TypeCode(typed: string)
      requires Valid()
      modifies this
      ensures Valid()
      ensures otp == CodeInput(typed) && !inputError
      ensures step == old(step) && isModalOpen == old(isModalOpen) && confirmationText == old(confirmationText)
      ensures isLoading == old(isLoading) && errorMessage == old(errorMessage)
    {
      otp := CodeInput(typed);
      inputError := false;
    }

    /** `handleRequestOTP`: a name that differs from the workspace's is refused with no
     *  request; otherwise the code is requested (`sent` is whether that succeeded) and
     *  only a success moves on to the code step. */
    method RequestCode(workspaceName: string, sent: bool) returns (requested: bool, toast: Option<string>)
      requires Valid()
      modifies this
      ensures Valid()
      ensures requested <==> confirmationText == workspaceName
      ensures !requested ==> inputError && errorMessage == NAME_MISMATCH && toast.None? && step == old(step)
      ensures requested ==> !inputError && errorMessage == []
      ensures requested && sent ==> step == VerifyOtp && toast == Some(CODE_SENT)
      ensures requested && !sent ==> step == old(step) && toast == Some(NETWORK_ERROR)
      ensures (if requested then !isLoading else isLoading == old(isLoading))
      ensures otp == old(otp) && confirmationText == old(confirmationText) && isModalOpen == old(isModalOpen)
    {
      inputError := false;
      errorMessage := [];
      toast := None;
      if confirmationText != workspaceName {
        inputError := true;
        errorMessage := NAME_MISMATCH;
        return false, toast;
      }
      requested := true;
      isLoading := true;
      if sent {
        toast := Some(CODE_SENT);
        step := VerifyOtp;
      } else {
        toast := Some(NETWORK_ERROR);
      }
      isLoading := false;
    }

    /** `handleFinalDelete`: a code that is not six long is refused with no request;
     *  otherwise the deletion is confirmed (`failure` is `None` on success, or the error's
     *  `detail`). Success shows the last step and, after a delay, closes the dialog and
     *  goes home; failure shows the server's detail or a default message. */
    method FinalDelete(failure: Option<Option<string>>) returns (requested: bool, navigateTo: Option<string>)
      requires Valid()
      modifies this
      ensures Valid()
      ensures requested <==> |otp| == CODE_LENGTH
      ensures !requested ==> inputError && errorMessage == CODE_TOO_SHORT && step == old(step) && navigateTo.None?
      ensures requested && failure.None? ==>
        step == Success && !inputError && errorMessage == [] && navigateTo == Some(HOME_PATH) && !isModalOpen
      ensures requested && failure.Some? ==>
        step == old(step) && inputError && errorMessage == DeleteFailureMessage(failure.value) && navigateTo.None?
      ensures requested && failure.Some? ==> isModalOpen == old(isModalOpen)
      ensures !requested ==> isModalOpen == old(isModalOpen)
      ensures (if requested then !isLoading else isLoading == old(isLoading))
      ensures otp == old(otp) && confirmationText == old(confirmationText)
    {
      inputError := false;
      errorMessage := [];
      navigateTo := None;
      OtpCells.DigitsUtf16Length(otp);
      if Utf16Length(otp) != CODE_LENGTH {
        inputError := true;
        errorMessage := CODE_TOO_SHORT;
        return false, navigateTo;
      }
      requested := true;
      isLoading := true;
      match failure {
        case None =>
          step := Success;
          isModalOpen := false;
          navigateTo := Some(HOME_PATH);
        case Some(detail) =>
          inputError := true;
          errorMessage := DeleteFailureMessage(detail);
      }
      isLoading := false;
    }
  }

  /** A deletion is confirmed only from a dialog whose owner typed the name back and then a
   *  full code: from a fresh dialog, the two handlers in this order with both requests
   *  succeeding reach the last step, and with a wrong name neither request is made. */
  method DeleteWorkspace(workspaceName: string, typedName: string, typedCode: string)
    returns (reached: Step, requests: nat)
    ensures typedName != workspaceName ==> reached == ConfirmName && requests == 0
    ensures typedName == workspaceName && |CodeInput(typedCode)| == CODE_LENGTH ==> reached == Success && requests == 2
    ensures typedName == workspaceName && |CodeInput(typedCode)| != CODE_LENGTH ==> reached == VerifyOtp && requests == 1
  {
    var flow := new DeleteFlow();
    flow.confirmationText := typedName;
    var first, _ := flow.RequestCode(workspaceName, true);
    requests := if first then 1 else 0;
    if first {
      flow.TypeCode(typedCode);
      var second, _ := flow.FinalDelete(None);
      if second {
        requests := requests + 1;
      }
    }
    reached := flow.step;
  }
}
