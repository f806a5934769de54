/**
 * The modal that holds the login and register forms: which form shows, the
 * flags the forms report, and the height those flags give the modal.
 */
module LoginModal {
  const LoginStep := 0
  const RegisterStep := 1

  /**
   * The modal's height: on the login step it depends on the login error
   * only; on the register step it grows for the code field and for an error.
   */
  function ModalHeight(step: nat, hasLoginError: bool, isEmailSent: bool, hasRegisterError: bool): (r: int)
    ensures 600 <= r <= 750
    ensures step == LoginStep ==> (r == 700 <==> hasLoginError) && (r == 625 <==> !hasLoginError)
    ensures step != LoginStep ==> r == 600 + (if isEmailSent then 90 else 0) + (if hasRegisterError then 60 else 0)
  {
    if step == LoginStep then (if hasLoginError then 700 else 625)
    else
      var height := 600;
      var height := if isEmailSent then height + 90 else height;
      if hasRegisterError then height + 60 else height
  }

  class Modal {
    var isOpen: bool
    var modalStep: nat
    var isRendered: bool
    var isAnimatingIn: bool
    var isEmailSent: bool
    var hasRegisterError: bool
    var hasLoginError: bool

    /**
     * Only the two form steps are ever reached; the register flags are
     * clear off the register step; a closed modal holds no flags.
     */
    ghost predicate Valid()
      reads this
    {
      && modalStep <= RegisterStep
      && (modalStep != RegisterStep ==> !isEmailSent && !hasRegisterError)
      && (!isOpen ==> !isEmailSent && !hasRegisterError && !hasLoginError && !isAnimatingIn)
    }

    function Height(): (r: int)
      reads this
      ensures 600 <= r <= 750
      ensures Valid() && !isOpen ==> r == 625 || r == 600
    {
      ModalHeight(modalStep, hasLoginError, isEmailSent, hasRegisterError)
    }

    constructor (isOpen: bool)
      ensures Valid()
      ensures this.isOpen == isOpen && modalStep == LoginStep
      ensures isRendered == isOpen && isAnimatingIn == isOpen
      ensures !isEmailSent && !hasRegisterError && !hasLoginError
    {
      this.isOpen := isOpen;
      modalStep := LoginStep;
      isRendered, isAnimatingIn := isOpen, isOpen;
      isEmailSent, hasRegisterError, hasLoginError := false, false, false;
    }

    /**
     * The `isOpen` effects: opening renders and animates in; closing
     * animates out and clears every flag. The step is kept, so a modal
     * closed on the register step reopens on it.
     */
    method SetOpen(open: bool)
      requires Valid()
      modifies this
      ensures Valid()
      ensures isOpen == open && modalStep == old(modalStep)
      ensures open ==> (isRendered && isAnimatingIn
        && isEmailSent == old(isEmailSent) && hasRegisterError == old(hasRegisterError) && hasLoginError == old(hasLoginError))
      ensures !open ==> !isRendered && !isAnimatingIn && !isEmailSent && !hasRegisterError && !hasLoginError
    {
      isOpen := open;
      if open {
        isRendered, isAnimatingIn := true, true;
      } else {
        isAnimatingIn := false;
        isEmailSent, hasRegisterError, hasLoginError := false, false, false;
        isRendered := false;
      }
    }

    /**
     * The forms' links: the register link moves to step 1, the login link
     * to step 0. The step effect runs only when the step changes; moving
     * to a step other than register clears all three flags.
     */
    method GoToStep(step: nat)
      requires Valid() && step <= RegisterStep
      modifies this`modalStep, this`isEmailSent, this`hasRegisterError, this`hasLoginError
      ensures Valid()
      ensures modalStep == step
      ensures step != old(modalStep) && step != RegisterStep ==> !isEmailSent && !hasRegisterError && !hasLoginError
      ensures step == old(modalStep) || step == RegisterStep ==>
        isEmailSent == old(isEmailSent) && hasRegisterError == old(hasRegisterError) && hasLoginError == old(hasLoginError)
    {
      var changed := step != modalStep;
      modalStep := step;
      if changed && step != RegisterStep {
        isEmailSent, hasRegisterError, hasLoginError := false, false, false;
      }
    }

    /** The login form's error report; only a shown form reports. */
    method ReportLoginError(hasError: bool)
      requires Valid()
      modifies this`hasLoginError
      ensures Valid()
      ensures hasLoginError == (if isOpen && modalStep == LoginStep then hasError else old(hasLoginError))
    {
      if isOpen && modalStep == LoginStep {
        hasLoginError := hasError;
      }
    }

    /** The register form's error report; only a shown form reports. */
    method ReportRegisterError(hasError: bool)
      requires Valid()
      modifies this`hasRegisterError
      ensures Valid()
      ensures hasRegisterError == (if isOpen && modalStep == RegisterStep then hasError else old(hasRegisterError))
    {
      if isOpen && modalStep == RegisterStep {
        hasRegisterError := hasError;
      }
    }

    /** The register form's code-sent report; only a shown form reports. */
    method ReportEmailSent(sent: bool)
      requires Valid()
      modifies this`isEmailSent
      ensures Valid()
      ensures isEmailSent == (if isOpen && modalStep == RegisterStep then sent else old(isEmailSent))
    {
      if isOpen && modalStep == RegisterStep {
        isEmailSent := sent;
      }
    }
  }
}
