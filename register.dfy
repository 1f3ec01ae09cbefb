/**
  The registration page's submit handler, split at its `await` like the
  password-reset page: validation and the call, then the call's outcome.
 */
module Register {
  import opened Wrappers
  import opened Text
  import ForgotPassword

  datatype RegisterCall = RegisterCall(email: string, password: string)

  datatype PageState = PageState(
    email: string, password: string, confirmPassword: string,
    isLoading: bool, error: string, calls: seq<RegisterCall>)

  /** The validation of a submit, in this page's order: length first, then mismatch. */
  function RegisterError(password: string, confirmPassword: string): Option<string>
  {
    if Utf16Length(password) < 6 then Some("密码长度至少6位")
    else if password != confirmPassword then Some("两次输入的密码不一致")
    else None
  }

  /** The call goes ahead exactly when both checks pass, and a short password is reported before a mismatch. */
  lemma RegisterErrorOrder(password: string, confirmPassword: string)
    ensures RegisterError(password, confirmPassword).None? <==>
      Utf16Length(password) >= 6 && password == confirmPassword
    ensures Utf16Length(password) < 6 ==> RegisterError(password, confirmPassword) == Some("密码长度至少6位")
    ensures Utf16Length(password) >= 6 && password != confirmPassword ==>
      RegisterError(password, confirmPassword) == Some("两次输入的密码不一致")
  {
  }

  /**
    The two pages order their checks the opposite way: a short password
    that does not match its confirmation is a length error here and a
    mismatch error on the reset page.
   */
  lemma ChecksRunInOppositeOrders(password: string, confirmPassword: string, code: string)
    requires Utf16Length(password) < 6 && password != confirmPassword
    ensures RegisterError(password, confirmPassword) == Some("密码长度至少6位")
    ensures ForgotPassword.ResetError(password, confirmPassword, code) == Some("两次输入的密码不一致")
  {
  }

  class RegisterPage {
    var email: string
    var password: string
    var confirmPassword: string
    var isLoading: bool
    var error: string
    var calls: seq<RegisterCall>

    function State(): PageState
      reads this
    {
      PageState(email, password, confirmPassword, isLoading, error, calls)
    }

    constructor ()
      ensures State() == PageState("", "", "", false, "", [])
    {
      email, password, confirmPassword := "", "", "";
      isLoading, error := false, "";
      calls := [];
    }

    /** Typing into the form's fields. */
    method Edit(email': string, password': string, confirmPassword': string)
      modifies this
      ensures State() == old(State()).(email := email', password := password', confirmPassword := confirmPassword')
    {
      email, password, confirmPassword := email', password', confirmPassword';
    }

    /** `handleSubmit` up to its `await`: the error is cleared, then the checks run; only a form passing both calls `register`. */
    method BeginSubmit() returns (called: bool)
      modifies this
      ensures called <==> RegisterError(old(password), old(confirmPassword)).None?
      ensures !called ==> State() == old(State()).(error := RegisterError(old(password), old(confirmPassword)).value)
      ensures called ==> State() == old(State()).(error := "", isLoading := true,
                                                  calls := old(calls) + [RegisterCall(old(email), old(password))])
    {
      error := "";
      var problem := RegisterError(password, confirmPassword);
      if problem.Some? {
        error := problem.value;
        return false;
      }
      isLoading := true;
      calls := calls + [RegisterCall(email, password)];
      return true;
    }

    /** The rest of `handleSubmit`: a failure shows the thrown message and stops loading; success changes nothing here. */
    method FinishSubmit(outcome: Outcome)
      modifies this
      ensures outcome.Succeeded? ==> State() == old(State())
      ensures outcome.Failed? ==> State() == old(State()).(error := outcome.message, isLoading := false)
    {
      if outcome.Failed? {
        error := outcome.message;
        isLoading := false;
      }
    }

    /** The whole handler when the call settles before anything else happens. */
    method HandleSubmit(outcome: Outcome)
      modifies this
      ensures var problem := RegisterError(old(password), old(confirmPassword));
        && (problem.Some? ==> State() == old(State()).(error := problem.value))
        && (problem.None? && outcome.Succeeded? ==> State() == old(State()).(
              error := "", isLoading := true, calls := old(calls) + [RegisterCall(old(email), old(password))]))
        && (problem.None? && outcome.Failed? ==> State() == old(State()).(
              error := outcome.message, isLoading := false,
              calls := old(calls) + [RegisterCall(old(email), old(password))]))
    {
      var called := BeginSubmit();
      if called {
        FinishSubmit(outcome);
      }
    }
  }
}
