/**
  The password-reset page: sending a reset code (with a 60-second resend
  countdown) and submitting the new password. Each handler is split at its
  `await` into a Begin step, which validates and issues the call, and a
  Finish step, which applies the call's outcome.
 */
module ForgotPassword {
  import opened Wrappers
  import opened Text

  /** Calls the page makes to the authentication service. */
  datatype ResetCall = SendResetCode(email: string) | ResetPassword(email: string, code: string, newPassword: string)

  /** The page's state, as one value. */
  datatype PageState = PageState(
    email: string, verificationCode: string, newPassword: string, confirmPassword: string,
    error: string, successMessage: string, isLoading: bool, sendingCode: bool,
    resendTimer: int, codeSent: bool, calls: seq<ResetCall>)

  const ResendSeconds := 60

  /** The countdown after one tick of the one-second timeout. */
  function NextTimer(t: int): int
  {
    if t > 0 then t - 1 else t
  }

  /** The countdown after `n` ticks. */
  function TimerAfter(t: int, n: nat): int
  {
    if n == 0 then t else TimerAfter(NextTimer(t), n - 1)
  }

  /** The countdown only goes down by one per tick and stops at zero: after `n` ticks it is `max(t - n, 0)`. */
  lemma {:induction false} TimerAfterValue(t: nat, n: nat)
    ensures TimerAfter(t, n) == if n <= t then t - n else 0
  {
    if n > 0 {
      TimerAfterValue(NextTimer(t), n - 1);
    }
  }

  /** From 60 the countdown is still running after 59 ticks and has reached zero after the 60th. */
  lemma ResendWaitsSixtyTicks(n: nat)
    ensures n < ResendSeconds ==> TimerAfter(ResendSeconds, n) > 0
    ensures n >= ResendSeconds ==> TimerAfter(ResendSeconds, n) == 0
  {
    TimerAfterValue(ResendSeconds, n);
  }

  /** The message a failed send shows. */
  function SendFailureMessage(message: string): (r: string)
    ensures r != ""
    ensures message != "" ==> r == message
  {
    if message == "" then "发送验证码失败" else message
  }

  /** The validation of a reset attempt, in the page's order: mismatch, then length, then a missing code. */
  function ResetError(newPassword: string, confirmPassword: string, code: string): Option<string>
  {
    if newPassword != confirmPassword then Some("两次输入的密码不一致")
    else if Utf16Length(newPassword) < 6 then Some("密码长度至少为6个字符")
    else if code == "" then Some("请输入验证码")
    else None
  }

  /**
    The attempt goes ahead exactly when all three checks pass, and the first
    failing check in the order mismatch, length, code decides the message.
   */
  lemma ResetErrorOrder(newPassword: string, confirmPassword: string, code: string)
    ensures ResetError(newPassword, confirmPassword, code).None? <==>
      newPassword == confirmPassword && Utf16Length(newPassword) >= 6 && code != ""
    ensures newPassword != confirmPassword ==> ResetError(newPassword, confirmPassword, code) == Some("两次输入的密码不一致")
    ensures newPassword == confirmPassword && Utf16Length(newPassword) < 6 ==>
      ResetError(newPassword, confirmPassword, code) == Some("密码长度至少为6个字符")
  {
  }

  const CodeProblem := "验证码无效或已过期"
  const ResetFailed := "密码重置失败，请稍后重试"

  /** A message that names the verification code, or says invalid or expired. */
  predicate MentionsCode(message: string)
  {
    Contains(message, "验证码") || Contains(message, "无效") || Contains(message, "过期")
  }

  /** The message a failed reset shows. */
  function ClassifyResetError(message: string): string
  {
    if MentionsCode(message) then CodeProblem
    else if message != "" then message
    else ResetFailed
  }

  lemma ContainsAtStart(s: string, pat: string)
    requires IsPrefix(pat, s)
    ensures Contains(s, pat)
  {
    assert OccursAt(s, pat, 0);
  }

  /**
    A code problem is reported as such, any other message is shown as it is,
    and no message gives the default; classifying a shown message again keeps it.
   */
  lemma ClassifyResetErrorCases(message: string)
    ensures MentionsCode(message) ==> ClassifyResetError(message) == CodeProblem
    ensures !MentionsCode(message) && message != "" ==> ClassifyResetError(message) == message
    ensures message == "" ==> ClassifyResetError(message) == ResetFailed
    ensures ClassifyResetError(ClassifyResetError(message)) == ClassifyResetError(message)
  {
    ContainsAtStart(CodeProblem, "验证码");
    if message == "" {
      assert !Contains("", "验证码") && !Contains("", "无效") && !Contains("", "过期");
      DefaultIsNoCodeProblem();
    }
  }

  /** A pattern whose first character never appears in `s` does not occur in it. */
  lemma {:induction false} AbsentFirstChar(s: string, pat: string, from: nat)
    requires pat != [] && forall i :: 0 <= i < |s| ==> s[i] != pat[0]
    ensures IndexFrom(s, pat, from) == -1
    decreases |s| + 1 - from
  {
    if from + |pat| <= |s| {
      assert s[from..from + |pat|][0] == s[from];
      AbsentFirstChar(s, pat, from + 1);
    }
  }

  lemma DefaultIsNoCodeProblem()
    ensures !MentionsCode(ResetFailed)
  {
    var s := ResetFailed;
    assert s == ['密', '码', '重', '置', '失', '败', '，', '请', '稍', '后', '重', '试'];
    assert forall i :: 0 <= i < |s| ==> s[i] !in "验无过";
    AbsentFirstChar(ResetFailed, "验证码", 0);
    AbsentFirstChar(ResetFailed, "无效", 0);
    AbsentFirstChar(ResetFailed, "过期", 0);
  }

  class ResetPasswordPage {
    var email: string
    var verificationCode: string
    var newPassword: string
    var confirmPassword: string
    var error: string
    var successMessage: string
    var isLoading: bool
    var sendingCode: bool
    var resendTimer: int
    var codeSent: bool
    var calls: seq<ResetCall>

    function State(): PageState
      reads this
    {
      PageState(email, verificationCode, newPassword, confirmPassword, error, successMessage,
                isLoading, sendingCode, resendTimer, codeSent, calls)
    }

    /** The countdown never leaves `0..60`. */
    predicate Valid()
      reads this
    {
      0 <= resendTimer <= ResendSeconds
    }

    /** The send button is disabled while a code is being sent or the countdown runs. */
    predicate SendButtonDisabled()
      reads this
    {
      sendingCode || resendTimer > 0
    }

    /** The send button is only rendered until a code has been sent. */
    predicate SendButtonShown()
      reads this
    {
      !codeSent
    }

    constructor ()
      ensures Valid()
      ensures State() == PageState("", "", "", "", "", "", false, false, 0, false, [])
    {
      email, verificationCode, newPassword, confirmPassword := "", "", "", "";
      error, successMessage := "", "";
      isLoading, sendingCode, resendTimer, codeSent := false, false, 0, false;
      calls := [];
    }

    /** Typing into the form's fields. */
    method Edit(email': string, code': string, newPassword': string, confirmPassword': string)
      modifies this
      ensures State() == old(State()).(email := email', verificationCode := code',
                                       newPassword := newPassword', confirmPassword := confirmPassword')
    {
      email, verificationCode, newPassword, confirmPassword := email', code', newPassword', confirmPassword';
    }

    /** `handleSendResetCode` up to its `await`: an empty email stops it with an error and no call. */
    method BeginSendCode() returns (called: bool)
      modifies this
      ensures called <==> old(email) != ""
      ensures !called ==> State() == old(State()).(error := "请先输入邮箱")
      ensures called ==> State() == old(State()).(sendingCode := true, error := "",
                                                  calls := old(calls) + [SendResetCode(old(email))])
      ensures called ==> SendButtonDisabled()
    {
      if email == "" {
        error := "请先输入邮箱";
        return false;
      }
      sendingCode := true;
      error := "";
      calls := calls + [SendResetCode(email)];
      return true;
    }

    /** The rest of `handleSendResetCode`: success starts the countdown; either way sending ends. */
    method FinishSendCode(outcome: Outcome)
      requires Valid()
      modifies this
      ensures Valid()
      ensures !sendingCode
      ensures outcome.Succeeded? ==> State() == old(State()).(
        successMessage := "重置密码验证码已发送到您的邮箱，请查收", resendTimer := ResendSeconds,
        codeSent := true, sendingCode := false)
      ensures outcome.Failed? ==> State() == old(State()).(
        error := SendFailureMessage(outcome.message), sendingCode := false)
    {
      match outcome {
        case Succeeded =>
          successMessage := "重置密码验证码已发送到您的邮箱，请查收";
          resendTimer := ResendSeconds;
          codeSent := true;
        case Failed(message) =>
          error := SendFailureMessage(message);
      }
      sendingCode := false;
    }

    /**
      The whole send handler when the call settles before anything else
      happens. A successful send starts the countdown but also hides the send
      button, so the countdown never shows on a button.
     */
    method HandleSendResetCode(outcome: Outcome)
      requires Valid()
      modifies this
      ensures Valid()
      ensures old(email) == "" ==> State() == old(State()).(error := "请先输入邮箱")
      ensures old(email) != "" ==> calls == old(calls) + [SendResetCode(old(email))]
      ensures old(email) != "" && outcome.Succeeded? ==>
        State() == old(State()).(error := "", successMessage := "重置密码验证码已发送到您的邮箱，请查收",
                                 resendTimer := ResendSeconds, codeSent := true, sendingCode := false,
                                 calls := old(calls) + [SendResetCode(old(email))])
      ensures old(email) != "" && outcome.Failed? ==>
        State() == old(State()).(error := SendFailureMessage(outcome.message), sendingCode := false,
                                 calls := old(calls) + [SendResetCode(old(email))])
      ensures old(email) != "" && outcome.Succeeded? ==> SendButtonDisabled() && !SendButtonShown()
    {
      var called := BeginSendCode();
      if called {
        FinishSendCode(outcome);
      }
    }

    /** The effect's one-second timeout firing: the countdown moves one step toward zero. */
    method Tick()
      requires Valid()
      modifies this
      ensures Valid()
      ensures State() == old(State()).(resendTimer := NextTimer(old(resendTimer)))
    {
      if resendTimer > 0 {
        resendTimer := resendTimer - 1;
      }
    }

    /**
      `handleResetPassword` up to its `await`: both messages are cleared, the
      checks run in order and the reset call is made only when all pass.
     */
    method BeginReset() returns (called: bool)
      modifies this
      ensures called <==> ResetError(old(newPassword), old(confirmPassword), old(verificationCode)).None?
      ensures !called ==> State() == old(State()).(
        error := ResetError(old(newPassword), old(confirmPassword), old(verificationCode)).value,
        successMessage := "")
      ensures called ==> State() == old(State()).(
        error := "", successMessage := "", isLoading := true,
        calls := old(calls) + [ResetPassword(old(email), old(verificationCode), old(newPassword))])
    {
      error := "";
      successMessage := "";
      var problem := ResetError(newPassword, confirmPassword, verificationCode);
      if problem.Some? {
        error := problem.value;
        return false;
      }
      isLoading := true;
      calls := calls + [ResetPassword(email, verificationCode, newPassword)];
      return true;
    }

    /** The rest of `handleResetPassword`: success reports it and keeps loading; failure shows the classified error and stops loading. */
    method FinishReset(outcome: Outcome)
      modifies this
      ensures outcome.Succeeded? ==> State() == old(State()).(successMessage := "密码重置成功，正在跳转...")
      ensures outcome.Failed? ==> State() == old(State()).(
        error := ClassifyResetError(outcome.message), isLoading := false)
    {
      match outcome {
        case Succeeded =>
          successMessage := "密码重置成功，正在跳转...";
        case Failed(message) =>
          error := ClassifyResetError(message);
          isLoading := false;
      }
    }

    /** The whole reset handler when the call settles before anything else happens. */
    method HandleResetPassword(outcome: Outcome)
      modifies this
      ensures var problem := ResetError(old(newPassword), old(confirmPassword), old(verificationCode));
        && (problem.Some? ==> State() == old(State()).(error := problem.value, successMessage := ""))
        && (problem.None? && outcome.Succeeded? ==> State() == old(State()).(
              error := "", successMessage := "密码重置成功，正在跳转...", isLoading := true,
              calls := old(calls) + [ResetPassword(old(email), old(verificationCode), old(newPassword))]))
        && (problem.None? && outcome.Failed? ==> State() == old(State()).(
              error := ClassifyResetError(outcome.message), successMessage := "", isLoading := false,
              calls := old(calls) + [ResetPassword(old(email), old(verificationCode), old(newPassword))]))
    {
      var called := BeginReset();
      if called {
        FinishReset(outcome);
      }
    }
  }
}
