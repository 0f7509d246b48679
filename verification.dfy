/**
 * The phone verification screen: send a code to the number, then confirm
 * the code; new users get a profile and go to onboarding, others go home.
 * Firebase's replies are parameters of the handlers that await them.
 */
module Verification {
  import opened Options
  import opened Routes

  /** The middle of a masked number: the bullets are U+2022. */
  const MaskMiddle := " (\U{2022}\U{2022}\U{2022}) \U{2022}\U{2022}\U{2022}-"

  /** `maskPhoneNumber`: short input as it is; otherwise the first four and the last four characters around a fixed mask. */
  function MaskPhoneNumber(num: string): (r: string)
    ensures |num| < 8 ==> r == num
    ensures |num| >= 8 ==> |r| == 19 && r[..4] == num[..4] && r[4..15] == MaskMiddle && r[15..] == num[|num| - 4..]
  {
    if |num| < 8 then num else num[..4] + MaskMiddle + num[|num| - 4..]
  }

  /** The mask shows nothing of the middle: numbers that share their first and last four characters mask alike. */
  lemma MaskHidesMiddle(a: string, b: string)
    requires |a| >= 8 && |b| >= 8
    requires a[..4] == b[..4] && a[|a| - 4..] == b[|b| - 4..]
    ensures MaskPhoneNumber(a) == MaskPhoneNumber(b)
  {
    var ma, mb := MaskPhoneNumber(a), MaskPhoneNumber(b);
    assert ma == ma[..4] + ma[4..15] + ma[15..];
    assert mb == mb[..4] + mb[4..15] + mb[15..];
  }

  /** The handle `signInWithPhoneNumber` resolves to. */
  datatype Confirmation = Confirmation(verificationId: string)

  /** The reply to `signInWithPhoneNumber`. */
  datatype SignInReply = CodeSent(confirmation: Confirmation) | SignInError(message: string)

  /**
   * The reply to `confirmation.confirm(code)`: the signed-in user, and whether
   * the credential says the user is new (a null credential or missing
   * additional info counts as not new), or a rejection.
   */
  datatype ConfirmReply = Confirmed(uid: string, phoneNumber: string, isNewUser: bool) | ConfirmError

  /**
   * The outcome of creating a new user's profile: a free username was found
   * and the document written, or one of those requests failed.
   */
  datatype ProfileWrite = Written(username: string) | WriteFailed

  /** What a handler does outside the screen. */
  datatype Effect =
    | SignInRequest(phoneNumber: string)
    | ConfirmRequest(code: string)
    | CreateProfile(profile: Profile)
    | Navigate(to: Screen)
    | Alert(title: string, message: string)

  const InvalidNumber := Alert("Invalid Number", "Please enter a valid phone number.")
  const IncorrectCode := Alert("Error", "Incorrect code. Please try again.")

  /**
   * What `phoneInputRef.current?.isValid()` yields: the phone field's own
   * verdict while the field is mounted; once it is unmounted the ref is null,
   * the call yields `undefined`, and the check treats that as invalid.
   */
  function RefIsValid(fieldMounted: bool, fieldVerdict: bool): (r: bool)
    ensures r ==> fieldMounted
    ensures fieldMounted ==> r == fieldVerdict
  {
    fieldMounted && fieldVerdict
  }

  /** With the field unmounted no verdict gets through, a valid number included. */
  lemma UnmountedFieldIsInvalid(fieldVerdict: bool)
    ensures !RefIsValid(false, fieldVerdict)
  {
  }

  /** The countdown a freshly sent code starts from, in seconds. */
  const ResendSeconds := 59

  class PhoneVerification {
    /** The digits typed, as the phone field passes them on. */
    var value: string
    /** The number with its calling code, as the phone field formats it. */
    var formattedValue: string
    var isCodeInputVisible: bool
    var countdown: int
    var isLoading: bool
    var confirmation: Option<Confirmation>

    constructor ()
      ensures value == "" && formattedValue == "" && !isCodeInputVisible
      ensures countdown == ResendSeconds && !isLoading && confirmation == None
    {
      value, formattedValue := "", "";
      isCodeInputVisible := false;
      countdown := ResendSeconds;
      isLoading := false;
      confirmation := None;
    }

    /** The phone field's `onChangeText`. */
    method ChangeText(digits: string)
      modifies this`value
      ensures value == digits
    {
      value := digits;
    }

    /** The phone field's `onChangeFormattedText`. */
    method ChangeFormattedText(text: string)
      modifies this`formattedValue
      ensures formattedValue == text
    {
      formattedValue := text;
    }

    /**
     * "Send Code". `phoneValid` is what the phone field's ref answers (see
     * `RefIsValid`). An invalid number alerts before any request. Otherwise the
     * formatted number goes to the sign-in request; a sent code is kept,
     * restarts the countdown and shows the code view; an error alerts. The
     * spinner is off afterwards in every case.
     */
    method SendCode(phoneValid: bool, reply: SignInReply) returns (effects: seq<Effect>)
      modifies this`isLoading, this`confirmation, this`countdown, this`isCodeInputVisible
      ensures !phoneValid ==>
        effects == [InvalidNumber] && isLoading == old(isLoading) && confirmation == old(confirmation)
        && countdown == old(countdown) && isCodeInputVisible == old(isCodeInputVisible)
      ensures phoneValid ==> !isLoading && |effects| >= 1 && effects[0] == SignInRequest(formattedValue)
      ensures phoneValid && reply.CodeSent? ==>
        effects == [SignInRequest(formattedValue)] && confirmation == Some(reply.confirmation)
        && countdown == ResendSeconds && isCodeInputVisible
      ensures phoneValid && reply.SignInError? ==>
        effects == [SignInRequest(formattedValue), Alert("Firebase Error", "Something went wrong: " + reply.message)]
        && confirmation == old(confirmation) && countdown == old(countdown) && isCodeInputVisible == old(isCodeInputVisible)
    {
      if !phoneValid {
        return [InvalidNumber];
      }
      isLoading := true;
      effects := [SignInRequest(formattedValue)];
      match reply {
        case CodeSent(c) =>
          confirmation := Some(c);
          countdown := ResendSeconds;
          isCodeInputVisible := true;
        case SignInError(message) =>
          effects := effects + [Alert("Firebase Error", "Something went wrong: " + message)];
      }
      isLoading := false;
    }

    /**
     * The resend link as written: inert while the countdown runs, otherwise
     * it runs the "Send Code" handler. The link is only in the code view,
     * where the phone field is unmounted, so the handler's validity check
     * reads a null ref and always fails: whatever the number, the result is
     * the "Invalid Number" alert and no new code.
     */
    method ResendCode(fieldVerdict: bool, reply: SignInReply) returns (effects: seq<Effect>)
      requires isCodeInputVisible
      modifies this`isLoading, this`confirmation, this`countdown, this`isCodeInputVisible
      ensures old(countdown) > 0 ==> effects == []
      ensures old(countdown) <= 0 ==> effects == [InvalidNumber]
      ensures isLoading == old(isLoading) && confirmation == old(confirmation)
      ensures countdown == old(countdown) && isCodeInputVisible
    {
      if countdown > 0 {
        return [];
      }
      UnmountedFieldIsInvalid(fieldVerdict);
      effects := SendCode(RefIsValid(!isCodeInputVisible, fieldVerdict), reply);
    }

    /**
     * The resend link as evidently intended: once the countdown has run out,
     * the code is sent again to the number it was first sent to (that number
     * passed the validity check before the code view opened). A sent code
     * replaces the confirmation and restarts the countdown; an error alerts.
     */
    method ResendCodeIntended(reply: SignInReply) returns (effects: seq<Effect>)
      requires isCodeInputVisible
      modifies this`isLoading, this`confirmation, this`countdown, this`isCodeInputVisible
      ensures old(countdown) > 0 ==>
        effects == [] && isLoading == old(isLoading) && confirmation == old(confirmation) && countdown == old(countdown)
      ensures old(countdown) <= 0 ==> !isLoading && |effects| >= 1 && effects[0] == SignInRequest(formattedValue)
      ensures old(countdown) <= 0 && reply.CodeSent? ==>
        effects == [SignInRequest(formattedValue)] && confirmation == Some(reply.confirmation) && countdown == ResendSeconds
      ensures old(countdown) <= 0 && reply.SignInError? ==>
        effects == [SignInRequest(formattedValue), Alert("Firebase Error", "Something went wrong: " + reply.message)]
        && confirmation == old(confirmation) && countdown == old(countdown)
      ensures isCodeInputVisible
    {
      if countdown > 0 {
        return [];
      }
      effects := SendCode(true, reply);
    }

    /** "Change Number": back to the phone view. */
    method ChangeNumber()
      modifies this`isCodeInputVisible
      ensures !isCodeInputVisible
    {
      isCodeInputVisible := false;
    }

    /**
     * A six-digit code was entered. Without a confirmation nothing happens.
     * A confirmed new user gets a profile with onboarding not done and goes
     * to onboarding; any other confirmed user goes home. A rejected code, or
     * a failure creating the profile, alerts. The spinner is off afterwards.
     */
    method VerifyCode(code: string, reply: ConfirmReply, write: ProfileWrite) returns (effects: seq<Effect>)
      modifies this`isLoading
      ensures confirmation.None? ==> effects == [] && isLoading == old(isLoading)
      ensures confirmation.Some? ==> !isLoading
      ensures confirmation.Some? && reply.ConfirmError? ==> effects == [ConfirmRequest(code), IncorrectCode]
      ensures confirmation.Some? && reply.Confirmed? && !reply.isNewUser ==> effects == [ConfirmRequest(code), Navigate(Home)]
      ensures confirmation.Some? && reply.Confirmed? && reply.isNewUser && write.Written? ==>
        effects == [ConfirmRequest(code), CreateProfile(NewProfile(reply.uid, reply.phoneNumber, write.username)), Navigate(Onboarding)]
      ensures confirmation.Some? && reply.Confirmed? && reply.isNewUser && write.WriteFailed? ==>
        effects == [ConfirmRequest(code), IncorrectCode]
    {
      if confirmation.None? {
        return [];
      }
      isLoading := true;
      effects := [ConfirmRequest(code)];
      match reply {
        case ConfirmError =>
          effects := effects + [IncorrectCode];
        case Confirmed(uid, phoneNumber, isNewUser) =>
          if !isNewUser {
            effects := effects + [Navigate(Home)];
          } else if write.Written? {
            effects := effects + [CreateProfile(NewProfile(uid, phoneNumber, write.username)), Navigate(Onboarding)];
          } else {
            effects := effects + [IncorrectCode];
          }
      }
      isLoading := false;
    }
  }
}
