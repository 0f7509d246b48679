/** The screens of the navigation stack and the user profile document the start-up route reads. */
module Routes {
  import opened Options

  /** The screens a route decision can pick. */
  datatype Screen = Entry | Verification | Onboarding | Home | LocationPermission

  /**
   * A user's profile document. `onboardingComplete` is `None` when the field
   * is missing; only `Some(true)` is truthy. The creation timestamp is not modelled.
   */
  datatype Profile = Profile(uid: string, phoneNumber: string, username: string, onboardingComplete: Option<bool>)

  /** The document a new user gets at sign-up: onboarding not yet done. */
  function NewProfile(uid: string, phoneNumber: string, username: string): (p: Profile)
    ensures p.uid == uid && p.onboardingComplete == Some(false)
    ensures p.phoneNumber == phoneNumber && p.username == username
  {
    Profile(uid, phoneNumber, username, Some(false))
  }

  /** `update({ onboardingComplete: true })`: only that field changes. */
  function CompleteOnboarding(p: Profile): (q: Profile)
    ensures q.onboardingComplete == Some(true)
    ensures q.uid == p.uid && q.phoneNumber == p.phoneNumber && q.username == p.username
  {
    p.(onboardingComplete := Some(true))
  }
}
