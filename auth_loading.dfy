/**
 * The start-up screen: on each auth-state event it replaces itself by the
 * entry screen, onboarding or home, from the signed-in user and their
 * profile document.
 */
module AuthLoading {
  import opened Options
  import opened Routes

  /** The user an auth-state event reports. */
  datatype AuthUser = SignedOut | SignedIn(uid: string)

  /** The read of the user's profile document: it failed, found no document, or found one. */
  datatype ProfileRead = ReadFailed | NoDocument | Document(profile: Profile)

  /**
   * The route replacement one auth event causes. A read that fails rejects
   * the callback, which nothing catches: no route is taken.
   */
  function StartupRoute(user: AuthUser, read: ProfileRead): (r: Option<Screen>)
    ensures r == Some(Entry) <==> user.SignedOut?
    ensures r == Some(Home) <==> user.SignedIn? && read.Document? && read.profile.onboardingComplete == Some(true)
    ensures r == None <==> user.SignedIn? && read.ReadFailed?
    ensures r == Some(Onboarding) <==>
      user.SignedIn? && (read.NoDocument? || (read.Document? && read.profile.onboardingComplete != Some(true)))
  {
    match user
    case SignedOut => Some(Entry)
    case SignedIn(_) =>
      match read
      case ReadFailed => None
      case NoDocument => Some(Onboarding)
      case Document(profile) =>
        if profile.onboardingComplete == Some(true) then Some(Home) else Some(Onboarding)
  }

  /** Every completed event routes to exactly one of the three screens. */
  lemma OneRoutePerEvent(user: AuthUser, read: ProfileRead)
    requires !(user.SignedIn? && read.ReadFailed?)
    ensures StartupRoute(user, read).Some?
    ensures StartupRoute(user, read).value in {Entry, Onboarding, Home}
  {
  }

  /** A user who just signed up (profile created with onboarding not done) lands on onboarding. */
  lemma NewUserOnboards(uid: string, phoneNumber: string, username: string)
    ensures StartupRoute(SignedIn(uid), Document(NewProfile(uid, phoneNumber, username))) == Some(Onboarding)
  {
  }

  /** Once onboarding has updated the profile, start-up goes straight home. */
  lemma OnboardedUserGoesHome(uid: string, p: Profile)
    ensures StartupRoute(SignedIn(uid), Document(CompleteOnboarding(p))) == Some(Home)
  {
  }
}
