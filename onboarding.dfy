/**
 * The onboarding pager: three slides, a "Next" button that pages forward and,
 * on the last slide, marks the profile's onboarding as done and moves on to
 * the location-permission screen.
 */
module Onboarding {
  import opened Options
  import opened Routes

  /** The number of slides. */
  const SlideCount := 3

  /** What "Next" does outside the pager. */
  datatype Effect =
    | ScrollTo(index: nat)
    | UpdateProfile(uid: string)
    | Navigate(to: Screen)
    | Alert(title: string, message: string)

  const NoSession := Alert("Authentication Error", "Could not find your user session. Please restart the app.")
  const UpdateFailed := Alert("Error", "Could not update profile. Please try again.")

  class Pager {
    var currentIndex: nat
    var isLoading: bool

    /** The current index names a slide. */
    predicate Valid()
      reads this
    {
      currentIndex < SlideCount
    }

    constructor ()
      ensures currentIndex == 0 && !isLoading && Valid()
    {
      currentIndex, isLoading := 0, false;
    }

    /** The list reported which slides are in view: the first of them becomes current; none leaves it as it is. */
    method ViewableItemsChanged(viewable: seq<nat>)
      requires forall k :: 0 <= k < |viewable| ==> viewable[k] < SlideCount
      modifies this`currentIndex
      ensures viewable == [] ==> currentIndex == old(currentIndex)
      ensures viewable != [] ==> currentIndex == viewable[0]
      ensures old(Valid()) ==> Valid()
    {
      if viewable != [] {
        currentIndex := viewable[0];
      }
    }

    /**
     * "Next". Before the last slide it scrolls to the next one and touches no
     * profile. On the last slide a signed-in user's profile is marked done and
     * the permission screen follows; without a user, or when the update
     * fails, an alert. The spinner is off after the last-slide path.
     */
    method NextPress(user: Option<string>, updateOk: bool) returns (effects: seq<Effect>)
      modifies this`isLoading
      ensures currentIndex < SlideCount - 1 ==> effects == [ScrollTo(currentIndex + 1)] && isLoading == old(isLoading)
      ensures currentIndex >= SlideCount - 1 ==> !isLoading
      ensures currentIndex >= SlideCount - 1 && user.None? ==> effects == [NoSession]
      ensures currentIndex >= SlideCount - 1 && user.Some? && updateOk ==>
        effects == [UpdateProfile(user.value), Navigate(LocationPermission)]
      ensures currentIndex >= SlideCount - 1 && user.Some? && !updateOk ==>
        effects == [UpdateProfile(user.value), UpdateFailed]
    {
      if currentIndex < SlideCount - 1 {
        return [ScrollTo(currentIndex + 1)];
      }
      isLoading := true;
      if user.None? {
        effects := [NoSession];
      } else if updateOk {
        effects := [UpdateProfile(user.value), Navigate(LocationPermission)];
      } else {
        effects := [UpdateProfile(user.value), UpdateFailed];
      }
      isLoading := false;
    }

    /** The button reads "Get Started" on the last slide and "Next" elsewhere. */
    function ButtonTitle(): (r: string)
      reads this
      ensures r == "Get Started" <==> currentIndex == SlideCount - 1
      ensures r == "Next" <==> currentIndex != SlideCount - 1
    {
      if currentIndex == SlideCount - 1 then "Get Started" else "Next"
    }

    /** Which page indicator, slide by slide, is drawn active: exactly the current one. */
    function ActiveIndicators(): (r: seq<bool>)
      reads this
      ensures |r| == SlideCount
      ensures forall i :: 0 <= i < SlideCount ==> (r[i] <==> i == currentIndex)
      ensures Valid() ==> r[currentIndex] && forall i :: 0 <= i < SlideCount && r[i] ==> i == currentIndex
    {
      var current := currentIndex;
      seq(SlideCount, i requires 0 <= i < SlideCount => current == i)
    }
  }
}
