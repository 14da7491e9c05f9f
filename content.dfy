/** The root view (`ContentView`): the splash screen first, then the main tabs
    when logged in and the onboarding otherwise. The splash timer is a pending
    count consumed by `SplashTimerFires`. */
module Content {
  import Session
  import Models

  datatype Screen = Splash | MainTabs | Onboarding

  /** Which screen the root shows. */
  function Route(showSplash: bool, isLoggedIn: bool): (s: Screen)
    ensures s == Splash <==> showSplash
    ensures s == MainTabs <==> !showSplash && isLoggedIn
    ensures s == Onboarding <==> !showSplash && !isLoggedIn
  {
    if showSplash then Splash else if isLoggedIn then MainTabs else Onboarding
  }

  class Root {
    /** `AppState.shared`, whose `isLoggedIn` selects the screen. */
    const app: Session.AppState
    var showSplash: bool
    /** Splash timers scheduled by `onAppear` and not fired yet. */
    var pendingSplashTimers: nat

    function Screen(): Screen
      reads this, app
    {
      Route(showSplash, app.isLoggedIn)
    }

    /** The app opens on the splash screen. */
    constructor (app: Session.AppState)
      ensures this.app == app && showSplash && pendingSplashTimers == 0
      ensures Screen() == Splash
    {
      this.app := app;
      showSplash := true;
      pendingSplashTimers := 0;
    }

    /** The splash screen appears and schedules its 2.5-second timer; once the
        splash is gone nothing is scheduled. */
    method SplashAppears()
      modifies this`pendingSplashTimers
      ensures pendingSplashTimers == old(pendingSplashTimers) + (if showSplash then 1 else 0)
    {
      if showSplash {
        pendingSplashTimers := pendingSplashTimers + 1;
      }
    }

    /** The timer fires and hides the splash for good: nothing sets
        `showSplash` back to true. */
    method SplashTimerFires()
      requires pendingSplashTimers > 0
      modifies this`showSplash, this`pendingSplashTimers
      ensures !showSplash && pendingSplashTimers == old(pendingSplashTimers) - 1
      ensures Screen() == Route(false, app.isLoggedIn)
    {
      pendingSplashTimers := pendingSplashTimers - 1;
      showSplash := false;
    }
  }

  /** Logging out after the splash routes to the onboarding. */
  method LogoutShowsOnboarding(root: Root)
    requires !root.showSplash && root.app.Valid()
    modifies root.app`isLoggedIn, root.app`currentUser
    ensures root.app.Valid() && root.Screen() == Onboarding
  {
    root.app.Logout();
  }

  /** The simulated login completing after the splash routes to the main tabs. */
  method LoginShowsMainTabs(root: Root, now: Models.Timestamp)
    requires !root.showSplash && root.app.Valid() && root.app.pendingLoads > 0
    modifies root.app`currentUser, root.app`medicalHistory, root.app`medicationReminders,
      root.app`userProfile, root.app`isLoggedIn, root.app`pendingLoads
    ensures root.app.Valid() && root.Screen() == MainTabs
  {
    root.app.CompleteLoadUserData(now);
  }
}
