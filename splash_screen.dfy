/**
 * The splash screen's module globals as a class: whether the simulation
 * interval runs, the simulated percentage, and whether real SDK data has
 * taken over; every handler that the SDK or the page calls is a method.
 */
module Splash {
  import opened Wrappers
  import opened SplashRules
  import opened JsMath

  class SplashScreen {
    /** Whether the page has an element with id `loadingscreen`. */
    const hasLoadingScreen: bool

    /** `fallbackProgressInterval` is set. */
    var fallbackIntervalActive: bool
    var currentFallbackProgress: real
    var isUsingRealSDKData: bool
    /** The loading screen already holds the custom splash content. */
    var splashContentShown: bool
    /** Every update of the progress UI, in order. */
    ghost var updates: seq<UiUpdate>

    /** Simulated progress stays within [0, 100], and no simulation runs once real data has arrived. */
    predicate Valid()
      reads this
    {
      0.0 <= currentFallbackProgress <= 100.0 && (isUsingRealSDKData ==> !fallbackIntervalActive)
    }

    /** The globals as the script declares them. */
    constructor (hasLoadingScreen: bool)
      ensures Valid()
      ensures this.hasLoadingScreen == hasLoadingScreen
      ensures !fallbackIntervalActive && currentFallbackProgress == 0.0 && !isUsingRealSDKData
      ensures !splashContentShown && updates == []
    {
      this.hasLoadingScreen := hasLoadingScreen;
      fallbackIntervalActive := false;
      currentFallbackProgress := 0.0;
      isUsingRealSDKData := false;
      splashContentShown := false;
      updates := [];
    }

    /** `startFallbackProgress`: nothing when an interval runs, otherwise progress restarts at 0 and the interval starts. */
    method StartFallbackProgress()
      modifies this`fallbackIntervalActive, this`currentFallbackProgress
      ensures fallbackIntervalActive
      ensures old(fallbackIntervalActive) ==> currentFallbackProgress == old(currentFallbackProgress)
      ensures !old(fallbackIntervalActive) ==> currentFallbackProgress == 0.0
    {
      if fallbackIntervalActive {
        return;
      }
      currentFallbackProgress := 0.0;
      fallbackIntervalActive := true;
    }

    /** `stopFallbackProgress`: the interval, if any, is cleared. */
    method StopFallbackProgress()
      modifies this`fallbackIntervalActive
      ensures !fallbackIntervalActive
    {
      if fallbackIntervalActive {
        fallbackIntervalActive := false;
      }
    }

    /**
     * One run of the interval callback with `random` as the value of
     * `Math.random()`: progress advances by one tick, the tick that
     * completes stops the interval, and the screen is updated.
     */
    method Tick(random: real)
      requires Valid() && fallbackIntervalActive && RandomDraw(random)
      modifies this`fallbackIntervalActive, this`currentFallbackProgress, this`updates
      ensures Valid()
      ensures currentFallbackProgress == FallbackTick(old(currentFallbackProgress), random)
      ensures fallbackIntervalActive == !TickCompletes(old(currentFallbackProgress))
      ensures updates == old(updates) + [FallbackUpdate(currentFallbackProgress)]
    {
      TickBounds(currentFallbackProgress, random);
      var increment: real;
      if currentFallbackProgress < 20.0 {
        increment := random * 5.0;
      } else if currentFallbackProgress < 50.0 {
        increment := random * 3.0;
      } else if currentFallbackProgress < 80.0 {
        increment := random * 2.0;
      } else if currentFallbackProgress < 98.0 {
        increment := random * 1.0;
      } else {
        // the completing tick; the increment is taken as 0 where the source
        // leaves it unassigned (see SplashRules.TerminalTickIsNaN)
        currentFallbackProgress := 100.0;
        fallbackIntervalActive := false;
        increment := 0.0;
      }
      currentFallbackProgress := MathMin(currentFallbackProgress + increment, 100.0);
      updates := updates + [FallbackUpdate(currentFallbackProgress)];
    }

    /** `handleRealSDKProgress`: the first real report stops the simulation for good; every one is shown. */
    method HandleRealSDKProgress(progress: Progress)
      requires Valid()
      modifies this`fallbackIntervalActive, this`isUsingRealSDKData, this`updates
      ensures Valid()
      ensures isUsingRealSDKData && !fallbackIntervalActive
      ensures updates == old(updates) + [RealProgressUpdate(progress)]
    {
      if !isUsingRealSDKData {
        StopFallbackProgress();
        isUsingRealSDKData := true;
      }
      updates := updates + [RealProgressUpdate(progress)];
    }

    /** `handleFallbackProgress`: the simulation starts unless it runs already or real data has arrived. */
    method HandleFallbackProgress(progress: Option<Progress>)
      requires Valid()
      modifies this`fallbackIntervalActive, this`currentFallbackProgress
      ensures Valid()
      ensures fallbackIntervalActive == !isUsingRealSDKData
      ensures (old(fallbackIntervalActive) || isUsingRealSDKData)
              ==> currentFallbackProgress == old(currentFallbackProgress)
      ensures !old(fallbackIntervalActive) && !isUsingRealSDKData ==> currentFallbackProgress == 0.0
    {
      if !fallbackIntervalActive && !isUsingRealSDKData {
        StartFallbackProgress();
      }
    }

    /** `initializeSplashScreen`: the content is put in once, and the simulation starts then unless real data has arrived. */
    method InitializeSplashScreen()
      requires Valid()
      modifies this`splashContentShown, this`fallbackIntervalActive, this`currentFallbackProgress
      ensures Valid()
      ensures splashContentShown == (old(splashContentShown) || hasLoadingScreen)
      ensures var firstTime := hasLoadingScreen && !old(splashContentShown);
        && (firstTime && !isUsingRealSDKData ==> fallbackIntervalActive)
        && (!firstTime || isUsingRealSDKData ==> fallbackIntervalActive == old(fallbackIntervalActive))
        && ((!firstTime || isUsingRealSDKData || old(fallbackIntervalActive))
              ==> currentFallbackProgress == old(currentFallbackProgress))
        && (firstTime && !isUsingRealSDKData && !old(fallbackIntervalActive) ==> currentFallbackProgress == 0.0)
    {
      if hasLoadingScreen && !splashContentShown {
        splashContentShown := true;
        if !isUsingRealSDKData {
          StartFallbackProgress();
        }
      }
    }

    /**
     * `customProgressHandler`: the splash is put in place, then a report
     * with real data is shown and any other report keeps the simulation
     * going. Real data, once seen, is used for good.
     */
    method CustomProgressHandler(progress: Option<Progress>)
      requires Valid()
      modifies this`splashContentShown, this`fallbackIntervalActive, this`currentFallbackProgress,
               this`isUsingRealSDKData, this`updates
      ensures Valid()
      ensures isUsingRealSDKData == (old(isUsingRealSDKData) || HasValidData(progress))
      ensures fallbackIntervalActive == !isUsingRealSDKData
      ensures splashContentShown == (old(splashContentShown) || hasLoadingScreen)
      ensures old(fallbackIntervalActive) || old(isUsingRealSDKData) ==> currentFallbackProgress == old(currentFallbackProgress)
      ensures !old(fallbackIntervalActive) && !isUsingRealSDKData ==> currentFallbackProgress == 0.0
      ensures !old(fallbackIntervalActive) && !old(isUsingRealSDKData) && HasValidData(progress) ==>
        currentFallbackProgress
          == (if hasLoadingScreen && !old(splashContentShown) then 0.0 else old(currentFallbackProgress))
      ensures HasValidData(progress) ==> updates == old(updates) + [RealProgressUpdate(progress.value)]
      ensures !HasValidData(progress) ==> updates == old(updates)
    {
      InitializeSplashScreen();
      if HasValidData(progress) {
        HandleRealSDKProgress(progress.value);
      } else {
        HandleFallbackProgress(progress);
      }
    }
  }
}
