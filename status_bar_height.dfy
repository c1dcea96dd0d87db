/**
  The status-bar height probe `useStatusBarHeightDetector`
  (src/core/hooks/useStatusBarHeightDetector.ts). The platform name, the
  Android `StatusBar.currentHeight` and the height the iOS native module
  reports are parameters.
*/
module StatusBarHeight {
  import opened Wrappers

  /** The height used on iOS when the reported one cannot be trusted. */
  const FallbackHeight: real := 50.0

  /**
    The height the effect stores: off iOS, `currentHeight ?? 0`; on iOS the
    reported height when in portrait and non-zero, and 50 otherwise.
  */
  function ChooseHeight(os: string, currentHeight: Option<real>, reportedHeight: real, isPortraitMode: bool): (h: real)
    ensures os != "ios" && currentHeight.Some? ==> h == currentHeight.value
    ensures os != "ios" && currentHeight.None? ==> h == 0.0
    ensures os == "ios" && isPortraitMode && reportedHeight != 0.0 ==> h == reportedHeight
    ensures os == "ios" && (!isPortraitMode || reportedHeight == 0.0) ==> h == FallbackHeight
    ensures os == "ios" ==> h != 0.0
  {
    if os != "ios" then currentHeight.GetOr(0.0)
    else if isPortraitMode && reportedHeight != 0.0 then reportedHeight
    else FallbackHeight
  }

  /** The hook's `barHeight` state cell and the `isPortraitMode` its effect last ran with. */
  class StatusBarHeightDetector {
    var barHeight: real
    var effectPortrait: Option<bool>

    constructor ()
      ensures barHeight == 0.0 && effectPortrait == None
    {
      barHeight := 0.0;
      effectPortrait := None;
    }

    /**
      One render: it returns the stored height, and then the effect runs, on
      the first render and whenever `isPortraitMode` differs from its previous
      run, storing the chosen height for the next render; otherwise the stored
      height stays.
    */
    method Render(isPortraitMode: bool, os: string, currentHeight: Option<real>, reportedHeight: real)
      returns (statusBarHeight: real)
      modifies this
      ensures effectPortrait == Some(isPortraitMode)
      ensures old(effectPortrait) != Some(isPortraitMode) ==>
        barHeight == ChooseHeight(os, currentHeight, reportedHeight, isPortraitMode)
      ensures old(effectPortrait) == Some(isPortraitMode) ==> barHeight == old(barHeight)
      ensures statusBarHeight == old(barHeight)
    {
      statusBarHeight := barHeight;
      if effectPortrait != Some(isPortraitMode) {
        effectPortrait := Some(isPortraitMode);
        barHeight := ChooseHeight(os, currentHeight, reportedHeight, isPortraitMode);
      }
    }
  }
}
