/** The PhET menu button (js/PhetButton.js): which logo it shows and how it
    colours the menu icon, from the background fill, whether the home screen
    is shown, and the update checker's state. */
module PhetButtonStyle {
  import opened UpdateChecking

  /** The two logo images: `logo.png` for dark backgrounds, `logo-on-white.png` for light ones. */
  datatype Logo = BrightLogo | DarkLogo

  datatype Look = Look(optionsFill: string, logo: Logo)

  /** The colours that announce an update. */
  predicate IsUpdateColor(fill: string) {
    fill == "#0a0" || fill == "#3F3"
  }

  /** The background counts as white when its fill is not 'black' and the
      home screen is not showing. */
  predicate BackgroundIsWhite(backgroundFill: string, showHomeScreen: bool) {
    backgroundFill != "black" && !showHomeScreen
  }

  function PhetButtonLook(backgroundFill: string, showHomeScreen: bool, updateState: CheckState): (r: Look)
    // the dark logo goes exactly on a white background
    ensures r.logo == DarkLogo <==> BackgroundIsWhite(backgroundFill, showHomeScreen)
    // the icon turns green exactly when the sim is out of date
    ensures IsUpdateColor(r.optionsFill) <==> updateState == OutOfDate
    // dark green or near-black with the dark logo, bright green or white with the bright one
    ensures r.logo == DarkLogo ==> r.optionsFill == (if updateState == OutOfDate then "#0a0" else "#222")
    ensures r.logo == BrightLogo ==> r.optionsFill == (if updateState == OutOfDate then "#3F3" else "white")
  {
    var backgroundIsWhite := BackgroundIsWhite(backgroundFill, showHomeScreen);
    var outOfDate := updateState == OutOfDate;
    Look(
      if backgroundIsWhite then (if outOfDate then "#0a0" else "#222") else (if outOfDate then "#3F3" else "white"),
      if backgroundIsWhite then DarkLogo else BrightLogo)
  }

  /** On the home screen the bright logo and the white or bright green icon
      are used, whatever the background fill. */
  lemma HomeScreenIsBright(backgroundFill: string, backgroundFill': string, updateState: CheckState)
    ensures PhetButtonLook(backgroundFill, true, updateState).logo == BrightLogo
    ensures PhetButtonLook(backgroundFill, true, updateState) == PhetButtonLook(backgroundFill', true, updateState)
  {
  }

  /** Whenever a consistent checker makes the button green, the checker has
      recorded a latest version that its comparison rule places ahead of ours. */
  lemma GreenOnlyWithNewerVersion(cfg: Config, c: Snapshot, backgroundFill: string, showHomeScreen: bool)
    requires Consistent(cfg, c)
    requires IsUpdateColor(PhetButtonLook(backgroundFill, showHomeScreen, c.state).optionsFill)
    ensures c.latestVersion.Some?
    ensures var comparison := cfg.compare(cfg.ourVersion, c.latestVersion.value);
      comparison == -1 || (comparison == 0 && cfg.ourVersion.suffix != [])
  {
  }

  /** An unpublished sim never turns the button green, whatever events arrive. */
  lemma {:induction false} UnpublishedNeverGreen(cfg: Config, events: seq<Event>, backgroundFill: string, showHomeScreen: bool)
    requires cfg.ourVersion.isSimNotPublished
    requires Run(cfg, Initial(), events).Some?
    ensures !IsUpdateColor(PhetButtonLook(backgroundFill, showHomeScreen, Run(cfg, Initial(), events).value.state).optionsFill)
  {
    UnpublishedNeverRequests(cfg, Initial(), events);
  }
}
