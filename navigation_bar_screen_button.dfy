/** The screen button of the navigation bar
    (js/NavigationBarScreenButton.js): whether it is selected, what pressing
    it does, and how it is styled from its selection, its press/hover state
    and the colour of the bar. */
module NavigationBarScreenButtons {
  import opened JsBuiltins

  /** `screenIndex === screens.indexOf(screen)`. A screen missing from
      `screens` has position -1, so its button is selected exactly when the
      index is -1. */
  predicate SelectedFor<S(==)>(screenIndex: int, screens: seq<S>, screen: S)
    ensures SelectedFor(screenIndex, screens, screen) <==>
      if screen in screens then 0 <= screenIndex < |screens| && screens[screenIndex] == screen && screen !in screens[..screenIndex]
      else screenIndex == -1
  {
    screenIndex == IndexOf(screens, screen)
  }

  /** Two different screens of the list are never selected together. */
  lemma SelectionExclusive<S>(screenIndex: int, screens: seq<S>, a: S, b: S)
    requires a in screens && b in screens && a != b
    ensures !(SelectedFor(screenIndex, screens, a) && SelectedFor(screenIndex, screens, b))
  {
  }

  /** The bar darkens its highlights unless its fill is exactly 'black'. */
  predicate UseDarkenHighlights(navigationBarFill: string) {
    navigationBarFill != "black"
  }

  /** What the `update` multilink sets on the button's nodes. */
  datatype Look = Look(textFill: string, opacity: real, brightenVisible: bool, darkenVisible: bool)

  function ButtonLook(selected: bool, down: bool, over: bool, navigationBarFill: string): (r: Look)
    // selected text is black on a light bar and logo yellow on a black one;
    // unselected text is gray on a light bar and white on a black one
    ensures selected ==> r.textFill == (if UseDarkenHighlights(navigationBarFill) then "black" else "#f2e916")
    ensures !selected ==> r.textFill == (if UseDarkenHighlights(navigationBarFill) then "gray" else "white")
    // the selected button is opaque, an unselected one dimmed, less so while pressed
    ensures selected ==> r.opacity == 1.0
    ensures !selected ==> r.opacity == (if down then 0.65 else 0.5)
    // at most one highlight, only while hovered or pressed, and the one that suits the bar
    ensures !(r.brightenVisible && r.darkenVisible)
    ensures r.brightenVisible || r.darkenVisible <==> over || down
    ensures r.brightenVisible ==> navigationBarFill == "black"
    ensures r.darkenVisible ==> navigationBarFill != "black"
  {
    var darken := UseDarkenHighlights(navigationBarFill);
    var selectedTextColor := if darken then "black" else "#f2e916";
    var unselectedTextColor := if darken then "gray" else "white";
    Look(
      if selected then selectedTextColor else unselectedTextColor,
      if selected then 1.0 else if down then 0.65 else 0.5,
      !darken && (over || down),
      darken && (over || down))
  }

  /** On any bar, the selected button stands out from the others: its text
      colour differs and it is the most opaque. */
  lemma SelectedStandsOut(down: bool, over: bool, down': bool, over': bool, navigationBarFill: string)
    ensures ButtonLook(true, down, over, navigationBarFill).textFill != ButtonLook(false, down', over', navigationBarFill).textFill
    ensures ButtonLook(true, down, over, navigationBarFill).opacity > ButtonLook(false, down', over', navigationBarFill).opacity
  {
  }

  /** The screen index, a number property shared by all buttons of a bar. */
  class IndexProperty {
    var value: int
    constructor (v: int)
      ensures value == v
    {
      value := v;
    }
  }

  class NavigationBarScreenButton<S(==)> {
    const screenIndexProperty: IndexProperty
    const screens: seq<S>
    const screen: S

    constructor (screenIndexProperty: IndexProperty, screens: seq<S>, screen: S)
      ensures this.screenIndexProperty == screenIndexProperty && this.screens == screens && this.screen == screen
    {
      this.screenIndexProperty := screenIndexProperty;
      this.screens := screens;
      this.screen := screen;
    }

    /** The `selectedProperty` derived from the screen index. */
    predicate Selected()
      reads screenIndexProperty
    {
      SelectedFor(screenIndexProperty.value, screens, screen)
    }

    /** The push-button listener: the screen index becomes this screen's
        position, so this button is selected and no other screen of the list is. */
    method Press()
      modifies screenIndexProperty
      ensures screenIndexProperty.value == IndexOf(screens, screen)
      ensures Selected()
      ensures forall other :: other in screens && other != screen ==> !SelectedFor(screenIndexProperty.value, screens, other)
    {
      screenIndexProperty.value := IndexOf(screens, screen);
    }
  }
}
