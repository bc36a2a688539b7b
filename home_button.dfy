/** The home button of the navigation bar (js/HomeButton.js): the colour of
    its house icon from the button's interaction state and the bar's fill. */
module HomeButtonStyle {

  function HomeIconFill(interactionState: string, navigationBarFill: string): (r: string)
    // the pressed colours are exactly 'gray' and '#444', and only 'pressed' gives them
    ensures r == "gray" || r == "#444" <==> interactionState == "pressed"
    // the light colours are exactly those used on a 'black' bar
    ensures r == "gray" || r == "white" <==> navigationBarFill == "black"
    // the unpressed colour on any bar other than 'black'
    ensures interactionState != "pressed" && navigationBarFill != "black" ==> r == "#222"
  {
    if navigationBarFill == "black" then
      (if interactionState == "pressed" then "gray" else "white")
    else
      (if interactionState == "pressed" then "#444" else "#222")
  }

  /** The fill depends on nothing but whether the bar is exactly 'black' and
      whether the state is exactly 'pressed'. */
  lemma FillDependsOnTwoTests(state: string, fill: string, state': string, fill': string)
    requires (state == "pressed") == (state' == "pressed")
    requires (fill == "black") == (fill' == "black")
    ensures HomeIconFill(state, fill) == HomeIconFill(state', fill')
  {
  }

  /** Pressing always changes the colour, on every bar. */
  lemma PressIsVisible(state: string, fill: string)
    requires state != "pressed"
    ensures HomeIconFill("pressed", fill) != HomeIconFill(state, fill)
  {
  }
}
