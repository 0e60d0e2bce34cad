/**
 * The application shell: which screen is shown, and whether the Tinu drawer
 * is open and with which context props. Screens open the drawer through
 * `openTinu`, the home screen selects a screen through `go`, the card
 * screens return through `goBack`, the mini-bar opens the drawer with a
 * general context, and the drawer closes itself through its `onClose`.
 */
module App {
  import opened Js

  /** The screen names the application renders a screen for. */
  const Home: string := "home"
  const DidYouKnowName: string := "didyouknow"
  const FlashCardName: string := "flashcard"

  /** The props the mini-bar opens the drawer with. */
  const GeneralContext: map<string, Value> := map["context" := Str("general")]

  /** A screen component. */
  datatype ScreenView = HomeView | DidYouKnowView | FlashCardView

  /** The screens rendered for a `screen` value: one conditional element per screen, each tested on its own. */
  function RenderedScreens(screen: string): (r: set<ScreenView>)
    ensures HomeView in r <==> screen == Home
    ensures DidYouKnowView in r <==> screen == DidYouKnowName
    ensures FlashCardView in r <==> screen == FlashCardName
  {
    (if screen == Home then {HomeView} else {})
    + (if screen == DidYouKnowName then {DidYouKnowView} else {})
    + (if screen == FlashCardName then {FlashCardView} else {})
  }

  /** At most one screen is rendered for any value, and exactly one for each of the three names. */
  lemma RenderedScreensAtMostOne(screen: string)
    ensures |RenderedScreens(screen)| <= 1
    ensures |RenderedScreens(screen)| == 1 <==> screen in {Home, DidYouKnowName, FlashCardName}
  {
  }

  /** The application's three state cells. */
  class AppState {
    var screen: string
    var tinuVisible: bool
    var tinuProps: map<string, Value>

    /** Start on the home screen with the drawer closed and empty props. */
    constructor ()
      ensures screen == Home && !tinuVisible && tinuProps == map[]
      ensures RenderedScreens(screen) == {HomeView}
    {
      screen, tinuVisible, tinuProps := Home, false, map[];
    }

    /** `openTinu(props)`: the drawer opens with the given props, `{}` when called without any. */
    method OpenTinu(props: Option<map<string, Value>>)
      modifies this`tinuProps, this`tinuVisible
      ensures tinuVisible
      ensures props.Some? ==> tinuProps == props.value
      ensures props.None? ==> tinuProps == map[]
    {
      tinuProps := if props.Some? then props.value else map[];
      tinuVisible := true;
    }

    /** The mini-bar's open button: the drawer opens with a general context. */
    method OpenFromMiniBar()
      modifies this`tinuProps, this`tinuVisible
      ensures tinuVisible && tinuProps == GeneralContext
    {
      OpenTinu(Some(GeneralContext));
    }

    /** The drawer's `onClose`: only the drawer's visibility changes. */
    method CloseTinu()
      modifies this`tinuVisible
      ensures !tinuVisible
    {
      tinuVisible := false;
    }

    /** `go(screenName)`: switch to the named screen; the drawer is untouched. */
    method Go(screenName: string)
      modifies this`screen
      ensures screen == screenName
    {
      screen := screenName;
    }

    /** `goBack()`: return to the home screen; the drawer is untouched. */
    method GoBack()
      modifies this`screen
      ensures screen == Home && RenderedScreens(screen) == {HomeView}
    {
      screen := Home;
    }
  }
}
