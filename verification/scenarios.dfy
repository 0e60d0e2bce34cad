/**
 * Runs of the application and the drawer from mounting, one per behaviour
 * the drawer promises its users: a response reaches the drawer only while
 * its request is current, the keyboard halves the panel, and a close the
 * user starts calls `onClose` exactly once.
 */
module Scenarios {
  import opened Js
  import App
  import opened TinuBottomSheet

  /** The drawer mounted visible shows the response to its first request. */
  method FirstResponseShown(height: nat, props: map<string, Value>, res: TinuResponse) returns (drawer: Drawer)
    ensures drawer.data == ApplyResponse(res) && !drawer.loading
    ensures drawer.data.chips == res.chips.GetOr([])
  {
    drawer := new Drawer(height, true, true, props);
    drawer.FetchResolved(0, res);
  }

  /** A response that arrives after the drawer was hidden is dropped. */
  method LateResponseDropped(height: nat, props: map<string, Value>, res: TinuResponse) returns (drawer: Drawer)
    ensures !drawer.visible && drawer.data == EmptyData
  {
    drawer := new Drawer(height, true, true, props);
    drawer.Rerender(false, props, false);
    drawer.FetchResolved(0, res);
  }

  /** With new context props, only the response to the new request is shown, in whichever order they arrive. */
  method OnlyCurrentContextShown(height: nat, p1: map<string, Value>, p2: map<string, Value>,
                                 r1: TinuResponse, r2: TinuResponse) returns (drawer: Drawer)
    ensures drawer.data == ApplyResponse(r2) && !drawer.loading
    ensures drawer.requests == map[]
  {
    drawer := new Drawer(height, true, true, p1);
    drawer.Rerender(true, p2, true);
    assert drawer.requests.Keys == {0, 1};
    drawer.FetchResolved(1, r2);
    drawer.FetchResolved(0, r1);
  }

  /** A keyboard without coordinates counts as 300 high and halves the panel; hiding it restores the panel. */
  method KeyboardHalvesPanel(height: nat, props: map<string, Value>) returns (drawer: Drawer, shown: nat, hidden: nat)
    ensures shown == HalfHeight(BaseDrawerHeight(height)) && hidden == BaseDrawerHeight(height)
  {
    drawer := new Drawer(height, true, true, props);
    drawer.KeyboardShow(None);
    shown := drawer.CurrentDrawerHeight();
    drawer.KeyboardShow(Some(200));
    assert drawer.CurrentDrawerHeight() == shown;
    drawer.KeyboardHide();
    hidden := drawer.CurrentDrawerHeight();
  }

  /** A swipe past the dismiss threshold closes the drawer and, when its animation ends, calls `onClose` once. */
  method SwipeDismiss(height: nat, props: map<string, Value>) returns (drawer: Drawer)
    ensures drawer.closeCalls == 1 && drawer.running == Idle
    ensures drawer.translateY == height && drawer.pan == 150
    ensures fresh(drawer) && drawer.Valid() && drawer.visible
  {
    drawer := new Drawer(height, true, true, props);
    var claimed := drawer.DragStart(150);
    drawer.DragMove(150);
    drawer.DragRelease(150);
    drawer.AnimationEnded();
  }

  /** A short drag springs back without closing. */
  method ShortDragSpringsBack(height: nat, props: map<string, Value>) returns (drawer: Drawer)
    ensures drawer.closeCalls == 0 && drawer.pan == 0 && drawer.translateY == 0
  {
    drawer := new Drawer(height, true, true, props);
    var claimed := drawer.DragStart(50);
    drawer.DragMove(50);
    drawer.DragRelease(50);
  }

  /** A backdrop tap during the grace period after opening does nothing. */
  method GraceIgnoresBackdrop(height: nat, props: map<string, Value>) returns (drawer: Drawer)
    ensures drawer.running == Opening && drawer.translateY == 0 && drawer.closeCalls == 0
  {
    drawer := new Drawer(height, true, true, props);
    drawer.BackdropTap();
  }

  /**
   * The drawer is mounted hidden and the mini-bar opens it; after the grace
   * period a backdrop tap closes it, `onClose` runs once when the close
   * animation ends, and the app then hides the drawer.
   */
  method BackdropDismiss(height: nat) returns (app: App.AppState, drawer: Drawer)
    ensures !app.tinuVisible && drawer.closeCalls == 1 && drawer.running == Idle
  {
    app := new App.AppState();
    drawer := new Drawer(height, true, app.tinuVisible, app.tinuProps);
    app.OpenFromMiniBar();
    drawer.Rerender(app.tinuVisible, app.tinuProps, true);
    drawer.GraceTimerFires();
    drawer.BackdropTap();
    drawer.AnimationEnded();
    app.CloseTinu();
  }

  /**
   * A close the user starts does not change `visible`, so a response that
   * arrives during the close animation still reaches the drawer.
   */
  method ResponseDuringUserCloseApplied(height: nat, props: map<string, Value>, res: TinuResponse) returns (drawer: Drawer)
    ensures drawer.visible && drawer.running == Closing(true)
    ensures drawer.data == ApplyResponse(res) && !drawer.loading
  {
    drawer := new Drawer(height, true, true, props);
    drawer.GraceTimerFires();
    drawer.BackdropTap();
    drawer.FetchResolved(0, res);
  }

  /** The parent hides the drawer and shows it again with new props: the panel opens, keeping its drag offset. */
  method HideAndReopenKeepsOffset(drawer: Drawer, props: map<string, Value>)
    requires drawer.Valid() && drawer.visible
    modifies drawer
    ensures drawer.visible && drawer.running == Opening && drawer.translateY == 0
    ensures drawer.pan == old(drawer.pan) && drawer.DrawerTranslateY() == old(drawer.pan)
  {
    drawer.Rerender(false, drawer.contextProps, false);
    drawer.Rerender(true, props, true);
  }

  /**
   * The drag offset is not reset when a swipe dismisses the drawer, so when
   * the app opens it again the panel is drawn 150 below its open position.
   */
  method ReopenAfterSwipeKeepsOffset(height: nat, p1: map<string, Value>, p2: map<string, Value>) returns (drawer: Drawer)
    ensures drawer.visible && drawer.translateY == 0 && drawer.DrawerTranslateY() == 150
  {
    drawer := SwipeDismiss(height, p1);
    HideAndReopenKeepsOffset(drawer, p2);
  }

  /**
   * Two backdrop taps during one close animation: the second close
   * interrupts the first, whose callback then runs at once, and the second
   * calls back when it ends, so `onClose` runs twice.
   */
  method DoubleBackdropTap(height: nat, props: map<string, Value>) returns (drawer: Drawer)
    ensures drawer.closeCalls == 2 && drawer.running == Idle
  {
    drawer := new Drawer(height, true, true, props);
    drawer.GraceTimerFires();
    drawer.BackdropTap();
    drawer.BackdropTap();
    drawer.AnimationEnded();
  }

  /** After the grace period a backdrop tap closes the drawer, and `onClose` runs once when the close animation ends. */
  method BackdropCloseEnds(height: nat, props: map<string, Value>) returns (drawer: Drawer)
    ensures drawer.closeCalls == 1 && drawer.running == Idle && drawer.translateY == height
    ensures fresh(drawer) && drawer.Valid() && drawer.visible && drawer.contextProps == props && drawer.height == height
  {
    drawer := new Drawer(height, true, true, props);
    drawer.GraceTimerFires();
    drawer.BackdropTap();
    drawer.AnimationEnded();
  }

  /**
   * The app hides the drawer from its `onClose`, after a backdrop close has
   * called it. The hide runs a close animation without callback, so when it
   * ends `onClose` has still been called only once.
   */
  method ParentHideCallsNothing(height: nat, props: map<string, Value>) returns (app: App.AppState, drawer: Drawer)
    ensures !app.tinuVisible && !drawer.visible && drawer.translateY == height
    ensures drawer.closeCalls == 1 && drawer.running == Idle
  {
    app := new App.AppState();
    app.OpenTinu(Some(props));
    drawer := BackdropCloseEnds(height, app.tinuProps);
    app.CloseTinu();
    drawer.Rerender(app.tinuVisible, app.tinuProps, false);
    drawer.AnimationEnded();
  }
}
