/**
 * The Tinu drawer: a bottom sheet that slides up when its parent makes it
 * visible, loads contextual cards and chips for the parent's context props,
 * shrinks while the on-screen keyboard is up, can be swiped down or closed
 * by a tap on the backdrop (except during a short grace period after it
 * opens), and reports a user-initiated close to its parent through
 * `onClose`.
 *
 * Animations are modelled by their targets: starting one sets the animated
 * values to where it ends, and its end is a separate event. Starting a new
 * animation of the same values interrupts the running one, and the animation
 * library then ends the interrupted one at once, which runs its completion
 * callback (the drawer's callback ignores whether the animation finished).
 */
module TinuBottomSheet {
  import opened Js
  import Api

  /** A drag is claimed by the drawer once it has moved down more than this. */
  const ClaimThreshold: int := 5
  /** A drag released further down than this dismisses the drawer. */
  const DismissThreshold: int := 100
  /** Keyboard height assumed when the show notification carries no coordinates. */
  const DefaultKeyboardHeight: nat := 300

  // ---------------------------------------------------------------------
  // Panel geometry

  /** `Math.round(height * 0.75)`: the nearest integer to three quarters of the height, halves rounded up. */
  function BaseDrawerHeight(height: nat): (r: nat)
    ensures -2 < 4 * r - 3 * height <= 2
  {
    (3 * height + 2) / 4
  }

  /** `Math.round(base * 0.5)`: the nearest integer to half of `base`, halves rounded up. */
  function HalfHeight(base: nat): (r: nat)
    ensures -1 < 2 * r - base <= 1
  {
    (base + 1) / 2
  }

  /** `currentDrawerHeight`: the base height, halved while the keyboard is up. */
  function DrawerHeight(height: nat, keyboardHeight: nat): (r: nat)
    ensures r <= BaseDrawerHeight(height)
    ensures keyboardHeight == 0 ==> r == BaseDrawerHeight(height)
    ensures keyboardHeight > 0 ==> 2 * r >= BaseDrawerHeight(height) && 2 * r <= BaseDrawerHeight(height) + 1
  {
    if keyboardHeight > 0 then HalfHeight(BaseDrawerHeight(height)) else BaseDrawerHeight(height)
  }

  /** The height sees only whether the keyboard is up, so repeated or differing show notifications agree. */
  lemma DrawerHeightSeesOnlyKeyboardShown(height: nat, k1: nat, k2: nat)
    requires (k1 > 0) == (k2 > 0)
    ensures DrawerHeight(height, k1) == DrawerHeight(height, k2)
  {
  }

  // ---------------------------------------------------------------------
  // Content

  /** A card as the API sends it; the drawer keeps every field, so a card is its field map. */
  type Card = map<string, string>

  /** `JSON.stringify` of an object: some text in braces. */
  type ObjectJson = s: string | 2 <= |s| && s[0] == '{' && s[|s| - 1] == '}' witness "{}"

  /**
   * A chip: a plain string, or an object with optional `label`, `text` and
   * `value` fields (the first is `labelText` here) and its serialisation.
   */
  datatype Chip =
    | TextChip(s: string)
    | ObjectChip(labelText: Option<string>, text: Option<string>, value: Option<string>, json: ObjectJson)

  /** The response of the activation request. */
  datatype TinuResponse = TinuResponse(
    cards: Option<seq<Card>>,
    chips: Option<seq<Chip>>,
    context_label: Option<string>)

  /** The drawer's `data` cell. */
  datatype DrawerData = DrawerData(cards: seq<Card>, chips: seq<Chip>, context_label: Option<string>)

  /** `data` before any response: no cards, no chips, no label. */
  const EmptyData := DrawerData([], [], None)

  /** A received card: its `image_url` goes through `makeImageUrl` when truthy; nothing else changes. */
  function WithImageUrl(c: Card): (r: Card)
    ensures r.Keys == c.Keys
    ensures forall k :: k in c && k != "image_url" ==> r[k] == c[k]
    ensures "image_url" in c && c["image_url"] != "" ==>
              Some(r["image_url"]) == Api.MakeImageUrl(Some(c["image_url"]))
    ensures !("image_url" in c && c["image_url"] != "") ==> r == c
  {
    if "image_url" in c && c["image_url"] != "" then
      c["image_url" := Api.MakeImageUrl(Some(c["image_url"])).value]
    else c
  }

  /** Rewriting a card's image URL twice is rewriting it once. */
  lemma WithImageUrlIdempotent(c: Card)
    ensures WithImageUrl(WithImageUrl(c)) == WithImageUrl(c)
  {
  }

  /** Every rewritten card that has an image has an http(s) image URL. */
  lemma WithImageUrlIsHttp(c: Card)
    requires "image_url" in c && c["image_url"] != ""
    ensures Api.IsHttpUrl(WithImageUrl(c)["image_url"])
  {
  }

  /**
   * The new `data` for a response: its cards (or none) with image URLs
   * rewritten, in order; its chips (or none) as they are; its context label,
   * or `""` when falsy.
   */
  function ApplyResponse(res: TinuResponse): (d: DrawerData)
    ensures res.cards.None? ==> d.cards == []
    ensures res.cards.Some? ==> |d.cards| == |res.cards.value|
    ensures res.cards.Some? ==> forall i :: 0 <= i < |d.cards| ==> d.cards[i] == WithImageUrl(res.cards.value[i])
    ensures d.chips == res.chips.GetOr([])
    ensures d.context_label.Some?
    ensures Truthy(res.context_label) ==> d.context_label == res.context_label
    ensures !Truthy(res.context_label) ==> d.context_label == Some("")
  {
    var cards := res.cards.GetOr([]);
    DrawerData(
      seq(|cards|, i requires 0 <= i < |cards| => WithImageUrl(cards[i])),
      res.chips.GetOr([]),
      Some(OrElse(res.context_label, "")))
  }

  // ---------------------------------------------------------------------
  // Chips

  /** The label shown on a chip. */
  function ChipLabel(chip: Chip): (r: string)
    ensures chip.TextChip? ==> r == chip.s
    ensures chip.ObjectChip? ==> r == FirstTruthy([chip.labelText, chip.text, chip.value], chip.json)
    ensures r == "" <==> chip == TextChip("")
  {
    match chip
    case TextChip(s) => s
    case ObjectChip(l, t, v, json) =>
      OrChain3(l, t, v, json);
      OrElse(Or(Or(l, t), v), json)
  }

  /** The five chip emojis: apple, phone, brain, speech bubble and the default diamond. */
  datatype Emoji = Apple | Phone | Brain | Speech | Diamond

  /** `word` occurs somewhere in the label, ignoring ASCII case. */
  ghost predicate Mentions(chipLabel: string, word: string) {
    exists i: nat :: OccursAt(AsciiLower(chipLabel), word, i)
  }

  /**
   * The emoji shown before a chip label: the first topic the lower-cased label
   * mentions, in the priority food/nutrition, screen, emotional/regulation,
   * communication, else the default.
   */
  function ChipEmoji(chipLabel: string): (r: Emoji)
    ensures var food := Mentions(chipLabel, "food") || Mentions(chipLabel, "nutrition");
            var screen := Mentions(chipLabel, "screen");
            var emotion := Mentions(chipLabel, "emotional") || Mentions(chipLabel, "regulation");
            var talk := Mentions(chipLabel, "communication");
            && (r == Apple <==> food)
            && (r == Phone <==> !food && screen)
            && (r == Brain <==> !food && !screen && emotion)
            && (r == Speech <==> !food && !screen && !emotion && talk)
            && (r == Diamond <==> !food && !screen && !emotion && !talk)
  {
    var l := AsciiLower(chipLabel);
    IncludesIff(l, "food");
    IncludesIff(l, "nutrition");
    IncludesIff(l, "screen");
    IncludesIff(l, "emotional");
    IncludesIff(l, "regulation");
    IncludesIff(l, "communication");
    if Includes(l, "food") || Includes(l, "nutrition") then Apple
    else if Includes(l, "screen") then Phone
    else if Includes(l, "emotional") || Includes(l, "regulation") then Brain
    else if Includes(l, "communication") then Speech
    else Diamond
  }

  /** Classification ignores case: a label and its lower-cased form get the same emoji. */
  lemma ChipEmojiIgnoresCase(chipLabel: string)
    ensures ChipEmoji(AsciiLower(chipLabel)) == ChipEmoji(chipLabel)
  {
    AsciiLowerIdempotent(chipLabel);
  }

  // ---------------------------------------------------------------------
  // The drawer

  /** The open/close animation of the translate and opacity values that is running, if any. */
  datatype Animation = Idle | Opening | Closing(withCallback: bool)

  /** Calls of `onClose` the running animation still owes: one for a close started with the callback. */
  function CallbackDue(a: Animation): nat {
    if a == Closing(true) then 1 else 0
  }

  /** The drawer's props and the cells its effects read and write, as one value. */
  datatype Cells = Cells(
    visible: bool,
    contextProps: map<string, Value>,
    loading: bool,
    generation: nat,
    requests: map<nat, map<string, Value>>,
    translateY: int,
    opacity: int,
    running: Animation,
    closeCalls: nat,
    justOpened: bool,
    graceTimerArmed: bool,
    dragging: bool)

  /** New props arrive: the fetch instance is replaced when it reruns, a changed `visible` clears the grace timer, hiding ends a drag. */
  function ReceivePropsStep(c: Cells, newVisible: bool, newProps: map<string, Value>, fetchRerun: bool): Cells {
    c.(generation := c.generation + (if fetchRerun then 1 else 0),
       graceTimerArmed := c.graceTimerArmed && c.visible == newVisible,
       visible := newVisible,
       contextProps := newProps,
       dragging := c.dragging && newVisible)
  }

  /** The fetch effect's new instance: a visible drawer loads and sends the activation body built from its props. */
  function FetchEffectStep(c: Cells, depsChanged: bool): Cells {
    if depsChanged && c.visible then
      c.(loading := true, requests := c.requests[c.generation := Api.ActivateTinuBody(Some(c.contextProps))])
    else c
  }

  /** The animation effect: open when shown, close without callback when hidden; an interrupted close still calls back. */
  function AnimationEffectStep(c: Cells, height: nat, depsChanged: bool): Cells {
    if !depsChanged then c
    else
      var calls := c.closeCalls + CallbackDue(c.running);
      if c.visible then c.(translateY := 0, opacity := 1, running := Opening, closeCalls := calls)
      else c.(translateY := height, opacity := 0, running := Closing(false), closeCalls := calls)
  }

  /** The grace effect: a drawer that is shown starts ignoring backdrop taps and arms the timer that ends this. */
  function GraceEffectStep(c: Cells, depsChanged: bool): Cells {
    if depsChanged && c.visible then c.(justOpened := true, graceTimerArmed := true) else c
  }

  /**
   * A re-render with new props: the fetch effect reruns when `visible` or the
   * props object changed, the animation and grace effects when `visible`
   * changed.
   */
  function RerenderStep(c: Cells, height: nat, newVisible: bool, newProps: map<string, Value>, propsReplaced: bool): (r: Cells)
    ensures r.visible == newVisible && r.contextProps == newProps
    // fetch effect
    ensures var rerun := c.visible != newVisible || propsReplaced;
            r.generation == c.generation + (if rerun then 1 else 0)
    ensures var rerun := c.visible != newVisible || propsReplaced;
            rerun && newVisible ==>
              r.loading && r.requests == c.requests[r.generation := Api.ActivateTinuBody(Some(newProps))]
    ensures var rerun := c.visible != newVisible || propsReplaced;
            !(rerun && newVisible) ==> r.loading == c.loading && r.requests == c.requests
    // animation effect
    ensures c.visible == newVisible ==>
              r.running == c.running && r.translateY == c.translateY && r.opacity == c.opacity
              && r.closeCalls == c.closeCalls
    ensures c.visible != newVisible ==> r.closeCalls == c.closeCalls + CallbackDue(c.running)
    ensures !c.visible && newVisible ==> r.running == Opening && r.translateY == 0 && r.opacity == 1
    ensures c.visible && !newVisible ==> r.running == Closing(false) && r.translateY == height && r.opacity == 0
    // grace effect
    ensures !c.visible && newVisible ==> r.justOpened && r.graceTimerArmed
    ensures !(!c.visible && newVisible) ==> r.justOpened == c.justOpened
    ensures c.visible && !newVisible ==> !r.graceTimerArmed
    ensures c.visible == newVisible ==> r.graceTimerArmed == c.graceTimerArmed
    // a drag ends when the panel is hidden
    ensures r.dragging == (c.dragging && newVisible)
  {
    var visibilityChanged := c.visible != newVisible;
    var fetchRerun := visibilityChanged || propsReplaced;
    var received := ReceivePropsStep(c, newVisible, newProps, fetchRerun);
    GraceEffectStep(AnimationEffectStep(FetchEffectStep(received, fetchRerun), height, visibilityChanged), visibilityChanged)
  }

  /** A re-render with the same visibility and the same props object changes nothing. */
  lemma RerenderSamePropsIsNoOp(c: Cells, height: nat)
    requires c.dragging ==> c.visible
    ensures RerenderStep(c, height, c.visible, c.contextProps, false) == c
  {
  }

  /**
   * Once the fetch effect reruns, every request sent before belongs to an
   * unmounted instance: its result can no longer reach the drawer.
   */
  lemma RerenderOrphansOldRequests(c: Cells, height: nat, newVisible: bool, newProps: map<string, Value>, propsReplaced: bool)
    requires forall g :: g in c.requests ==> g <= c.generation
    requires c.visible != newVisible || propsReplaced
    ensures var r := RerenderStep(c, height, newVisible, newProps, propsReplaced);
            forall g :: g in c.requests ==> g in r.requests && g != r.generation
  {
  }

  /**
   * A shown drawer is never stuck: while it ignores backdrop taps, the timer
   * that ends this is armed, and while it is loading, a request of the
   * current fetch instance is in flight, whose settling ends the loading.
   */
  predicate Settled(c: Cells) {
    && (c.visible && c.justOpened ==> c.graceTimerArmed)
    && (c.visible && c.loading ==> c.generation in c.requests)
  }

  /**
   * A request of instance `g` settles, resolved or rejected: it is no longer
   * in flight, and when it is the current instance's, loading ends.
   */
  function SettleStep(c: Cells, g: nat): (r: Cells)
    ensures r.requests.Keys == c.requests.Keys - {g}
    ensures r.loading <==> c.loading && g != c.generation
    ensures r.(requests := c.requests, loading := c.loading) == c
  {
    c.(requests := c.requests - {g}, loading := c.loading && g != c.generation)
  }

  /** A request settling keeps a drawer out of the stuck states. */
  lemma SettleStepKeepsSettled(c: Cells, g: nat)
    requires Settled(c)
    ensures Settled(SettleStep(c, g))
  {
  }

  /** Every re-render keeps a drawer out of the stuck states. */
  lemma RerenderStepKeepsSettled(c: Cells, height: nat, newVisible: bool, newProps: map<string, Value>, propsReplaced: bool)
    requires Settled(c)
    ensures Settled(RerenderStep(c, height, newVisible, newProps, propsReplaced))
  {
  }

  /**
   * The drawer's state: its props (`visible`, `contextProps`, whether an
   * `onClose` was given), its state cells, the targets of its animated values,
   * the `justOpened` ref and its timer, the fetch effect's instances, the
   * gesture, and how many times it has called `onClose`.
   */
  class Drawer {
    /** Window height. */
    const height: nat
    /** Whether the parent passed an `onClose` callback. */
    const hasOnClose: bool

    var visible: bool
    var contextProps: map<string, Value>
    var data: DrawerData
    var loading: bool
    var input: string
    var keyboardHeight: nat
    var translateY: int
    var opacity: int
    /** Drag offset added to `translateY`. */
    var pan: int
    var running: Animation
    var justOpened: bool
    /** The timer that clears `justOpened` is scheduled and not cleared. */
    var graceTimerArmed: bool
    /** The current instance of the fetch effect; earlier instances are unmounted. */
    var generation: nat
    /** Activation requests in flight, by the effect instance that sent them, with their bodies. */
    var requests: map<nat, map<string, Value>>
    /** A drag gesture has been claimed and not yet released. */
    var dragging: bool
    /** Number of times `onClose` has been called. */
    var closeCalls: nat
    /** Number of closes started with the `onClose` callback. */
    ghost var closeRequests: nat

    /** The animated values sit at the targets of the last animation, and owed callbacks are counted. */
    ghost predicate AnimationValid()
      reads this`translateY, this`opacity, this`running, this`closeCalls, this`closeRequests
    {
      && ((translateY == 0 && opacity == 1) || (translateY == height && opacity == 0))
      && (running == Opening ==> translateY == 0 && opacity == 1)
      && (running.Closing? ==> translateY == height && opacity == 0)
      && (running == Closing(true) ==> hasOnClose)
      // every close started with the callback calls it exactly once, when its animation ends
      && closeRequests == closeCalls + CallbackDue(running)
    }

    /** The drag offset is never upward; the grace timer and a drag exist only while the panel is shown. */
    ghost predicate GestureValid()
      reads this`pan, this`graceTimerArmed, this`justOpened, this`dragging, this`visible
    {
      && pan >= 0
      && (graceTimerArmed ==> visible && justOpened)
      && (dragging ==> visible)
    }

    /** Requests come from past or current effect instances; the current one's request means a visible, loading drawer. */
    ghost predicate FetchValid()
      reads this`requests, this`generation, this`visible, this`loading
    {
      && (forall g :: g in requests ==> g <= generation)
      && (generation in requests ==> visible && loading)
    }

    ghost predicate Valid()
      reads this
    {
      AnimationValid() && GestureValid() && FetchValid()
    }

    /** The height the panel is rendered with. */
    function CurrentDrawerHeight(): (r: nat)
      reads this
      ensures r <= BaseDrawerHeight(height)
    {
      DrawerHeight(height, keyboardHeight)
    }

    /**
     * The panel's rendered offset: the animated offset plus the drag. The
     * drag offset only ever points down (`GestureValid`), so the panel is
     * never drawn above its animated offset, and exactly there without one.
     */
    function DrawerTranslateY(): (r: int)
      reads this
      ensures pan >= 0 ==> r >= translateY
      ensures pan == 0 <==> r == translateY
    {
      translateY + pan
    }

    /**
     * Mounting: initial cells, then the effects run once. A visible drawer
     * starts loading and sends its first request, opens, and starts its
     * grace period; a hidden one runs a close animation without callback.
     */
    constructor (height: nat, hasOnClose: bool, visible: bool, contextProps: map<string, Value>)
      ensures Valid()
      ensures this.height == height && this.hasOnClose == hasOnClose
      ensures this.visible == visible && this.contextProps == contextProps
      ensures data == EmptyData && input == "" && keyboardHeight == 0 && pan == 0 && !dragging
      ensures generation == 0 && closeCalls == 0
      ensures visible ==> loading && requests == map[0 := Api.ActivateTinuBody(Some(contextProps))]
      ensures visible ==> running == Opening && translateY == 0 && opacity == 1
      ensures visible ==> justOpened && graceTimerArmed
      ensures !visible ==> !loading && requests == map[]
      ensures !visible ==> running == Closing(false) && translateY == height && opacity == 0
      ensures !visible ==> !justOpened && !graceTimerArmed
      ensures Settled(Snapshot())
    {
      this.height := height;
      this.hasOnClose := hasOnClose;
      this.visible := visible;
      this.contextProps := contextProps;
      data := EmptyData;
      input := "";
      keyboardHeight := 0;
      pan := 0;
      dragging := false;
      generation := 0;
      closeCalls, closeRequests := 0, 0;
      // the animated values start off screen and transparent; the effects then run once
      if visible {
        loading := true;
        requests := map[0 := Api.ActivateTinuBody(Some(contextProps))];
        translateY, opacity, running := 0, 1, Opening;
        justOpened, graceTimerArmed := true, true;
      } else {
        loading := false;
        requests := map[];
        translateY, opacity, running := height, 0, Closing(false);
        justOpened, graceTimerArmed := false, false;
      }
    }

    /** `animateOpen`: slide in and fade in. */
    method AnimateOpen()
      requires Valid()
      modifies this`translateY, this`opacity, this`running, this`closeCalls
      ensures Valid()
      ensures translateY == 0 && opacity == 1 && running == Opening
      ensures closeCalls == old(closeCalls) + CallbackDue(old(running))
    {
      closeCalls := closeCalls + CallbackDue(running);
      translateY, opacity := 0, 1;
      running := Opening;
    }

    /** `animateClose(callback)`: slide out and fade out, then run the callback if there is one. */
    method AnimateClose(callback: bool)
      requires Valid() && (callback ==> hasOnClose)
      modifies this`translateY, this`opacity, this`running, this`closeCalls, this`closeRequests
      ensures Valid()
      ensures translateY == height && opacity == 0 && running == Closing(callback)
      ensures closeCalls == old(closeCalls) + CallbackDue(old(running))
      ensures closeRequests == old(closeRequests) + (if callback then 1 else 0)
    {
      closeCalls := closeCalls + CallbackDue(running);
      translateY, opacity := height, 0;
      running := Closing(callback);
      closeRequests := closeRequests + (if callback then 1 else 0);
    }

    /** The running open or close animation ends; a close started with the callback calls `onClose`. */
    method AnimationEnded()
      requires Valid() && running != Idle
      modifies this`running, this`closeCalls
      ensures Valid() && running == Idle
      ensures closeCalls == old(closeCalls) + CallbackDue(old(running))
    {
      closeCalls := closeCalls + CallbackDue(running);
      running := Idle;
    }

    /** The part of the drawer's state a re-render with new props can change. */
    function Snapshot(): Cells
      reads this
    {
      Cells(visible, contextProps, loading, generation, requests, translateY, opacity, running,
            closeCalls, justOpened, graceTimerArmed, dragging)
    }

    /**
     * The parent re-renders the drawer with new props. `propsReplaced` says
     * whether `contextProps` is a different object (effects compare their
     * dependencies by identity). First the props arrive, then the effects
     * whose dependencies changed run again, in the order they are declared.
     */
    method Rerender(newVisible: bool, newProps: map<string, Value>, propsReplaced: bool)
      requires Valid()
      requires !propsReplaced ==> newProps == contextProps
      modifies this`visible, this`contextProps, this`loading, this`generation, this`requests
      modifies this`translateY, this`opacity, this`running, this`closeCalls, this`closeRequests
      modifies this`justOpened, this`graceTimerArmed, this`dragging
      ensures Valid()
      ensures Snapshot() == RerenderStep(old(Snapshot()), height, newVisible, newProps, propsReplaced)
      ensures closeRequests == old(closeRequests)
      ensures Settled(old(Snapshot())) ==> Settled(Snapshot())
    {
      var visibilityChanged := visible != newVisible;
      var fetchRerun := visibilityChanged || propsReplaced;
      ReceiveProps(newVisible, newProps, fetchRerun);
      FetchEffect(fetchRerun);
      AnimationEffect(visibilityChanged);
      GraceEffect(visibilityChanged);
    }

    /**
     * New props arrive. First the cleanups of the effects whose dependencies
     * changed: the fetch effect's instance is unmounted and the grace timer
     * of a drawer that was shown is cleared. Hiding the panel also ends a
     * drag in progress, without a release.
     */
    method ReceiveProps(newVisible: bool, newProps: map<string, Value>, fetchRerun: bool)
      requires Valid()
      requires visible != newVisible ==> fetchRerun
      modifies this`generation, this`graceTimerArmed, this`visible, this`contextProps, this`dragging
      ensures Valid()
      ensures Snapshot() == ReceivePropsStep(old(Snapshot()), newVisible, newProps, fetchRerun)
      ensures fetchRerun ==> generation !in requests
    {
      var next := ReceivePropsStep(Snapshot(), newVisible, newProps, fetchRerun);
      generation, graceTimerArmed := next.generation, next.graceTimerArmed;
      visible, contextProps, dragging := next.visible, next.contextProps, next.dragging;
    }

    /** The fetch effect, when its dependencies changed: a visible drawer starts loading and sends its request. */
    method FetchEffect(depsChanged: bool)
      requires Valid() && (depsChanged ==> generation !in requests)
      modifies this`loading, this`requests
      ensures Valid()
      ensures Snapshot() == FetchEffectStep(old(Snapshot()), depsChanged)
    {
      if depsChanged && visible {
        loading := true;
        requests := requests[generation := Api.ActivateTinuBody(Some(contextProps))];
      }
    }

    /** The animation effect, when `visible` changed: open when shown, close without callback when hidden. */
    method AnimationEffect(depsChanged: bool)
      requires Valid()
      modifies this`translateY, this`opacity, this`running, this`closeCalls, this`closeRequests
      ensures Valid()
      ensures Snapshot() == AnimationEffectStep(old(Snapshot()), height, depsChanged)
      ensures closeRequests == old(closeRequests)
    {
      if depsChanged {
        if visible {
          AnimateOpen();
        } else {
          AnimateClose(false);
        }
      }
    }

    /** The grace effect, when `visible` changed: a drawer that is shown ignores backdrop taps until its timer fires. */
    method GraceEffect(depsChanged: bool)
      requires Valid()
      modifies this`justOpened, this`graceTimerArmed
      ensures Valid()
      ensures Snapshot() == GraceEffectStep(old(Snapshot()), depsChanged)
    {
      if depsChanged && visible {
        justOpened, graceTimerArmed := true, true;
      }
    }

    /** The activation request of effect instance `g` resolved; only the current instance updates the drawer. */
    method FetchResolved(g: nat, res: TinuResponse)
      requires Valid() && g in requests
      modifies this`requests, this`data, this`loading
      ensures Valid()
      ensures requests == old(requests) - {g}
      ensures g == generation ==> data == ApplyResponse(res) && !loading
      ensures g != generation ==> data == old(data) && loading == old(loading)
    {
      requests := requests - {g};
      if g == generation {
        data := ApplyResponse(res);
        loading := false;
      }
    }

    /** The activation request of effect instance `g` failed: `data` stays; only the current instance stops loading. */
    method FetchRejected(g: nat)
      requires Valid() && g in requests
      modifies this`requests, this`loading
      ensures Valid()
      ensures requests == old(requests) - {g}
      ensures g == generation ==> !loading
      ensures g != generation ==> loading == old(loading)
    {
      requests := requests - {g};
      if g == generation {
        loading := false;
      }
    }

    /** The keyboard appears, with or without its reported height. */
    method KeyboardShow(reportedHeight: Option<nat>)
      requires Valid()
      modifies this`keyboardHeight
      ensures Valid()
      ensures keyboardHeight == reportedHeight.GetOr(DefaultKeyboardHeight)
    {
      keyboardHeight := if reportedHeight.Some? then reportedHeight.value else DefaultKeyboardHeight;
    }

    /** The keyboard disappears. */
    method KeyboardHide()
      requires Valid()
      modifies this`keyboardHeight
      ensures Valid()
      ensures keyboardHeight == 0 && CurrentDrawerHeight() == BaseDrawerHeight(height)
    {
      keyboardHeight := 0;
    }

    /** A move over the panel asks whether the drawer takes the gesture: only past the claim threshold. */
    method DragStart(dy: int) returns (claimed: bool)
      requires Valid() && visible && !dragging
      modifies this`dragging
      ensures Valid()
      ensures claimed <==> dy > ClaimThreshold
      ensures dragging == claimed
    {
      claimed := dy > ClaimThreshold;
      dragging := claimed;
    }

    /** The claimed drag moves: only a downward offset moves the panel. */
    method DragMove(dy: int)
      requires Valid() && dragging
      modifies this`pan
      ensures Valid()
      ensures dy > 0 ==> pan == dy
      ensures dy <= 0 ==> pan == old(pan)
    {
      if dy > 0 {
        pan := dy;
      }
    }

    /**
     * The drag is released: past the dismiss threshold the drawer closes
     * with `onClose` (the offset stays where it is); otherwise it springs
     * back.
     */
    method DragRelease(dy: int)
      requires Valid() && dragging
      modifies this`dragging, this`pan, this`translateY, this`opacity, this`running
      modifies this`closeCalls, this`closeRequests
      ensures Valid() && !dragging
      ensures dy > DismissThreshold ==>
                running == Closing(hasOnClose) && translateY == height && opacity == 0 && pan == old(pan)
                && closeCalls == old(closeCalls) + CallbackDue(old(running))
                && closeRequests == old(closeRequests) + (if hasOnClose then 1 else 0)
      ensures dy <= DismissThreshold ==>
                pan == 0 && running == old(running) && translateY == old(translateY) && opacity == old(opacity)
                && closeCalls == old(closeCalls) && closeRequests == old(closeRequests)
    {
      dragging := false;
      if dy > DismissThreshold {
        AnimateClose(hasOnClose);
      } else {
        pan := 0;
      }
    }

    /** The grace timer fires: backdrop taps close the drawer from now on. */
    method GraceTimerFires()
      requires Valid() && graceTimerArmed
      modifies this`justOpened, this`graceTimerArmed
      ensures Valid() && !justOpened && !graceTimerArmed
    {
      justOpened, graceTimerArmed := false, false;
    }

    /** A tap on the backdrop: ignored during the grace period, otherwise a close with `onClose`. */
    method BackdropTap()
      requires Valid() && visible
      modifies this`translateY, this`opacity, this`running, this`closeCalls, this`closeRequests
      ensures Valid()
      ensures justOpened ==>
                running == old(running) && translateY == old(translateY) && opacity == old(opacity)
                && closeCalls == old(closeCalls) && closeRequests == old(closeRequests)
      ensures !justOpened ==>
                running == Closing(hasOnClose) && translateY == height && opacity == 0
                && closeCalls == old(closeCalls) + CallbackDue(old(running))
                && closeRequests == old(closeRequests) + (if hasOnClose then 1 else 0)
    {
      if !justOpened {
        AnimateClose(hasOnClose);
      }
    }

    /** A tap on chip `i` puts its label into the input. */
    method ChipTap(i: nat)
      requires Valid() && visible && i < |data.chips|
      modifies this`input
      ensures Valid()
      ensures input == ChipLabel(data.chips[i])
    {
      input := ChipLabel(data.chips[i]);
    }

    /** The user edits the input. */
    method TypeText(text: string)
      requires Valid() && visible
      modifies this`input
      ensures Valid() && input == text
    {
      input := text;
    }
  }

  /**
   * The drag offset of a drawer only ever points down, so the panel is never
   * drawn above its animated offset, and is drawn exactly there when no drag
   * offset is left.
   */
  lemma DrawnNeverAboveAnimated(drawer: Drawer)
    requires drawer.Valid()
    ensures drawer.DrawerTranslateY() >= drawer.translateY
    ensures drawer.DrawerTranslateY() == drawer.translateY <==> drawer.pan == 0
  {
  }
}
