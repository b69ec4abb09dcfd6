/** The per-tick gesture interpreter of the hand tracker
    (src/components/HandTracker.tsx, `predictWebcam`). One classifier result
    per processed tick is turned into writes to the shared store, using one
    sliding window of wrist-x samples for swipe and shake detection.

    The source reads `focusedPolaroidIndex` through a React hook captured when
    the effect first ran, and the effect's dependency list leaves it out, so
    the running callback keeps seeing the value of the first render. This
    model reads the focus from the store at the start of every tick instead. */
module HandTracking {
  import opened Wrappers
  import opened Store

  const ThrottleMs: int := 33
  const NavCooldownMs: int := 1000
  /** Window caps of the focused and the unfocused branch (one shared buffer). */
  const FocusedCap: nat := 15
  const ChaosCap: nat := 20
  /** Both detectors need strictly more samples than this. */
  const MinSamples: nat := 10
  const SwipeThreshold: real := 0.2
  const ShakeTurns: nat := 3
  const PolaroidCount: int := 20
  const ScoreGate: real := 0.5
  const RefocusChance: real := 0.9

  /** The classifier's canned gesture categories ("None" is Unrecognized). */
  datatype Category =
    OpenPalm | ClosedFist | PointingUp | ThumbDown | ThumbUp | Victory | ILoveYou | Unrecognized

  /** The top-ranked classification of the first hand. */
  datatype Classification = Classification(category: Category, score: real)

  /** The landmarks of the first hand the interpreter reads: the x of
      landmark 0 (wrist) and the x, y of landmark 9 (palm centre). */
  datatype Hand = Hand(wristX: real, palmX: real, palmY: real)

  /** One call of the callback: the clock, the classifier result, and the two
      `Math.random()` draws the Victory/Pointing_Up case may consume. */
  datatype Frame = Frame(
    now: int,
    gesture: Option<Classification>,
    hand: Option<Hand>,
    refocusDraw: real,
    indexDraw: real)

  /** The store's fields plus the interpreter's three refs. */
  datatype Tracker = Tracker(
    store: AppState,
    history: seq<real>,
    lastVideoTime: int,
    lastNavTime: int)

  const Initial: Tracker := Tracker(Defaults, [], 0, 0)

  // ---------------------------------------------------------------------------
  // Sliding window

  /** `history.push(x); if (history.length > cap) history.shift()` */
  function Push(h: seq<real>, x: real, cap: nat): seq<real>
  {
    if |h| + 1 > cap then (h + [x])[1..] else h + [x]
  }

  /** The window keeps the most recent samples in arrival order: it is a
      suffix of the old window followed by the new sample, it grows by one
      until the cap and then keeps its length (only one sample is evicted per
      push, so a longer window is never shortened). */
  lemma PushKeepsRecent(h: seq<real>, x: real, cap: nat)
    requires cap > 0
    ensures var r := Push(h, x, cap);
      && |r| == (if |h| + 1 > cap then |h| else |h| + 1)
      && r == (h + [x])[|h| + 1 - |r|..]
      && r[|r| - 1] == x
      && (|h| <= cap ==> |r| <= cap)
  {
  }

  // ---------------------------------------------------------------------------
  // Shake detection

  /** Sample `i` is a strict local maximum or minimum. */
  predicate IsTurn(h: seq<real>, i: int)
    requires 0 < i < |h| - 1
  {
    (h[i] > h[i - 1] && h[i] > h[i + 1]) || (h[i] < h[i - 1] && h[i] < h[i + 1])
  }

  /** The number of interior strict local extrema of `h`. */
  function Turns(h: seq<real>): nat
    decreases |h|
  {
    if |h| < 3 then 0
    else Turns(h[..|h| - 1]) + (if IsTurn(h, |h| - 2) then 1 else 0)
  }

  /** At most every interior sample is a turn. */
  lemma {:induction false} TurnsBounded(h: seq<real>)
    ensures |h| >= 2 ==> Turns(h) <= |h| - 2
    decreases |h|
  {
    if |h| >= 3 {
      TurnsBounded(h[..|h| - 1]);
    }
  }

  predicate StrictlyIncreasing(h: seq<real>)
  {
    forall i, j :: 0 <= i < j < |h| ==> h[i] < h[j]
  }

  /** A single steady sweep has no direction change. */
  lemma {:induction false} SweepHasNoTurns(h: seq<real>)
    requires StrictlyIncreasing(h)
    ensures Turns(h) == 0
    decreases |h|
  {
    if |h| >= 3 {
      var init := h[..|h| - 1];
      assert StrictlyIncreasing(init) by {
        forall i, j | 0 <= i < j < |init| ensures init[i] < init[j] {
          assert init[i] == h[i] && init[j] == h[j];
        }
      }
      SweepHasNoTurns(init);
      assert h[|h| - 3] < h[|h| - 2] < h[|h| - 1];
    }
  }

  /** Every interior sample of `h` is a turn. */
  predicate Zigzag(h: seq<real>)
  {
    forall i :: 0 < i < |h| - 1 ==> IsTurn(h, i)
  }

  /** A zigzag window turns at every interior sample. */
  lemma {:induction false} ZigzagTurns(h: seq<real>)
    requires |h| >= 2 && Zigzag(h)
    ensures Turns(h) == |h| - 2
    decreases |h|
  {
    if |h| >= 3 {
      var init := h[..|h| - 1];
      assert Zigzag(init) by {
        forall i | 0 < i < |init| - 1 ensures IsTurn(init, i) {
          assert IsTurn(h, i);
        }
      }
      ZigzagTurns(init);
    }
  }

  /** Eleven samples alternating between 0.1 and 0.5 read as a shake. */
  lemma AlternatingWindowShakes()
    ensures Shaking([0.1, 0.5, 0.1, 0.5, 0.1, 0.5, 0.1, 0.5, 0.1, 0.5, 0.1])
  {
    var h := [0.1, 0.5, 0.1, 0.5, 0.1, 0.5, 0.1, 0.5, 0.1, 0.5, 0.1];
    assert Zigzag(h) by {
      forall i | 0 < i < |h| - 1 ensures IsTurn(h, i) {
        assert h[i] == (if i % 2 == 0 then 0.1 else 0.5);
        assert h[i - 1] == (if i % 2 == 0 then 0.5 else 0.1);
        assert h[i + 1] == (if i % 2 == 0 then 0.5 else 0.1);
      }
    }
    ZigzagTurns(h);
  }

  /** The loop at lines 164-170: counts interior strict local extrema. */
  method CountDirectionChanges(h: seq<real>) returns (n: nat)
    ensures n == Turns(h)
  {
    n := 0;
    if |h| < 3 {
      return;
    }
    var i := 1;
    while i < |h| - 1
      invariant 1 <= i <= |h| - 1
      invariant n == Turns(h[..i + 1])
    {
      var pre := h[..i + 2];
      assert pre[..|pre| - 1] == h[..i + 1];
      assert IsTurn(pre, i) == IsTurn(h, i);
      if (h[i] > h[i - 1] && h[i] > h[i + 1]) || (h[i] < h[i - 1] && h[i] < h[i + 1]) {
        n := n + 1;
      }
      i := i + 1;
    }
    assert h[..i + 1] == h;
  }

  /** The shake verdict of the unfocused branch for a window that has
      already received the new sample. */
  predicate Shaking(h: seq<real>)
  {
    (if |h| > MinSamples then Turns(h) else 0) > ShakeTurns
  }

  // ---------------------------------------------------------------------------
  // Swipe navigation

  datatype Swipe = Previous | Next | NoSwipe

  /** Net displacement of the window: a move right is "previous", a move
      left "next". */
  function SwipeOf(h: seq<real>): Swipe
    requires |h| > 0
  {
    var diff := h[|h| - 1] - h[0];
    if diff > SwipeThreshold then Previous
    else if diff < -SwipeThreshold then Next
    else NoSwipe
  }

  /** JavaScript's `%` for a positive divisor: the remainder takes the sign
      of the dividend. */
  function JsRem(a: int, b: int): int
    requires b > 0
  {
    if a >= 0 then a % b else -((-a) % b)
  }

  function Navigate(i: int, s: Swipe): int
  {
    match s
    case Previous => JsRem(i - 1 + PolaroidCount, PolaroidCount)
    case Next => JsRem(i + 1, PolaroidCount)
    case NoSwipe => i
  }

  predicate InRange(i: int)
  {
    0 <= i < PolaroidCount
  }

  /** From an index in range, navigation steps one place round the ring of
      20 photos and never leaves it. */
  lemma NavigateInRange(i: int)
    requires InRange(i)
    ensures Navigate(i, Previous) == (if i == 0 then PolaroidCount - 1 else i - 1)
    ensures Navigate(i, Next) == (if i == PolaroidCount - 1 then 0 else i + 1)
    ensures InRange(Navigate(i, Previous)) && InRange(Navigate(i, Next))
  {
  }

  // ---------------------------------------------------------------------------
  // Random focus

  /** JavaScript truthiness of a `number | null`: null and 0 are falsy. */
  predicate Truthy(i: Option<int>)
  {
    i.Some? && i.value != 0
  }

  /** `Math.floor(Math.random() * 20)` */
  function RandomIndex(draw: real): int
  {
    (draw * PolaroidCount as real).Floor
  }

  lemma RandomIndexInRange(draw: real)
    requires 0.0 <= draw < 1.0
    ensures InRange(RandomIndex(draw))
  {
    var r := draw * 20.0;
    assert 0.0 <= r < 20.0;
    assert r.Floor as real <= r < r.Floor as real + 1.0;
  }

  // ---------------------------------------------------------------------------
  // One tick

  /** What the category handling produces: the setter calls in order, and
      the new values of the history and navigation refs. */
  datatype Outcome = Outcome(writes: seq<Patch>, history: seq<real>, lastNavTime: int)

  /** Lines 126-149: Open_Palm with a focus set. */
  function FocusedPalm(t: Tracker, now: int, hand: Option<Hand>, i: int): Outcome
  {
    if hand.None? then Outcome([ModePatch(FORMED)], t.history, t.lastNavTime)
    else
      var h := Push(t.history, hand.value.wristX, FocusedCap);
      if |h| > MinSamples && now - t.lastNavTime > NavCooldownMs && SwipeOf(h) != NoSwipe then
        Outcome([ModePatch(FORMED), FocusPatch(Some(Navigate(i, SwipeOf(h))))], h, now)
      else
        Outcome([ModePatch(FORMED)], h, t.lastNavTime)
  }

  /** Lines 150-172: Open_Palm with nothing focused. */
  function UnfocusedPalm(t: Tracker, hand: Option<Hand>): Outcome
  {
    if hand.None? then Outcome([ModePatch(CHAOS), FocusPatch(None)], t.history, t.lastNavTime)
    else
      var h := Push(t.history, hand.value.wristX, ChaosCap);
      Outcome([ModePatch(CHAOS), FocusPatch(None), ShakingPatch(Shaking(h))], h, t.lastNavTime)
  }

  /** Lines 180-186: Victory or Pointing_Up above the score gate. */
  function Pointing(focus: Option<int>, refocusDraw: real, indexDraw: real): seq<Patch>
  {
    var refocus := if !Truthy(focus) || refocusDraw > RefocusChance
      then [FocusPatch(Some(RandomIndex(indexDraw)))] else [];
    refocus + [ShakingPatch(false)]
  }

  /** Lines 124-189: the gesture-to-state table. */
  function Categorize(t: Tracker, now: int, g: Classification, hand: Option<Hand>,
                      refocusDraw: real, indexDraw: real): Outcome
  {
    var focus := t.store.focusedPolaroidIndex;
    if g.category == OpenPalm then
      if focus.Some? then FocusedPalm(t, now, hand, focus.value) else UnfocusedPalm(t, hand)
    else if g.category == ClosedFist then
      Outcome([ModePatch(FORMED), ShakingPatch(false), FocusPatch(None)], t.history, t.lastNavTime)
    else if (g.category == Victory || g.category == PointingUp) && g.score > ScoreGate then
      Outcome(Pointing(focus, refocusDraw, indexDraw), t.history, t.lastNavTime)
    else
      Outcome([ShakingPatch(false)], t.history, t.lastNavTime)
  }

  /** Lines 192-197: the palm centre, mirrored and inverted. */
  function PositionWrites(hand: Option<Hand>): seq<Patch>
  {
    if hand.Some? then [HandPositionPatch(Vec3(1.0 - hand.value.palmX, 1.0 - hand.value.palmY, 0.0))]
    else []
  }

  /** Every setter call of a processed tick that saw a gesture, in order. */
  function GestureWrites(t: Tracker, f: Frame): seq<Patch>
    requires f.gesture.Some?
  {
    [HandDetectedPatch(true)]
      + Categorize(t, f.now, f.gesture.value, f.hand, f.refocusDraw, f.indexDraw).writes
      + PositionWrites(f.hand)
  }

  /** Lines 63-67: the call is at least 33 ms after the last processed one. */
  predicate Processed(t: Tracker, f: Frame)
  {
    f.now - t.lastVideoTime >= ThrottleMs
  }

  /** The whole effect of one call of the callback on the tracker. */
  function Step(t: Tracker, f: Frame): Tracker
  {
    if !Processed(t, f) then t
    else match f.gesture
      case None =>
        Tracker(ApplyAll(t.store, [HandDetectedPatch(false), ShakingPatch(false)]),
                t.history, f.now, t.lastNavTime)
      case Some(g) =>
        var o := Categorize(t, f.now, g, f.hand, f.refocusDraw, f.indexDraw);
        Tracker(ApplyAll(t.store, GestureWrites(t, f)), o.history, f.now, o.lastNavTime)
  }

  /** A sequence of calls, first to last. */
  function Run(t: Tracker, fs: seq<Frame>): Tracker
    decreases |fs|
  {
    if |fs| == 0 then t else Run(Step(t, fs[0]), fs[1..])
  }

  // ---------------------------------------------------------------------------
  // Properties of a tick

  /** A call within 33 ms of the last processed one changes nothing; any
      other records its time. */
  lemma ThrottleRule(t: Tracker, f: Frame)
    ensures !Processed(t, f) ==> Step(t, f) == t
    ensures Processed(t, f) ==> Step(t, f).lastVideoTime == f.now
  {
  }

  /** With no gesture the hand is lost and shaking stops; mode, focus,
      position, history and the navigation time are held. */
  lemma HandLostRule(t: Tracker, f: Frame)
    requires Processed(t, f) && f.gesture.None?
    ensures var r := Step(t, f);
      && !r.store.isHandDetected && !r.store.isShaking
      && r.store.mode == t.store.mode
      && r.store.focusedPolaroidIndex == t.store.focusedPolaroidIndex
      && r.store.handPosition == t.store.handPosition
      && r.history == t.history && r.lastNavTime == t.lastNavTime
  {
    var ps := [HandDetectedPatch(false), ShakingPatch(false)];
    ApplyAllLastWrite(t.store, ps, 0);
    ApplyAllLastWrite(t.store, ps, 1);
    ApplyAllUntouched(t.store, ps, ModeField);
    ApplyAllUntouched(t.store, ps, FocusField);
    ApplyAllUntouched(t.store, ps, HandPositionField);
  }

  /** With a gesture the hand is detected; with landmarks the position is
      the mirrored, inverted palm centre, without them it is held. */
  lemma HandPositionRule(t: Tracker, f: Frame)
    requires Processed(t, f) && f.gesture.Some?
    ensures var r := Step(t, f);
      && r.store.isHandDetected
      && (f.hand.Some? ==>
            r.store.handPosition == Vec3(1.0 - f.hand.value.palmX, 1.0 - f.hand.value.palmY, 0.0))
      && (f.hand.None? ==> r.store.handPosition == t.store.handPosition)
  {
    var ps := GestureWrites(t, f);
    var mid := Categorize(t, f.now, f.gesture.value, f.hand, f.refocusDraw, f.indexDraw).writes;
    assert forall i :: 0 <= i < |mid| ==> Target(mid[i]) != HandPositionField && Target(mid[i]) != HandDetectedField;
    ApplyAllLastWrite(t.store, ps, 0);
    if f.hand.Some? {
      ApplyAllLastWrite(t.store, ps, |ps| - 1);
    } else {
      ApplyAllUntouched(t.store, ps, HandPositionField);
    }
  }

  /** A raw palm centre at (0.3, 0.7) is reported at (0.7, 0.3). */
  lemma MirrorExample(t: Tracker, f: Frame)
    requires Processed(t, f) && f.gesture.Some?
    requires f.hand.Some? && f.hand.value.palmX == 0.3 && f.hand.value.palmY == 0.7
    ensures Step(t, f).store.handPosition == Vec3(0.7, 0.3, 0.0)
  {
    HandPositionRule(t, f);
  }

  /** Closed_Fist: formed, not shaking, nothing focused. */
  lemma ClosedFistEffect(t: Tracker, f: Frame)
    requires Processed(t, f) && f.gesture.Some? && f.gesture.value.category == ClosedFist
    ensures var r := Step(t, f);
      && r.store.mode == FORMED && !r.store.isShaking && r.store.focusedPolaroidIndex.None?
      && r.history == t.history && r.lastNavTime == t.lastNavTime
  {
    var ps := GestureWrites(t, f);
    ApplyAllLastWrite(t.store, ps, 1);
    ApplyAllLastWrite(t.store, ps, 2);
    ApplyAllLastWrite(t.store, ps, 3);
  }

  /** Open_Palm with nothing focused: chaos, nothing focused. */
  lemma OpenPalmUnfocusedEffect(t: Tracker, f: Frame)
    requires Processed(t, f) && f.gesture.Some? && f.gesture.value.category == OpenPalm
    requires t.store.focusedPolaroidIndex.None?
    ensures var r := Step(t, f);
      && r.store.mode == CHAOS && r.store.focusedPolaroidIndex.None?
      && r.lastNavTime == t.lastNavTime
  {
    var ps := GestureWrites(t, f);
    ApplyAllLastWrite(t.store, ps, 1);
    ApplyAllLastWrite(t.store, ps, 2);
  }

  /** Open_Palm with a landmark set and nothing focused: the window takes the
      wrist x (cap 20) and the hand is shaking exactly when the window has
      more than 10 samples and more than 3 interior strict local extrema. */
  lemma ShakeRule(t: Tracker, f: Frame)
    requires Processed(t, f) && f.gesture.Some? && f.gesture.value.category == OpenPalm
    requires t.store.focusedPolaroidIndex.None? && f.hand.Some?
    ensures var r := Step(t, f);
      && r.history == Push(t.history, f.hand.value.wristX, ChaosCap)
      && (r.store.isShaking <==> |r.history| > MinSamples && Turns(r.history) > ShakeTurns)
      && (|r.history| <= MinSamples ==> !r.store.isShaking)
  {
    var ps := GestureWrites(t, f);
    ApplyAllLastWrite(t.store, ps, 3);
  }

  /** Open_Palm with a focus set: formed, and the shaking flag is left as it
      was. */
  lemma OpenPalmFocusedEffect(t: Tracker, f: Frame)
    requires Processed(t, f) && f.gesture.Some? && f.gesture.value.category == OpenPalm
    requires t.store.focusedPolaroidIndex.Some?
    ensures var r := Step(t, f);
      && r.store.mode == FORMED && r.store.isShaking == t.store.isShaking
  {
    var ps := GestureWrites(t, f);
    ApplyAllLastWrite(t.store, ps, 1);
    ApplyAllUntouched(t.store, ps, ShakingField);
  }

  /** Swipe navigation with a focus set and a landmark set: the window takes
      the wrist x (cap 15); the focus moves, and the navigation time is set,
      exactly when the window has more than 10 samples, the cooldown of
      1000 ms has passed and the net displacement exceeds 0.2 either way. */
  lemma SwipeRule(t: Tracker, f: Frame)
    requires Processed(t, f) && f.gesture.Some? && f.gesture.value.category == OpenPalm
    requires t.store.focusedPolaroidIndex.Some? && f.hand.Some?
    ensures var r := Step(t, f);
      var h := Push(t.history, f.hand.value.wristX, FocusedCap);
      var i := t.store.focusedPolaroidIndex.value;
      var diff := h[|h| - 1] - h[0];
      var fires := |h| > MinSamples && f.now - t.lastNavTime > NavCooldownMs
                   && (diff > SwipeThreshold || diff < -SwipeThreshold);
      && r.history == h
      && (fires && diff > SwipeThreshold ==>
            r.store.focusedPolaroidIndex == Some(JsRem(i - 1 + PolaroidCount, PolaroidCount)))
      && (fires && diff < -SwipeThreshold ==>
            r.store.focusedPolaroidIndex == Some(JsRem(i + 1, PolaroidCount)))
      && (fires ==> r.lastNavTime == f.now)
      && (!fires ==> r.store.focusedPolaroidIndex == t.store.focusedPolaroidIndex
                     && r.lastNavTime == t.lastNavTime)
  {
    var ps := GestureWrites(t, f);
    var h := Push(t.history, f.hand.value.wristX, FocusedCap);
    if |h| > MinSamples && f.now - t.lastNavTime > NavCooldownMs && SwipeOf(h) != NoSwipe {
      ApplyAllLastWrite(t.store, ps, 2);
    } else {
      ApplyAllUntouched(t.store, ps, FocusField);
    }
  }

  /** The navigation time moves only when a swipe fires, to the current time,
      after the cooldown has passed. */
  lemma NavTimeOnlyOnSwipe(t: Tracker, f: Frame)
    ensures var r := Step(t, f);
      r.lastNavTime != t.lastNavTime ==>
        && r.lastNavTime == f.now && f.now - t.lastNavTime > NavCooldownMs
        && f.gesture.Some? && f.gesture.value.category == OpenPalm
        && t.store.focusedPolaroidIndex.Some? && f.hand.Some?
  {
  }

  /** Within 1000 ms of a swipe no second swipe fires: the focus a focused
      Open_Palm tick leaves is the one it found. */
  lemma NoSwipeDuringCooldown(t: Tracker, f: Frame)
    requires f.now - t.lastNavTime <= NavCooldownMs
    requires f.gesture.Some? && f.gesture.value.category == OpenPalm
    requires t.store.focusedPolaroidIndex.Some?
    ensures Step(t, f).lastNavTime == t.lastNavTime
    ensures Step(t, f).store.focusedPolaroidIndex == t.store.focusedPolaroidIndex
  {
    if Processed(t, f) {
      ApplyAllUntouched(t.store, GestureWrites(t, f), FocusField);
    }
  }

  /** Victory or Pointing_Up above the score gate: a new random focus when
      the current one is null or 0 (truthiness) or the chance draw exceeds
      0.9, the old focus otherwise; shaking stops; mode is held. */
  lemma PointEffect(t: Tracker, f: Frame)
    requires Processed(t, f) && f.gesture.Some?
    requires f.gesture.value.category == Victory || f.gesture.value.category == PointingUp
    requires f.gesture.value.score > ScoreGate
    ensures var r := Step(t, f);
      var focus := t.store.focusedPolaroidIndex;
      && r.store.focusedPolaroidIndex ==
           (if focus.None? || focus == Some(0) || f.refocusDraw > RefocusChance
            then Some(RandomIndex(f.indexDraw)) else focus)
      && !r.store.isShaking
      && r.store.mode == t.store.mode
      && r.history == t.history && r.lastNavTime == t.lastNavTime
  {
    var ps := GestureWrites(t, f);
    ApplyAllUntouched(t.store, ps, ModeField);
    ApplyAllLastWrite(t.store, ps, |ps| - 1 - |PositionWrites(f.hand)|);
    var focus := t.store.focusedPolaroidIndex;
    if focus.None? || focus == Some(0) || f.refocusDraw > RefocusChance {
      ApplyAllLastWrite(t.store, ps, 1);
    } else {
      ApplyAllUntouched(t.store, ps, FocusField);
    }
  }

  /** Every other gesture (Thumb_Up, ILoveYou, Thumb_Down, None, or
      Victory/Pointing_Up at a score of 0.5 or less) only stops shaking. */
  lemma OtherGestureEffect(t: Tracker, f: Frame)
    requires Processed(t, f) && f.gesture.Some?
    requires f.gesture.value.category != OpenPalm && f.gesture.value.category != ClosedFist
    requires !((f.gesture.value.category == Victory || f.gesture.value.category == PointingUp)
               && f.gesture.value.score > ScoreGate)
    ensures var r := Step(t, f);
      && !r.store.isShaking
      && r.store.mode == t.store.mode
      && r.store.focusedPolaroidIndex == t.store.focusedPolaroidIndex
      && r.history == t.history && r.lastNavTime == t.lastNavTime
  {
    var ps := GestureWrites(t, f);
    ApplyAllLastWrite(t.store, ps, 1);
    ApplyAllUntouched(t.store, ps, ModeField);
    ApplyAllUntouched(t.store, ps, FocusField);
  }

  // ---------------------------------------------------------------------------
  // Invariants over runs

  predicate FocusInRange(i: Option<int>)
  {
    i.None? || InRange(i.value)
  }

  /** A run of setters whose focus writes are all null or in range leaves a
      focus in range if it found one. */
  lemma {:induction false} ApplyAllFocusInRange(s: AppState, ps: seq<Patch>)
    requires FocusInRange(s.focusedPolaroidIndex)
    requires forall i :: 0 <= i < |ps| && ps[i].FocusPatch? ==> FocusInRange(ps[i].index)
    ensures FocusInRange(ApplyAll(s, ps).focusedPolaroidIndex)
    decreases |ps|
  {
    if |ps| > 0 {
      var init := ps[..|ps| - 1];
      ApplyAllFocusInRange(s, init);
      var last := ps[|ps| - 1];
      assert last.FocusPatch? ==> FocusInRange(last.index);
      assert !last.FocusPatch? ==> SameOn(Apply(ApplyAll(s, init), last), ApplyAll(s, init), FocusField);
    }
  }

  /** Every focus the interpreter writes is null or in [0, 20), given a focus
      in range and a `Math.random()` draw in [0, 1). */
  lemma StepKeepsFocusInRange(t: Tracker, f: Frame)
    requires FocusInRange(t.store.focusedPolaroidIndex)
    requires 0.0 <= f.indexDraw < 1.0
    ensures FocusInRange(Step(t, f).store.focusedPolaroidIndex)
  {
    if Processed(t, f) && f.gesture.Some? {
      var ps := GestureWrites(t, f);
      RandomIndexInRange(f.indexDraw);
      if t.store.focusedPolaroidIndex.Some? {
        NavigateInRange(t.store.focusedPolaroidIndex.value);
      }
      ApplyAllFocusInRange(t.store, ps);
    } else if Processed(t, f) {
      ApplyAllFocusInRange(t.store, [HandDetectedPatch(false), ShakingPatch(false)]);
    }
  }

  /** The history never holds more than 20 samples once it starts within
      that bound. */
  lemma StepKeepsHistoryBounded(t: Tracker, f: Frame)
    requires |t.history| <= ChaosCap
    ensures |Step(t, f).history| <= ChaosCap
  {
  }

  /** The focused branch keeps the window at 15 only once it is within 15:
      the buffer is shared with the unfocused branch, so a 20-sample window
      stays at 20 samples. */
  lemma FocusedPushBound(t: Tracker, f: Frame)
    requires Processed(t, f) && f.gesture.Some? && f.gesture.value.category == OpenPalm
    requires t.store.focusedPolaroidIndex.Some? && f.hand.Some?
    ensures |t.history| <= FocusedCap ==> |Step(t, f).history| <= FocusedCap
    ensures |t.history| >= FocusedCap ==> |Step(t, f).history| == |t.history|
  {
  }

  predicate Invariant(t: Tracker)
  {
    |t.history| <= ChaosCap && FocusInRange(t.store.focusedPolaroidIndex)
  }

  predicate DrawsInRange(fs: seq<Frame>)
  {
    forall k :: 0 <= k < |fs| ==> 0.0 <= fs[k].indexDraw < 1.0
  }

  /** From any state satisfying `Invariant`, any run of calls whose random
      draws lie in [0, 1) keeps at most 20 samples and a focus that is null
      or in range (`InitialInvariant` covers the start). */
  lemma {:induction false} RunKeepsInvariant(t: Tracker, fs: seq<Frame>)
    requires Invariant(t) && DrawsInRange(fs)
    ensures Invariant(Run(t, fs))
    decreases |fs|
  {
    if |fs| > 0 {
      StepKeepsFocusInRange(t, fs[0]);
      StepKeepsHistoryBounded(t, fs[0]);
      assert DrawsInRange(fs[1..]) by {
        forall k | 0 <= k < |fs[1..]| ensures 0.0 <= fs[1..][k].indexDraw < 1.0 {
          assert fs[1..][k] == fs[k + 1];
        }
      }
      RunKeepsInvariant(Step(t, fs[0]), fs[1..]);
    }
  }

  lemma InitialInvariant()
    ensures Invariant(Initial)
    ensures Initial.store == Defaults && Initial.history == []
  {
  }

  // ---------------------------------------------------------------------------
  // The interpreter object

  /** The hand tracker component: the three refs and the shared store. */
  class HandTracker {
    const store: Store
    var history: seq<real>
    var lastVideoTime: int
    var lastNavTime: int

    function Snapshot(): Tracker
      reads this, store
    {
      Tracker(store.State(), history, lastVideoTime, lastNavTime)
    }

    constructor (store: Store)
      ensures this.store == store
      ensures Snapshot() == Tracker(old(store.State()), [], 0, 0)
    {
      this.store := store;
      history := [];
      lastVideoTime := 0;
      lastNavTime := 0;
    }

    /** One call of the `predictWebcam` callback, scheduling left out. */
    method Tick(f: Frame)
      modifies this, store
      ensures Snapshot() == Step(old(Snapshot()), f)
    {
      if !Processed(Snapshot(), f) {
        return;
      }
      lastVideoTime := f.now;
      match f.gesture {
        case None => HandLost();
        case Some(g) => HandSeen(f);
      }
    }

    /** Lines 199-202. */
    method HandLost()
      modifies store
      ensures store.State() == ApplyAll(old(store.State()), [HandDetectedPatch(false), ShakingPatch(false)])
    {
      ghost var s0 := store.State();
      store.SetHandDetected(false);
      ApplyAllSnoc(s0, [], HandDetectedPatch(false));
      store.SetIsShaking(false);
      ApplyAllSnoc(s0, [HandDetectedPatch(false)], ShakingPatch(false));
      assert [HandDetectedPatch(false)] + [ShakingPatch(false)]
          == [HandDetectedPatch(false), ShakingPatch(false)];
    }

    /** Lines 119-197: a classified gesture. */
    method HandSeen(f: Frame)
      requires f.gesture.Some?
      modifies this, store
      ensures var o := Categorize(old(Snapshot()), f.now, f.gesture.value, f.hand, f.refocusDraw, f.indexDraw);
        && store.State() == ApplyAll(old(store.State()), GestureWrites(old(Snapshot()), f))
        && history == o.history && lastNavTime == o.lastNavTime
        && lastVideoTime == old(lastVideoTime)
    {
      ghost var t0 := Snapshot();
      ghost var s0 := store.State();
      store.SetHandDetected(true);
      ApplyAllSnoc(s0, [], HandDetectedPatch(true));
      assert [] + [HandDetectedPatch(true)] == [HandDetectedPatch(true)];
      ghost var o := Categorize(t0, f.now, f.gesture.value, f.hand, f.refocusDraw, f.indexDraw);
      HandleCategory(f, f.gesture.value);
      ApplyAllAppend(s0, [HandDetectedPatch(true)], o.writes);
      ghost var w := [HandDetectedPatch(true)] + o.writes;
      if f.hand.Some? {
        var pos := Vec3(1.0 - f.hand.value.palmX, 1.0 - f.hand.value.palmY, 0.0);
        store.SetHandPosition(pos);
        ApplyAllSnoc(s0, w, HandPositionPatch(pos));
        w := w + [HandPositionPatch(pos)];
      }
      assert w == GestureWrites(t0, f);
    }

    /** Lines 124-189 for one classification. */
    method HandleCategory(f: Frame, g: Classification)
      modifies this, store
      ensures var o := Categorize(old(Snapshot()), f.now, g, f.hand, f.refocusDraw, f.indexDraw);
        && store.State() == ApplyAll(old(store.State()), o.writes)
        && history == o.history && lastNavTime == o.lastNavTime
        && lastVideoTime == old(lastVideoTime)
    {
      var focus := store.focusedPolaroidIndex;
      if g.category == OpenPalm {
        if focus.Some? {
          OpenPalmFocused(f, focus.value);
        } else {
          OpenPalmUnfocused(f);
        }
      } else if g.category == ClosedFist {
        ClosedFistGesture();
      } else if (g.category == Victory || g.category == PointingUp) && g.score > ScoreGate {
        PointGesture(f);
      } else {
        store.SetIsShaking(false);
        ApplyAllSnoc(old(store.State()), [], ShakingPatch(false));
        assert [] + [ShakingPatch(false)] == [ShakingPatch(false)];
      }
    }

    /** Lines 175-178: formed, not shaking, nothing focused. */
    method ClosedFistGesture()
      modifies store
      ensures store.State() == ApplyAll(old(store.State()), [ModePatch(FORMED), ShakingPatch(false), FocusPatch(None)])
    {
      ghost var s0 := store.State();
      ghost var w: seq<Patch> := [];
      store.SetMode(FORMED);
      ApplyAllSnoc(s0, w, ModePatch(FORMED));
      w := w + [ModePatch(FORMED)];
      store.SetIsShaking(false);
      ApplyAllSnoc(s0, w, ShakingPatch(false));
      w := w + [ShakingPatch(false)];
      store.SetFocusedPolaroidIndex(None);
      ApplyAllSnoc(s0, w, FocusPatch(None));
      w := w + [FocusPatch(None)];
      assert w == [ModePatch(FORMED), ShakingPatch(false), FocusPatch(None)];
    }

    /** Lines 180-186: maybe a new random focus, then stop shaking. */
    method PointGesture(f: Frame)
      modifies store
      ensures store.State() == ApplyAll(old(store.State()),
                Pointing(old(store.focusedPolaroidIndex), f.refocusDraw, f.indexDraw))
    {
      var focus := store.focusedPolaroidIndex;
      ghost var s0 := store.State();
      ghost var w: seq<Patch> := [];
      if !Truthy(focus) || f.refocusDraw > RefocusChance {
        var i := RandomIndex(f.indexDraw);
        store.SetFocusedPolaroidIndex(Some(i));
        ApplyAllSnoc(s0, w, FocusPatch(Some(i)));
        w := w + [FocusPatch(Some(i))];
      }
      store.SetIsShaking(false);
      ApplyAllSnoc(s0, w, ShakingPatch(false));
      w := w + [ShakingPatch(false)];
      assert w == Pointing(focus, f.refocusDraw, f.indexDraw);
    }

    /** Lines 126-149: keep formed; feed the window (cap 15); navigate on a
        debounced swipe. */
    method OpenPalmFocused(f: Frame, i: int)
      modifies this, store
      ensures var o := FocusedPalm(old(Snapshot()), f.now, f.hand, i);
        && store.State() == ApplyAll(old(store.State()), o.writes)
        && history == o.history && lastNavTime == o.lastNavTime
        && lastVideoTime == old(lastVideoTime)
    {
      ghost var t0 := Snapshot();
      ghost var s0 := store.State();
      store.SetMode(FORMED);
      ApplyAllSnoc(s0, [], ModePatch(FORMED));
      ghost var w := [] + [ModePatch(FORMED)];
      assert w == [ModePatch(FORMED)];
      if f.hand.Some? {
        history := history + [f.hand.value.wristX];
        if |history| > FocusedCap {
          history := history[1..];
        }
        assert history == Push(t0.history, f.hand.value.wristX, FocusedCap);
        if |history| > MinSamples && f.now - lastNavTime > NavCooldownMs {
          var diff := history[|history| - 1] - history[0];
          if diff > SwipeThreshold {
            var next := JsRem(i - 1 + PolaroidCount, PolaroidCount);
            store.SetFocusedPolaroidIndex(Some(next));
            ApplyAllSnoc(s0, w, FocusPatch(Some(next)));
            w := w + [FocusPatch(Some(next))];
            lastNavTime := f.now;
          } else if diff < -SwipeThreshold {
            var next := JsRem(i + 1, PolaroidCount);
            store.SetFocusedPolaroidIndex(Some(next));
            ApplyAllSnoc(s0, w, FocusPatch(Some(next)));
            w := w + [FocusPatch(Some(next))];
            lastNavTime := f.now;
          }
        }
      }
      assert w == FocusedPalm(t0, f.now, f.hand, i).writes;
    }

    /** Lines 150-172: chaos, nothing focused; feed the window (cap 20) and
        report a shake. */
    method OpenPalmUnfocused(f: Frame)
      modifies this, store
      ensures var o := UnfocusedPalm(old(Snapshot()), f.hand);
        && store.State() == ApplyAll(old(store.State()), o.writes)
        && history == o.history && lastNavTime == o.lastNavTime
        && lastVideoTime == old(lastVideoTime)
    {
      ghost var t0 := Snapshot();
      ghost var s0 := store.State();
      ghost var w: seq<Patch> := [];
      store.SetMode(CHAOS);
      ApplyAllSnoc(s0, w, ModePatch(CHAOS));
      w := w + [ModePatch(CHAOS)];
      store.SetFocusedPolaroidIndex(None);
      ApplyAllSnoc(s0, w, FocusPatch(None));
      w := w + [FocusPatch(None)];
      if f.hand.Some? {
        history := history + [f.hand.value.wristX];
        if |history| > ChaosCap {
          history := history[1..];
        }
        assert history == Push(t0.history, f.hand.value.wristX, ChaosCap);
        var directionChanges := 0;
        if |history| > MinSamples {
          directionChanges := CountDirectionChanges(history);
        }
        store.SetIsShaking(directionChanges > ShakeTurns);
        ApplyAllSnoc(s0, w, ShakingPatch(directionChanges > ShakeTurns));
        w := w + [ShakingPatch(directionChanges > ShakeTurns)];
      }
      assert w == UnfocusedPalm(t0, f.hand).writes;
    }
  }
}
