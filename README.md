# Gesture interaction state — a Dafny model

This project models the discrete core of a gesture-driven Valentine visual.
A camera-fed classifier reports one hand gesture per tick. The hand tracker
turns that stream into writes to a small shared store: the mode
(CHAOS cloud or FORMED heart), the hand position, whether a hand is seen,
whether it is shaking, and which photo is focused. Burst-particle pools read
the store and spawn, age and retire particles once per rendered frame.

Four modules, one per source file plus a helper:

- `Wrappers` (`wrappers.dfy`): `Option`, used for `number | null` and `undefined`.
- `Store` (`store.dfy`): the store as a class with five fields and five
  setters. Each setter is a zustand `set` of a one-field patch. `Patch`,
  `Apply` and `ApplyAll` give the pure meaning of a run of setters. The
  lemmas say which field each write changes, that the last write wins, and
  that writes to different fields commute.
- `HandTracking` (`hand_tracking.dfy`): the `predictWebcam` decision logic.
  The class `HandTracker` keeps the three refs (`history`, `lastVideoTime`,
  `lastNavTime`) and the shared store. `Tick` takes one frame: the clock,
  the classifier result, the two landmarks read, and both `Math.random()`
  draws. It is proved equal to the pure transition `Step`. The lemmas about
  `Step` cover the throttle, the shared window, shake counting, swipe
  navigation with its cooldown, the gesture table, hand mirroring, the
  hand-lost rule, and an invariant kept across any run of ticks (at most 20
  samples, focus null or in [0, 20)).
- `GestureDecorations` (`gesture_decorations.dfy`): `ParticleBurst` as a
  class over a fixed `array<Particle>`, with `FindFree`, `Spawn`, `Update`
  and `OnFrame` proved against the pure `SpawnInto`/`AdvanceAll`. It also
  holds the effect selection `Mounted`.

Behaviour of the code worth knowing:

- One history buffer is shared by both Open_Palm branches. It is capped at
  15 when a photo is focused and at 20 otherwise, and each push evicts at
  most one sample. So a window that reached 20 samples in the unfocused
  branch stays at 20 in the focused branch (`FocusedPushBound`).
- A window moving right (`diff > 0.2`) navigates to the previous photo,
  `(i - 1 + 20) % 20`, and a window moving left goes to the next.
- The random re-focus guard tests truthiness, so a focus of 0 is treated as
  unfocused (`PointEffect`).
- Open_Palm with a focus never writes `isShaking`. ILoveYou and Thumb_Up
  fall into the default case and only clear `isShaking`. No interpreter
  writes a special-gesture pulse, and the store has no `specialGesture`
  field, so the decorations read it as `undefined` (`StoreSpecialGesture`).
- The callback's `focusedPolaroidIndex` comes from a hook captured when
  the effect first ran. The effect's dependency list leaves it out, so the
  running callback keeps seeing the value of the first render. The model
  reads the focus from the store at the start of each tick instead.
- JavaScript's `%` is modelled as a truncating remainder (`JsRem`).
  `Math.floor` is `.Floor` on reals.

## Model

| member | source | states |
|---|---|---|
| `Store.Apply` | src/store.ts:25-29 | a setter's `set` gives its field the new value and leaves every other field as it was |
| `Store.ApplyAll` | src/store.ts:25-29 | the state after a run of setters, first to last; `ApplyAllAppend` splits a run, `ApplyAllUntouched` and `ApplyAllLastWrite` say what each field ends with |
| `Store.ApplyIdempotent` | src/store.ts:25-29 | calling the same setter twice with the same value equals calling it once |
| `Store.ApplyLastWriteWins` | src/store.ts:25-29 | of two writes to the same field, the second decides the state |
| `Store.ApplyCommutes` | src/store.ts:25-29 | setters of different fields can run in either order |
| `Store.ApplyAllUntouched` | src/store.ts:25-29 | a field that no setter in a run writes keeps its value |
| `Store.ApplyAllLastWrite` | src/store.ts:25-29 | after a run of setters, each field holds its last write |
| `Store.Store.constructor` | src/store.ts:18-23 | the store starts as CHAOS, position (0,0,0), no hand, not shaking, no focus |
| `Store.Store.SetMode` | src/store.ts:25 | overwrites `mode` only |
| `Store.Store.SetHandPosition` | src/store.ts:26 | overwrites `handPosition` only |
| `Store.Store.SetHandDetected` | src/store.ts:27 | overwrites `isHandDetected` only |
| `Store.Store.SetIsShaking` | src/store.ts:28 | overwrites `isShaking` only |
| `Store.Store.SetFocusedPolaroidIndex` | src/store.ts:29 | overwrites `focusedPolaroidIndex` only; `None` clears it |
| `HandTracking.PushKeepsRecent` | src/components/HandTracker.tsx:131-133 | push-then-shift keeps a suffix of the old window plus the new sample, in arrival order; it grows by one up to the cap and then keeps its length |
| `HandTracking.CountDirectionChanges` | src/components/HandTracker.tsx:162-170 | the loop returns the number of interior strict local extrema of the window |
| `HandTracking.TurnsBounded` | src/components/HandTracker.tsx:164-170 | there are at most `len - 2` direction changes |
| `HandTracking.SweepHasNoTurns` | src/components/HandTracker.tsx:163-171 | a strictly increasing window has no direction change, so it is never a shake |
| `HandTracking.ZigzagTurns` | src/components/HandTracker.tsx:163-171 | a window that turns at every interior sample has `len - 2` direction changes |
| `HandTracking.AlternatingWindowShakes` | src/components/HandTracker.tsx:161-171 | eleven samples alternating 0.1/0.5 count as shaking |
| `HandTracking.NavigateInRange` | src/components/HandTracker.tsx:141-146 | from an index in [0,20), previous and next step one place round the ring and stay in range |
| `HandTracking.RandomIndexInRange` | src/components/HandTracker.tsx:184 | `floor(r * 20)` lies in [0,20) for a draw r in [0,1) |
| `HandTracking.Push` | src/components/HandTracker.tsx:131-133 | push-then-shift of one sample under a cap (also the unfocused push at lines 157-159); `PushKeepsRecent` and `FocusedPushBound` state what the window then holds |
| `HandTracking.IsTurn` | src/components/HandTracker.tsx:165-166 | sample i is a strict local maximum or minimum of the window; `SweepHasNoTurns` and `ZigzagTurns` use it |
| `HandTracking.Turns` | src/components/HandTracker.tsx:162-170 | the number of interior turns of the window; `CountDirectionChanges` computes it, `TurnsBounded`, `SweepHasNoTurns` and `ZigzagTurns` bound and evaluate it |
| `HandTracking.Shaking` | src/components/HandTracker.tsx:161-171 | the shake verdict: more than 10 samples and more than 3 turns; `ShakeRule` and `AlternatingWindowShakes` state it |
| `HandTracking.SwipeOf` | src/components/HandTracker.tsx:137-144 | the net displacement of the window read as previous, next or no swipe; `SwipeRule` states both strict thresholds |
| `HandTracking.JsRem` | src/components/HandTracker.tsx:142-145 | JavaScript's truncating `%`; `NavigateInRange` shows the two index expressions stay in [0,20) |
| `HandTracking.Navigate` | src/components/HandTracker.tsx:141-146 | the new focus after a swipe; `NavigateInRange` states that it steps one place round the ring |
| `HandTracking.Truthy` | src/components/HandTracker.tsx:183 | JavaScript truthiness of the focus, false for null and 0; `PointEffect` states the refocus condition with it |
| `HandTracking.RandomIndex` | src/components/HandTracker.tsx:184 | `Math.floor(draw * 20)`; `RandomIndexInRange` states it lies in [0,20) |
| `HandTracking.Pointing` | src/components/HandTracker.tsx:180-186 | the writes of Victory/Pointing_Up; `PointEffect` states them |
| `HandTracking.FocusedPalm` | src/components/HandTracker.tsx:126-149 | the focused Open_Palm branch; `OpenPalmFocusedEffect`, `SwipeRule`, `NoSwipeDuringCooldown` and `NavTimeOnlyOnSwipe` state it, `HandTracker.OpenPalmFocused` performs it |
| `HandTracking.UnfocusedPalm` | src/components/HandTracker.tsx:150-172 | the unfocused Open_Palm branch; `OpenPalmUnfocusedEffect` and `ShakeRule` state it, `HandTracker.OpenPalmUnfocused` performs it |
| `HandTracking.Categorize` | src/components/HandTracker.tsx:124-189 | the gesture table; `ClosedFistEffect`, `PointEffect`, `OtherGestureEffect` and the Open_Palm lemmas state each row, `HandTracker.HandleCategory` performs it |
| `HandTracking.PositionWrites` | src/components/HandTracker.tsx:192-197 | the mirrored palm-centre write; `HandPositionRule` and `MirrorExample` state it |
| `HandTracking.GestureWrites` | src/components/HandTracker.tsx:118-197 | every setter call of a tick that saw a gesture, in order; `HandPositionRule` states what the first and last of them leave in the store |
| `HandTracking.Processed` | src/components/HandTracker.tsx:63-67 | the throttle test; `ThrottleRule` states what a throttled and a processed call do |
| `HandTracking.Step` | src/components/HandTracker.tsx:60-202 | one callback call; the rule and effect lemmas above state each branch, `StepKeepsFocusInRange` and `StepKeepsHistoryBounded` its invariants, `HandTracker.Tick` performs it |
| `HandTracking.Run` | src/components/HandTracker.tsx:57-205 | repeated callback calls, each rescheduled at line 204; `RunKeepsInvariant` states the invariant it keeps |
| `HandTracking.ThrottleRule` | src/components/HandTracker.tsx:63-67 | a call less than 33 ms after the last processed one changes nothing; any other call sets `lastVideoTime` to now |
| `HandTracking.HandLostRule` | src/components/HandTracker.tsx:199-202 | with no gesture: hand not detected, not shaking; mode, focus, position, history and navigation time held |
| `HandTracking.HandPositionRule` | src/components/HandTracker.tsx:192-197 | with a gesture the hand is detected; with landmarks the position is (1 - x9, 1 - y9, 0), without them it is held |
| `HandTracking.MirrorExample` | src/components/HandTracker.tsx:194-196 | a palm centre at (0.3, 0.7) is reported at (0.7, 0.3, 0) |
| `HandTracking.ClosedFistEffect` | src/components/HandTracker.tsx:175-178 | Closed_Fist gives FORMED, not shaking, no focus |
| `HandTracking.OpenPalmUnfocusedEffect` | src/components/HandTracker.tsx:150-152 | Open_Palm without focus gives CHAOS and no focus |
| `HandTracking.ShakeRule` | src/components/HandTracker.tsx:155-172 | unfocused Open_Palm with landmarks pushes the wrist x (cap 20); shaking iff the window has more than 10 samples and more than 3 direction changes, never with 10 or fewer |
| `HandTracking.OpenPalmFocusedEffect` | src/components/HandTracker.tsx:126-127 | Open_Palm with a focus gives FORMED and leaves `isShaking` as it was |
| `HandTracking.SwipeRule` | src/components/HandTracker.tsx:129-148 | focused Open_Palm with landmarks pushes the wrist x (cap 15). Focus moves to `(i-1+20)%20` on diff > 0.2 and to `(i+1)%20` on diff < -0.2, only when the window has more than 10 samples and more than 1000 ms have passed; a move sets the navigation time to now; otherwise focus and navigation time are held |
| `HandTracking.NavTimeOnlyOnSwipe` | src/components/HandTracker.tsx:136-147 | the navigation time changes only on a focused Open_Palm swipe, to now, after the cooldown |
| `HandTracking.NoSwipeDuringCooldown` | src/components/HandTracker.tsx:136 | within 1000 ms of the last navigation, a focused Open_Palm tick leaves focus and navigation time unchanged |
| `HandTracking.PointEffect` | src/components/HandTracker.tsx:180-186 | Victory/Pointing_Up above 0.5 picks a new random focus when the focus is null, 0, or the draw exceeds 0.9, and keeps it otherwise; it clears shaking and holds the mode |
| `HandTracking.OtherGestureEffect` | src/components/HandTracker.tsx:187-189 | every other gesture, or a low score, only clears shaking |
| `HandTracking.StepKeepsFocusInRange` | src/components/HandTracker.tsx:142-184 | every focus a tick writes is null or in [0,20), given a focus in range and a draw in [0,1) |
| `HandTracking.StepKeepsHistoryBounded` | src/components/HandTracker.tsx:131-159 | the shared window never exceeds 20 samples |
| `HandTracking.FocusedPushBound` | src/components/HandTracker.tsx:131-133 | a focused push keeps the window within 15 only if it was within 15; a longer window keeps its length |
| `HandTracking.RunKeepsInvariant` | src/components/HandTracker.tsx:57-205 | over any run of ticks with draws in [0,1), the window stays within 20 samples and the focus stays null or in range |
| `HandTracking.InitialInvariant` | src/components/HandTracker.tsx:17-21 | the tracker starts with an empty window, zero timestamps, the store defaults, and the invariant |
| `HandTracking.HandTracker.constructor` | src/components/HandTracker.tsx:17-21 | refs start empty and at 0 over the given store |
| `HandTracking.HandTracker.Tick` | src/components/HandTracker.tsx:57-204 | one callback call changes the refs and the store exactly as `Step` says |
| `HandTracking.HandTracker.HandLost` | src/components/HandTracker.tsx:199-202 | writes not-detected, then not-shaking |
| `HandTracking.HandTracker.HandSeen` | src/components/HandTracker.tsx:118-197 | writes detected, the gesture table's writes, then the position |
| `HandTracking.HandTracker.HandleCategory` | src/components/HandTracker.tsx:124-189 | performs the gesture table's writes for one classification |
| `HandTracking.HandTracker.OpenPalmFocused` | src/components/HandTracker.tsx:126-149 | FORMED, push into the window, navigate on a debounced swipe |
| `HandTracking.HandTracker.OpenPalmUnfocused` | src/components/HandTracker.tsx:150-173 | CHAOS, no focus, push into the window, report the shake |
| `HandTracking.HandTracker.ClosedFistGesture` | src/components/HandTracker.tsx:175-178 | writes FORMED, not shaking, no focus |
| `HandTracking.HandTracker.PointGesture` | src/components/HandTracker.tsx:180-186 | maybe a random focus, then not shaking |
| `GestureDecorations.ActiveCountBounded` | src/components/GestureDecorations.tsx:52-70 | a pool never has more live particles than slots; all slots are live iff the live count equals the size |
| `GestureDecorations.FirstFree` | src/components/GestureDecorations.tsx:35 | finds the lowest inactive slot, or none exactly when every slot is live |
| `GestureDecorations.SpawnRule` | src/components/GestureDecorations.tsx:28-48 | a spawn needs a hand and a draw above 0.8. It fills exactly the lowest inactive slot: active, life 1.0, at ((x-0.5)*15, (1-y-0.5)*10, 5), with the random velocity. It adds exactly one live particle |
| `GestureDecorations.SpawnWhenFullIsNoop` | src/components/GestureDecorations.tsx:35-36 | spawning into a fully live pool changes nothing |
| `GestureDecorations.AdvanceActive` | src/components/GestureDecorations.tsx:53-58 | a live particle loses delta/life of life (strictly, for delta > 0), moves by its velocity, gains 0.01 vertical velocity, and stays live iff its life is above 0 |
| `GestureDecorations.AdvanceRetired` | src/components/GestureDecorations.tsx:52-53 | an inactive particle is untouched by the update |
| `GestureDecorations.AdvanceAllRule` | src/components/GestureDecorations.tsx:52-71 | the update keeps the pool size, leaves inactive slots untouched and never adds a live particle |
| `GestureDecorations.SpawnPosition` | src/components/GestureDecorations.tsx:30-39 | the hand mapped to scene space at z = 5; `SpawnRule` states where a new particle starts |
| `GestureDecorations.Launch` | src/components/GestureDecorations.tsx:42-46 | the explosion velocity from three draws; `SpawnRule` states a new particle gets it |
| `GestureDecorations.SpawnInto` | src/components/GestureDecorations.tsx:28-49 | the spawn step on the pool; `SpawnRule` and `SpawnWhenFullIsNoop` state it, `ParticleBurst.Spawn` performs it |
| `GestureDecorations.AdvanceParticle` | src/components/GestureDecorations.tsx:53-58 | ageing one slot; `AdvanceActive` and `AdvanceRetired` state it |
| `GestureDecorations.AdvanceAll` | src/components/GestureDecorations.tsx:52-71 | ageing every slot, keeping the pool size; `AdvanceAllRule` states it, `ParticleBurst.Update` performs it |
| `GestureDecorations.Mounted` | src/components/GestureDecorations.tsx:94-111 | the pools mounted for a mode and special gesture; `MountedRule` and `MountedFromStore` state it |
| `GestureDecorations.Config` | src/components/GestureDecorations.tsx:95-110 | each mount site's count, speed and life (1 by default, line 7); `ConfigsValid` states they suit the pool |
| `GestureDecorations.ParticleBurst.constructor` | src/components/GestureDecorations.tsx:12-19 | `count` slots, each inactive with life 0 at the origin |
| `GestureDecorations.ParticleBurst.FindFree` | src/components/GestureDecorations.tsx:35 | the scan returns the slot `FirstFree` describes |
| `GestureDecorations.ParticleBurst.Spawn` | src/components/GestureDecorations.tsx:28-49 | the array becomes `SpawnInto` of its old contents |
| `GestureDecorations.ParticleBurst.Update` | src/components/GestureDecorations.tsx:52-71 | the array becomes `AdvanceAll` of its old contents |
| `GestureDecorations.ParticleBurst.OnFrame` | src/components/GestureDecorations.tsx:24-73 | spawn then update; the live count stays within `count` |
| `GestureDecorations.MountedRule` | src/components/GestureDecorations.tsx:94-111 | heart burst iff FORMED and the special gesture is not ILoveYou; sparkle iff CHAOS, so never both; explosion iff ILoveYou; rain iff Thumb_Up |
| `GestureDecorations.MountedFromStore` | src/components/GestureDecorations.tsx:88-101 | with `specialGesture` undefined, exactly one pool is mounted: hearts in FORMED, sparkles in CHAOS |
| `GestureDecorations.ConfigsValid` | src/components/GestureDecorations.tsx:95-110 | every mounted pool has a positive size and life duration |

## Left out

- MediaPipe loading, `getUserMedia`, the video element, the `requestAnimationFrame` scheduling, teardown and the early return when the recogniser or video is missing (src/components/HandTracker.tsx:23-58, 204-216): I/O and foreign library calls. A frame's classifier output is an input.
- The skeleton drawn on the 2D canvas (src/components/HandTracker.tsx:71-116): rendering only.
- The several `Date.now()` calls of one callback (lines 60, 136, 143, 146) are one `now` input. The clock is not modelled to advance within a call.
- React hook semantics: the stale `focusedPolaroidIndex` closure and the remount of a `ParticleBurst` (new pool) whenever the effect selection changes.
- `ParticleBurst`'s early return before the mesh exists, the per-instance scale `p.life * (rand*0.5+0.5)` and the matrix writes (src/components/GestureDecorations.tsx:25, 60-72): renderer output.
- Colour and shape of each burst (src/components/GestureDecorations.tsx:77-82, 95-110): rendering only.
- `ParticleBurst.constructor`: requires a positive life duration. Every mount site uses 1 (the default), 1.5 or 2, and a zero duration would divide by zero.
- JavaScript numbers are doubles. Coordinates, draws and particle quantities are exact reals here. Time and the focus index are integers, which is what `Date.now()` and `Math.floor` yield.
- Special-gesture pulses (ILoveYou, Thumb_Up): no code writes them, and the store has no such field.
- Particle objects are slots of a value array. The source never shares one particle object between two slots, so nothing that aliasing could show is lost.
- Formation interpolation, ornaments, photos, heart particles, shaders, the camera, audio controls and the UI buttons (other files): floating-point animation, GLSL, audio and renderer calls. The buttons only call `setMode`, which `Store.Store.SetMode` covers.
