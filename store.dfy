/** The shared interaction state of the visual experience: one zustand store
    with five fields and five setters (src/store.ts). Every setter hands a
    one-field partial object to zustand's `set`, which merges it into the
    state; `Patch` is that partial object and `Apply` the merge. */
module Store {
  import opened Wrappers

  /** The top-level visual mode: a dispersed cloud or the assembled heart. */
  datatype Mode = CHAOS | FORMED

  /** A THREE.Vector3 as the store holds it. */
  datatype Vec3 = Vec3(x: real, y: real, z: real)

  /** The `AppState` fields (their values, without the setters). */
  datatype AppState = AppState(
    mode: Mode,
    handPosition: Vec3,
    isHandDetected: bool,
    isShaking: bool,
    focusedPolaroidIndex: Option<int>)

  /** The defaults literal the store is created from. */
  const Defaults: AppState :=
    AppState(CHAOS, Vec3(0.0, 0.0, 0.0), false, false, None)

  /** The five fields, so that "every other field is unchanged" can be said. */
  datatype Field = ModeField | HandPositionField | HandDetectedField | ShakingField | FocusField

  /** The partial object one setter passes to `set`. */
  datatype Patch =
    | ModePatch(mode: Mode)
    | HandPositionPatch(pos: Vec3)
    | HandDetectedPatch(detected: bool)
    | ShakingPatch(shaking: bool)
    | FocusPatch(index: Option<int>)

  /** The field a patch writes. */
  function Target(p: Patch): Field
  {
    match p
    case ModePatch(_) => ModeField
    case HandPositionPatch(_) => HandPositionField
    case HandDetectedPatch(_) => HandDetectedField
    case ShakingPatch(_) => ShakingField
    case FocusPatch(_) => FocusField
  }

  /** State `s` carries the value that patch `p` writes. */
  predicate Holds(s: AppState, p: Patch)
  {
    match p
    case ModePatch(m) => s.mode == m
    case HandPositionPatch(v) => s.handPosition == v
    case HandDetectedPatch(d) => s.isHandDetected == d
    case ShakingPatch(b) => s.isShaking == b
    case FocusPatch(i) => s.focusedPolaroidIndex == i
  }

  /** States `s` and `t` agree on field `f`. */
  predicate SameOn(s: AppState, t: AppState, f: Field)
  {
    match f
    case ModeField => s.mode == t.mode
    case HandPositionField => s.handPosition == t.handPosition
    case HandDetectedField => s.isHandDetected == t.isHandDetected
    case ShakingField => s.isShaking == t.isShaking
    case FocusField => s.focusedPolaroidIndex == t.focusedPolaroidIndex
  }

  /** `set(p)`: the target field takes the patch's value, every other field
      keeps its own. */
  function Apply(s: AppState, p: Patch): (r: AppState)
    ensures Holds(r, p)
    ensures forall f :: f != Target(p) ==> SameOn(r, s, f)
  {
    match p
    case ModePatch(m) => s.(mode := m)
    case HandPositionPatch(v) => s.(handPosition := v)
    case HandDetectedPatch(d) => s.(isHandDetected := d)
    case ShakingPatch(b) => s.(isShaking := b)
    case FocusPatch(i) => s.(focusedPolaroidIndex := i)
  }

  /** The state after the setters behind `ps` have run, first to last. */
  function ApplyAll(s: AppState, ps: seq<Patch>): AppState
    decreases |ps|
  {
    if |ps| == 0 then s else Apply(ApplyAll(s, ps[..|ps| - 1]), ps[|ps| - 1])
  }

  lemma ApplyAllSnoc(s: AppState, ps: seq<Patch>, p: Patch)
    ensures ApplyAll(s, ps + [p]) == Apply(ApplyAll(s, ps), p)
  {
    assert (ps + [p])[..|ps|] == ps;
  }

  /** Running two batches of setters is running them one after the other. */
  lemma {:induction false} ApplyAllAppend(s: AppState, a: seq<Patch>, b: seq<Patch>)
    ensures ApplyAll(s, a + b) == ApplyAll(ApplyAll(s, a), b)
    decreases |b|
  {
    if |b| == 0 {
      assert a + b == a;
    } else {
      assert (a + b)[..|a + b| - 1] == a + b[..|b| - 1];
      ApplyAllAppend(s, a, b[..|b| - 1]);
    }
  }

  /** Two states that agree on every field are the same state. */
  lemma SameOnEveryField(s: AppState, t: AppState)
    requires forall f :: SameOn(s, t, f)
    ensures s == t
  {
    assert SameOn(s, t, ModeField) && SameOn(s, t, HandPositionField);
    assert SameOn(s, t, HandDetectedField) && SameOn(s, t, ShakingField);
    assert SameOn(s, t, FocusField);
  }

  /** Applying the same setter twice is applying it once. */
  lemma ApplyIdempotent(s: AppState, p: Patch)
    ensures Apply(Apply(s, p), p) == Apply(s, p)
  {
  }

  /** Of two writes to the same field, the last one wins. */
  lemma ApplyLastWriteWins(s: AppState, p: Patch, q: Patch)
    requires Target(p) == Target(q)
    ensures Apply(Apply(s, p), q) == Apply(s, q)
  {
  }

  /** Writes to different fields do not interfere. */
  lemma ApplyCommutes(s: AppState, p: Patch, q: Patch)
    requires Target(p) != Target(q)
    ensures Apply(Apply(s, p), q) == Apply(Apply(s, q), p)
  {
    forall f ensures SameOn(Apply(Apply(s, p), q), Apply(Apply(s, q), p), f) {
    }
    SameOnEveryField(Apply(Apply(s, p), q), Apply(Apply(s, q), p));
  }

  /** A field no setter in `ps` writes keeps its value. */
  lemma {:induction false} ApplyAllUntouched(s: AppState, ps: seq<Patch>, f: Field)
    requires forall i :: 0 <= i < |ps| ==> Target(ps[i]) != f
    ensures SameOn(ApplyAll(s, ps), s, f)
    decreases |ps|
  {
    if |ps| > 0 {
      ApplyAllUntouched(s, ps[..|ps| - 1], f);
    }
  }

  /** The last write to a field in a run of setters is the value it ends with. */
  lemma {:induction false} ApplyAllLastWrite(s: AppState, ps: seq<Patch>, k: nat)
    requires k < |ps|
    requires forall i :: k < i < |ps| ==> Target(ps[i]) != Target(ps[k])
    ensures Holds(ApplyAll(s, ps), ps[k])
    decreases |ps|
  {
    if k < |ps| - 1 {
      var init := ps[..|ps| - 1];
      ApplyAllLastWrite(s, init, k);
      var before := ApplyAll(s, init);
      var after := Apply(before, ps[|ps| - 1]);
      assert SameOn(after, before, Target(ps[k]));
      match ps[k]
      case ModePatch(_) =>
      case HandPositionPatch(_) =>
      case HandDetectedPatch(_) =>
      case ShakingPatch(_) =>
      case FocusPatch(_) =>
    }
  }

  /** The shared store object: created from the defaults; each setter
      overwrites exactly one field. */
  class Store {
    var mode: Mode
    var handPosition: Vec3
    var isHandDetected: bool
    var isShaking: bool
    var focusedPolaroidIndex: Option<int>

    /** The current field values. */
    function State(): AppState
      reads this
    {
      AppState(mode, handPosition, isHandDetected, isShaking, focusedPolaroidIndex)
    }

    constructor ()
      ensures State() == Defaults
    {
      mode := CHAOS;
      handPosition := Vec3(0.0, 0.0, 0.0);
      isHandDetected := false;
      isShaking := false;
      focusedPolaroidIndex := None;
    }

    method SetMode(m: Mode)
      modifies this
      ensures State() == Apply(old(State()), ModePatch(m))
    {
      mode := m;
    }

    method SetHandPosition(pos: Vec3)
      modifies this
      ensures State() == Apply(old(State()), HandPositionPatch(pos))
    {
      handPosition := pos;
    }

    method SetHandDetected(detected: bool)
      modifies this
      ensures State() == Apply(old(State()), HandDetectedPatch(detected))
    {
      isHandDetected := detected;
    }

    method SetIsShaking(shaking: bool)
      modifies this
      ensures State() == Apply(old(State()), ShakingPatch(shaking))
    {
      isShaking := shaking;
    }

    method SetFocusedPolaroidIndex(index: Option<int>)
      modifies this
      ensures State() == Apply(old(State()), FocusPatch(index))
    {
      focusedPolaroidIndex := index;
    }
  }
}
