/** The burst decorations drawn from the hand (src/components/GestureDecorations.tsx):
    `ParticleBurst`, a fixed pool of particles that spawns at most one
    particle per frame at the hand and ages every live one, and
    `GestureDecorations`, which picks the pools to mount from the mode and
    the special gesture. */
module GestureDecorations {
  import opened Wrappers
  import opened Store

  /** One pool slot; `life` runs from 1.0 down to 0. */
  datatype Particle = Particle(position: Vec3, velocity: Vec3, life: real, active: bool)

  /** The slot every pool starts with. */
  const Dormant: Particle := Particle(Vec3(0.0, 0.0, 0.0), Vec3(0.0, 0.0, 0.0), 0.0, false)

  const SpawnChance: real := 0.8
  const SpawnDepth: real := 5.0
  const Rise: real := 0.01

  function AddVec(a: Vec3, b: Vec3): Vec3
  {
    Vec3(a.x + b.x, a.y + b.y, a.z + b.z)
  }

  /** The number of live particles. */
  function ActiveCount(s: seq<Particle>): nat
    decreases |s|
  {
    if |s| == 0 then 0 else (if s[0].active then 1 else 0) + ActiveCount(s[1..])
  }

  lemma {:induction false} ActiveCountBounded(s: seq<Particle>)
    ensures ActiveCount(s) <= |s|
    ensures ActiveCount(s) == |s| <==> forall i :: 0 <= i < |s| ==> s[i].active
    decreases |s|
  {
    if |s| > 0 {
      ActiveCountBounded(s[1..]);
      if ActiveCount(s) == |s| {
        assert s[0].active && ActiveCount(s[1..]) == |s[1..]|;
        forall i | 0 <= i < |s| ensures s[i].active {
          if i > 0 { assert s[i] == s[1..][i - 1]; }
        }
      }
      if forall i :: 0 <= i < |s| ==> s[i].active {
        assert forall i :: 0 <= i < |s[1..]| ==> s[1..][i].active by {
          forall i | 0 <= i < |s[1..]| ensures s[1..][i].active {
            assert s[1..][i] == s[i + 1];
          }
        }
      }
    }
  }

  /** Replacing one slot changes the live count by the difference of the
      two flags. */
  lemma {:induction false} ActiveCountUpdate(s: seq<Particle>, k: nat, p: Particle)
    requires k < |s|
    ensures ActiveCount(s[k := p]) + (if s[k].active then 1 else 0)
         == ActiveCount(s) + (if p.active then 1 else 0)
    decreases |s|
  {
    if k > 0 {
      assert s[k := p][1..] == s[1..][k - 1 := p];
      ActiveCountUpdate(s[1..], k - 1, p);
    } else {
      assert s[k := p][1..] == s[1..];
    }
  }

  /** `particles.find(p => !p.active)`: the lowest inactive slot, if any. */
  function FirstFree(s: seq<Particle>): (r: Option<nat>)
    ensures r.None? <==> forall i :: 0 <= i < |s| ==> s[i].active
    ensures r.Some? ==> r.value < |s| && !s[r.value].active
                        && forall j :: 0 <= j < r.value ==> s[j].active
    decreases |s|
  {
    if |s| == 0 then None
    else if !s[0].active then Some(0)
    else match FirstFree(s[1..])
      case None => None
      case Some(k) => Some(k + 1)
  }

  /** Where a new particle starts: the hand mapped into scene space at z = 5. */
  function SpawnPosition(hand: Vec3): Vec3
  {
    Vec3((hand.x - 0.5) * 15.0, (1.0 - hand.y - 0.5) * 10.0, SpawnDepth)
  }

  /** The explosion velocity from three `Math.random()` draws. */
  function Launch(speed: real, dx: real, dy: real, dz: real): Vec3
  {
    Vec3((dx - 0.5) * speed, (dy - 0.5) * speed, (dz - 0.5) * speed)
  }

  /** The three draws that set a new particle's velocity. */
  datatype Draws = Draws(dx: real, dy: real, dz: real)

  /** Lines 28-49: the spawn step of one frame. */
  function SpawnInto(s: seq<Particle>, detected: bool, hand: Vec3, spawnDraw: real,
                     speed: real, d: Draws): seq<Particle>
  {
    if detected && spawnDraw > SpawnChance then
      match FirstFree(s)
      case None => s
      case Some(k) => s[k := Particle(SpawnPosition(hand), Launch(speed, d.dx, d.dy, d.dz), 1.0, true)]
    else s
  }

  /** Lines 53-58: ageing one particle; an inactive one is left alone. */
  function AdvanceParticle(p: Particle, delta: real, lifeDur: real): Particle
    requires lifeDur > 0.0
  {
    if p.active then
      var life := p.life - delta / lifeDur;
      Particle(AddVec(p.position, p.velocity), p.velocity.(y := p.velocity.y + Rise), life, !(life <= 0.0))
    else p
  }

  /** Lines 52-71: ageing every slot. */
  function AdvanceAll(s: seq<Particle>, delta: real, lifeDur: real): (r: seq<Particle>)
    requires lifeDur > 0.0
    ensures |r| == |s|
  {
    seq(|s|, i requires 0 <= i < |s| => AdvanceParticle(s[i], delta, lifeDur))
  }

  /** Spawning happens only with a hand and a draw above 0.8, fills exactly
      the lowest inactive slot with a fresh particle at the hand, and adds
      exactly one live particle. */
  lemma SpawnRule(s: seq<Particle>, detected: bool, hand: Vec3, spawnDraw: real, speed: real, d: Draws)
    ensures var r := SpawnInto(s, detected, hand, spawnDraw, speed, d);
      && |r| == |s|
      && (!(detected && spawnDraw > SpawnChance) ==> r == s)
      && (detected && spawnDraw > SpawnChance && ActiveCount(s) < |s| ==>
            exists k :: 0 <= k < |s| && !s[k].active
              && (forall j :: 0 <= j < k ==> s[j].active)
              && r == s[k := Particle(SpawnPosition(hand), Launch(speed, d.dx, d.dy, d.dz), 1.0, true)]
              && ActiveCount(r) == ActiveCount(s) + 1)
  {
    ActiveCountBounded(s);
    if detected && spawnDraw > SpawnChance && ActiveCount(s) < |s| {
      var k := FirstFree(s).value;
      var p := Particle(SpawnPosition(hand), Launch(speed, d.dx, d.dy, d.dz), 1.0, true);
      ActiveCountUpdate(s, k, p);
    }
  }

  /** Spawning into a pool whose every slot is live is a no-op. */
  lemma SpawnWhenFullIsNoop(s: seq<Particle>, detected: bool, hand: Vec3, spawnDraw: real, speed: real, d: Draws)
    requires ActiveCount(s) == |s|
    ensures SpawnInto(s, detected, hand, spawnDraw, speed, d) == s
  {
    ActiveCountBounded(s);
  }

  /** One update of a live particle: life drops by delta/lifeDur (strictly,
      for a positive delta), it moves by its velocity, drifts upward by
      0.01, and stays live exactly while its life is above 0. */
  lemma AdvanceActive(p: Particle, delta: real, lifeDur: real)
    requires p.active && lifeDur > 0.0
    ensures var q := AdvanceParticle(p, delta, lifeDur);
      && q.life == p.life - delta / lifeDur
      && (delta > 0.0 ==> q.life < p.life)
      && q.position == AddVec(p.position, p.velocity)
      && q.velocity == Vec3(p.velocity.x, p.velocity.y + Rise, p.velocity.z)
      && (q.active <==> q.life > 0.0)
  {
    if delta > 0.0 {
      assert delta / lifeDur > 0.0;
    }
  }

  /** A retired particle does not move until it is spawned again. */
  lemma AdvanceRetired(p: Particle, delta: real, lifeDur: real)
    requires !p.active && lifeDur > 0.0
    ensures AdvanceParticle(p, delta, lifeDur) == p
  {
  }

  /** Pointwise, ageing never turns a slot live. */
  lemma {:induction false} FewerLive(s: seq<Particle>, r: seq<Particle>)
    requires |r| == |s|
    requires forall i :: 0 <= i < |s| && r[i].active ==> s[i].active
    ensures ActiveCount(r) <= ActiveCount(s)
    decreases |s|
  {
    if |s| > 0 {
      assert forall i :: 0 <= i < |s[1..]| && r[1..][i].active ==> s[1..][i].active by {
        forall i | 0 <= i < |s[1..]| && r[1..][i].active ensures s[1..][i].active {
          assert r[1..][i] == r[i + 1] && s[1..][i] == s[i + 1];
        }
      }
      FewerLive(s[1..], r[1..]);
    }
  }

  /** The update loop keeps the pool size, leaves retired slots alone and
      never adds a live particle. */
  lemma AdvanceAllRule(s: seq<Particle>, delta: real, lifeDur: real)
    requires lifeDur > 0.0
    ensures var r := AdvanceAll(s, delta, lifeDur);
      && |r| == |s|
      && (forall i :: 0 <= i < |s| && !s[i].active ==> r[i] == s[i])
      && ActiveCount(r) <= ActiveCount(s) <= |s|
  {
    var r := AdvanceAll(s, delta, lifeDur);
    FewerLive(s, r);
    ActiveCountBounded(s);
  }

  /** A burst pool of `count` slots. The source's particle objects are never
      shared between slots, so each slot holds a particle value. */
  class ParticleBurst {
    const count: nat
    const speed: real
    const lifeDur: real
    const particles: array<Particle>

    ghost predicate Valid()
      reads this
    {
      particles.Length == count && lifeDur > 0.0
    }

    /** Lines 12-19: `count` dormant slots. */
    constructor (count: nat, speed: real, lifeDur: real)
      requires lifeDur > 0.0
      ensures Valid() && fresh(particles)
      ensures this.count == count && this.speed == speed && this.lifeDur == lifeDur
      ensures forall i :: 0 <= i < count ==> particles[i] == Dormant
      ensures ActiveCount(particles[..]) == 0
    {
      this.count := count;
      this.speed := speed;
      this.lifeDur := lifeDur;
      var a := new Particle[count](_ => Dormant);
      particles := a;
      new;
      NoneLive(a[..]);
    }

    /** The scan behind `particles.find(p => !p.active)`. */
    method FindFree() returns (r: Option<nat>)
      ensures r == FirstFree(particles[..])
    {
      var i := 0;
      while i < particles.Length
        invariant 0 <= i <= particles.Length
        invariant forall j :: 0 <= j < i ==> particles[j].active
      {
        if !particles[i].active {
          return Some(i);
        }
        i := i + 1;
      }
      return None;
    }

    /** Lines 28-49. */
    method Spawn(detected: bool, hand: Vec3, spawnDraw: real, d: Draws)
      requires Valid()
      modifies particles
      ensures particles[..] == SpawnInto(old(particles[..]), detected, hand, spawnDraw, speed, d)
    {
      ghost var s := particles[..];
      if detected {
        var target := SpawnPosition(hand);
        if spawnDraw > SpawnChance {
          var slot := FindFree();
          if slot.Some? {
            var k := slot.value;
            var p := Particle(target, Launch(speed, d.dx, d.dy, d.dz), 1.0, true);
            particles[k] := p;
            assert particles[..] == s[k := p];
          }
        }
      }
    }

    /** Lines 52-71, renderer writes left out. */
    method Update(delta: real)
      requires Valid()
      modifies particles
      ensures particles[..] == AdvanceAll(old(particles[..]), delta, lifeDur)
    {
      ghost var s := particles[..];
      for i := 0 to particles.Length
        invariant forall j :: 0 <= j < i ==> particles[j] == AdvanceParticle(s[j], delta, lifeDur)
        invariant forall j :: i <= j < particles.Length ==> particles[j] == s[j]
      {
        var p := particles[i];
        if p.active {
          var life := p.life - delta / lifeDur;
          var position := AddVec(p.position, p.velocity);
          var velocity := p.velocity.(y := p.velocity.y + Rise);
          var active := true;
          if life <= 0.0 {
            active := false;
          }
          particles[i] := Particle(position, velocity, life, active);
        }
      }
    }

    /** One `useFrame` callback: spawn, then age every slot. The pool keeps
        its size and never holds more than `count` live particles. */
    method OnFrame(detected: bool, hand: Vec3, delta: real, spawnDraw: real, d: Draws)
      requires Valid()
      modifies particles
      ensures particles[..] == AdvanceAll(SpawnInto(old(particles[..]), detected, hand, spawnDraw, speed, d), delta, lifeDur)
      ensures ActiveCount(particles[..]) <= count
    {
      Spawn(detected, hand, spawnDraw, d);
      Update(delta);
      ActiveCountBounded(particles[..]);
    }
  }

  lemma {:induction false} NoneLive(s: seq<Particle>)
    requires forall i :: 0 <= i < |s| ==> s[i] == Dormant
    ensures ActiveCount(s) == 0
    decreases |s|
  {
    if |s| > 0 {
      assert forall i :: 0 <= i < |s[1..]| ==> s[1..][i] == Dormant by {
        forall i | 0 <= i < |s[1..]| ensures s[1..][i] == Dormant {
          assert s[1..][i] == s[i + 1];
        }
      }
      NoneLive(s[1..]);
    }
  }

  // ---------------------------------------------------------------------------
  // Effect selection (lines 87-113)

  datatype Effect = HeartBurst | ChaosSparkle | LoveExplosion | GoldenRain

  /** The pool parameters each effect mounts `ParticleBurst` with (colour and
      shape are rendering only); `life` defaults to 1. */
  datatype BurstConfig = BurstConfig(count: nat, speed: real, lifeDur: real)

  function Config(e: Effect): BurstConfig
  {
    match e
    case HeartBurst => BurstConfig(50, 5.0, 1.0)
    case ChaosSparkle => BurstConfig(50, 8.0, 1.0)
    case LoveExplosion => BurstConfig(200, 15.0, 2.0)
    case GoldenRain => BurstConfig(100, 10.0, 1.5)
  }

  /** The store has no `specialGesture` field, so reading it yields
      `undefined`. */
  const StoreSpecialGesture: Option<string> := None

  /** The pools the component mounts, in the order of the markup. */
  function Mounted(mode: Mode, special: Option<string>): seq<Effect>
  {
    (if mode == FORMED && special != Some("ILoveYou") then [HeartBurst] else [])
      + (if mode == CHAOS then [ChaosSparkle] else [])
      + (if special == Some("ILoveYou") then [LoveExplosion] else [])
      + (if special == Some("Thumb_Up") then [GoldenRain] else [])
  }

  /** The heart burst is mounted iff the mode is FORMED and the special
      gesture is not ILoveYou; the sparkle iff the mode is CHAOS; so the two
      are never mounted together. */
  lemma MountedRule(mode: Mode, special: Option<string>)
    ensures HeartBurst in Mounted(mode, special) <==> mode == FORMED && special != Some("ILoveYou")
    ensures ChaosSparkle in Mounted(mode, special) <==> mode == CHAOS
    ensures !(HeartBurst in Mounted(mode, special) && ChaosSparkle in Mounted(mode, special))
    ensures LoveExplosion in Mounted(mode, special) <==> special == Some("ILoveYou")
    ensures GoldenRain in Mounted(mode, special) <==> special == Some("Thumb_Up")
  {
  }

  /** With the store as it is, exactly one pool is mounted: hearts when
      FORMED, sparkles when CHAOS. */
  lemma MountedFromStore(mode: Mode)
    ensures Mounted(mode, StoreSpecialGesture) == (if mode == FORMED then [HeartBurst] else [ChaosSparkle])
  {
  }

  /** Every mounted pool has a positive life duration, as the pool needs. */
  lemma ConfigsValid(e: Effect)
    ensures Config(e).lifeDur > 0.0 && Config(e).count > 0
  {
  }
}
