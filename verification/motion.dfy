/** The per-agent motion rule: the expression every herd member evaluates on
    each frame. An agent trails the leader by sampling the leader's position at
    a time lagged by its phase, and adds a fixed random offset on each axis,
    scaled by a stray radius that the leader's focus damps. */
module Motion {
  import opened Results
  import opened Vectors

  /** The phase draw is centred by subtracting one half. */
  const PhaseCentre: real := 0.5
  /** Each axis draw is centred by subtracting 0.45, not one half. */
  const AxisCentre: real := 0.45

  /** The four random draws fixed when an agent is created, in the order the
      expression is built: phase first, then one per axis. */
  datatype Jitter = Jitter(phase: real, x: real, y: real, z: real)

  /** The live attributes of the leader that every agent's expression reads. */
  datatype Controls = Controls(stray: real, focus: real, frameOffset: real, randomness: real)

  /** A draw of a uniform generator over [0, 1). */
  predicate IsDraw(r: real) {
    0.0 <= r < 1.0
  }

  predicate ValidJitter(j: Jitter) {
    IsDraw(j.phase) && IsDraw(j.x) && IsDraw(j.y) && IsDraw(j.z)
  }

  function Abs(x: real): real {
    if x < 0.0 then -x else x
  }

  function Min(a: real, b: real): real {
    if a <= b then a else b
  }

  /** The phase variable of agent `index`: its index, shifted by the centred
      phase draw scaled by the randomness. */
  function HerdVar(phase: real, randomness: real, index: nat): (h: real)
    ensures randomness == 0.0 ==> h == index as real
    ensures IsDraw(phase) && 0.0 <= randomness ==> Abs(h - index as real) <= randomness / 2.0
  {
    var shift := (phase - PhaseCentre) * randomness;
    assert IsDraw(phase) && 0.0 <= randomness ==> -randomness / 2.0 <= shift <= randomness / 2.0 by {
      if IsDraw(phase) && 0.0 <= randomness {
        assert -0.5 <= phase - PhaseCentre < 0.5;
        assert (phase - PhaseCentre) * randomness <= 0.5 * randomness;
        assert -0.5 * randomness <= (phase - PhaseCentre) * randomness;
      }
    }
    shift + index as real
  }

  /** The unclamped damping factor |h| * (1 - focus) / (focus * population). */
  function Damping(focus: real, h: real, population: nat): real
    requires focus != 0.0 && population > 0
  {
    Abs(h) * (1.0 - focus) / (focus * population as real)
  }

  lemma DampingBounds(focus: real, h: real, population: nat)
    requires 0.0 < focus <= 1.0 && population > 0
    ensures 0.0 <= Damping(focus, h, population)
    ensures focus == 1.0 ==> Damping(focus, h, population) == 0.0
  {
    var d := focus * population as real;
    assert 0.0 < d;
    assert 0.0 <= Abs(h) * (1.0 - focus);
  }

  lemma ScaleWithin(stray: real, m: real)
    requires 0.0 <= stray && 0.0 <= m <= 1.0
    ensures 0.0 <= stray * m <= stray
  {
    assert stray - stray * m == stray * (1.0 - m);
  }

  /** The effective stray radius. With a non-zero focus the stray is scaled by
      the damping factor clamped to at most one, where `population` is the herd
      size baked into the expression when the agent was created. The division
      is undefined for a zero population (`None`). */
  function StrayRadius(stray: real, focus: real, h: real, population: nat): (r: Option<real>)
    ensures r.None? <==> focus != 0.0 && population == 0
    ensures focus == 0.0 ==> r == Some(stray)
    ensures r.Some? && 0.0 <= focus <= 1.0 && 0.0 <= stray ==> 0.0 <= r.value <= stray
    ensures focus == 1.0 && population > 0 ==> r == Some(0.0)
  {
    if focus == 0.0 then Some(stray)
    else if population == 0 then None
    else
      var m := Min(1.0, Damping(focus, h, population));
      assert 0.0 < focus <= 1.0 && 0.0 <= stray ==> 0.0 <= stray * m <= stray by {
        if 0.0 < focus <= 1.0 && 0.0 <= stray {
          DampingBounds(focus, h, population);
          ScaleWithin(stray, m);
        }
      }
      assert focus == 1.0 ==> stray * m == 0.0 by {
        if focus == 1.0 {
          DampingBounds(focus, h, population);
        }
      }
      Some(stray * m)
  }

  /** The time at which the agent samples the leader. */
  function SampleTime(h: real, frameOffset: real, frame: real, frameAdjust: real): (t: real)
    ensures frameOffset == 0.0 ==> t == frame + frameAdjust
    ensures frame + frameAdjust - t == h * frameOffset
  {
    h * -frameOffset + frame + frameAdjust
  }

  /** The offset along one axis from the leader's sampled position. */
  function AxisOffset(draw: real, radius: real): (o: real)
    ensures IsDraw(draw) && 0.0 <= radius ==> -AxisCentre * radius <= o <= (1.0 - AxisCentre) * radius
    ensures IsDraw(draw) && 0.0 < radius ==> o < (1.0 - AxisCentre) * radius
  {
    assert IsDraw(draw) && 0.0 <= radius ==> (draw - AxisCentre) * radius <= (1.0 - AxisCentre) * radius by {
      if IsDraw(draw) && 0.0 <= radius {
        assert (1.0 - draw) * radius >= 0.0;
      }
    }
    assert IsDraw(draw) && 0.0 < radius ==> (draw - AxisCentre) * radius < (1.0 - AxisCentre) * radius by {
      if IsDraw(draw) && 0.0 < radius {
        assert (1.0 - draw) * radius > 0.0;
      }
    }
    (draw - AxisCentre) * radius
  }

  function Offset(j: Jitter, radius: real): Vec3 {
    Vec3(AxisOffset(j.x, radius), AxisOffset(j.y, radius), AxisOffset(j.z, radius))
  }

  /** An offset whose every component lies within [-0.45 * radius, 0.55 * radius]. */
  predicate WithinRadius(d: Vec3, radius: real) {
    && -AxisCentre * radius <= d.x <= (1.0 - AxisCentre) * radius
    && -AxisCentre * radius <= d.y <= (1.0 - AxisCentre) * radius
    && -AxisCentre * radius <= d.z <= (1.0 - AxisCentre) * radius
  }

  /** The sample time of agent `index` at `frame`. */
  function AgentSampleTime(c: Controls, index: nat, j: Jitter, frameAdjust: real, frame: real): real {
    SampleTime(HerdVar(j.phase, c.randomness, index), c.frameOffset, frame, frameAdjust)
  }

  /** The agent's position at `frame`: the leader's position at the agent's
      sample time plus the agent's offset. `None` when the damping divides by a
      zero population. */
  function Position(c: Controls, index: nat, population: nat, j: Jitter, frameAdjust: real,
                    frame: real, leader: real -> Vec3): (p: Option<Vec3>)
    ensures p.None? <==> c.focus != 0.0 && population == 0
    ensures p.Some? && ValidJitter(j) && 0.0 <= c.stray && 0.0 <= c.focus <= 1.0 ==>
      var h := HerdVar(j.phase, c.randomness, index);
      var radius := StrayRadius(c.stray, c.focus, h, population).value;
      && 0.0 <= radius <= c.stray
      && WithinRadius(Sub(p.value, leader(AgentSampleTime(c, index, j, frameAdjust, frame))), radius)
  {
    var h := HerdVar(j.phase, c.randomness, index);
    match StrayRadius(c.stray, c.focus, h, population)
    case None => None
    case Some(radius) =>
      Some(Add(Offset(j, radius), leader(SampleTime(h, c.frameOffset, frame, frameAdjust))))
  }

  /** With a leader that does not move, the agent stands off the leader by
      exactly its offset. */
  lemma ConstantLeaderOffset(c: Controls, index: nat, population: nat, j: Jitter, frameAdjust: real,
                             frame: real, leader: real -> Vec3, anchor: Vec3)
    requires forall t :: leader(t) == anchor
    requires c.focus == 0.0 || population > 0
    ensures var radius := StrayRadius(c.stray, c.focus, HerdVar(j.phase, c.randomness, index), population).value;
            Position(c, index, population, j, frameAdjust, frame, leader) == Some(Add(Offset(j, radius), anchor))
  {
  }

  /** With a zero frame offset every agent samples the leader at the current
      frame plus its own adjustment, whatever its index and phase. */
  lemma NoFrameOffsetSharedSample(c: Controls, i: nat, k: nat, ji: Jitter, jk: Jitter,
                                  frameAdjust: real, frame: real)
    requires c.frameOffset == 0.0
    ensures AgentSampleTime(c, i, ji, frameAdjust, frame) == frame + frameAdjust
    ensures AgentSampleTime(c, i, ji, frameAdjust, frame) == AgentSampleTime(c, k, jk, frameAdjust, frame)
  {
  }

  /** A zero focus and a positive focus whose damping factor reaches the clamp
      give the same radius: the full stray is kept exactly when the unclamped
      factor is at least one. */
  lemma {:induction false} FullStrayIffClamped(stray: real, focus: real, h: real, population: nat)
    requires 0.0 < stray
    requires 0.0 < focus <= 1.0
    requires population > 0
    ensures StrayRadius(stray, focus, h, population) == Some(stray)
        <==> Abs(h) * (1.0 - focus) >= focus * population as real
  {
    var d := focus * population as real;
    var q := Damping(focus, h, population);
    assert 0.0 < d;
    assert q >= 1.0 <==> Abs(h) * (1.0 - focus) >= d by {
      assert q * d == Abs(h) * (1.0 - focus);
    }
    if q < 1.0 {
      assert stray * q < stray * 1.0;
    }
  }

  /** Agents further along in phase stray further: the damped radius grows
      with |h|. */
  lemma {:induction false} StrayGrowsWithPhase(stray: real, focus: real, h1: real, h2: real, population: nat)
    requires 0.0 <= stray
    requires 0.0 < focus <= 1.0
    requires population > 0
    requires Abs(h1) <= Abs(h2)
    ensures StrayRadius(stray, focus, h1, population).value <= StrayRadius(stray, focus, h2, population).value
  {
    var q1 := Damping(focus, h1, population);
    var q2 := Damping(focus, h2, population);
    DampingGrowsWithPhase(focus, h1, h2, population);
    ScaleClamped(stray, q1, q2);
    RadiusIsScaledDamping(stray, focus, h1, population);
    RadiusIsScaledDamping(stray, focus, h2, population);
  }

  lemma DampingGrowsWithPhase(focus: real, h1: real, h2: real, population: nat)
    requires 0.0 < focus <= 1.0 && population > 0
    requires Abs(h1) <= Abs(h2)
    ensures Damping(focus, h1, population) <= Damping(focus, h2, population)
  {
    var d := focus * population as real;
    assert 0.0 < d;
    MulMonotone(1.0 - focus, Abs(h1), Abs(h2));
    DivMonotone(Abs(h1) * (1.0 - focus), Abs(h2) * (1.0 - focus), d);
  }

  /** A stronger focus never widens the radius. */
  lemma {:induction false} StrayShrinksWithFocus(stray: real, f1: real, f2: real, h: real, population: nat)
    requires 0.0 <= stray
    requires 0.0 < f1 <= f2 <= 1.0
    requires population > 0
    ensures StrayRadius(stray, f2, h, population).value <= StrayRadius(stray, f1, h, population).value
  {
    var q1 := Damping(f1, h, population);
    var q2 := Damping(f2, h, population);
    DampingShrinksWithFocus(f1, f2, h, population);
    ScaleClamped(stray, q2, q1);
    RadiusIsScaledDamping(stray, f1, h, population);
    RadiusIsScaledDamping(stray, f2, h, population);
  }

  lemma DampingShrinksWithFocus(f1: real, f2: real, h: real, population: nat)
    requires 0.0 < f1 <= f2 <= 1.0 && population > 0
    ensures Damping(f2, h, population) <= Damping(f1, h, population)
  {
    var a := Abs(h) / population as real;
    assert 0.0 <= a;
    var g1 := (1.0 - f1) / f1;
    var g2 := (1.0 - f2) / f2;
    assert g2 <= g1 by {
      assert 0.0 < f1 * f2;
      assert g1 - g2 == (f2 - f1) / (f1 * f2);
    }
    DampingSplit(f1, h, population);
    DampingSplit(f2, h, population);
    MulMonotone(a, g2, g1);
  }

  lemma ScaleClamped(stray: real, q1: real, q2: real)
    requires 0.0 <= stray && q1 <= q2
    ensures stray * Min(1.0, q1) <= stray * Min(1.0, q2)
  {
    MulMonotone(stray, Min(1.0, q1), Min(1.0, q2));
  }

  lemma RadiusIsScaledDamping(stray: real, focus: real, h: real, population: nat)
    requires focus != 0.0 && population > 0
    ensures StrayRadius(stray, focus, h, population) == Some(stray * Min(1.0, Damping(focus, h, population)))
  {
  }

  lemma DampingSplit(focus: real, h: real, population: nat)
    requires 0.0 < focus && population > 0
    ensures Damping(focus, h, population) == (Abs(h) / population as real) * ((1.0 - focus) / focus)
  {
  }

  lemma DivMonotone(a: real, b: real, d: real)
    requires a <= b && 0.0 < d
    ensures a / d <= b / d
  {
    assert b / d - a / d == (b - a) / d;
  }

  lemma MulMonotone(k: real, a: real, b: real)
    requires 0.0 <= k
    requires a <= b
    ensures k * a <= k * b
  {
    assert k * b - k * a == k * (b - a);
  }

  /** With randomness at most one, phases keep the agents' index order: the
      jitter never lets an agent overtake the next one. */
  lemma {:induction false} PhaseFollowsIndex(p1: real, p2: real, randomness: real, i: nat, k: nat)
    requires IsDraw(p1) && IsDraw(p2)
    requires 0.0 <= randomness <= 1.0
    requires i < k
    ensures HerdVar(p1, randomness, i) < HerdVar(p2, randomness, k)
  {
    var h1 := HerdVar(p1, randomness, i);
    var h2 := HerdVar(p2, randomness, k);
    if randomness == 0.0 {
    } else {
      assert (p1 - PhaseCentre) * randomness < 0.5 * randomness by {
        assert (0.5 - (p1 - PhaseCentre)) * randomness > 0.0;
      }
      assert -0.5 * randomness <= (p2 - PhaseCentre) * randomness by {
        assert ((p2 - PhaseCentre) + 0.5) * randomness >= 0.0;
      }
      assert h1 == (p1 - PhaseCentre) * randomness + i as real;
      assert h2 == (p2 - PhaseCentre) * randomness + k as real;
      assert h2 >= k as real - 0.5 * randomness;
    }
  }

  /** With a positive frame offset, an agent of higher index samples the
      leader strictly earlier: the herd trails the leader in index order. */
  lemma {:induction false} LaterAgentsTrail(c: Controls, i: nat, k: nat, ji: Jitter, jk: Jitter,
                                            frameAdjust: real, frame: real)
    requires ValidJitter(ji) && ValidJitter(jk)
    requires 0.0 <= c.randomness <= 1.0
    requires 0.0 < c.frameOffset
    requires i < k
    ensures AgentSampleTime(c, k, jk, frameAdjust, frame) < AgentSampleTime(c, i, ji, frameAdjust, frame)
  {
    var hi := HerdVar(ji.phase, c.randomness, i);
    var hk := HerdVar(jk.phase, c.randomness, k);
    PhaseFollowsIndex(ji.phase, jk.phase, c.randomness, i, k);
    assert hi * c.frameOffset < hk * c.frameOffset by {
      assert (hk - hi) * c.frameOffset > 0.0;
    }
  }
}
