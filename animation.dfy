/** The per-frame update (src/animation.js): measure `dt`, reject degenerate frames,
    spin every body, and advance and reposition every planet on its circular orbit. */
module Animation {
  import opened JsMath
  import opened Catalog
  import opened SceneGraph
  import opened Bodies

  /** The part of a body mesh the update step reads and writes. */
  datatype BodyState = BodyState(userData: UserData, rotationY: real, x: real, y: real, z: real)

  function StateOf(n: Node): BodyState
    reads n
  {
    BodyState(n.userData, n.rotationY, n.x, n.y, n.z)
  }

  /** A body the step can update without producing NaN: a copy of a catalog record
      and, for a planet, a radius with a nonzero damping divisor, a scene radius and
      an angle. */
  predicate Simulable(u: UserData) {
    && u.Body?
    && (!u.def.isStar ==>
          && u.def.orbitalRadiusAU.Some?
          && Damping(u.def.orbitalRadiusAU.value) != 0.0
          && u.orbitalRadiusScene.Some?
          && u.angle.Some?)
  }

  /** `dt`: the current time in seconds minus the previous frame's. */
  function FrameDt(now: JsNum, lastTime: JsNum): JsNum {
    Sub(Seconds(now), lastTime)
  }

  /** `now * 0.001`: a frame timestamp in milliseconds, in seconds. */
  function Seconds(now: JsNum): JsNum {
    Scale(now, 0.001)
  }

  /** The frame gate `!isNaN(dt) && dt > 0 && dt < 0.2`. */
  predicate Accepts(dt: JsNum) {
    !IsNaN(dt) && Gt(dt, 0.0) && Lt(dt, 0.2)
  }

  /** `baseOrb` and `baseRot`. */
  function OrbitRate(timeScale: real): real { timeScale * 5.0 }
  function SpinRate(timeScale: real): real { timeScale * 20.0 }

  /** `rotationSpeedFactor * baseRot * dt`. */
  function SpinIncrement(factor: real, baseRot: real, dt: real): real {
    factor * baseRot * dt
  }

  /** `eff = orbitalSpeedFactor * baseOrb * dt / adj`, with `adj = AU*0.4+0.6`. */
  function AngleIncrement(speed: real, baseOrb: real, dt: real, au: real): real
    requires Damping(au) != 0.0
  {
    speed * baseOrb * dt / Damping(au)
  }

  /** `orbitalRadiusScene * Math.cos(angle)` and `orbitalRadiusScene * Math.sin(angle)`. */
  function CircleX(radius: real, angle: real, trig: Trig): real { radius * trig.cos(angle) }
  function CircleZ(radius: real, angle: real, trig: Trig): real { radius * trig.sin(angle) }

  /** The `forEach` callback on one body for an accepted `dt`. */
  function StepBody(s: BodyState, timeScale: real, dt: real, trig: Trig): (r: BodyState)
    requires Simulable(s.userData)
    ensures Simulable(r.userData)
    ensures r.userData.def == s.userData.def
    ensures r.userData.orbitalRadiusScene == s.userData.orbitalRadiusScene
    ensures r.y == s.y
  {
    var d := s.userData.def;
    var rotY := if Truthy(d.rotationSpeedFactor)
                then s.rotationY + SpinIncrement(d.rotationSpeedFactor.value, SpinRate(timeScale), dt)
                else s.rotationY;
    if d.isStar then s.(rotationY := rotY)
    else
      var a := s.userData.angle.value
               + AngleIncrement(d.orbitalSpeedFactor, OrbitRate(timeScale), dt, d.orbitalRadiusAU.value);
      var radius := s.userData.orbitalRadiusScene.value;
      BodyState(s.userData.(angle := Some(a)), rotY,
                CircleX(radius, a, trig), s.y, CircleZ(radius, a, trig))
  }

  /** A body's state after a frame with the given `dt`: stepped if the gate accepts
      `dt`, untouched otherwise. */
  function Advance(s: BodyState, timeScale: real, dt: JsNum, trig: Trig): (r: BodyState)
    requires Simulable(s.userData)
    ensures Simulable(r.userData)
    ensures r.userData.def == s.userData.def
    ensures r.userData.orbitalRadiusScene == s.userData.orbitalRadiusScene
  {
    if Accepts(dt) then StepBody(s, timeScale, dt.v, trig) else s
  }

  /** A body's state after a sequence of frames whose measured deltas are `dts`, in
      order; each frame is accepted or rejected by the gate on its own. */
  function Run(s: BodyState, timeScale: real, dts: seq<JsNum>, trig: Trig): (r: BodyState)
    requires Simulable(s.userData)
    ensures Simulable(r.userData)
    ensures r.userData.def == s.userData.def
    ensures r.userData.orbitalRadiusScene == s.userData.orbitalRadiusScene
    decreases |dts|
  {
    if |dts| == 0 then s else Run(Advance(s, timeScale, dts[0], trig), timeScale, dts[1..], trig)
  }

  /** `k` consecutive frames of the same `dt`, which the gate accepts. */
  function Frames(s: BodyState, timeScale: real, dt: real, trig: Trig, k: nat): (r: BodyState)
    requires Simulable(s.userData) && 0.0 < dt < 0.2
    ensures Simulable(r.userData)
    ensures r.userData.def == s.userData.def
    ensures r.userData.orbitalRadiusScene == s.userData.orbitalRadiusScene
  {
    if k == 0 then s else StepBody(Frames(s, timeScale, dt, trig, k - 1), timeScale, dt, trig)
  }

  /** The gate accepts exactly the numbers strictly between 0 and 0.2: NaN, anything
      at most 0, and 0.2 itself are rejected. */
  lemma AcceptsExactly(dt: JsNum)
    ensures Accepts(dt) <==> dt.Num? && 0.0 < dt.v < 0.2
  {
  }

  /** A rejected frame leaves a body's rotation, angle and position as they were. */
  lemma RejectedFrameChangesNothing(s: BodyState, timeScale: real, dt: JsNum, trig: Trig)
    requires Simulable(s.userData) && !Accepts(dt)
    ensures Advance(s, timeScale, dt, trig) == s
  {
  }

  /** Because `lastTime` is stored on every frame, `dt` is measured from the previous
      frame even when that frame was rejected: it is accepted exactly when the two
      timestamps are less than 200 ms apart, in increasing order. */
  lemma MeasuredFromPreviousFrame(before: real, now: real)
    ensures FrameDt(Num(now), Seconds(Num(before))) == Num(now * 0.001 - before * 0.001)
    ensures Accepts(FrameDt(Num(now), Seconds(Num(before)))) <==> 0.0 < now - before < 200.0
  {
  }

  /** A NaN timestamp is stored as the last time, so the next frame is rejected
      too, whatever its timestamp. */
  lemma NaNTimestampRejectsNextFrame(now: JsNum)
    ensures Seconds(NaN) == NaN
    ensures !Accepts(FrameDt(now, Seconds(NaN)))
  {
  }

  /** The spin a step gives: the factor's increment when the factor is truthy, none
      when it is 0 or undefined. */
  lemma SpinStep(s: BodyState, timeScale: real, dt: real, trig: Trig)
    requires Simulable(s.userData)
    ensures var f := s.userData.def.rotationSpeedFactor;
            var r := StepBody(s, timeScale, dt, trig);
            && (Truthy(f) ==> r.rotationY == s.rotationY + f.value * (timeScale * 20.0) * dt)
            && (!Truthy(f) ==> r.rotationY == s.rotationY)
  {
  }

  lemma ProductSigns(a: real, b: real)
    requires b > 0.0
    ensures a > 0.0 ==> a * b > 0.0
    ensures a < 0.0 ==> a * b < 0.0
  {
  }

  /** While time runs forward, a positive factor spins a body forward and a negative
      (retrograde) one spins it backward. */
  lemma SpinDirection(s: BodyState, timeScale: real, dt: real, trig: Trig)
    requires Simulable(s.userData) && s.userData.def.rotationSpeedFactor.Some?
    requires timeScale > 0.0 && dt > 0.0
    ensures var f := s.userData.def.rotationSpeedFactor.value;
            var r := StepBody(s, timeScale, dt, trig);
            && (f > 0.0 ==> r.rotationY > s.rotationY)
            && (f < 0.0 ==> r.rotationY < s.rotationY)
            && (f == 0.0 ==> r.rotationY == s.rotationY)
  {
    var f := s.userData.def.rotationSpeedFactor.value;
    var rate := SpinRate(timeScale);
    ProductSigns(f, rate);
    ProductSigns(f * rate, dt);
  }

  /** The star's angle, radius and position are never written; only its rotation. */
  lemma StarStaysPut(s: BodyState, timeScale: real, dt: real, trig: Trig)
    requires Simulable(s.userData) && s.userData.def.isStar
    ensures var r := StepBody(s, timeScale, dt, trig);
            r.userData == s.userData && r.x == s.x && r.y == s.y && r.z == s.z
  {
  }

  /** A planet's per-frame angle increment. */
  function PlanetAngleStep(d: BodyDef, timeScale: real, dt: real): real
    requires d.orbitalRadiusAU.Some? && Damping(d.orbitalRadiusAU.value) != 0.0
  {
    AngleIncrement(d.orbitalSpeedFactor, OrbitRate(timeScale), dt, d.orbitalRadiusAU.value)
  }

  /** A step adds one increment to a planet's angle. */
  lemma OrbitStep(s: BodyState, timeScale: real, dt: real, trig: Trig)
    requires Simulable(s.userData) && !s.userData.def.isStar
    ensures StepBody(s, timeScale, dt, trig).userData.angle ==
              Some(s.userData.angle.value + PlanetAngleStep(s.userData.def, timeScale, dt))
  {
    var r := StepBody(s, timeScale, dt, trig);
    assert r.userData == s.userData.(angle := Some(s.userData.angle.value + PlanetAngleStep(s.userData.def, timeScale, dt)));
  }

  /** The per-frame increment written out with the source's constants. */
  lemma PlanetAngleStepFormula(d: BodyDef, timeScale: real, dt: real)
    requires d.orbitalRadiusAU.Some? && Damping(d.orbitalRadiusAU.value) != 0.0
    ensures PlanetAngleStep(d, timeScale, dt) ==
              d.orbitalSpeedFactor * (timeScale * 5.0) * dt / (d.orbitalRadiusAU.value * 0.4 + 0.6)
  {
  }

  /** With a positive speed, time scale, `dt` and radius the angle increment is positive,
      and the damping divisor exceeds 0.6 so it stays below
      `speed * timeScale*5 * dt / 0.6`, the increment with the divisor's value at AU = 0. */
  lemma AngleIncrementPositive(speed: real, timeScale: real, dt: real, au: real)
    requires speed > 0.0 && timeScale > 0.0 && dt > 0.0 && au > 0.0
    ensures Damping(au) > 0.6
    ensures 0.0 < AngleIncrement(speed, OrbitRate(timeScale), dt, au) < speed * OrbitRate(timeScale) * dt / 0.6
  {
    var num := speed * OrbitRate(timeScale) * dt;
    ProductSigns(speed, OrbitRate(timeScale));
    ProductSigns(speed * OrbitRate(timeScale), dt);
    assert num > 0.0;
    QuotientBounds(num, Damping(au));
  }

  lemma QuotientBounds(num: real, den: real)
    requires num > 0.0 && den > 0.6
    ensures 0.0 < num / den < num / 0.6
  {
    var q, q0 := num / den, num / 0.6;
    assert q * den == num;
    assert q0 > 0.0 && q0 * 0.6 == num;
    if q <= 0.0 {
      MulMonotone(q, 0.0, den);
      assert false;
    }
    if q >= q0 {
      MulMonotone(q0, q, den);
      MulMonotone(0.6, den, q0);
      assert false;
    }
  }

  lemma MulMonotone(a: real, b: real, c: real)
    requires a <= b && c > 0.0
    ensures a * c <= b * c
  {
  }

  /** After a step a planet lies on the circle of radius `orbitalRadiusScene`. */
  lemma OnOrbitCircle(s: BodyState, timeScale: real, dt: real, trig: Trig)
    requires Pythagorean(trig) && Simulable(s.userData) && !s.userData.def.isStar
    ensures var r := StepBody(s, timeScale, dt, trig);
            var radius := s.userData.orbitalRadiusScene.value;
            r.x * r.x + r.z * r.z == radius * radius
  {
    var r := StepBody(s, timeScale, dt, trig);
    var radius := s.userData.orbitalRadiusScene.value;
    var a := r.userData.angle.value;
    var c, sn := trig.cos(a), trig.sin(a);
    assert c * c + sn * sn == 1.0;
    calc {
      r.x * r.x + r.z * r.z;
      (radius * c) * (radius * c) + (radius * sn) * (radius * sn);
      radius * radius * (c * c + sn * sn);
      radius * radius;
    }
  }

  /** `k` increments of `m`, added one at a time. */
  function Repeated(m: real, k: nat): real {
    if k == 0 then 0.0 else Repeated(m, k - 1) + m
  }

  lemma {:induction false} RepeatedIsProduct(m: real, k: nat)
    ensures Repeated(m, k) == (k as real) * m
  {
    if k > 0 {
      RepeatedIsProduct(m, k - 1);
      assert ((k - 1) as real) * m + m == (k as real) * m;
    }
  }

  lemma {:induction false} AngleSumAfterFrames(s: BodyState, timeScale: real, dt: real, trig: Trig, k: nat)
    requires Simulable(s.userData) && !s.userData.def.isStar
    requires 0.0 < dt < 0.2
    ensures Frames(s, timeScale, dt, trig, k).userData.angle ==
              Some(s.userData.angle.value + Repeated(PlanetAngleStep(s.userData.def, timeScale, dt), k))
  {
    if k > 0 {
      AngleSumAfterFrames(s, timeScale, dt, trig, k - 1);
      OrbitStep(Frames(s, timeScale, dt, trig, k - 1), timeScale, dt, trig);
    }
  }

  /** `k` times a planet's per-frame increment. */
  function Increments(d: BodyDef, timeScale: real, dt: real, k: nat): real
    requires d.orbitalRadiusAU.Some? && Damping(d.orbitalRadiusAU.value) != 0.0
  {
    (k as real) * PlanetAngleStep(d, timeScale, dt)
  }

  /** After `k` frames of the same accepted `dt` a planet's angle is its start angle
      plus `k` times the per-frame increment; it never wraps around. */
  lemma AngleAfterFrames(s: BodyState, timeScale: real, dt: real, trig: Trig, k: nat)
    requires Simulable(s.userData) && !s.userData.def.isStar
    requires 0.0 < dt < 0.2
    ensures Frames(s, timeScale, dt, trig, k).userData.angle ==
              Some(s.userData.angle.value + Increments(s.userData.def, timeScale, dt, k))
  {
    AngleSumAfterFrames(s, timeScale, dt, trig, k);
    RepeatedIsProduct(PlanetAngleStep(s.userData.def, timeScale, dt), k);
  }

  /** The star keeps its angle, radius and position over any sequence of frames,
      accepted or rejected. */
  lemma {:induction false} StarNeverMoves(s: BodyState, timeScale: real, dts: seq<JsNum>, trig: Trig)
    requires Simulable(s.userData) && s.userData.def.isStar
    ensures var r := Run(s, timeScale, dts, trig);
            r.userData == s.userData && r.x == s.x && r.y == s.y && r.z == s.z
    decreases |dts|
  {
    if |dts| > 0 {
      StarNeverMoves(Advance(s, timeScale, dts[0], trig), timeScale, dts[1..], trig);
    }
  }

  /** A body whose spin factor is 0 or undefined never rotates, whatever the frames. */
  lemma {:induction false} NoSpinNeverRotates(s: BodyState, timeScale: real, dts: seq<JsNum>, trig: Trig)
    requires Simulable(s.userData) && !Truthy(s.userData.def.rotationSpeedFactor)
    ensures Run(s, timeScale, dts, trig).rotationY == s.rotationY
    decreases |dts|
  {
    if |dts| > 0 {
      NoSpinNeverRotates(Advance(s, timeScale, dts[0], trig), timeScale, dts[1..], trig);
    }
  }

  /** No sequence of frames ever writes `position.y`. */
  lemma {:induction false} HeightNeverChanges(s: BodyState, timeScale: real, dts: seq<JsNum>, trig: Trig)
    requires Simulable(s.userData)
    ensures Run(s, timeScale, dts, trig).y == s.y
    decreases |dts|
  {
    if |dts| > 0 {
      HeightNeverChanges(Advance(s, timeScale, dts[0], trig), timeScale, dts[1..], trig);
    }
  }

  /** One more frame at the end of a run is one more `Advance`. */
  lemma {:induction false} RunSnoc(s: BodyState, timeScale: real, dts: seq<JsNum>, d: JsNum, trig: Trig)
    requires Simulable(s.userData)
    ensures Run(s, timeScale, dts + [d], trig) == Advance(Run(s, timeScale, dts, trig), timeScale, d, trig)
    decreases |dts|
  {
    if |dts| == 0 {
      assert ([] + [d])[1..] == [];
    } else {
      assert (dts + [d])[0] == dts[0];
      assert (dts + [d])[1..] == dts[1..] + [d];
      RunSnoc(Advance(s, timeScale, dts[0], trig), timeScale, dts[1..], d, trig);
    }
  }

  /** `k` frames of one accepted `dt` are the run of `k` frames with that delta: the
      gate lets every one of them through. */
  lemma {:induction false} FramesIsRun(s: BodyState, timeScale: real, dt: real, trig: Trig, k: nat)
    requires Simulable(s.userData) && 0.0 < dt < 0.2
    ensures Frames(s, timeScale, dt, trig, k) == Run(s, timeScale, seq(k, _ => Num(dt)), trig)
  {
    if k > 0 {
      FramesIsRun(s, timeScale, dt, trig, k - 1);
      var prev := seq(k - 1, _ => Num(dt));
      assert seq(k, _ => Num(dt)) == prev + [Num(dt)];
      RunSnoc(s, timeScale, prev, Num(dt), trig);
      assert Accepts(Num(dt));
    }
  }

  /** The sum of a planet's increments over the accepted frames among `dts`. */
  function TotalIncrement(d: BodyDef, timeScale: real, dts: seq<JsNum>): real
    requires d.orbitalRadiusAU.Some? && Damping(d.orbitalRadiusAU.value) != 0.0
    decreases |dts|
  {
    if |dts| == 0 then 0.0
    else (if Accepts(dts[0]) then PlanetAngleStep(d, timeScale, dts[0].v) else 0.0)
         + TotalIncrement(d, timeScale, dts[1..])
  }

  /** Over any sequence of frames a planet's angle is its start angle plus one
      increment per accepted frame; rejected frames add nothing. */
  lemma {:induction false} AngleAfterRun(s: BodyState, timeScale: real, dts: seq<JsNum>, trig: Trig)
    requires Simulable(s.userData) && !s.userData.def.isStar
    ensures Run(s, timeScale, dts, trig).userData.angle ==
              Some(s.userData.angle.value + TotalIncrement(s.userData.def, timeScale, dts))
    decreases |dts|
  {
    if |dts| > 0 {
      var s1 := Advance(s, timeScale, dts[0], trig);
      if Accepts(dts[0]) {
        OrbitStep(s, timeScale, dts[0].v, trig);
      }
      AngleAfterRun(s1, timeScale, dts[1..], trig);
    }
  }

  /** For a planet with positive speed and radius, under a positive time scale, the
      increments never sum to less than zero, and the sum is positive exactly when
      some frame was accepted: the planet moves forward on accepted frames only. */
  lemma {:induction false} TotalIncrementSign(d: BodyDef, timeScale: real, dts: seq<JsNum>)
    requires d.orbitalRadiusAU.Some? && d.orbitalRadiusAU.value > 0.0
    requires d.orbitalSpeedFactor > 0.0 && timeScale > 0.0
    ensures Damping(d.orbitalRadiusAU.value) > 0.6
    ensures TotalIncrement(d, timeScale, dts) >= 0.0
    ensures TotalIncrement(d, timeScale, dts) > 0.0 <==> exists k :: 0 <= k < |dts| && Accepts(dts[k])
    decreases |dts|
  {
    var au := d.orbitalRadiusAU.value;
    assert Damping(au) > 0.6;
    if |dts| > 0 {
      TotalIncrementSign(d, timeScale, dts[1..]);
      if Accepts(dts[0]) {
        AngleIncrementPositive(d.orbitalSpeedFactor, timeScale, dts[0].v, au);
      }
      if exists k :: 0 <= k < |dts[1..]| && Accepts(dts[1..][k]) {
        var k :| 0 <= k < |dts[1..]| && Accepts(dts[1..][k]);
        assert Accepts(dts[k + 1]);
      }
      if exists k :: 0 <= k < |dts| && Accepts(dts[k]) {
        var k :| 0 <= k < |dts| && Accepts(dts[k]);
        if k > 0 {
          assert Accepts(dts[1..][k - 1]);
        }
      }
    }
  }

  /** Earth with the shipped scales at 16 ms frames: 0.004 radians per frame, so 4
      radians after 1000 frames. */
  lemma EarthThousandFrames(s: BodyState, trig: Trig)
    requires Simulable(s.userData) && s.userData.def == SolarSystemData[3]
    ensures AngleIncrement(1.0, OrbitRate(OrbitalScales.timeScale), 0.016, 1.0) == 0.004
    ensures Frames(s, OrbitalScales.timeScale, 0.016, trig, 1000).userData.angle == Some(s.userData.angle.value + 4.0)
  {
    AngleAfterFrames(s, OrbitalScales.timeScale, 0.016, trig, 1000);
  }

  /** Every mesh the factory makes from the shipped catalog can be stepped. */
  lemma CatalogBodiesSimulable(i: int, r: real)
    requires 0 <= i < |SolarSystemData| && 0.0 <= r < 1.0
    ensures !SolarSystemData[i].isStar ==> SolarSystemData[i].orbitalRadiusAU.Some?
    ensures Simulable(InitialUserData(SolarSystemData[i], OrbitalScales, r))
  {
    CatalogWellFormed();
    if i > 0 {
      DampingPositive(SolarSystemData, i);
    }
  }

  /** The factory leaves a planet at the origin, which is off its orbit circle: the
      circle holds only from the first accepted frame on. */
  lemma OffCircleBeforeFirstFrame(n: Node, d: BodyDef, scales: Scales, r: real, scene: Node)
    requires Created(n, d, scales, r, scene) && !d.isStar
    requires d.orbitalRadiusAU.value > 0.0 && scales.distanceFactor > 0.0
    ensures n.userData.orbitalRadiusScene.Some?
    ensures var radius := n.userData.orbitalRadiusScene.value;
            n.x * n.x + n.z * n.z != radius * radius
  {
    var radius := n.userData.orbitalRadiusScene.value;
    assert radius == SceneRadius(d.orbitalRadiusAU.value, scales);
    ProductSigns(d.orbitalRadiusAU.value, scales.distanceFactor);
    ProductSigns(radius, radius);
    calc {
      n.x * n.x + n.z * n.z;
      0.0 * 0.0 + 0.0 * 0.0;
    <
      radius * radius;
    }
  }

  /** The closure created by `animateLoop`: the scales, the body list and the last
      frame time it captures, and `loop` without its rendering calls. */
  class Animator {
    const scales: Scales
    const bodies: seq<Node>
    const trig: Trig
    var lastTime: JsNum

    ghost predicate Valid()
      reads bodies
    {
      && (forall i, j :: 0 <= i < j < |bodies| ==> bodies[i] != bodies[j])
      && (forall i :: 0 <= i < |bodies| ==> Simulable(bodies[i].userData))
    }

    /** `animateLoop` up to its first `requestAnimationFrame`: `lastTime = 0`. */
    constructor (scales: Scales, bodies: seq<Node>, trig: Trig)
      requires forall i, j :: 0 <= i < j < |bodies| ==> bodies[i] != bodies[j]
      requires forall i :: 0 <= i < |bodies| ==> Simulable(bodies[i].userData)
      ensures this.scales == scales && this.bodies == bodies && this.trig == trig
      ensures lastTime == Num(0.0)
      ensures Valid()
    {
      this.scales := scales;
      this.bodies := bodies;
      this.trig := trig;
      lastTime := Num(0.0);
    }

    /** The `forEach` callback of `loop` on body `b`, for an accepted `dt`. */
    method UpdateBody(b: Node, baseOrb: real, baseRot: real, dt: real)
      requires Simulable(b.userData)
      requires baseOrb == OrbitRate(scales.timeScale) && baseRot == SpinRate(scales.timeScale)
      modifies b`rotationY, b`userData, b`x, b`z
      ensures StateOf(b) == StepBody(old(StateOf(b)), scales.timeScale, dt, trig)
    {
      var d := b.userData.def;
      if Truthy(d.rotationSpeedFactor) {
        b.rotationY := b.rotationY + SpinIncrement(d.rotationSpeedFactor.value, baseRot, dt);
      }
      if !d.isStar {
        var eff := AngleIncrement(d.orbitalSpeedFactor, baseOrb, dt, d.orbitalRadiusAU.value);
        b.userData := b.userData.(angle := Some(b.userData.angle.value + eff));
        b.x := CircleX(b.userData.orbitalRadiusScene.value, b.userData.angle.value, trig);
        b.z := CircleZ(b.userData.orbitalRadiusScene.value, b.userData.angle.value, trig);
      }
    }

    /** One call of `loop(now)`: `lastTime` becomes `now` in seconds whatever happens;
        every body advances by `Advance` with the measured `dt`, on its own state
        alone; nothing else about a body changes. */
    method FrameStep(now: JsNum)
      requires Valid()
      modifies this`lastTime, bodies
      ensures Valid()
      ensures lastTime == Seconds(now)
      ensures forall i :: 0 <= i < |bodies| ==>
        StateOf(bodies[i]) == Advance(old(StateOf(bodies[i])), scales.timeScale, FrameDt(now, old(lastTime)), trig)
      ensures forall i :: 0 <= i < |bodies| ==>
        && bodies[i].name == old(bodies[i].name)
        && bodies[i].parent == old(bodies[i].parent)
        && bodies[i].children == old(bodies[i].children)
    {
      var t := Seconds(now);
      var dt := Sub(t, lastTime);
      lastTime := t;
      if !IsNaN(dt) && Gt(dt, 0.0) && Lt(dt, 0.2) {
        var baseOrb := OrbitRate(scales.timeScale);
        var baseRot := SpinRate(scales.timeScale);
        var i := 0;
        while i < |bodies|
          invariant 0 <= i <= |bodies| && lastTime == t
          invariant forall j :: 0 <= j < i ==>
            StateOf(bodies[j]) == StepBody(old(StateOf(bodies[j])), scales.timeScale, dt.v, trig)
          invariant forall j :: i <= j < |bodies| ==> StateOf(bodies[j]) == old(StateOf(bodies[j]))
          invariant forall j :: 0 <= j < |bodies| ==>
            && bodies[j].name == old(bodies[j].name)
            && bodies[j].parent == old(bodies[j].parent)
            && bodies[j].children == old(bodies[j].children)
        {
          UpdateBody(bodies[i], baseOrb, baseRot, dt.v);
          i := i + 1;
        }
      }
    }
  }
}
