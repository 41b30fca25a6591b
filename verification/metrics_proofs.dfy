/** Properties of the session accumulator over whole batches and sessions. */
module MetricsProofs {
  import opened Outcomes
  import opened MathUtil
  import opened BleTypes
  import opened SportConfig
  import opened Filters
  import opened Metrics

  /** A sample reports an impact exactly when the detector fires on its motion. */
  lemma StepFires(st: Session, s: Sample, root: real -> real)
    requires Configured(st)
    ensures var m := MotionOf(st, s, root);
            Step(st, s, root).notice.Some? <==>
              Fires(st.cfg.value, s.tMs, st.refractoryUntil, m.aMag, m.wMag)
  {
  }

  /** Every sample advances the filters once: each accel axis's high-pass state becomes `hp1`
      of that axis from the previous state, and the gyro envelope becomes `lpf` of the
      bias-corrected gyro magnitude at 5 Hz; an impact's swing speed is that magnitude times
      the racket radius. */
  lemma StepAdvancesFilters(st: Session, s: Sample, root: real -> real)
    requires Configured(st)
    ensures var o := Step(st, s, root);
            var c := st.cfg.value;
            var dt := SampleDt(st.prevTs, s.tMs);
            var b := CalibStep(st.calib, s).bias;
            var wMag := root(NormSq(Vec3(s.gx - b.x, s.gy - b.y, s.gz - b.z)));
            && o.session.bank.hpX == Hp1(s.ax, st.bank.hpX, dt, Rc(c.accelHpHz))
            && o.session.bank.hpY == Hp1(s.ay, st.bank.hpY, dt, Rc(c.accelHpHz))
            && o.session.bank.hpZ == Hp1(s.az, st.bank.hpZ, dt, Rc(c.accelHpHz))
            && o.session.bank.env == Lpf(wMag, st.bank.env, dt, Rc(EnvCutoffHz))
            && (o.notice.Some? ==> o.notice.value.speed == wMag * c.radiusM)
  {
    var m := MotionOf(st, s, root);
    assert m == Sense(st.cfg.value, st.bank, s, SampleDt(st.prevTs, s.tMs),
                      CalibStep(st.calib, s).bias, root);
  }

  /** The detector without the square root, for magnitudes that are true roots of non-negative
      squared norms. */
  lemma FiresSquared(c: SportCfg, now: int, refr: real, m: Motion, root: real -> real)
    requires IsSqrt(root)
    requires m.aq >= 0.0 && m.wq >= 0.0 && m.aMag == root(m.aq) && m.wMag == root(m.wq)
    ensures Fires(c, now, refr, m.aMag, m.wMag) <==>
              && now as real >= refr
              && AtLeastRootOf(m.aq, c.impactG * Constants.G)
              && AtLeastRootOf(m.wq, c.gyroPeakDps / RadToDps)
  {
    RootAtLeast(root, m.aq, c.impactG * Constants.G);
    RootAtLeast(root, m.wq, c.gyroPeakDps / RadToDps);
    assert RadToDps > 0.0;
    assert m.wMag * RadToDps >= c.gyroPeakDps <==> m.wMag >= c.gyroPeakDps / RadToDps;
  }

  /** Without the square root: an impact fires exactly when the refractory period is over, the
      squared high-passed accel norm reaches `(impactG * G)^2` and the squared bias-corrected
      gyro norm reaches the square of the gyro threshold converted to rad/s (a non-positive
      threshold is always met). */
  lemma ImpactRule(st: Session, s: Sample, root: real -> real)
    requires Configured(st)
    requires IsSqrt(root)
    ensures var m := MotionOf(st, s, root);
            var c := st.cfg.value;
            Step(st, s, root).notice.Some? <==>
              && s.tMs as real >= st.refractoryUntil
              && AtLeastRootOf(m.aq, c.impactG * Constants.G)
              && AtLeastRootOf(m.wq, c.gyroPeakDps / RadToDps)
  {
    StepFires(st, s, root);
    FiresSquared(st.cfg.value, s.tMs, st.refractoryUntil, MotionOf(st, s, root), root);
  }

  /** The squared norms the detector compares, in terms of the sample: the accel axes through
      the high-pass filters at the clamped interval, the gyro axes less the bias as updated by
      this sample. */
  lemma MotionOfSample(st: Session, s: Sample, root: real -> real)
    requires Configured(st)
    ensures var c := st.cfg.value;
            var dt := SampleDt(st.prevTs, s.tMs);
            var b := CalibStep(st.calib, s).bias;
            var m := MotionOf(st, s, root);
            && m.aq == NormSq(Vec3(Hp1(s.ax, st.bank.hpX, dt, Rc(c.accelHpHz)).y,
                                   Hp1(s.ay, st.bank.hpY, dt, Rc(c.accelHpHz)).y,
                                   Hp1(s.az, st.bank.hpZ, dt, Rc(c.accelHpHz)).y))
            && m.wq == NormSq(Vec3(s.gx - b.x, s.gy - b.y, s.gz - b.z))
  {
    var c := st.cfg.value;
    var dt := SampleDt(st.prevTs, s.tMs);
    var b := CalibStep(st.calib, s).bias;
    var m := MotionOf(st, s, root);
    assert m == Sense(c, st.bank, s, dt, b, root);
    var hx := Hp1(s.ax, st.bank.hpX, dt, Rc(c.accelHpHz));
    var hy := Hp1(s.ay, st.bank.hpY, dt, Rc(c.accelHpHz));
    var hz := Hp1(s.az, st.bank.hpZ, dt, Rc(c.accelHpHz));
    assert m.bank.hpX == hx && m.bank.hpY == hy && m.bank.hpZ == hz;
    assert Vec3(m.bank.hpX.y, m.bank.hpY.y, m.bank.hpZ.y) == Vec3(hx.y, hy.y, hz.y);
  }

  /** The impact rule in terms of the sample itself: the high-passed accel axes and the
      bias-corrected gyro axes, squared and summed, are compared with the squared thresholds. */
  lemma ImpactOnSample(st: Session, s: Sample, root: real -> real)
    requires Configured(st)
    requires IsSqrt(root)
    ensures var c := st.cfg.value;
            var dt := SampleDt(st.prevTs, s.tMs);
            var b := CalibStep(st.calib, s).bias;
            var accel := Vec3(Hp1(s.ax, st.bank.hpX, dt, Rc(c.accelHpHz)).y,
                              Hp1(s.ay, st.bank.hpY, dt, Rc(c.accelHpHz)).y,
                              Hp1(s.az, st.bank.hpZ, dt, Rc(c.accelHpHz)).y);
            var gyro := Vec3(s.gx - b.x, s.gy - b.y, s.gz - b.z);
            Step(st, s, root).notice.Some? <==>
              && s.tMs as real >= st.refractoryUntil
              && AtLeastRootOf(NormSq(accel), c.impactG * Constants.G)
              && AtLeastRootOf(NormSq(gyro), c.gyroPeakDps / RadToDps)
  {
    ImpactRule(st, s, root);
    MotionOfSample(st, s, root);
  }

  /** Impact `n` is the next one after tallies `t` and refractory time `refr`: it comes once the
      refractory period is over, its rally length follows the rally rule and it is the next swing. */
  predicate Follows(c: SportCfg, t: Tallies, refr: real, n: Notice)
  {
    && n.tMs as real >= refr
    && n.rally == RallyRule(t.lastImpactMs, t.rally, n.tMs, RallyGapMs(c))
    && n.swings == t.swings + 1
  }

  /** Tallies `t` and refractory time `refr` are those left by impact `n`. */
  predicate Reflects(c: SportCfg, t: Tallies, refr: real, n: Notice)
  {
    && t.rally == n.rally && t.lastImpactMs == n.tMs && t.peakSpeed == n.peakSpeed
    && t.swings == n.swings
    && refr == n.tMs as real + c.refractoryMs
  }

  /** The impacts `ns` lead from (`t0`, `r0`) to (`t`, `r`): nothing changes without impacts;
      otherwise the first follows the starting state, each later one follows the previous
      impact, swing numbers count up by one, and the final state reflects the last impact. */
  predicate Chained(c: SportCfg, t0: Tallies, r0: real, ns: seq<Notice>, t: Tallies, r: real)
  {
    && t.swings == t0.swings + |ns|
    && (|ns| == 0 ==> t == t0 && r == r0)
    && (|ns| > 0 ==> Follows(c, t0, r0, ns[0]) && Reflects(c, t, r, ns[|ns| - 1]))
    && (forall i :: 1 <= i < |ns| ==>
          && ns[i].tMs as real >= ns[i - 1].tMs as real + c.refractoryMs
          && ns[i].rally == RallyRule(ns[i - 1].tMs, ns[i - 1].rally, ns[i].tMs, RallyGapMs(c)))
    && (forall i :: 0 <= i < |ns| ==> ns[i].swings == t0.swings + i + 1)
  }

  /** Chains compose: the impacts of two consecutive stretches chain together. */
  lemma ChainedCompose(c: SportCfg, t0: Tallies, r0: real, a: seq<Notice>, t1: Tallies, r1: real,
                       b: seq<Notice>, t2: Tallies, r2: real)
    requires Chained(c, t0, r0, a, t1, r1) && Chained(c, t1, r1, b, t2, r2)
    ensures Chained(c, t0, r0, a + b, t2, r2)
  {
    var ab := a + b;
    if |a| == 0 {
      assert ab == b;
    } else if |b| == 0 {
      assert ab == a;
    } else {
      assert forall i :: 0 <= i < |a| ==> ab[i] == a[i];
      assert forall i :: |a| <= i < |ab| ==> ab[i] == b[i - |a|];
      assert ab[|a| - 1] == a[|a| - 1] && ab[|a|] == b[0];
    }
  }

  /** One sample chains its impact, if any, onto the state before it. */
  lemma StepChain(st: Session, s: Sample, root: real -> real)
    requires Configured(st)
    ensures var o := Step(st, s, root);
            Chained(st.cfg.value, st.tally, st.refractoryUntil, NoticeSeq(o.notice),
                    o.session.tally, o.session.refractoryUntil)
  {
  }

  /** The notices of a batch chain together: each impact comes after the refractory window of
      the previous one, its rally length follows the rally rule from the previous impact, its
      swing number is one more, and the state after the batch reflects the last impact. */
  lemma {:induction false} RunChain(st: Session, batch: seq<Sample>, root: real -> real)
    requires Configured(st)
    ensures var r := Run(st, batch, root);
            Chained(st.cfg.value, st.tally, st.refractoryUntil, r.notices,
                    r.session.tally, r.session.refractoryUntil)
    decreases |batch|
  {
    if |batch| > 0 {
      var c := st.cfg.value;
      var one := Step(st, batch[0], root);
      var rest := Run(one.session, batch[1..], root);
      StepChain(st, batch[0], root);
      RunChain(one.session, batch[1..], root);
      ChainedCompose(c, st.tally, st.refractoryUntil, NoticeSeq(one.notice),
                     one.session.tally, one.session.refractoryUntil,
                     rest.notices, rest.session.tally, rest.session.refractoryUntil);
      assert Run(st, batch, root) == Ingested(rest.session, NoticeSeq(one.notice) + rest.notices);
    }
  }

  /** Refractory suppression: with a non-negative refractory period, any two impacts of one
      batch are at least `refractoryMs` apart, so a second burst inside the window of the
      first is never counted. */
  lemma RefractorySpacing(st: Session, batch: seq<Sample>, root: real -> real, i: int, j: int)
    requires Configured(st) && st.cfg.value.refractoryMs >= 0.0
    requires 0 <= i < j < |Run(st, batch, root).notices|
    ensures var ns := Run(st, batch, root).notices;
            ns[j].tMs as real >= ns[i].tMs as real + st.cfg.value.refractoryMs
  {
    RunChain(st, batch, root);
    var ns := Run(st, batch, root).notices;
    var refr := st.cfg.value.refractoryMs;
    var k := i + 1;
    while k < j
      invariant i + 1 <= k <= j
      invariant ns[k].tMs as real >= ns[i].tMs as real + refr
    {
      assert ns[k + 1].tMs as real >= ns[k].tMs as real + refr;
      k := k + 1;
    }
  }

  /** An impact at `now` continues the rally of the impact at `prev`: a previous impact is
      recorded (a non-zero time) and lies no more than the rally gap earlier, the gap itself
      included. */
  predicate ContinuesRally(c: SportCfg, prev: int, now: int)
  {
    prev != 0 && (now - prev) as real <= RallyGapMs(c)
  }

  /** The rally length of impact `j` counts the maximal run of impacts ending at `j` in which
      each continues the rally of the one before: the run starts at index `j + 1 - rally`,
      every gap inside it continues the rally and the gap just before it does not. */
  predicate MaximalRallyRun(c: SportCfg, ns: seq<Notice>, j: int)
    requires 0 <= j < |ns|
  {
    && 1 <= ns[j].rally <= j + 1
    && (forall k :: j + 1 - ns[j].rally < k <= j ==> ContinuesRally(c, ns[k - 1].tMs, ns[k].tMs))
    && (j + 1 - ns[j].rally > 0 ==>
          !ContinuesRally(c, ns[j - ns[j].rally].tMs, ns[j + 1 - ns[j].rally].tMs))
  }

  /** What a rally is: starting with no recorded impact, every impact's rally length is its
      maximal run of impacts that continue one another's rally. */
  lemma {:induction false} RallyIsMaximalRun(c: SportCfg, t0: Tallies, r0: real, ns: seq<Notice>,
                                             t: Tallies, r: real, j: int)
    requires Chained(c, t0, r0, ns, t, r) && t0.lastImpactMs == 0
    requires 0 <= j < |ns|
    ensures MaximalRallyRun(c, ns, j)
    decreases j
  {
    if j > 0 {
      RallyIsMaximalRun(c, t0, r0, ns, t, r, j - 1);
      assert ns[j].rally == RallyRule(ns[j - 1].tMs, ns[j - 1].rally, ns[j].tMs, RallyGapMs(c));
    }
  }

  /** `maxRally` tracked between two states: it never decreased, it bounds the rally length of
      every impact `ns`, and it is either the earlier maximum or one of those lengths. */
  predicate RalliesTallied(before: Tallies, after: Tallies, ns: seq<Notice>)
  {
    && before.maxRally <= after.maxRally
    && (forall i :: 0 <= i < |ns| ==> ns[i].rally <= after.maxRally)
    && (after.maxRally == before.maxRally || exists i :: 0 <= i < |ns| && after.maxRally == ns[i].rally)
  }

  /** Rally tracking composes over consecutive runs of impacts. */
  lemma RalliesTalliedCompose(t0: Tallies, t1: Tallies, t2: Tallies, a: seq<Notice>, b: seq<Notice>)
    requires RalliesTallied(t0, t1, a) && RalliesTallied(t1, t2, b)
    ensures RalliesTallied(t0, t2, a + b)
  {
    var ab := a + b;
    assert forall i :: 0 <= i < |a| ==> ab[i] == a[i];
    assert forall i :: 0 <= i < |b| ==> ab[|a| + i] == b[i];
    if t2.maxRally != t0.maxRally {
      if t2.maxRally == t1.maxRally {
        var i :| 0 <= i < |a| && t1.maxRally == a[i].rally;
        assert t2.maxRally == ab[i].rally;
      } else {
        var i :| 0 <= i < |b| && t2.maxRally == b[i].rally;
        assert t2.maxRally == ab[|a| + i].rally;
      }
    }
  }

  /** One sample tracks the rally length of its impact, if any. */
  lemma StepRallies(st: Session, s: Sample, root: real -> real)
    requires Configured(st)
    ensures var o := Step(st, s, root);
            RalliesTallied(st.tally, o.session.tally, NoticeSeq(o.notice))
  {
    var o := Step(st, s, root);
    if o.notice.Some? {
      assert NoticeSeq(o.notice)[0] == o.notice.value;
    }
  }

  /** `maxRally` is the largest rally length reached: it never decreases, it bounds the rally
      length of every impact, and it is either the previous maximum or one of those lengths. */
  lemma {:induction false} RunMaxRally(st: Session, batch: seq<Sample>, root: real -> real)
    requires Configured(st)
    ensures var r := Run(st, batch, root);
            RalliesTallied(st.tally, r.session.tally, r.notices)
    decreases |batch|
  {
    if |batch| > 0 {
      var one := Step(st, batch[0], root);
      var rest := Run(one.session, batch[1..], root);
      StepRallies(st, batch[0], root);
      RunMaxRally(one.session, batch[1..], root);
      RalliesTalliedCompose(st.tally, one.session.tally, rest.session.tally,
                            NoticeSeq(one.notice), rest.notices);
      assert Run(st, batch, root) == Ingested(rest.session, NoticeSeq(one.notice) + rest.notices);
    }
  }

  /** The swing speeds of a run of notices. */
  function Speeds(ns: seq<Notice>): (r: seq<real>)
    ensures |r| == |ns|
    ensures forall i :: 0 <= i < |ns| ==> r[i] == ns[i].speed
  {
    seq(|ns|, i requires 0 <= i < |ns| => ns[i].speed)
  }

  /** Speed tallies between two states: the speed sum grew by exactly the speeds of the
      impacts `ns`, and the peak is the largest of the earlier peak and those speeds. */
  predicate SpeedsTallied(before: Tallies, after: Tallies, ns: seq<Notice>)
  {
    && after.sumSpeed == before.sumSpeed + Sum(Speeds(ns))
    && before.peakSpeed <= after.peakSpeed
    && (forall i :: 0 <= i < |ns| ==> ns[i].speed <= after.peakSpeed)
    && (after.peakSpeed == before.peakSpeed || exists i :: 0 <= i < |ns| && after.peakSpeed == ns[i].speed)
  }

  /** Speed tallying composes over consecutive runs of impacts. */
  lemma SpeedsTalliedCompose(t0: Tallies, t1: Tallies, t2: Tallies, a: seq<Notice>, b: seq<Notice>)
    requires SpeedsTallied(t0, t1, a) && SpeedsTallied(t1, t2, b)
    ensures SpeedsTallied(t0, t2, a + b)
  {
    var ab := a + b;
    assert Speeds(ab) == Speeds(a) + Speeds(b);
    SumAppend(Speeds(a), Speeds(b));
    assert forall i :: 0 <= i < |a| ==> ab[i] == a[i];
    assert forall i :: 0 <= i < |b| ==> ab[|a| + i] == b[i];
    if t2.peakSpeed != t0.peakSpeed {
      if t2.peakSpeed == t1.peakSpeed {
        var i :| 0 <= i < |a| && t1.peakSpeed == a[i].speed;
        assert t2.peakSpeed == ab[i].speed;
      } else {
        var i :| 0 <= i < |b| && t2.peakSpeed == b[i].speed;
        assert t2.peakSpeed == ab[|a| + i].speed;
      }
    }
  }

  /** One sample tallies the speed of its impact, if any. */
  lemma StepSpeeds(st: Session, s: Sample, root: real -> real)
    requires Configured(st)
    ensures var o := Step(st, s, root);
            SpeedsTallied(st.tally, o.session.tally, NoticeSeq(o.notice))
  {
    var o := Step(st, s, root);
    if o.notice.Some? {
      var f := NoticeSeq(o.notice);
      assert f[0] == o.notice.value;
      assert Speeds(f)[1..] == [];
    } else {
      assert Speeds([]) == [];
    }
  }

  /** Speed tallies over a batch: the speed sum grows by exactly the speeds of the impacts, and
      the peak is the largest of the previous peak and those speeds. */
  lemma {:induction false} RunSpeeds(st: Session, batch: seq<Sample>, root: real -> real)
    requires Configured(st)
    ensures var r := Run(st, batch, root);
            SpeedsTallied(st.tally, r.session.tally, r.notices)
    decreases |batch|
  {
    if |batch| == 0 {
      assert Speeds([]) == [];
    } else {
      var one := Step(st, batch[0], root);
      var rest := Run(one.session, batch[1..], root);
      StepSpeeds(st, batch[0], root);
      RunSpeeds(one.session, batch[1..], root);
      SpeedsTalliedCompose(st.tally, one.session.tally, rest.session.tally,
                           NoticeSeq(one.notice), rest.notices);
      assert Run(st, batch, root) == Ingested(rest.session, NoticeSeq(one.notice) + rest.notices);
    }
  }

  /** Length of the longest prefix of `batch` stamped no later than `until`: the samples the
      open calibration window takes in before the first one past it closes the window. */
  function CalibPrefix(batch: seq<Sample>, until: int): (p: nat)
    ensures p <= |batch|
    ensures forall i :: 0 <= i < p ==> batch[i].tMs <= until
    ensures p < |batch| ==> batch[p].tMs > until
  {
    if |batch| == 0 || batch[0].tMs > until then 0
    else
      var p := CalibPrefix(batch[1..], until);
      assert forall i :: 1 <= i < |batch| ==> batch[i] == batch[1..][i - 1];
      1 + p
  }

  /** The raw gyro channels of a run of samples. */
  function Gx(b: seq<Sample>): (r: seq<real>)
    ensures |r| == |b| && forall i :: 0 <= i < |b| ==> r[i] == b[i].gx
  {
    seq(|b|, i requires 0 <= i < |b| => b[i].gx)
  }

  function Gy(b: seq<Sample>): (r: seq<real>)
    ensures |r| == |b| && forall i :: 0 <= i < |b| ==> r[i] == b[i].gy
  {
    seq(|b|, i requires 0 <= i < |b| => b[i].gy)
  }

  function Gz(b: seq<Sample>): (r: seq<real>)
    ensures |r| == |b| && forall i :: 0 <= i < |b| ==> r[i] == b[i].gz
  {
    seq(|b|, i requires 0 <= i < |b| => b[i].gz)
  }

  /** Once the calibration window has closed the bias accumulator never changes again. */
  lemma {:induction false} RunFrozen(st: Session, batch: seq<Sample>, root: real -> real)
    requires Configured(st) && !st.calib.calibrating
    ensures Run(st, batch, root).session.calib == st.calib
    decreases |batch|
  {
    if |batch| > 0 {
      RunFrozen(Step(st, batch[0], root).session, batch[1..], root);
    }
  }

  /** The running total behind a running mean: mean times count. */
  function RunningTotal(mean: real, n: nat): real
  {
    mean * (n as real)
  }

  /** The accumulator went from `c0` to `c` by taking in exactly the samples `xs`: the count
      grew by their number and each axis's running total by the sum of their readings. */
  predicate Absorbed(c0: Calib, c: Calib, xs: seq<Sample>)
  {
    && c.n == c0.n + |xs|
    && RunningTotal(c.bias.x, c.n) == RunningTotal(c0.bias.x, c0.n) + Sum(Gx(xs))
    && RunningTotal(c.bias.y, c.n) == RunningTotal(c0.bias.y, c0.n) + Sum(Gy(xs))
    && RunningTotal(c.bias.z, c.n) == RunningTotal(c0.bias.z, c0.n) + Sum(Gz(xs))
  }

  /** Taking in two runs of samples one after the other takes in their concatenation. */
  lemma AbsorbedCompose(c0: Calib, c1: Calib, c: Calib, a: seq<Sample>, b: seq<Sample>)
    requires Absorbed(c0, c1, a) && Absorbed(c1, c, b)
    ensures Absorbed(c0, c, a + b)
  {
    assert Gx(a + b) == Gx(a) + Gx(b);
    assert Gy(a + b) == Gy(a) + Gy(b);
    assert Gz(a + b) == Gz(a) + Gz(b);
    SumAppend(Gx(a), Gx(b));
    SumAppend(Gy(a), Gy(b));
    SumAppend(Gz(a), Gz(b));
  }

  /** A sample inside the open window is taken into the accumulator, which stays open. */
  lemma CalibStepAbsorbs(c: Calib, s: Sample)
    requires c.calibrating && s.tMs <= c.untilMs
    ensures CalibStep(c, s).calibrating && CalibStep(c, s).untilMs == c.untilMs
    ensures Absorbed(c, CalibStep(c, s), [s])
  {
    assert Gx([s])[1..] == [] && Gy([s])[1..] == [] && Gz([s])[1..] == [];
    assert Sum(Gx([s])) == s.gx && Sum(Gy([s])) == s.gy && Sum(Gz([s])) == s.gz;
  }

  /** The first sample past the open window closes it and leaves the accumulator frozen for
      the rest of the batch. */
  lemma RunClosesWindow(st: Session, batch: seq<Sample>, root: real -> real)
    requires Configured(st) && st.calib.calibrating
    requires |batch| > 0 && batch[0].tMs > st.calib.untilMs
    ensures Run(st, batch, root).session.calib == st.calib.(calibrating := false)
  {
    var one := Step(st, batch[0], root);
    RunFrozen(one.session, batch[1..], root);
    assert Run(st, batch, root).session == Run(one.session, batch[1..], root).session;
  }

  /** A non-empty batch is its first sample's step followed by the rest of the batch. */
  lemma RunUnrolls(st: Session, batch: seq<Sample>, root: real -> real)
    requires Configured(st) && |batch| > 0
    ensures var one := Step(st, batch[0], root);
            var rest := Run(one.session, batch[1..], root);
            Run(st, batch, root) == Ingested(rest.session, NoticeSeq(one.notice) + rest.notices)
  {
  }

  /** A calibration prefix that starts with the first sample is that sample followed by the
      rest of the batch's prefix. */
  lemma PrefixUnrolls(batch: seq<Sample>, until: int)
    requires |batch| > 0 && batch[0].tMs <= until
    ensures CalibPrefix(batch, until) == CalibPrefix(batch[1..], until) + 1
    ensures batch[..CalibPrefix(batch, until)] == [batch[0]] + batch[1..][..CalibPrefix(batch[1..], until)]
  {
  }

  /** While the window is open, a batch takes in exactly its calibration prefix, and the
      window stays open only if the whole batch was inside it. */
  lemma {:induction false} RunCalibration(st: Session, batch: seq<Sample>, root: real -> real)
    requires Configured(st) && st.calib.calibrating
    ensures var c0 := st.calib;
            var c := Run(st, batch, root).session.calib;
            var p := CalibPrefix(batch, c0.untilMs);
            && Absorbed(c0, c, batch[..p])
            && (p == 0 ==> c.bias == c0.bias)
            && c.calibrating == (p == |batch|)
    decreases |batch|
  {
    var c0 := st.calib;
    var p := CalibPrefix(batch, c0.untilMs);
    if |batch| == 0 || batch[0].tMs > c0.untilMs {
      if |batch| > 0 {
        RunClosesWindow(st, batch, root);
      }
      assert p == 0;
      assert Gx(batch[..p]) == [] && Gy(batch[..p]) == [] && Gz(batch[..p]) == [];
    } else {
      var s := batch[0];
      var one := Step(st, s, root);
      var c1 := one.session.calib;
      var c := Run(one.session, batch[1..], root).session.calib;
      RunUnrolls(st, batch, root);
      CalibStepAbsorbs(c0, s);
      RunCalibration(one.session, batch[1..], root);
      var q := CalibPrefix(batch[1..], c0.untilMs);
      PrefixUnrolls(batch, c0.untilMs);
      AbsorbedCompose(c0, c1, c, [s], batch[1..][..q]);
    }
  }

  /** A value whose running total over `xs` is the sum of `xs` is their mean. */
  lemma RunningTotalIsSum(b: real, xs: seq<real>)
    requires |xs| > 0 && RunningTotal(b, |xs|) == Sum(xs)
    ensures b == Mean(xs)
  {
    var n := |xs| as real;
    assert (b - Mean(xs)) * n == 0.0;
  }

  /** The first batch of a fresh session runs from the session clock set by its first sample. */
  lemma FirstIngest(cfg: SportCfg, sport: string, batch: seq<Sample>, root: real -> real)
    requires cfg.accelHpHz > 0.0 && |batch| > 0
    ensures var st := Begin(StartSession(cfg, sport), batch[0].tMs);
            && Configured(st) && st.calib.calibrating && st.calib == Calib(ZeroVec, 0, true, batch[0].tMs + CalibWindowMs)
            && Ingest(StartSession(cfg, sport), batch, root) == Run(st, batch, root)
  {
  }

  /** An accumulator that started empty and took in `xs` (leaving its bias alone when `xs` is
      empty) holds, per axis, the mean of the readings of `xs`. */
  lemma AbsorbedFromEmpty(c0: Calib, c: Calib, xs: seq<Sample>)
    requires c0.n == 0 && c0.bias == ZeroVec
    requires Absorbed(c0, c, xs) && (|xs| == 0 ==> c.bias == c0.bias)
    ensures c.n == |xs|
    ensures c.bias == Vec3(Mean(Gx(xs)), Mean(Gy(xs)), Mean(Gz(xs)))
  {
    if |xs| == 0 {
      assert Gx(xs) == [] && Gy(xs) == [] && Gz(xs) == [];
    } else {
      assert RunningTotal(c0.bias.x, 0) == 0.0 && RunningTotal(c0.bias.y, 0) == 0.0 && RunningTotal(c0.bias.z, 0) == 0.0;
      RunningTotalIsSum(c.bias.x, Gx(xs));
      RunningTotalIsSum(c.bias.y, Gy(xs));
      RunningTotalIsSum(c.bias.z, Gz(xs));
    }
  }

  /** Over the first batch of a fresh session the gyro bias is the arithmetic mean of the
      readings stamped within 2000 ms of the first sample (up to the first sample past that
      window), and zero when there is none. */
  lemma BiasIsCalibrationMean(cfg: SportCfg, sport: string, batch: seq<Sample>, root: real -> real)
    requires cfg.accelHpHz > 0.0 && |batch| > 0
    ensures var c := Ingest(StartSession(cfg, sport), batch, root).session.calib;
            var p := CalibPrefix(batch, batch[0].tMs + CalibWindowMs);
            && c.n == p
            && c.bias == Vec3(Mean(Gx(batch[..p])), Mean(Gy(batch[..p])), Mean(Gz(batch[..p])))
  {
    var st := Begin(StartSession(cfg, sport), batch[0].tMs);
    FirstIngest(cfg, sport, batch, root);
    RunCalibration(st, batch, root);
    var p := CalibPrefix(batch, batch[0].tMs + CalibWindowMs);
    AbsorbedFromEmpty(st.calib, Run(st, batch, root).session.calib, batch[..p]);
  }

  /** The invariant of the tallies between samples. */
  predicate Consistent(t: Tallies)
  {
    && t.swings == t.nSpeed
    && t.rally <= t.maxRally
    && t.sumSpeed <= (t.nSpeed as real) * t.peakSpeed
    && t.peakSpeed >= 0.0
    && (t.swings == 0 ==> t.rally == 0 && t.maxRally == 0 && t.sumSpeed == 0.0)
    && (t.swings > 0 ==> t.rally >= 1)
  }

  /** Scaling by a non-negative factor keeps order. */
  lemma ScaleMonotone(n: real, p: real, q: real)
    requires n >= 0.0 && p <= q
    ensures n * p <= n * q
  {
    assert n * q - n * p == n * (q - p);
  }

  /** One impact keeps the tallies consistent. */
  lemma RecordImpactKeepsConsistent(t: Tallies, now: int, speed: real, gapMs: real)
    requires Consistent(t)
    ensures Consistent(RecordImpact(t, now, speed, gapMs))
  {
    var r := RecordImpact(t, now, speed, gapMs);
    var n := t.nSpeed as real;
    var p, q := t.peakSpeed, r.peakSpeed;
    assert t.sumSpeed <= n * p;
    ScaleMonotone(n, p, q);
    assert speed <= q;
    assert r.sumSpeed <= n * q + q;
    assert (r.nSpeed as real) * q == n * q + q;
  }

  /** A batch keeps the tallies consistent. */
  lemma {:induction false} RunKeepsConsistent(st: Session, batch: seq<Sample>, root: real -> real)
    requires Configured(st) && Consistent(st.tally)
    ensures Consistent(Run(st, batch, root).session.tally)
    decreases |batch|
  {
    if |batch| > 0 {
      var one := Step(st, batch[0], root);
      if one.notice.Some? {
        RecordImpactKeepsConsistent(st.tally, batch[0].tMs, one.notice.value.speed,
                                    RallyGapMs(st.cfg.value));
      }
      RunKeepsConsistent(one.session, batch[1..], root);
    }
  }

  /** Every session keeps its tallies consistent: a started session is, and `ingest` keeps it.
      In particular `swings == nSpeed` and `maxRally >= rally` at all times. */
  lemma IngestKeepsConsistent(st: Session, batch: seq<Sample>, root: real -> real)
    requires Usable(st) && Consistent(st.tally)
    ensures Consistent(Ingest(st, batch, root).session.tally)
    ensures forall cfg: SportCfg, sport: string :: Consistent(StartSession(cfg, sport).tally)
  {
    if st.cfg.Some? && |batch| > 0 {
      var st1 := if !st.started then Begin(st, batch[0].tMs) else st;
      RunKeepsConsistent(st1, batch, root);
    }
  }

  /** The summary of a consistent session: the average swing speed never exceeds the peak,
      and average times swings is the speed sum when there were swings. */
  lemma SummaryBounds(st: Session)
    requires Consistent(st.tally)
    ensures EndSession(st).avgSpeed <= EndSession(st).maxSpeed
    ensures EndSession(st).swings > 0 ==>
              EndSession(st).avgSpeed * (EndSession(st).swings as real) == st.tally.sumSpeed
    ensures EndSession(st).swings == 0 ==> EndSession(st).avgSpeed == 0.0
  {
    var t := st.tally;
    var s := EndSession(st);
    if t.nSpeed > 0 {
      var n := t.nSpeed as real;
      assert s.avgSpeed * n == t.sumSpeed <= n * t.peakSpeed;
      assert (t.peakSpeed - s.avgSpeed) * n >= 0.0;
    }
  }

  /** A motionless sample at device time `t`. */
  function Still(t: int): Sample
  {
    Sample(t, 0.0, 0.0, 0.0, 0.0, 0.0, 0.0)
  }

  /** As written, a session whose first sample is stamped 0 is still taken to be unstarted by
      the next batch: after a batch at 0 ms, a batch at 2500 ms moves the session start to
      2500 ms and reopens the calibration window until 4500 ms, so the later sample is averaged
      into the gyro bias although it lies outside the first 2000 ms. */
  lemma ZeroStampRestartsClock(cfg: SportCfg, root: real -> real)
    requires cfg.accelHpHz > 0.0
    ensures var s0 := StartSession(cfg, "tennis");
            var s1 := IngestAsWritten(s0, [Still(0)], root).session;
            var s2 := IngestAsWritten(s1, [Still(2500)], root).session;
            && s1.startedAtMs == 0 && s1.calib.untilMs == 2000 && s1.calib.n == 1
            && s2.startedAtMs == 2500 && s2.calib.untilMs == 4500
            && s2.calib.calibrating && s2.calib.n == 2
  {
    var s0 := StartSession(cfg, "tennis");
    var s1 := IngestAsWritten(s0, [Still(0)], root).session;
    assert s1 == Step(Begin(s0, 0), Still(0), root).session;
    var b := Begin(s1, 2500);
    assert IngestAsWritten(s1, [Still(2500)], root).session == Step(b, Still(2500), root).session;
  }

  /** The same two batches with the `started` flag: the session keeps its start at 0 ms, and
      the sample at 2500 ms closes the calibration window instead of joining it. */
  lemma ZeroStampKeepsClock(cfg: SportCfg, root: real -> real)
    requires cfg.accelHpHz > 0.0
    ensures var s0 := StartSession(cfg, "tennis");
            var s1 := Ingest(s0, [Still(0)], root).session;
            var s2 := Ingest(s1, [Still(2500)], root).session;
            && s2.startedAtMs == 0 && s2.calib.untilMs == 2000
            && !s2.calib.calibrating && s2.calib.n == 1
  {
    var s0 := StartSession(cfg, "tennis");
    var s1 := Ingest(s0, [Still(0)], root).session;
    assert s1 == Step(Begin(s0, 0), Still(0), root).session;
    assert Ingest(s1, [Still(2500)], root).session == Step(s1, Still(2500), root).session;
  }

  /** With the `started` flag the session clock is set by the first sample of the session and
      never moved by later batches, whatever that first timestamp is. */
  lemma SessionClockSetOnce(cfg: SportCfg, sport: string, b1: seq<Sample>, b2: seq<Sample>,
                            root: real -> real)
    requires cfg.accelHpHz > 0.0 && |b1| > 0
    ensures var s1 := Ingest(StartSession(cfg, sport), b1, root).session;
            var s2 := Ingest(s1, b2, root).session;
            && s2.startedAtMs == b1[0].tMs
            && s2.calib.untilMs == b1[0].tMs + CalibWindowMs
  {
  }
}
