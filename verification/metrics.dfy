/** The session accumulator of src/lib/metrics.ts: per-sample dt clamping, gyro-bias
    calibration, accel high-pass filtering, the dual-threshold impact detector with its
    refractory period, rally grouping and running tallies.

    The source keeps all of this in one module-level mutable record; here the record is an
    immutable `Session` value and `ingest` folds a pure `Step` over the batch. The square root
    of the source (`Math.sqrt`) is the parameter `root`. The two callbacks fired after each
    impact are returned as a sequence of `Notice`s, one per impact, in order. */
module Metrics {
  import opened Outcomes
  import opened MathUtil
  import opened Constants
  import opened BleTypes
  import opened Filters
  import opened SportConfig

  /** Length of the gyro-bias calibration window after the first sample, in device ms. */
  const CalibWindowMs: int := 2000

  /** Cut-off of the low-pass gyro envelope, in Hz. */
  const EnvCutoffHz: real := 5.0

  /** Degrees per radian. */
  const RadToDps: real := 180.0 / Pi

  /** Nominal sample interval in seconds, from the declared rate (200 Hz when it is zero). */
  const DtNom: real := 1.0 / ((if SampleHz != 0 then SampleHz else 200) as real)
  const DtMin: real := DtNom / 3.0
  const DtMax: real := DtNom * 3.0

  datatype Vec3 = Vec3(x: real, y: real, z: real)

  /** Filter state: one high-pass per accel axis and the low-pass gyro envelope. */
  datatype FilterBank = FilterBank(hpX: Hp1State, hpY: Hp1State, hpZ: Hp1State, env: LpfState)

  /** Gyro-bias accumulator: running mean, sample count, whether the window is still open,
      and the device time at which it closes. */
  datatype Calib = Calib(bias: Vec3, n: nat, calibrating: bool, untilMs: int)

  /** Running tallies of detected impacts. */
  datatype Tallies = Tallies(swings: nat, rally: nat, maxRally: nat, sumSpeed: real,
                             nSpeed: nat, peakSpeed: real, lastImpactMs: int)

  /** The whole per-session state. `started` records that the session clock has been set by a
      first sample (see `Ingest`); `startedAtMs`, `lastTs` and `prevTs` are device times. */
  datatype Session = Session(cfg: Option<SportCfg>, sport: string, started: bool,
                             startedAtMs: int, lastTs: int, prevTs: int,
                             bank: FilterBank, calib: Calib, refractoryUntil: real,
                             tally: Tallies)

  /** What the two callbacks receive after an impact: the event (time, speed) and the live
      update (swings, rally, peak speed). */
  datatype Notice = Notice(tMs: int, speed: real, swings: nat, rally: nat, peakSpeed: real)

  /** The immutable end-of-session summary. */
  datatype Summary = Summary(sport: string, durationMs: int, swings: nat, maxRally: nat,
                             avgSpeed: real, maxSpeed: real, startedAtMs: int)

  const ZeroVec: Vec3 := Vec3(0.0, 0.0, 0.0)
  const QuietBank: FilterBank :=
    FilterBank(Hp1State(0.0, 0.0), Hp1State(0.0, 0.0), Hp1State(0.0, 0.0), LpfState(0.0))
  const FreshCalib: Calib := Calib(ZeroVec, 0, true, 0)
  const NoTallies: Tallies := Tallies(0, 0, 0, 0.0, 0, 0.0, 0)

  /** The state before any session has been started: no profile, label "tennis". */
  const Initial: Session :=
    Session(None, "tennis", false, 0, 0, 0, QuietBank, FreshCalib, 0.0, NoTallies)

  /** A profile under which the filters are well defined (positive high-pass cut-off). */
  predicate Configured(st: Session)
  {
    st.cfg.Some? && st.cfg.value.accelHpHz > 0.0
  }

  /** Either no profile yet, or a usable one. */
  predicate Usable(st: Session)
  {
    st.cfg.Some? ==> st.cfg.value.accelHpHz > 0.0
  }

  /** `startSession`: every tally, timer, filter and bias is reset; only the profile and the
      label are new. Nothing of the previous session survives. */
  function StartSession(cfg: SportCfg, sport: string): (st: Session)
    ensures st == Initial.(cfg := Some(cfg), sport := sport)
  {
    Session(Some(cfg), sport, false, 0, 0, 0, QuietBank, FreshCalib, 0.0, NoTallies)
  }

  /** Per-sample interval in seconds: the timestamp gap, replaced by the nominal interval when
      it is not positive, then clamped to [DtMin, DtMax]. */
  function SampleDt(prevTs: int, t: int): (dt: real)
    ensures DtMin <= dt <= DtMax
    ensures t <= prevTs ==> dt == DtNom
    ensures prevTs < t && DtMin <= (t - prevTs) as real / 1000.0 <= DtMax ==>
              dt == (t - prevTs) as real / 1000.0
    ensures prevTs < t && (t - prevTs) as real / 1000.0 < DtMin ==> dt == DtMin
    ensures prevTs < t && DtMax < (t - prevTs) as real / 1000.0 ==> dt == DtMax
  {
    var raw := (t - prevTs) as real / 1000.0;
    var dt := if raw <= 0.0 then DtNom else raw;
    Clamp(dt, DtMin, DtMax)
  }

  /** One step of the incremental mean: with `k = 1/n`, `(1-k)*b + k*g` times `n` is
      `b*(n-1) + g`, so a mean of n-1 values becomes the mean of n. */
  lemma WelfordStep(b: real, g: real, n: nat)
    requires n >= 1
    ensures ((1.0 - 1.0 / (n as real)) * b + (1.0 / (n as real)) * g) * (n as real)
            == b * ((n - 1) as real) + g
  {
    var k := 1.0 / (n as real);
    assert k * (n as real) == 1.0;
    calc {
      ((1.0 - k) * b + k * g) * (n as real);
    ==
      (n as real) * b - (k * (n as real)) * b + (k * (n as real)) * g;
    ==
      b * ((n - 1) as real) + g;
    }
  }

  /** Bias calibration for one sample. While calibrating, a sample inside the window is added
      to the running mean; the first sample past the window only closes it; afterwards the
      accumulator is frozen. */
  function CalibStep(c: Calib, s: Sample): (r: Calib)
    ensures r.untilMs == c.untilMs
    ensures !c.calibrating ==> r == c
    ensures c.calibrating && s.tMs > c.untilMs ==> r == c.(calibrating := false)
    ensures c.calibrating && s.tMs <= c.untilMs ==>
              && r.calibrating && r.n == c.n + 1
              && r.bias.x * (r.n as real) == c.bias.x * (c.n as real) + s.gx
              && r.bias.y * (r.n as real) == c.bias.y * (c.n as real) + s.gy
              && r.bias.z * (r.n as real) == c.bias.z * (c.n as real) + s.gz
  {
    if !c.calibrating then c
    else if s.tMs <= c.untilMs then
      var n := c.n + 1;
      var k := 1.0 / (n as real);
      WelfordStep(c.bias.x, s.gx, n);
      WelfordStep(c.bias.y, s.gy, n);
      WelfordStep(c.bias.z, s.gz, n);
      Calib(Vec3((1.0 - k) * c.bias.x + k * s.gx,
                 (1.0 - k) * c.bias.y + k * s.gy,
                 (1.0 - k) * c.bias.z + k * s.gz), n, true, c.untilMs)
    else c.(calibrating := false)
  }

  /** The squared Euclidean norm `x*x + y*y + z*z`. */
  function NormSq(v: Vec3): (q: real)
    ensures q >= 0.0
  {
    v.x * v.x + v.y * v.y + v.z * v.z
  }

  /** The filtering stage of one sample: new filter state, squared norms of the high-passed
      accel and of the bias-corrected gyro, and their magnitudes under `root`. */
  datatype Motion = Motion(bank: FilterBank, aq: real, wq: real, aMag: real, wMag: real)

  function Sense(c: SportCfg, bank: FilterBank, s: Sample, dt: real, bias: Vec3,
                 root: real -> real): (m: Motion)
    requires c.accelHpHz > 0.0 && dt > 0.0
    ensures m.bank.hpX == Hp1(s.ax, bank.hpX, dt, Rc(c.accelHpHz))
    ensures m.bank.hpY == Hp1(s.ay, bank.hpY, dt, Rc(c.accelHpHz))
    ensures m.bank.hpZ == Hp1(s.az, bank.hpZ, dt, Rc(c.accelHpHz))
    ensures m.aq == NormSq(Vec3(m.bank.hpX.y, m.bank.hpY.y, m.bank.hpZ.y))
    ensures m.wq == NormSq(Vec3(s.gx - bias.x, s.gy - bias.y, s.gz - bias.z))
    ensures m.aq >= 0.0 && m.wq >= 0.0
    ensures m.aMag == root(m.aq) && m.wMag == root(m.wq)
    ensures m.bank.hpX.x == s.ax && m.bank.hpY.x == s.ay && m.bank.hpZ.x == s.az
    ensures m.bank.env == Lpf(m.wMag, bank.env, dt, Rc(EnvCutoffHz))
  {
    var rc := Rc(c.accelHpHz);
    var hx := Hp1(s.ax, bank.hpX, dt, rc);
    var hy := Hp1(s.ay, bank.hpY, dt, rc);
    var hz := Hp1(s.az, bank.hpZ, dt, rc);
    var aq := NormSq(Vec3(hx.y, hy.y, hz.y));
    var wq := NormSq(Vec3(s.gx - bias.x, s.gy - bias.y, s.gz - bias.z));
    var wMag := root(wq);
    var env := Lpf(wMag, bank.env, dt, Rc(EnvCutoffHz));
    Motion(FilterBank(hx, hy, hz, env), aq, wq, root(aq), wMag)
  }

  /** The impact rule: refractory period over, high-passed accel magnitude at least
      `impactG * G`, and gyro rate at least `gyroPeakDps` degrees per second, all inclusive. */
  predicate Fires(c: SportCfg, now: int, refractoryUntil: real, aMag: real, wMag: real)
  {
    && now as real >= refractoryUntil
    && aMag >= c.impactG * G
    && wMag * RadToDps >= c.gyroPeakDps
  }

  /** Largest inter-impact gap that continues a rally, in ms. */
  function RallyGapMs(c: SportCfg): real
  {
    c.rallyGapSec * 1000.0
  }

  /** Rally length after an impact at `now`: one more when a previous impact is recorded (a
      non-zero time) no more than `gapMs` earlier, otherwise a new rally of one. */
  function RallyRule(lastImpactMs: int, rally: nat, now: int, gapMs: real): (r: nat)
    ensures r >= 1
  {
    if lastImpactMs != 0 && (now - lastImpactMs) as real <= gapMs then rally + 1 else 1
  }

  /** Tallies after an impact at `now` with swing speed `speed`. */
  function RecordImpact(t: Tallies, now: int, speed: real, gapMs: real): (r: Tallies)
    ensures r.swings == t.swings + 1 && r.nSpeed == t.nSpeed + 1
    ensures r.sumSpeed == t.sumSpeed + speed
    ensures t.peakSpeed <= r.peakSpeed && speed <= r.peakSpeed
    ensures r.peakSpeed == t.peakSpeed || r.peakSpeed == speed
    ensures r.rally == RallyRule(t.lastImpactMs, t.rally, now, gapMs)
    ensures t.maxRally <= r.maxRally && r.rally <= r.maxRally
    ensures r.maxRally == t.maxRally || r.maxRally == r.rally
    ensures r.lastImpactMs == now
  {
    var rally := RallyRule(t.lastImpactMs, t.rally, now, gapMs);
    Tallies(t.swings + 1, rally, if rally > t.maxRally then rally else t.maxRally,
            t.sumSpeed + speed, t.nSpeed + 1,
            if speed > t.peakSpeed then speed else t.peakSpeed, now)
  }

  /** The outcome of one sample: the new state and the notice, if an impact fired. */
  datatype Stepped = Stepped(session: Session, notice: Option<Notice>)

  /** The motion measured for sample `s` in state `st` (bias as updated by `s` itself). */
  function MotionOf(st: Session, s: Sample, root: real -> real): Motion
    requires Configured(st)
  {
    Sense(st.cfg.value, st.bank, s, SampleDt(st.prevTs, s.tMs), CalibStep(st.calib, s).bias, root)
  }

  /** One iteration of the per-sample loop of `ingest`. */
  function Step(st: Session, s: Sample, root: real -> real): (r: Stepped)
    requires Configured(st)
    ensures r.session.cfg == st.cfg && r.session.sport == st.sport
    ensures r.session.started == st.started && r.session.startedAtMs == st.startedAtMs
    ensures r.session.lastTs == s.tMs && r.session.prevTs == s.tMs
    ensures r.session.calib == CalibStep(st.calib, s)
    ensures r.session.bank == MotionOf(st, s, root).bank
    ensures r.notice.None? ==>
              r.session.tally == st.tally && r.session.refractoryUntil == st.refractoryUntil
    ensures r.notice.Some? ==>
              && r.notice.value.tMs == s.tMs
              && r.notice.value.speed == MotionOf(st, s, root).wMag * st.cfg.value.radiusM
              && s.tMs as real >= st.refractoryUntil
              && r.session.refractoryUntil == s.tMs as real + st.cfg.value.refractoryMs
              && r.session.tally == RecordImpact(st.tally, s.tMs, r.notice.value.speed,
                                                 RallyGapMs(st.cfg.value))
              && r.notice.value.swings == r.session.tally.swings
              && r.notice.value.rally == r.session.tally.rally
              && r.notice.value.peakSpeed == r.session.tally.peakSpeed
  {
    var c := st.cfg.value;
    var calib := CalibStep(st.calib, s);
    var m := MotionOf(st, s, root);
    var now := s.tMs;
    var next := st.(lastTs := now, prevTs := now, bank := m.bank, calib := calib);
    if Fires(c, now, st.refractoryUntil, m.aMag, m.wMag) then
      var speed := m.wMag * c.radiusM;
      var t := RecordImpact(st.tally, now, speed, RallyGapMs(c));
      Stepped(next.(tally := t, refractoryUntil := now as real + c.refractoryMs),
              Some(Notice(now, speed, t.swings, t.rally, t.peakSpeed)))
    else
      Stepped(next, None)
  }

  /** The state after a batch and the notices it produced. */
  datatype Ingested = Ingested(session: Session, notices: seq<Notice>)

  function NoticeSeq(o: Option<Notice>): seq<Notice>
  {
    if o.Some? then [o.value] else []
  }

  /** The per-sample loop over a batch, in array order. */
  function Run(st: Session, batch: seq<Sample>, root: real -> real): (r: Ingested)
    requires Configured(st)
    ensures Configured(r.session)
    ensures r.session.cfg == st.cfg && r.session.sport == st.sport
    ensures r.session.started == st.started && r.session.startedAtMs == st.startedAtMs
    ensures r.session.calib.untilMs == st.calib.untilMs
    ensures |batch| == 0 ==> r == Ingested(st, [])
    ensures |batch| > 0 ==>
              r.session.lastTs == batch[|batch| - 1].tMs && r.session.prevTs == batch[|batch| - 1].tMs
    ensures r.session.tally.swings == st.tally.swings + |r.notices|
    ensures r.session.tally.nSpeed == st.tally.nSpeed + |r.notices|
    ensures |r.notices| <= |batch|
    decreases |batch|
  {
    if |batch| == 0 then Ingested(st, [])
    else
      var one := Step(st, batch[0], root);
      var rest := Run(one.session, batch[1..], root);
      Ingested(rest.session, NoticeSeq(one.notice) + rest.notices)
  }

  /** Fixing the session clock with the first sample of a session: start time, previous
      timestamp and the end of the calibration window. */
  function Begin(st: Session, t0: int): (r: Session)
    ensures r.started && r.startedAtMs == t0 && r.prevTs == t0
    ensures r.calib.untilMs == t0 + CalibWindowMs
    ensures r.calib.bias == st.calib.bias && r.calib.n == st.calib.n
    ensures r.calib.calibrating == st.calib.calibrating
    ensures r.tally == st.tally && r.bank == st.bank && r.lastTs == st.lastTs
    ensures r.refractoryUntil == st.refractoryUntil && r.cfg == st.cfg && r.sport == st.sport
  {
    st.(started := true, startedAtMs := t0, prevTs := t0,
        calib := st.calib.(untilMs := t0 + CalibWindowMs))
  }

  /** `ingest`: nothing happens without a profile or for an empty batch. The first batch of a
      session fixes the session clock from its first sample; then every sample is processed in
      array order. The session is recognised as not yet started by the `started` flag (the
      source uses `startedAtMs == 0`; see `IngestAsWritten`). */
  function Ingest(st: Session, batch: seq<Sample>, root: real -> real): (r: Ingested)
    requires Usable(st)
    ensures Usable(r.session)
    ensures st.cfg.None? || |batch| == 0 ==> r == Ingested(st, [])
    ensures st.cfg.Some? && |batch| > 0 && !st.started ==>
              && r.session.started
              && r.session.startedAtMs == batch[0].tMs
              && r.session.calib.untilMs == batch[0].tMs + CalibWindowMs
    ensures st.started ==>
              r.session.startedAtMs == st.startedAtMs && r.session.calib.untilMs == st.calib.untilMs
    ensures r.session.cfg == st.cfg && r.session.sport == st.sport
  {
    if st.cfg.None? || |batch| == 0 then Ingested(st, [])
    else
      var st1 := if !st.started then Begin(st, batch[0].tMs) else st;
      Run(st1, batch, root)
  }

  /** `ingest` exactly as the source writes it: a session whose recorded start time is 0 is
      taken to be not yet started, even when its first sample was stamped 0. */
  function IngestAsWritten(st: Session, batch: seq<Sample>, root: real -> real): (r: Ingested)
    requires Usable(st)
    ensures Usable(r.session)
    ensures st.cfg.None? || |batch| == 0 ==> r == Ingested(st, [])
    ensures st.cfg.Some? && |batch| > 0 && st.startedAtMs == 0 ==>
              && r.session.startedAtMs == batch[0].tMs
              && r.session.calib.untilMs == batch[0].tMs + CalibWindowMs
    ensures st.startedAtMs != 0 ==>
              r.session.startedAtMs == st.startedAtMs && r.session.calib.untilMs == st.calib.untilMs
  {
    if st.cfg.None? || |batch| == 0 then Ingested(st, [])
    else
      var st1 := if st.startedAtMs == 0 then Begin(st, batch[0].tMs) else st;
      Run(st1, batch, root)
  }

  /** `endSession`: duration floored at zero, mean swing speed (0 without swings), peak speed. */
  function EndSession(st: Session): (s: Summary)
    ensures s.durationMs >= 0
    ensures s.durationMs >= st.lastTs - st.startedAtMs
    ensures s.durationMs == 0 || s.durationMs == st.lastTs - st.startedAtMs
    ensures st.tally.nSpeed == 0 ==> s.avgSpeed == 0.0
    ensures st.tally.nSpeed > 0 ==> s.avgSpeed * (st.tally.nSpeed as real) == st.tally.sumSpeed
    ensures s.swings == st.tally.swings && s.maxRally == st.tally.maxRally
    ensures s.maxSpeed == st.tally.peakSpeed
    ensures s.sport == st.sport && s.startedAtMs == st.startedAtMs
  {
    var d := st.lastTs - st.startedAtMs;
    var avg := if st.tally.nSpeed != 0 then st.tally.sumSpeed / (st.tally.nSpeed as real) else 0.0;
    Summary(st.sport, if d < 0 then 0 else d, st.tally.swings, st.tally.maxRally,
            avg, st.tally.peakSpeed, st.startedAtMs)
  }
}
