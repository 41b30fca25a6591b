/** Feeding a session batch by batch. The device sends a handful of samples per notification
    and `ingest` is called once per notification, so the calibration window and the
    refractory period of one impact normally span many calls. With the `started` flag,
    ingesting two batches one after the other is the same as ingesting their concatenation,
    which carries every single-batch property over to any split of the stream. */
module BatchProofs {
  import opened MathUtil
  import opened BleTypes
  import opened SportConfig
  import opened Metrics
  import opened MetricsProofs

  /** The per-sample loop over two consecutive runs of samples is the loop over both, and the
      notices are those of the first run followed by those of the second. */
  lemma {:induction false} RunConcat(st: Session, a: seq<Sample>, b: seq<Sample>, root: real -> real)
    requires Configured(st)
    ensures var ra := Run(st, a, root);
            var rb := Run(ra.session, b, root);
            Run(st, a + b, root) == Ingested(rb.session, ra.notices + rb.notices)
    decreases |a|
  {
    if |a| == 0 {
      assert a + b == b;
    } else {
      var one := Step(st, a[0], root);
      var ab := a + b;
      assert ab[0] == a[0] && ab[1..] == a[1..] + b;
      RunConcat(one.session, a[1..], b, root);
      RunUnrolls(st, a, root);
      RunUnrolls(st, ab, root);
      var ra := Run(one.session, a[1..], root);
      Glue(Run(st, a, root), Run(st, ab, root), Run(one.session, ab[1..], root),
           ra, Run(ra.session, b, root), NoticeSeq(one.notice));
    }
  }

  /** The bookkeeping of `RunConcat`'s inductive step, on plain values. */
  lemma Glue(ra0: Ingested, rab: Ingested, rtail: Ingested, ra: Ingested, rb: Ingested,
             head: seq<Notice>)
    requires ra0 == Ingested(ra.session, head + ra.notices)
    requires rtail == Ingested(rb.session, ra.notices + rb.notices)
    requires rab == Ingested(rtail.session, head + rtail.notices)
    ensures rab == Ingested(rb.session, ra0.notices + rb.notices)
  {
    assert head + (ra.notices + rb.notices) == (head + ra.notices) + rb.notices;
  }

  /** Two `ingest` calls in a row do what one call on the concatenated batch does: the same
      final session, and the notices of the first call followed by those of the second. */
  lemma IngestSplit(st: Session, b1: seq<Sample>, b2: seq<Sample>, root: real -> real)
    requires Usable(st)
    ensures var r1 := Ingest(st, b1, root);
            var r2 := Ingest(r1.session, b2, root);
            Ingest(st, b1 + b2, root) == Ingested(r2.session, r1.notices + r2.notices)
  {
    var r1 := Ingest(st, b1, root);
    var r2 := Ingest(r1.session, b2, root);
    if st.cfg.None? {
      assert r1.notices + r2.notices == [];
    } else if |b1| == 0 {
      assert b1 + b2 == b2;
    } else if |b2| == 0 {
      assert b1 + b2 == b1;
      assert r1.notices + r2.notices == r1.notices;
    } else {
      var st1 := if !st.started then Begin(st, b1[0].tMs) else st;
      assert (b1 + b2)[0] == b1[0];
      assert Ingest(st, b1 + b2, root) == Run(st1, b1 + b2, root);
      assert r1 == Run(st1, b1, root);
      assert r1.session.started;
      assert r2 == Run(r1.session, b2, root);
      RunConcat(st1, b1, b2, root);
    }
  }

  /** The samples of consecutive batches, in order. */
  function Flatten(bs: seq<seq<Sample>>): (all: seq<Sample>)
    ensures |bs| > 0 ==> all == bs[0] + Flatten(bs[1..])
  {
    if |bs| == 0 then [] else bs[0] + Flatten(bs[1..])
  }

  /** One `ingest` call per batch, in order; the notices of all calls in order. */
  function IngestEach(st: Session, bs: seq<seq<Sample>>, root: real -> real): (r: Ingested)
    requires Usable(st)
    ensures Usable(r.session)
    decreases |bs|
  {
    if |bs| == 0 then Ingested(st, [])
    else
      var r1 := Ingest(st, bs[0], root);
      var rest := IngestEach(r1.session, bs[1..], root);
      Ingested(rest.session, r1.notices + rest.notices)
  }

  /** However a stream is cut into batches, ingesting them one by one gives the same session
      and the same notices as ingesting the whole stream at once. */
  lemma {:induction false} IngestEachIsOneBatch(st: Session, bs: seq<seq<Sample>>, root: real -> real)
    requires Usable(st)
    ensures IngestEach(st, bs, root) == Ingest(st, Flatten(bs), root)
    decreases |bs|
  {
    if |bs| == 0 {
      assert Ingest(st, [], root) == Ingested(st, []);
    } else {
      var r1 := Ingest(st, bs[0], root);
      IngestEachIsOneBatch(r1.session, bs[1..], root);
      IngestSplit(st, bs[0], Flatten(bs[1..]), root);
    }
  }

  /** Calibration across notifications: for a fresh session fed batch by batch, the gyro bias
      is the arithmetic mean of the readings stamped within 2000 ms of the first sample of the
      session (up to the first sample past that window), whichever batches they arrived in. */
  lemma BiasOverBatches(cfg: SportCfg, sport: string, bs: seq<seq<Sample>>, root: real -> real)
    requires cfg.accelHpHz > 0.0 && |Flatten(bs)| > 0
    ensures var all := Flatten(bs);
            var c := IngestEach(StartSession(cfg, sport), bs, root).session.calib;
            var p := CalibPrefix(all, all[0].tMs + CalibWindowMs);
            && c.n == p
            && c.bias == Vec3(Mean(Gx(all[..p])), Mean(Gy(all[..p])), Mean(Gz(all[..p])))
  {
    IngestEachIsOneBatch(StartSession(cfg, sport), bs, root);
    BiasIsCalibrationMean(cfg, sport, Flatten(bs), root);
  }

  /** Refractory suppression across notifications: with a non-negative refractory period, any
      two impacts reported while a session is fed batch by batch are at least `refractoryMs`
      apart, also when they came from different batches. */
  lemma SpacingOverBatches(st: Session, bs: seq<seq<Sample>>, root: real -> real)
    requires Configured(st) && st.cfg.value.refractoryMs >= 0.0
    ensures var ns := IngestEach(st, bs, root).notices;
            forall i, j :: 0 <= i < j < |ns| ==>
              ns[j].tMs as real >= ns[i].tMs as real + st.cfg.value.refractoryMs
  {
    var all := Flatten(bs);
    IngestEachIsOneBatch(st, bs, root);
    if |all| > 0 {
      var st1 := if !st.started then Begin(st, all[0].tMs) else st;
      var ns := Run(st1, all, root).notices;
      assert IngestEach(st, bs, root).notices == ns;
      forall i, j | 0 <= i < j < |ns|
        ensures ns[j].tMs as real >= ns[i].tMs as real + st.cfg.value.refractoryMs
      {
        RefractorySpacing(st1, all, root, i, j);
      }
    }
  }

  /** Rally grouping across notifications: when no impact has been recorded yet, every impact
      reported while a session is fed batch by batch has as its rally length the maximal run of
      impacts, possibly from earlier batches, that continue one another's rally. */
  lemma RallyOverBatches(st: Session, bs: seq<seq<Sample>>, root: real -> real)
    requires Configured(st) && st.tally.lastImpactMs == 0
    ensures var ns := IngestEach(st, bs, root).notices;
            forall j :: 0 <= j < |ns| ==> MaximalRallyRun(st.cfg.value, ns, j)
  {
    var all := Flatten(bs);
    IngestEachIsOneBatch(st, bs, root);
    if |all| > 0 {
      var st1 := if !st.started then Begin(st, all[0].tMs) else st;
      var r := Run(st1, all, root);
      assert IngestEach(st, bs, root).notices == r.notices;
      RunChain(st1, all, root);
      forall j | 0 <= j < |r.notices|
        ensures MaximalRallyRun(st.cfg.value, r.notices, j)
      {
        RallyIsMaximalRun(st.cfg.value, st1.tally, st1.refractoryUntil, r.notices,
                          r.session.tally, r.session.refractoryUntil, j);
      }
    }
  }

  /** The source's test for a session not yet started (`startedAtMs == 0`) gives the same
      answer as the `started` flag. */
  predicate StartAgrees(st: Session)
  {
    st.started <==> st.startedAtMs != 0
  }

  /** `ingest` as written and as corrected agree whenever the sample that would start the
      session is not stamped 0 ms, and then the two start tests still agree afterwards. */
  lemma AsWrittenAgrees(st: Session, b: seq<Sample>, root: real -> real)
    requires Usable(st) && StartAgrees(st)
    requires !st.started && st.cfg.Some? && |b| > 0 ==> b[0].tMs != 0
    ensures IngestAsWritten(st, b, root) == Ingest(st, b, root)
    ensures StartAgrees(Ingest(st, b, root).session)
  {
  }

  /** One as-written `ingest` call per batch, in order; the notices of all calls in order. */
  function IngestEachAsWritten(st: Session, bs: seq<seq<Sample>>, root: real -> real): (r: Ingested)
    requires Usable(st)
    ensures Usable(r.session)
    decreases |bs|
  {
    if |bs| == 0 then Ingested(st, [])
    else
      var r1 := IngestAsWritten(st, bs[0], root);
      var rest := IngestEachAsWritten(r1.session, bs[1..], root);
      Ingested(rest.session, r1.notices + rest.notices)
  }

  /** Fed batch by batch, the source as written behaves like the corrected model whenever the
      first sample of the session is not stamped 0 ms, so every batch result above holds for it. */
  lemma {:induction false} AsWrittenStreamAgrees(st: Session, bs: seq<seq<Sample>>, root: real -> real)
    requires Usable(st) && StartAgrees(st)
    requires !st.started && st.cfg.Some? && |Flatten(bs)| > 0 ==> Flatten(bs)[0].tMs != 0
    ensures IngestEachAsWritten(st, bs, root) == IngestEach(st, bs, root)
    decreases |bs|
  {
    if |bs| > 0 {
      if |bs[0]| > 0 {
        assert Flatten(bs)[0] == bs[0][0];
      } else {
        assert Flatten(bs) == Flatten(bs[1..]);
      }
      AsWrittenAgrees(st, bs[0], root);
      AsWrittenStreamAgrees(Ingest(st, bs[0], root).session, bs[1..], root);
    }
  }

  /** Calibration across notifications for the source as written: when the first sample of a
      fresh session is not stamped 0 ms, the gyro bias is the mean of the readings within
      2000 ms of it, whichever batches they arrived in. */
  lemma BiasOverBatchesAsWritten(cfg: SportCfg, sport: string, bs: seq<seq<Sample>>, root: real -> real)
    requires cfg.accelHpHz > 0.0 && |Flatten(bs)| > 0 && Flatten(bs)[0].tMs != 0
    ensures var all := Flatten(bs);
            var c := IngestEachAsWritten(StartSession(cfg, sport), bs, root).session.calib;
            var p := CalibPrefix(all, all[0].tMs + CalibWindowMs);
            && c.n == p
            && c.bias == Vec3(Mean(Gx(all[..p])), Mean(Gy(all[..p])), Mean(Gz(all[..p])))
  {
    AsWrittenStreamAgrees(StartSession(cfg, sport), bs, root);
    BiasOverBatches(cfg, sport, bs, root);
  }

  /** As written, splitting changes the outcome: a first batch stamped 0 ms followed by a batch
      at 2500 ms leaves the session start at 2500 ms, while the same two samples in one batch
      leave it at 0 ms. */
  lemma AsWrittenSplitDiffers(cfg: SportCfg, root: real -> real)
    requires cfg.accelHpHz > 0.0
    ensures var s0 := StartSession(cfg, "tennis");
            var split := IngestAsWritten(IngestAsWritten(s0, [Still(0)], root).session,
                                         [Still(2500)], root).session;
            var whole := IngestAsWritten(s0, [Still(0)] + [Still(2500)], root).session;
            && split.startedAtMs == 2500
            && whole.startedAtMs == 0
            && split != whole
  {
    ZeroStampRestartsClock(cfg, root);
  }
}
