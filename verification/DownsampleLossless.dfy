/** When samples arrive on time, the incremental, watermarked, expiring tables are what one
    roll-up of the whole history would give: nothing is lost on the way up. */
module DownsampleLossless {
  import opened Downsample
  import opened DownsampleFacts
  import opened DownsampleOnce

  /** Per target tier, the end of what has been aggregated. */
  datatype Marks = Marks(m10: int, h1: int, d1: int)

  function MarkOf(m: Marks, to: Tier): int
    requires to != M1
  {
    match to case M10 => m.m10 case H1 => m.h1 case D1 => m.d1
  }

  function SetMark(m: Marks, to: Tier, v: int): Marks
    requires to != M1
  {
    match to case M10 => m.(m10 := v) case H1 => m.(h1 := v) case D1 => m.(d1 := v)
  }

  /** What a stateless roll-up of every row of the source tier says about one bucket. */
  function Ideal(s: Series, ever: Table, to: Tier, key: string, b: int, mark: int): Table
    requires to != M1
  {
    if b < mark then Rollup(s, ever, to, (key, b)) else []
  }

  ghost predicate Exact(s: Series, ever: Table, m: Marks)
  {
    forall to, k, b :: to != M1 ==> At(ever, to, k, b) == Ideal(s, ever, to, k, b, MarkOf(m, to))
  }

  ghost predicate Full(s: Series, d: Db, m: Marks, c: Cuts)
  {
    Exact(s, d.ever, m) && d.rows == Keep(d.ever, c)
  }

  /** Under which bounds one aggregation can neither miss nor repeat a bucket. */
  ghost predicate InStep(m: Marks, c: Cuts, to: Tier)
    requires to != M1
  {
    && CutOf(c, From(to)) <= MarkOf(m, to)
    && CutOf(c, to) + Width(to) - 1 <= CutOf(c, From(to))
    && CutOf(c, to) <= MarkOf(m, to)
    && Bucket(to, MarkOf(m, to)) == MarkOf(m, to)
    && (to == M10 ==> m.h1 <= Bucket(H1, m.m10))
    && (to == H1 ==> m.d1 <= Bucket(D1, m.h1))
  }

  // ---- one aggregation ----

  /** Live records of the target tier lie before its mark. */
  lemma LiveBeforeMark(s: Series, d: Db, m: Marks, c: Cuts, to: Tier, q: Row)
    requires to != M1 && Full(s, d, m, c) && q in d.rows && q.tier == to
    ensures q.created < MarkOf(m, to)
  {
    hide Bucket, Members, Rollup;
    KeepIn(d.ever, c, q);
    MembersIn(d.ever, to, M1, q.key, q.created, q);
    SameInstant(q.created);
    assert At(d.ever, to, q.key, q.created) == Ideal(s, d.ever, to, q.key, q.created, MarkOf(m, to));
  }

  /** The watermark of the live table stops exactly the buckets before the mark. */
  lemma WatermarkIsMark(s: Series, d: Db, m: Marks, c: Cuts, to: Tier, cutoff: int, g: Group)
    requires to != M1 && Full(s, d, m, c) && InStep(m, c, to)
    requires g in Groups(d.rows, to, cutoff)
    ensures Passed(Watermarks(d.rows, to), g) <==> g.1 < MarkOf(m, to)
  {
    hide Bucket, Members, Aggregate;
    GroupsFacts(d.rows, to, cutoff);
    WatermarkFacts(d.rows, to, g.0);
    var x :| x in d.rows && x.tier == From(to) && x.created < cutoff && g == (x.key, Bucket(to, x.created));
    BucketBounds(to, x.created);
    KeepIn(d.ever, c, x);
    var w := Watermarks(d.rows, to);
    if g.1 < MarkOf(m, to) {
      assert At(d.ever, to, g.0, g.1) == Rollup(s, d.ever, to, g);
      MembersIn(d.ever, From(to), to, g.0, g.1, x);
      var q := At(d.ever, to, g.0, g.1)[0];
      MembersIn(d.ever, to, M1, g.0, g.1, q);
      SameInstant(q.created);
      KeepIn(d.ever, c, q);
    }
    forall q | q in d.rows && q.tier == to
      ensures q.created < MarkOf(m, to)
    {
      LiveBeforeMark(s, d, m, c, to, q);
    }
  }

  /** Rows inserted by the aggregation lie from the mark on. */
  lemma InsertedAfterMark(s: Series, d: Db, m: Marks, c: Cuts, to: Tier, now: int, r: Row)
    requires to != M1 && Full(s, d, m, c) && InStep(m, c, to)
    requires r in Inserted(s, d.rows, to, now)
    ensures r.tier == to && MarkOf(m, to) <= r.created
  {
    hide Bucket, Members, Full, InStep;
    var cutoff := Bucket(to, now);
    NewRowsIn(s, d.rows, to, Watermarks(d.rows, to), Groups(d.rows, to, cutoff), r);
    WatermarkIsMark(s, d, m, c, to, cutoff, (r.key, r.created));
  }

  /** What it inserts for one bucket of its own tier. */
  lemma InsertedIsIdeal(s: Series, d: Db, m: Marks, c: Cuts, to: Tier, now: int, k: string, b: int)
    requires to != M1 && Full(s, d, m, c) && InStep(m, c, to)
    ensures At(Inserted(s, d.rows, to, now), to, k, b) ==
            if MarkOf(m, to) <= b < Bucket(to, now) then Rollup(s, d.ever, to, (k, b)) else []
  {
    hide Bucket, Aggregate, Exact;
    var cutoff := Bucket(to, now);
    var gs, last := Groups(d.rows, to, cutoff), Watermarks(d.rows, to);
    GroupsFacts(d.rows, to, cutoff);
    NewRowsAt(s, d.rows, to, last, gs, k, b);
    if (k, b) in gs {
      var x :| x in d.rows && x.tier == From(to) && x.created < cutoff && (k, b) == (x.key, Bucket(to, x.created));
      BucketBefore(to, x.created, now);
      WatermarkIsMark(s, d, m, c, to, cutoff, (k, b));
      if MarkOf(m, to) <= b {
        MembersKeep(d.ever, c, From(to), to, k, b);
      }
    } else if MarkOf(m, to) <= b < cutoff {
      MembersKeep(d.ever, c, From(to), to, k, b);
      NoGroupNoMembers(d.rows, to, now, k, b);
    }
  }

  lemma NoGroupNoMembers(rows: Table, to: Tier, now: int, k: string, b: int)
    requires to != M1 && b < Bucket(to, now) && (k, b) !in Groups(rows, to, Bucket(to, now))
    ensures Members(rows, From(to), to, k, b) == []
  {
    hide Bucket;
    GroupsFacts(rows, to, Bucket(to, now));
    forall r | r in rows
      ensures !(r.tier == From(to) && r.key == k && Bucket(to, r.created) == b)
    {
      BucketBefore(to, r.created, now);
    }
    MembersNone(rows, From(to), to, k, b);
  }

  /** Rows of another tier, or of later buckets, leave a roll-up alone. */
  lemma RollupUnchanged(s: Series, ever: Table, added: Table, to: Tier, k: string, b: int)
    requires to != M1
    requires forall r :: r in added ==> r.tier != From(to) || Bucket(to, r.created) != b
    ensures Rollup(s, ever + added, to, (k, b)) == Rollup(s, ever, to, (k, b))
  {
    hide Bucket, Members;
    MembersAppend(ever, added, From(to), to, k, b);
    MembersNone(added, From(to), to, k, b);
    assert Members(ever, From(to), to, k, b) + [] == Members(ever, From(to), to, k, b);
  }

  lemma AggregateFull(s: Series, d: Db, m: Marks, c: Cuts, to: Tier, now: int)
    requires to != M1 && Full(s, d, m, c) && InStep(m, c, to) && MarkOf(m, to) <= Bucket(to, now)
    ensures Full(s, AggregateTier(s, d, to, now, {}), SetMark(m, to, Bucket(to, now)), c)
  {
    var added := Inserted(s, d.rows, to, now);
    var m' := SetMark(m, to, Bucket(to, now));
    forall r | r in added
      ensures r.tier == to && MarkOf(m, to) <= r.created
    {
      InsertedAfterMark(s, d, m, c, to, now, r);
    }
    forall t, k, b | t != M1
      ensures At(d.ever + added, t, k, b) == Ideal(s, d.ever + added, t, k, b, MarkOf(m', t))
    {
      ExactAfter(s, d, m, c, to, now, t, k, b);
    }
    KeepAppend(d.ever, added, c);
    KeepAll(added, c);
  }

  lemma ExactAfter(s: Series, d: Db, m: Marks, c: Cuts, to: Tier, now: int, t: Tier, k: string, b: int)
    requires to != M1 && t != M1 && Full(s, d, m, c) && InStep(m, c, to) && MarkOf(m, to) <= Bucket(to, now)
    requires forall r :: r in Inserted(s, d.rows, to, now) ==> r.tier == to && MarkOf(m, to) <= r.created
    ensures var ever := d.ever + Inserted(s, d.rows, to, now);
            At(ever, t, k, b) == Ideal(s, ever, t, k, b, MarkOf(SetMark(m, to, Bucket(to, now)), t))
  {
    hide Bucket, Members, Rollup, Inserted;
    var added := Inserted(s, d.rows, to, now);
    MembersAppend(d.ever, added, t, M1, k, b);
    assert At(d.ever, t, k, b) == Ideal(s, d.ever, t, k, b, MarkOf(m, t));
    if t == to {
      InsertedIsIdeal(s, d, m, c, to, now, k, b);
      RollupUnchanged(s, d.ever, added, t, k, b);
      assert [] + Rollup(s, d.ever, to, (k, b)) == Rollup(s, d.ever, to, (k, b)) == Rollup(s, d.ever, to, (k, b)) + [];
    } else {
      MembersNone(added, t, M1, k, b);
      assert At(d.ever, t, k, b) + [] == At(d.ever, t, k, b);
      if b < MarkOf(m, t) {
        forall r | r in added && From(t) == to
          ensures Bucket(t, r.created) != b
        {
          BucketBefore(t, MarkOf(m, to), r.created);
        }
        RollupUnchanged(s, d.ever, added, t, k, b);
      }
    }
  }

  lemma ExpireFull(s: Series, d: Db, m: Marks, c: Cuts, tier: Tier, now: int)
    requires Full(s, d, m, c) && CutOf(c, tier) <= now - Retain(tier)
    ensures Full(s, EnforceRetention(d, tier, now), m, SetCut(c, tier, now - Retain(tier)))
  {
    ExpireKeep(d.ever, c, tier, now - Retain(tier));
  }

  // ---- a pass, a run ----

  function MarksAt(t: int): Marks
  {
    Marks(Bucket(M10, t), Bucket(H1, t), Bucket(D1, t))
  }

  function CutsAt(t: int): Cuts
  {
    Cuts(t - Retain(M1), t - Retain(M10), t - Retain(H1), t - Retain(D1))
  }

  lemma StepsFit(t: int, now: int)
    requires t <= now
    ensures InStep(MarksAt(t), CutsAt(t), M10)
    ensures InStep(MarksAt(t).(m10 := Bucket(M10, now)), CutsAt(t).(m1 := now - Retain(M1)), H1)
    ensures InStep(MarksAt(now).(d1 := Bucket(D1, t)), CutsAt(t).(m1 := now - Retain(M1), m10 := now - Retain(M10)), D1)
    ensures Bucket(M10, t) <= Bucket(M10, now) && Bucket(H1, t) <= Bucket(H1, now) && Bucket(D1, t) <= Bucket(D1, now)
  {
    BucketBounds(M10, t);
    BucketBounds(H1, t);
    BucketBounds(D1, t);
    BucketBefore(M10, t, now);
    BucketBefore(H1, t, now);
    BucketBefore(D1, t, now);
    BucketNested(H1, t);
    BucketNested(D1, t);
    hide Bucket;
  }

  lemma PassFull(s: Series, d: Db, clock: int, now: int)
    requires Full(s, d, MarksAt(clock), CutsAt(clock)) && clock <= now
    ensures Full(s, Pass(s, d, now, NO_FAULTS), MarksAt(now), CutsAt(now))
  {
    hide Full, InStep, AggregateTier, EnforceRetention, Bucket;
    StepsFit(clock, now);
    var m0, c0 := MarksAt(clock), CutsAt(clock);
    var a1, m1, c1 := AggregateTier(s, d, M10, now, {}), m0.(m10 := Bucket(M10, now)), c0.(m1 := now - Retain(M1));
    AggregateFull(s, d, m0, c0, M10, now);
    var e1 := EnforceRetention(a1, M1, now);
    ExpireFull(s, a1, m1, c0, M1, now);
    var a2, m2, c2 := AggregateTier(s, e1, H1, now, {}), m1.(h1 := Bucket(H1, now)), c1.(m10 := now - Retain(M10));
    AggregateFull(s, e1, m1, c1, H1, now);
    var e2 := EnforceRetention(a2, M10, now);
    ExpireFull(s, a2, m2, c1, M10, now);
    var a3, m3, c3 := AggregateTier(s, e2, D1, now, {}), m2.(d1 := Bucket(D1, now)), c2.(h1 := now - Retain(H1));
    AggregateFull(s, e2, m2, c2, D1, now);
    var e3 := EnforceRetention(a3, H1, now);
    ExpireFull(s, a3, m3, c2, H1, now);
    ExpireFull(s, e3, m3, c3, D1, now);
  }

  /** Samples never arrive behind the last pass's 10-minute cutoff; nothing fails. */
  ghost predicate OnTime(s: Series, start: int, evs: seq<Event>)
  {
    evs == [] ||
    var n := |evs| - 1;
    && OnTime(s, start, evs[..n])
    && var clock := Run(s, start, evs[..n]).clock;
       match evs[n]
       case Arrive(_, row) => row.tier == M1 && row.created >= Bucket(M10, clock)
       case Cron(now, faults) => clock <= now && faults == NO_FAULTS
  }

  lemma ArriveFull(s: Series, d: Db, clock: int, row: Row)
    requires Full(s, d, MarksAt(clock), CutsAt(clock)) && row.tier == M1 && row.created >= Bucket(M10, clock)
    ensures Full(s, Db(d.rows + [row], d.ever + [row]), MarksAt(clock), CutsAt(clock))
  {
    hide Bucket, Members, Rollup;
    var m, c := MarksAt(clock), CutsAt(clock);
    BucketBounds(M10, clock);
    BucketBefore(M10, row.created, clock);
    forall t, k, b | t != M1
      ensures At(d.ever + [row], t, k, b) == Ideal(s, d.ever + [row], t, k, b, MarkOf(m, t))
    {
      assert At(d.ever, t, k, b) == Ideal(s, d.ever, t, k, b, MarkOf(m, t));
      MembersAppend(d.ever, [row], t, M1, k, b);
      MembersOne(row, t, M1, k, b);
      assert At(d.ever, t, k, b) + [] == At(d.ever, t, k, b);
      if b < MarkOf(m, t) {
        RollupUnchanged(s, d.ever, [row], t, k, b);
      }
    }
    KeepAppend(d.ever, [row], c);
    KeepAll([row], c);
  }

  lemma EmptyFull(s: Series, t: int)
    ensures Full(s, Db([], []), MarksAt(t), CutsAt(t))
  {
    hide Bucket;
  }

  lemma {:induction false} RunFull(s: Series, start: int, evs: seq<Event>)
    requires OnTime(s, start, evs)
    ensures var h := Run(s, start, evs); Full(s, h.d, MarksAt(h.clock), CutsAt(h.clock))
  {
    hide Full, Pass, Bucket;
    if evs == [] {
      EmptyFull(s, start);
    } else {
      var n := |evs| - 1;
      RunFull(s, start, evs[..n]);
      var h := Run(s, start, evs[..n]);
      match evs[n]
      case Arrive(_, row) => ArriveFull(s, h.d, h.clock, row);
      case Cron(now, _) => PassFull(s, h.d, h.clock, now);
    }
  }

  // ---- main results ----

  /** Whatever the gaps between passes, after any on-time run the records of every tier are
      those of one roll-up of everything its source tier ever held, up to the last completed
      bucket; and the live table is that history minus what is older than the retention. */
  lemma {:induction false} IncrementalIsOneRollup(s: Series, start: int, evs: seq<Event>, to: Tier, key: string, b: int)
    requires OnTime(s, start, evs) && to != M1
    ensures var h := Run(s, start, evs);
            && At(h.d.ever, to, key, b) == (if b < Bucket(to, h.clock) then Rollup(s, h.d.ever, to, (key, b)) else [])
            && h.d.rows == Keep(h.d.ever, CutsAt(h.clock))
  {
    hide Bucket;
    RunFull(s, start, evs);
  }

  function Coarser(t: Tier): Tier
    requires t != D1
  {
    match t case M1 => M10 case M10 => H1 case H1 => D1
  }

  /** Every row retention has deleted was counted in exactly one record of the next tier. */
  lemma {:induction false} DeletedWasCounted(s: Series, start: int, evs: seq<Event>, r: Row)
    requires OnTime(s, start, evs) && r.tier != D1
    requires var d := Run(s, start, evs).d; r in d.ever && r !in d.rows
    ensures var d := Run(s, start, evs).d;
            var to := Coarser(r.tier);
            var b := Bucket(to, r.created);
            var src := Members(d.ever, r.tier, to, r.key, b);
            r in src && At(d.ever, to, r.key, b) == [Aggregate(s, src, to, r.key, b)]
  {
    hide Bucket, Members, Aggregate, Full;
    RunFull(s, start, evs);
    var h := Run(s, start, evs);
    var to := Coarser(r.tier);
    var b := Bucket(to, r.created);
    IncrementalIsOneRollup(s, start, evs, to, r.key, b);
    KeepIn(h.d.ever, CutsAt(h.clock), r);
    BucketBounds(to, h.clock);
    BucketBefore(to, r.created, h.clock);
    MembersIn(h.d.ever, r.tier, to, r.key, b, r);
  }

  // ---- coarse records against the samples ----

  lemma {:induction false} MaximumFacts(rows: Table, f: nat)
    requires rows != []
    ensures forall r :: r in rows ==> Counter(r, f) <= Maximum(rows, f)
    ensures exists r :: r in rows && Counter(r, f) == Maximum(rows, f)
  {
    var n := |rows| - 1;
    assert rows == rows[..n] + [rows[n]];
    assert rows[n] in rows;
    if n > 0 {
      MaximumFacts(rows[..n], f);
    }
  }

  lemma {:induction false} Extremes(rows: Table, f: nat) returns (lo: Row, hi: Row)
    requires rows != []
    ensures lo in rows && hi in rows
    ensures forall r :: r in rows ==> Gauge(lo, f) <= Gauge(r, f) <= Gauge(hi, f)
  {
    hide Gauge;
    var n := |rows| - 1;
    var r := rows[n];
    assert rows == rows[..n] + [r];
    assert r in rows;
    lo, hi := r, r;
    if n > 0 {
      var l, h := Extremes(rows[..n], f);
      lo := if Gauge(r, f) < Gauge(l, f) then r else l;
      hi := if Gauge(r, f) > Gauge(h, f) then r else h;
    }
  }

  function Times(a: real, n: nat): real
  {
    a * (n as real)
  }

  lemma TimesNext(a: real, n: nat)
    ensures Times(a, 0) == 0.0 && Times(a, n + 1) == Times(a, n) + a
  {
    assert (n + 1) as real == n as real + 1.0;
  }

  lemma {:induction false} SumBetween(rows: Table, f: nat, a: real, b: real)
    requires forall r :: r in rows ==> a <= Gauge(r, f) <= b
    ensures Times(a, |rows|) <= SumGauge(rows, f) <= Times(b, |rows|)
  {
    hide Gauge, Times;
    if rows == [] {
      TimesNext(a, 0);
      TimesNext(b, 0);
    } else {
      var n := |rows| - 1;
      assert rows == rows[..n] + [rows[n]];
      assert rows[n] in rows;
      SumBetween(rows[..n], f, a, b);
      TimesNext(a, n);
      TimesNext(b, n);
    }
  }

  lemma AverageBetween(rows: Table, f: nat) returns (lo: Row, hi: Row)
    requires rows != []
    ensures lo in rows && hi in rows && Gauge(lo, f) <= Average(rows, f) <= Gauge(hi, f)
  {
    lo, hi := Extremes(rows, f);
    SumBetween(rows, f, Gauge(lo, f), Gauge(hi, f));
    Divide(Gauge(lo, f), SumGauge(rows, f), Gauge(hi, f), |rows| as real);
  }

  lemma Divide(a: real, x: real, b: real, n: real)
    requires n > 0.0 && a * n <= x <= b * n
    ensures a <= x / n <= b
  {
    assert x / n * n == x;
  }

  /** The 1m samples of one coarse bucket. */
  function Samples(ever: Table, to: Tier, key: string, b: int): Table
  {
    Members(ever, M1, to, key, b)
  }

  /** A record summarises a set of samples: maxima of counters, gauges between extremes. */
  ghost predicate Summarises(s: Series, q: Row, xs: Table)
  {
    && xs != []
    && (forall f :: 0 <= f < s.counters ==> CounterIsMax(q, xs, f))
    && (forall f :: 0 <= f < s.gauges ==> GaugeBetween(q, xs, f))
  }

  ghost predicate CounterIsMax(q: Row, xs: Table, f: nat)
  {
    (forall x :: x in xs ==> Counter(x, f) <= Counter(q, f)) && exists x :: x in xs && Counter(x, f) == Counter(q, f)
  }

  ghost predicate GaugeBetween(q: Row, xs: Table, f: nat)
  {
    (exists x :: x in xs && Gauge(x, f) <= Gauge(q, f)) && exists x :: x in xs && Gauge(q, f) <= Gauge(x, f)
  }

  ghost predicate Sound(s: Series, ever: Table, q: Row, to: Tier)
  {
    Summarises(s, q, Samples(ever, to, q.key, q.created))
  }

  lemma AggregateCounter(s: Series, src: Table, to: Tier, key: string, b: int, f: nat)
    requires src != []
    ensures var q := Aggregate(s, src, to, key, b);
            (f < s.counters ==> Counter(q, f) == Maximum(src, f)) && (f < s.gauges ==> Gauge(q, f) == Average(src, f))
  {
    hide Maximum, Average;
  }

  /** An aggregate summarises its own sources. */
  lemma AggregateSummarises(s: Series, xs: Table, to: Tier, key: string, b: int)
    requires xs != []
    ensures Summarises(s, Aggregate(s, xs, to, key, b), xs)
  {
    hide Counter, Gauge, Average, Maximum, Aggregate, CounterIsMax, GaugeBetween;
    var q := Aggregate(s, xs, to, key, b);
    forall f | 0 <= f < s.counters ensures CounterIsMax(q, xs, f) {
      AggregateCounter(s, xs, to, key, b, f);
      CounterOf(q, xs, f);
    }
    forall f | 0 <= f < s.gauges ensures GaugeBetween(q, xs, f) {
      AggregateCounter(s, xs, to, key, b, f);
      GaugeOf(q, xs, f);
    }
  }

  lemma CounterOf(q: Row, xs: Table, f: nat)
    requires xs != [] && Counter(q, f) == Maximum(xs, f)
    ensures CounterIsMax(q, xs, f)
  {
    hide Counter, Maximum;
    MaximumFacts(xs, f);
  }

  lemma GaugeOf(q: Row, xs: Table, f: nat)
    requires xs != [] && Gauge(q, f) == Average(xs, f)
    ensures GaugeBetween(q, xs, f)
  {
    hide Gauge, Average;
    var lo, hi := AverageBetween(xs, f);
  }

  lemma AggregateNames(s: Series, xs: Table, to: Tier, key: string, b: int)
    requires xs != []
    ensures var q := Aggregate(s, xs, to, key, b); q.tier == to && q.key == key && q.created == b
  {
  }

  /** The lowest coarse tier is computed from the samples themselves. */
  lemma SoundFromSamples(s: Series, ever: Table, key: string, b: int)
    requires Members(ever, M1, M10, key, b) != []
    ensures Sound(s, ever, Aggregate(s, Members(ever, M1, M10, key, b), M10, key, b), M10)
  {
    hide Bucket, Members, Aggregate, Summarises;
    var xs := Members(ever, M1, M10, key, b);
    AggregateSummarises(s, xs, M10, key, b);
    AggregateNames(s, xs, M10, key, b);
  }

  /** Higher tiers inherit it, as their sources split the same samples. */
  lemma SoundFromFiner(s: Series, ever: Table, to: Tier, key: string, b: int)
    requires to == H1 || to == D1
    requires var src := Members(ever, From(to), to, key, b);
             && src != []
             && (forall y :: y in src ==> Sound(s, ever, y, From(to)))
             && (forall x :: x in Samples(ever, to, key, b) ==>
                  exists y :: y in src && x in Samples(ever, From(to), key, y.created))
    ensures Sound(s, ever, Aggregate(s, Members(ever, From(to), to, key, b), to, key, b), to)
  {
    hide Bucket, Members, Aggregate, Summarises;
    var src, xs := Members(ever, From(to), to, key, b), Samples(ever, to, key, b);
    var q := Aggregate(s, src, to, key, b);
    forall y, x | y in src && x in Samples(ever, From(to), key, y.created)
      ensures x in xs
    {
      MembersIn(ever, From(to), to, key, b, y);
      MembersIn(ever, M1, From(to), key, y.created, x);
      BucketNested(to, x.created);
      MembersIn(ever, M1, to, key, b, x);
    }
    forall y | y in src
      ensures y.key == key && Summarises(s, y, Samples(ever, From(to), key, y.created))
    {
      MembersIn(ever, From(to), to, key, b, y);
      assert Sound(s, ever, y, From(to));
    }
    AggregateSummarises(s, src, to, key, b);
    AggregateNames(s, src, to, key, b);
    SummariesCompose(s, q, src, xs, (y: Row) => Samples(ever, From(to), key, y.created));
  }

  /** A summary of summaries summarises the union of what they summarise. */
  lemma SummariesCompose(s: Series, q: Row, src: Table, xs: Table, part: Row -> Table)
    requires Summarises(s, q, src)
    requires forall y :: y in src ==> Summarises(s, y, part(y))
    requires forall y, x :: y in src && x in part(y) ==> x in xs
    requires forall x :: x in xs ==> exists y :: y in src && x in part(y)
    ensures Summarises(s, q, xs)
  {
    var first := src[0];
    assert Summarises(s, first, part(first));
    assert part(first)[0] in xs;
    hide Counter, Gauge;
    forall f | 0 <= f < s.counters ensures CounterIsMax(q, xs, f) {
      assert CounterIsMax(q, src, f);
      assert forall y :: y in src ==> Summarises(s, y, part(y)) && CounterIsMax(y, part(y), f);
      var y :| y in src && Counter(y, f) == Counter(q, f);
      var x :| x in part(y) && Counter(x, f) == Counter(y, f);
      assert x in xs;
    }
    forall f | 0 <= f < s.gauges ensures GaugeBetween(q, xs, f) {
      assert GaugeBetween(q, src, f);
      assert forall y :: y in src ==> Summarises(s, y, part(y)) && GaugeBetween(y, part(y), f);
      var y :| y in src && Gauge(y, f) <= Gauge(q, f);
      var x :| x in part(y) && Gauge(x, f) <= Gauge(y, f);
      var z :| z in src && Gauge(q, f) <= Gauge(z, f);
      var w :| w in part(z) && Gauge(z, f) <= Gauge(w, f);
      assert x in xs && w in xs;
    }
  }

  /** Every record ever made, up to 1d: its counters are the maxima and its gauges lie
      between the extremes of the 1m samples of its bucket - all of them, including those
      retention has deleted meanwhile. */
  lemma {:induction false} RecordsMatchSamples(s: Series, start: int, evs: seq<Event>, q: Row)
    requires OnTime(s, start, evs) && q.tier != M1 && q in Run(s, start, evs).d.ever
    ensures Sound(s, Run(s, start, evs).d.ever, q, q.tier)
  {
    hide Bucket, Full;
    RunFull(s, start, evs);
    var h := Run(s, start, evs);
    RecordSound(s, h.d.ever, h.clock, q) by {
      assert Exact(s, h.d.ever, MarksAt(h.clock)) by { ExactOf(s, h.d, MarksAt(h.clock), CutsAt(h.clock)); }
    }
  }

  lemma ExactOf(s: Series, d: Db, m: Marks, c: Cuts)
    requires Full(s, d, m, c)
    ensures Exact(s, d.ever, m)
  {
  }

  function Rank(t: Tier): nat { match t case M1 => 0 case M10 => 1 case H1 => 2 case D1 => 3 }

  lemma {:induction false} RecordSound(s: Series, ever: Table, clock: int, q: Row)
    requires Exact(s, ever, MarksAt(clock)) && q.tier != M1 && q in ever
    ensures Sound(s, ever, q, q.tier)
    decreases Rank(q.tier)
  {
    hide Bucket, Members, Aggregate, Sound;
    var to, key, b := q.tier, q.key, q.created;
    MembersIn(ever, to, M1, key, b, q);
    SameInstant(b);
    assert At(ever, to, key, b) == Ideal(s, ever, to, key, b, Bucket(to, clock));
    var src := Members(ever, From(to), to, key, b);
    assert q == Aggregate(s, src, to, key, b);
    if to == M10 {
      SoundFromSamples(s, ever, key, b);
    } else {
      forall y | y in src
        ensures Sound(s, ever, y, From(to))
      {
        MembersIn(ever, From(to), to, key, b, y);
        RecordSound(s, ever, clock, y);
      }
      forall x | x in Samples(ever, to, key, b)
        ensures exists y :: y in src && x in Samples(ever, From(to), key, y.created)
      {
        var y := FinerRecord(s, ever, clock, to, key, b, x);
      }
      SoundFromFiner(s, ever, to, key, b);
    }
  }

  /** A sample of a completed coarse bucket has its record in the tier below. */
  lemma FinerRecord(s: Series, ever: Table, clock: int, to: Tier, key: string, b: int, x: Row) returns (y: Row)
    requires Exact(s, ever, MarksAt(clock)) && (to == H1 || to == D1)
    requires b < Bucket(to, clock) && x in Samples(ever, to, key, b)
    ensures y in Members(ever, From(to), to, key, b) && x in Samples(ever, From(to), key, y.created)
    decreases Rank(to), 0
  {
    hide Bucket, Members, Aggregate;
    var finer := From(to);
    MembersIn(ever, M1, to, key, b, x);
    var c := Bucket(finer, x.created);
    BucketBefore(to, x.created, clock);
    BucketNested(to, clock);
    BucketBefore(finer, x.created, clock);
    BucketNested(to, x.created);
    MembersIn(ever, M1, finer, key, c, x);
    assert At(ever, finer, key, c) == Ideal(s, ever, finer, key, c, Bucket(finer, clock));
    if finer == H1 {
      var z := FinerRecord(s, ever, clock, H1, key, c, x);
    }
    assert Members(ever, From(finer), finer, key, c) != [];
    y := At(ever, finer, key, c)[0];
    MembersIn(ever, finer, M1, key, c, y);
    SameInstant(y.created);
    MembersIn(ever, finer, to, key, b, y);
  }
}
