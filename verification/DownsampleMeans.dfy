/** What a record of a coarse tier says: the mean of every gauge and the maximum of every counter
    over the rows of its key and bucket in the next finer tier, counted row by row. */
module DownsampleMeans {

  import opened Downsample
  import opened DownsampleFacts
  import opened DownsampleOnce
  import opened DownsampleLossless

  /** The row belongs to the bucket of the target tier that starts at b. */
  predicate Falls(r: Row, to: Tier, key: string, b: int)
    requires to != M1
  {
    r.tier == From(to) && r.key == key && b <= r.created < b + Width(to)
  }

  function Population(rows: Table, to: Tier, key: string, b: int): nat
    requires to != M1
  {
    if rows == [] then 0 else (if Falls(rows[0], to, key, b) then 1 else 0) + Population(rows[1..], to, key, b)
  }

  function Total(rows: Table, to: Tier, key: string, b: int, f: nat): real
    requires to != M1
  {
    if rows == [] then 0.0 else (if Falls(rows[0], to, key, b) then Gauge(rows[0], f) else 0.0) + Total(rows[1..], to, key, b, f)
  }

  /** A record is what the rows of its bucket amount to: each weighs the same. */
  ghost predicate Means(s: Series, q: Row, rows: Table)
    requires q.tier != M1
  {
    && Population(rows, q.tier, q.key, q.created) > 0
    && |q.gauges| == s.gauges && |q.counters| == s.counters
    && (forall f :: 0 <= f < s.gauges ==> MeanGauge(q, rows, f))
    && (forall f :: 0 <= f < s.counters ==> TopCounter(q, rows, f))
  }

  predicate MeanGauge(q: Row, rows: Table, f: nat)
    requires q.tier != M1
  {
    Gauge(q, f) * Population(rows, q.tier, q.key, q.created) as real == Total(rows, q.tier, q.key, q.created, f)
  }

  predicate TopCounter(q: Row, rows: Table, f: nat)
    requires q.tier != M1
  {
    && (exists r :: r in rows && Falls(r, q.tier, q.key, q.created) && Counter(r, f) == Counter(q, f))
    && (forall r :: r in rows && Falls(r, q.tier, q.key, q.created) ==> Counter(r, f) <= Counter(q, f))
  }

  lemma FallsIff(r: Row, to: Tier, key: string, b: int)
    requires to != M1 && Bucket(to, b) == b
    ensures Falls(r, to, key, b) <==> r.tier == From(to) && r.key == key && Bucket(to, r.created) == b
  {
    BucketBounds(to, r.created);
    if r.created < b {
      BucketBefore(to, r.created, b);
    } else if r.created < b + Width(to) {
      BucketBefore(to, b, r.created);
    }
    hide Bucket;
  }

  lemma {:induction false} CountMembers(rows: Table, to: Tier, key: string, b: int)
    requires to != M1 && Bucket(to, b) == b
    ensures |Members(rows, From(to), to, key, b)| == Population(rows, to, key, b)
  {
    hide Bucket, Falls;
    if rows != [] {
      var r := rows[0];
      assert rows == [r] + rows[1..];
      MembersAppend([r], rows[1..], From(to), to, key, b);
      MembersOne(r, From(to), to, key, b);
      FallsIff(r, to, key, b);
      CountMembers(rows[1..], to, key, b);
    }
  }

  lemma {:induction false} SumAppend(a: Table, b: Table, f: nat)
    ensures SumGauge(a + b, f) == SumGauge(a, f) + SumGauge(b, f)
    decreases |b|
  {
    hide Gauge;
    if b == [] {
      assert a + b == a;
    } else {
      var n := |b| - 1;
      assert (a + b)[..|a + b| - 1] == a + b[..n];
      SumAppend(a, b[..n], f);
    }
  }

  lemma SumOne(r: Row, f: nat)
    ensures SumGauge([r], f) == Gauge(r, f)
  {
    assert [r][..0] == [];
  }

  lemma {:induction false} SumMembers(rows: Table, to: Tier, key: string, b: int, f: nat)
    requires to != M1 && Bucket(to, b) == b
    ensures SumGauge(Members(rows, From(to), to, key, b), f) == Total(rows, to, key, b, f)
  {
    hide Bucket, Falls, Gauge;
    if rows != [] {
      var r := rows[0];
      assert rows == [r] + rows[1..];
      MembersAppend([r], rows[1..], From(to), to, key, b);
      MembersOne(r, From(to), to, key, b);
      FallsIff(r, to, key, b);
      SumMembers(rows[1..], to, key, b, f);
      SumOne(r, f);
      SumAppend(Members([r], From(to), to, key, b), Members(rows[1..], From(to), to, key, b), f);
    }
  }

  lemma MeanIs(rows: Table, f: nat)
    requires rows != []
    ensures Average(rows, f) * |rows| as real == SumGauge(rows, f)
  {
  }

  /** The roll-up of a bucket is what its rows amount to. */
  lemma RollupMeans(s: Series, rows: Table, to: Tier, key: string, b: int, q: Row)
    requires to != M1 && Bucket(to, b) == b && Rollup(s, rows, to, (key, b)) == [q]
    ensures q.tier == to && q.key == key && q.created == b && Means(s, q, rows)
  {
    hide Bucket, Members, Average, Maximum, Gauge, Counter, Falls;
    var src := Members(rows, From(to), to, key, b);
    CountMembers(rows, to, key, b);
    forall f | 0 <= f < s.gauges ensures MeanGauge(q, rows, f) {
      AggregateCounter(s, src, to, key, b, f);
      MeanIs(src, f);
      SumMembers(rows, to, key, b, f);
    }
    forall f | 0 <= f < s.counters ensures TopCounter(q, rows, f) {
      AggregateCounter(s, src, to, key, b, f);
      TopOf(rows, q, f);
    }
  }

  lemma TopOf(rows: Table, q: Row, f: nat)
    requires q.tier != M1 && Bucket(q.tier, q.created) == q.created
    requires var src := Members(rows, From(q.tier), q.tier, q.key, q.created); src != [] && Counter(q, f) == Maximum(src, f)
    ensures TopCounter(q, rows, f)
  {
    hide Bucket, Members, Maximum, Counter, Falls;
    var src := Members(rows, From(q.tier), q.tier, q.key, q.created);
    MaximumFacts(src, f);
    forall r ensures r in src <==> r in rows && Falls(r, q.tier, q.key, q.created) {
      MembersIn(rows, From(q.tier), q.tier, q.key, q.created, r);
      FallsIff(r, q.tier, q.key, q.created);
    }
  }

  lemma GroupIsBucket(rows: Table, to: Tier, cutoff: int, g: Group)
    requires to != M1 && g in Groups(rows, to, cutoff)
    ensures Bucket(to, g.1) == g.1
  {
    hide Bucket;
    GroupsFacts(rows, to, cutoff);
    var x :| x in rows && x.tier == From(to) && x.created < cutoff && g == (x.key, Bucket(to, x.created));
    BucketBounds(to, x.created);
  }

  // ---- main results ----

  /** Every record any pass inserts, whatever arrived when and whatever failed before, is the mean
      of the gauges and the maximum of the counters of the rows its bucket then has in the next
      finer tier. */
  lemma InsertedAreMeans(s: Series, rows: Table, to: Tier, now: int, q: Row)
    requires to != M1 && q in Inserted(s, rows, to, now)
    ensures q.tier == to && Means(s, q, rows) && q.created + Width(to) <= Bucket(to, now)
  {
    hide Bucket, Means, Rollup;
    var cutoff := Bucket(to, now);
    NewRowsIn(s, rows, to, Watermarks(rows, to), Groups(rows, to, cutoff), q);
    GroupIsBucket(rows, to, cutoff, (q.key, q.created));
    RollupMeans(s, rows, to, q.key, q.created, q);
    GroupEnds(rows, to, now, (q.key, q.created));
  }

  lemma GroupEnds(rows: Table, to: Tier, now: int, g: Group)
    requires to != M1 && g in Groups(rows, to, Bucket(to, now))
    ensures g.1 + Width(to) <= Bucket(to, now)
  {
    hide Bucket;
    GroupsFacts(rows, to, Bucket(to, now));
    var x :| x in rows && x.tier == From(to) && x.created < Bucket(to, now) && g == (x.key, Bucket(to, x.created));
    BucketBefore(to, x.created, now);
  }

  /** In every on-time run a 10m record is the mean of all 1m samples of its ten minutes, and a 1h
      or 1d record of all records its bucket ever had in the next finer tier, deleted or not. */
  lemma RecordsAreMeans(s: Series, start: int, evs: seq<Event>, q: Row)
    requires OnTime(s, start, evs) && q.tier != M1 && q in Run(s, start, evs).d.ever
    ensures Means(s, q, Run(s, start, evs).d.ever)
  {
    hide Bucket, Means, Rollup, Members;
    var d := Run(s, start, evs).d;
    IncrementalIsOneRollup(s, start, evs, q.tier, q.key, q.created);
    MembersIn(d.ever, q.tier, M1, q.key, q.created, q);
    SameInstant(q.created);
    RecordMeans(s, d.ever, q);
  }

  lemma RecordMeans(s: Series, ever: Table, q: Row)
    requires q.tier != M1 && q in Rollup(s, ever, q.tier, (q.key, q.created))
    ensures Means(s, q, ever)
  {
    hide Bucket, Means, Members, Aggregate;
    var src := Members(ever, From(q.tier), q.tier, q.key, q.created);
    MembersIn(ever, From(q.tier), q.tier, q.key, q.created, src[0]);
    BucketBounds(q.tier, src[0].created);
    RollupMeans(s, ever, q.tier, q.key, q.created, q);
  }

  /** What the live table holds: 1m rows of the last two days before the last pass, 10m rows of ten
      days, 1h rows of thirty, 1d rows of two years, and every one of them. */
  lemma LiveIff(s: Series, start: int, evs: seq<Event>, r: Row)
    requires OnTime(s, start, evs)
    ensures var h := Run(s, start, evs);
            r in h.d.rows <==> r in h.d.ever && r.created >= h.clock - DAY * Days(r.tier)
  {
    hide Run, OnTime, Rollup, At, Keep, CutsAt;
    var h := Run(s, start, evs);
    IncrementalIsOneRollup(s, start, evs, M10, r.key, 0);
    KeptIff(h.d.ever, h.clock, r);
  }

  lemma KeptIff(ever: Table, clock: int, r: Row)
    ensures r in Keep(ever, CutsAt(clock)) <==> r in ever && r.created >= clock - DAY * Days(r.tier)
  {
    hide Keep;
    KeepIn(ever, CutsAt(clock), r);
  }

  function Days(t: Tier): int
  {
    match t case M1 => 2 case M10 => 10 case H1 => 30 case D1 => 730
  }
}
