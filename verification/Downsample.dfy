/** Metric rows roll up 1m -> 10m -> 1h -> 1d with no bookkeeping beyond the newest row of
    the target tier, while retention deletes rows of every tier
    (hub/internal/metrics/downsample.go). Times are milliseconds since the epoch, UTC. */
module Downsample {

  import opened Wrappers

  datatype Tier = M1 | M10 | H1 | D1

  const MINUTE := 60_000
  const HOUR := 3_600_000
  const DAY := 86_400_000

  datatype Row = Row(key: string, tier: Tier, created: int, gauges: seq<real>, counters: seq<real>)

  type Table = seq<Row>

  /** How many averaged and how many maximised fields a collection has. */
  datatype Series = Series(gauges: nat, counters: nat)

  /** The tier a target tier is built from. */
  function From(to: Tier): Tier
    requires to != M1
  {
    match to case M10 => M1 case H1 => M10 case D1 => H1
  }

  function Width(to: Tier): int
  {
    match to case M1 => 1 case M10 => 10 * MINUTE case H1 => HOUR case D1 => DAY
  }

  function Retain(t: Tier): int
  {
    match t case M1 => 48 * HOUR case M10 => 10 * DAY case H1 => 30 * DAY case D1 => 2 * 365 * DAY
  }

  /** Start of the bucket of the target tier that t falls in. */
  function Bucket(to: Tier, t: int): int
  {
    match to
    case M1 => t
    case M10 => 600_000 * (t / 600_000)
    case H1 => 3_600_000 * (t / 3_600_000)
    case D1 => 86_400_000 * (t / 86_400_000)
  }

  lemma BucketBounds(to: Tier, t: int)
    ensures Bucket(to, t) <= t < Bucket(to, t) + Width(to)
    ensures Bucket(to, Bucket(to, t)) == Bucket(to, t)
  {
    match to
    case M1 =>
    case M10 => Multiples(600_000, t / 600_000, t);
    case H1 => Multiples(3_600_000, t / 3_600_000, t);
    case D1 => Multiples(86_400_000, t / 86_400_000, t);
  }

  lemma Multiples(w: int, q: int, t: int)
    requires w > 0 && q == t / w
    ensures w * q <= t < w * q + w && (w * q) / w == q
  {
    DivUnique(w * q, w, q);
  }

  lemma DivUnique(x: int, w: int, q: int)
    requires w > 0 && w * q <= x < w * q + w
    ensures x / w == q
  {
    var d := x / w;
    assert w * d <= x < w * d + w;
    Ordered(w, d, q);
    Ordered(w, q, d);
  }

  /** A time before a bucket start belongs to an earlier bucket, which ends by then. */
  lemma BucketBefore(to: Tier, t: int, now: int)
    ensures t < Bucket(to, now) <==> Bucket(to, t) < Bucket(to, now)
    ensures t < Bucket(to, now) ==> Bucket(to, t) + Width(to) <= Bucket(to, now)
    ensures t <= now ==> Bucket(to, t) <= Bucket(to, now)
  {
    match to
    case M1 =>
    case M10 => Before(600_000, t, now);
    case H1 => Before(3_600_000, t, now);
    case D1 => Before(86_400_000, t, now);
  }

  lemma Before(w: int, t: int, now: int)
    requires w > 0
    ensures var b, c := w * (t / w), w * (now / w);
            (t < c <==> b < c) && (t < c ==> b + w <= c) && (t <= now ==> b <= c)
  {
    var q, p := t / w, now / w;
    assert w * q <= t < w * q + w && w * p <= now < w * p + w;
    Ordered(w, q, p);
    Ordered(w, p, q);
  }

  lemma Ordered(w: int, q: int, p: int)
    requires w > 0
    ensures q < p ==> w * q + w <= w * p
    ensures p <= q ==> w * p <= w * q
  {
    if q < p {
      assert w * (q + 1) <= w * p;
    }
  }

  /** Buckets of a coarser tier are unions of buckets of the finer one. */
  lemma BucketNested(to: Tier, t: int)
    requires to != M1
    ensures Bucket(to, Bucket(From(to), t)) == Bucket(to, t)
    ensures Bucket(to, t) <= Bucket(From(to), t)
  {
    match to
    case M10 =>
      BucketBounds(M10, t);
    case H1 =>
      TensInHour(t);
    case D1 =>
      HoursInDay(t);
  }

  lemma TensInHour(t: int)
    ensures var q, p := t / 600_000, t / 3_600_000;
            (600_000 * q) / 3_600_000 == p && 3_600_000 * p <= 600_000 * q
  {
    var q, p := t / 600_000, t / 3_600_000;
    assert 600_000 * q <= t < 600_000 * q + 600_000 && 3_600_000 * p <= t < 3_600_000 * p + 3_600_000;
    DivUnique(600_000 * q, 3_600_000, p);
  }

  lemma HoursInDay(t: int)
    ensures var q, p := t / 3_600_000, t / 86_400_000;
            (3_600_000 * q) / 86_400_000 == p && 86_400_000 * p <= 3_600_000 * q
  {
    var q, p := t / 3_600_000, t / 86_400_000;
    assert 3_600_000 * q <= t < 3_600_000 * q + 3_600_000 && 86_400_000 * p <= t < 86_400_000 * p + 86_400_000;
    DivUnique(3_600_000 * q, 86_400_000, p);
  }

  // ---- the queries ----

  /** MAX(created) of the target tier per key. */
  function Watermarks(rows: Table, to: Tier): map<string, int>
  {
    if rows == [] then map[]
    else
      var m := Watermarks(rows[..|rows| - 1], to);
      var r := rows[|rows| - 1];
      if r.tier != to || (r.key in m && r.created <= m[r.key]) then m else m[r.key := r.created]
  }

  type Group = (string, int)

  /** Puts a group in bucket order, once. */
  function AddGroup(gs: seq<Group>, g: Group): seq<Group>
  {
    if gs == [] then [g]
    else if gs[0] == g then gs
    else if g.1 < gs[0].1 then (if g in gs then gs else [g] + gs)
    else [gs[0]] + AddGroup(gs[1..], g)
  }

  /** GROUP BY key, bucket ORDER BY bucket, over source rows created before the cutoff. */
  function Groups(rows: Table, to: Tier, cutoff: int): seq<Group>
    requires to != M1
  {
    if rows == [] then []
    else
      var gs := Groups(rows[..|rows| - 1], to, cutoff);
      var r := rows[|rows| - 1];
      if r.tier == From(to) && r.created < cutoff then AddGroup(gs, (r.key, Bucket(to, r.created))) else gs
  }

  /** The rows of one tier and key that fall in bucket b of the target tier. */
  function Members(rows: Table, tier: Tier, to: Tier, key: string, b: int): Table
  {
    if rows == [] then []
    else
      var r := rows[|rows| - 1];
      Members(rows[..|rows| - 1], tier, to, key, b) +
      if r.tier == tier && r.key == key && Bucket(to, r.created) == b then [r] else []
  }

  function Gauge(r: Row, f: nat): real { if f < |r.gauges| then r.gauges[f] else 0.0 }
  function Counter(r: Row, f: nat): real { if f < |r.counters| then r.counters[f] else 0.0 }

  function SumGauge(rows: Table, f: nat): real
  {
    if rows == [] then 0.0 else SumGauge(rows[..|rows| - 1], f) + Gauge(rows[|rows| - 1], f)
  }

  /** AVG of one gauge field. */
  function Average(rows: Table, f: nat): real
    requires rows != []
  {
    SumGauge(rows, f) / (|rows| as real)
  }

  /** MAX of one counter field. */
  function Maximum(rows: Table, f: nat): real
    requires rows != []
  {
    var last := Counter(rows[|rows| - 1], f);
    if |rows| == 1 then last
    else
      var m := Maximum(rows[..|rows| - 1], f);
      if last > m then last else m
  }

  function Aggregate(s: Series, src: Table, to: Tier, key: string, b: int): Row
    requires src != []
  {
    Row(key, to, b, seq(s.gauges, f requires 0 <= f => Average(src, f)), seq(s.counters, f requires 0 <= f => Maximum(src, f)))
  }

  /** The record a group becomes. */
  function Rollup(s: Series, rows: Table, to: Tier, g: Group): Table
    requires to != M1
  {
    var src := Members(rows, From(to), to, g.0, g.1);
    if src == [] then [] else [Aggregate(s, src, to, g.0, g.1)]
  }

  predicate Passed(last: map<string, int>, g: Group)
  {
    g.0 in last && g.1 <= last[g.0]
  }

  /** The records one aggregation inserts for a list of groups. */
  function NewRows(s: Series, rows: Table, to: Tier, last: map<string, int>, gs: seq<Group>): Table
    requires to != M1
  {
    if gs == [] then []
    else
      var g := gs[|gs| - 1];
      NewRows(s, rows, to, last, gs[..|gs| - 1]) + if Passed(last, g) then [] else Rollup(s, rows, to, g)
  }

  function Inserted(s: Series, rows: Table, to: Tier, now: int): Table
    requires to != M1
  {
    NewRows(s, rows, to, Watermarks(rows, to), Groups(rows, to, Bucket(to, now)))
  }

  /** DELETE of the rows of one tier created before a time. */
  function Expire(rows: Table, tier: Tier, before: int): Table
  {
    if rows == [] then []
    else
      var r := rows[|rows| - 1];
      Expire(rows[..|rows| - 1], tier, before) + if r.tier == tier && r.created < before then [] else [r]
  }

  /** The table, and every row it ever held in order of insertion. */
  datatype Db = Db(rows: Table, ever: Table)

  function AggregateTier(s: Series, d: Db, to: Tier, now: int, faults: set<Tier>): Db
    requires to != M1
  {
    var added := Inserted(s, d.rows, to, now);
    if to in faults then d else Db(d.rows + added, d.ever + added)
  }

  function EnforceRetention(d: Db, tier: Tier, now: int): Db
  {
    d.(rows := Expire(d.rows, tier, now - Retain(tier)))
  }

  /** What fails in one pass over one collection: the aggregations into these tiers, and the
      DELETEs on these. */
  datatype Faults = Faults(inserts: set<Tier>, deletes: set<Tier>)

  const NO_FAULTS := Faults({}, {})

  /** A DELETE that may fail; the pass goes on either way. */
  function TryRetention(d: Db, tier: Tier, now: int, faults: Faults): Db
  {
    if tier in faults.deletes then d else EnforceRetention(d, tier, now)
  }

  /** One pass over one collection. */
  function Pass(s: Series, d: Db, now: int, faults: Faults): Db
  {
    var d := TryRetention(AggregateTier(s, d, M10, now, faults.inserts), M1, now, faults);
    var d := TryRetention(AggregateTier(s, d, H1, now, faults.inserts), M10, now, faults);
    var d := TryRetention(AggregateTier(s, d, D1, now, faults.inserts), H1, now, faults);
    TryRetention(d, D1, now, faults)
  }

  // ---- the hub's tables ----

  datatype TierDef = TierDef(from: Tier, to: Option<Tier>)

  const TIERS := [TierDef(M1, Some(M10)), TierDef(M10, Some(H1)), TierDef(H1, Some(D1)), TierDef(D1, None)]

  class Metrics {
    const series: seq<Series>
    var tables: seq<Table>
    ghost var histories: seq<Table>

    ghost predicate Valid()
      reads this
    {
      |tables| == |series| == |histories|
    }

    ghost function View(i: nat): Db
      requires Valid() && i < |series|
      reads this
    {
      Db(tables[i], histories[i])
    }

    constructor (series: seq<Series>)
      ensures Valid() && this.series == series
      ensures forall i :: 0 <= i < |series| ==> View(i) == Db([], [])
    {
      this.series := series;
      tables := seq(|series|, i => []);
      histories := seq(|series|, i => []);
    }

    method AggregateOne(i: nat, to: Tier, now: int, faults: set<Tier>)
      requires Valid() && i < |series| && to != M1
      modifies this
      ensures Valid() && View(i) == AggregateTier(series[i], old(View(i)), to, now, faults)
      ensures forall j :: 0 <= j < |series| && j != i ==> View(j) == old(View(j))
    {
      var rows := tables[i];
      var last := Watermarks(rows, to);
      var gs := Groups(rows, to, Bucket(to, now));
      var tx: Table := [];
      var n := 0;
      while n < |gs|
        invariant 0 <= n <= |gs|
        invariant tx == NewRows(series[i], rows, to, last, gs[..n])
      {
        assert gs[..n + 1][..n] == gs[..n];
        var (key, bucket) := gs[n];
        if !(key in last && bucket <= last[key]) {
          tx := tx + Rollup(series[i], rows, to, gs[n]);
        }
        n := n + 1;
      }
      assert gs[..n] == gs;
      if to !in faults {
        tables := tables[i := rows + tx];
        histories := histories[i := histories[i] + tx];
      }
    }

    method Enforce(i: nat, tier: Tier, now: int, faults: Faults)
      requires Valid() && i < |series|
      modifies this`tables
      ensures Valid() && View(i) == TryRetention(old(View(i)), tier, now, faults)
      ensures forall j :: 0 <= j < |series| && j != i ==> View(j) == old(View(j))
    {
      if tier !in faults.deletes {
        tables := tables[i := Expire(tables[i], tier, now - Retain(tier))];
      }
    }

    /** One cron pass over every collection, each with its own failures. */
    method Run(now: int, faults: seq<Faults>)
      requires Valid() && |faults| == |series|
      modifies this
      ensures Valid()
      ensures forall i :: 0 <= i < |series| ==> View(i) == Pass(series[i], old(View(i)), now, faults[i])
    {
      var i := 0;
      while i < |series|
        invariant Valid() && 0 <= i <= |series|
        invariant forall j :: 0 <= j < i ==> View(j) == Pass(series[j], old(View(j)), now, faults[j])
        invariant forall j :: i <= j < |series| ==> View(j) == old(View(j))
      {
        RunTiers(i, now, faults[i]);
        i := i + 1;
      }
    }

    method RunTiers(i: nat, now: int, faults: Faults)
      requires Valid() && i < |series|
      modifies this
      ensures Valid() && View(i) == Pass(series[i], old(View(i)), now, faults)
      ensures forall j :: 0 <= j < |series| && j != i ==> View(j) == old(View(j))
    {
      var t := 0;
      while t < |TIERS|
        invariant Valid() && 0 <= t <= |TIERS|
        invariant View(i) == PassUpTo(series[i], old(View(i)), now, faults, t)
        invariant forall j :: 0 <= j < |series| && j != i ==> View(j) == old(View(j))
      {
        var def := TIERS[t];
        if def.to.Some? {
          AggregateOne(i, def.to.value, now, faults.inserts);
        }
        Enforce(i, def.from, now, faults);
        t := t + 1;
      }
      PassInFour(series[i], old(View(i)), now, faults);
    }
  }

  /** The first t entries of the tier list. */
  function PassUpTo(s: Series, d: Db, now: int, faults: Faults, t: nat): Db
    requires t <= |TIERS|
  {
    if t == 0 then d
    else
      var d := PassUpTo(s, d, now, faults, t - 1);
      var def := TIERS[t - 1];
      TryRetention(if def.to.Some? then AggregateTier(s, d, def.to.value, now, faults.inserts) else d, def.from, now, faults)
  }

  lemma PassInFour(s: Series, d: Db, now: int, faults: Faults)
    ensures PassUpTo(s, d, now, faults, 4) == Pass(s, d, now, faults)
  {
    hide AggregateTier, TryRetention;
    assert PassUpTo(s, d, now, faults, 1) ==
           TryRetention(AggregateTier(s, d, M10, now, faults.inserts), M1, now, faults);
    assert PassUpTo(s, d, now, faults, 3) ==
           TryRetention(AggregateTier(s, PassUpTo(s, d, now, faults, 2), D1, now, faults.inserts), H1, now, faults);
  }
}
