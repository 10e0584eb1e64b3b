/** Each (key, tier, bucket) is inserted at most once, ever, for any gaps between passes,
    failing inserts, late samples and all but long failing DELETEs - although retention deletes
    sources and targets. */
module DownsampleOnce {
  import opened Downsample
  import opened DownsampleFacts

  datatype Event =
    | Arrive(at: int, row: Row)
    | Cron(now: int, faults: Faults)

  /** The database, the time of the last pass, and of the last DELETE on each tier that did
      not fail. */
  datatype Hub = Hub(d: Db, clock: int, deleted: Cuts)

  function Deleted(del: Cuts, now: int, faults: Faults): Cuts
  {
    Cuts(if M1 in faults.deletes then del.m1 else now, if M10 in faults.deletes then del.m10 else now,
         if H1 in faults.deletes then del.h1 else now, if D1 in faults.deletes then del.d1 else now)
  }

  function Next(s: Series, h: Hub, ev: Event): Hub
  {
    match ev
    case Arrive(_, row) => h.(d := Db(h.d.rows + [row], h.d.ever + [row]))
    case Cron(now, faults) => Hub(Pass(s, h.d, now, faults), now, Deleted(h.deleted, now, faults))
  }

  function Run(s: Series, start: int, evs: seq<Event>): Hub
  {
    if evs == [] then Hub(Db([], []), start, Cuts(start, start, start, start))
    else Next(s, Run(s, start, evs[..|evs| - 1]), evs[|evs| - 1])
  }

  /** How old a 1m sample may be on arrival at most: retain(10m) - width(10m), plus the one
      millisecond that the strict comparison in the DELETE leaves. */
  const LATE := 10 * DAY - 10 * MINUTE + 1

  /** The oldest 1m row a successful DELETE leaves, or that can still arrive. */
  function Oldest(late: nat): int
  {
    if late < Retain(M1) then Retain(M1) else late
  }

  /** What can be left of each tier, given the last DELETEs and how late samples may be. */
  function Floors(late: nat, del: Cuts): Cuts
  {
    Cuts(del.m1 - Oldest(late), del.m10 - Retain(M10), del.h1 - Retain(H1), del.d1 - Retain(D1))
  }

  /** For how long the source tier may keep all its rows before its target loses records whose
      sources are still there. */
  function Slack(late: nat, to: Tier): int
    requires to != M1
  {
    match to
    case M10 => 10 * DAY - 10 * MINUTE + 1 - Oldest(late)
    case H1 => 20 * DAY - HOUR + 1
    case D1 => 699 * DAY + 1
  }

  /** When a DELETE on a tier succeeds, the last one on its source tier is not too long ago. */
  predicate Covered(late: nat, del: Cuts, to: Tier, now: int)
    requires to != M1
  {
    now - CutOf(del, From(to)) <= Slack(late, to)
  }

  /** Time does not go back; samples arrive in the 1m tier and at most `late` old; DELETEs that
      succeed are covered. */
  ghost predicate Timely(s: Series, start: int, late: nat, evs: seq<Event>)
  {
    evs == [] ||
    var n := |evs| - 1;
    && Timely(s, start, late, evs[..n])
    && var h := Run(s, start, evs[..n]);
       match evs[n]
       case Arrive(at, row) => h.clock <= at && row.tier == M1 && row.created >= at - late
       case Cron(now, faults) => h.clock <= now && AllCovered(late, Deleted(h.deleted, now, faults), now, faults)
  }

  predicate AllCovered(late: nat, del: Cuts, now: int, faults: Faults)
  {
    forall to: Tier :: to != M1 && to !in faults.deletes ==> Covered(late, del, to, now)
  }

  /** The same when no DELETE ever fails. */
  ghost predicate Deleting(s: Series, start: int, late: nat, evs: seq<Event>)
  {
    evs == [] ||
    var n := |evs| - 1;
    && Deleting(s, start, late, evs[..n])
    && var clock := Run(s, start, evs[..n]).clock;
       match evs[n]
       case Arrive(at, row) => clock <= at && row.tier == M1 && row.created >= at - late
       case Cron(now, faults) => clock <= now && faults.deletes == {}
  }

  /** A DELETE is covered when the one on the source tier succeeds in the same pass. */
  lemma {:induction false} DeletingIsTimely(s: Series, start: int, late: nat, evs: seq<Event>)
    requires late <= LATE && Deleting(s, start, late, evs)
    ensures Timely(s, start, late, evs)
  {
    hide Run;
    if evs != [] {
      DeletingIsTimely(s, start, late, evs[..|evs| - 1]);
    }
  }

  // ---- the invariant ----

  /** No later aggregation can insert r's bucket again: a newer record of its tier is still
      there, or its whole bucket lies before the oldest source row there can be. */
  ghost predicate Barred(rows: Table, fl: Cuts, r: Row)
    requires r.tier != M1
  {
    || (exists q :: q in rows && q.tier == r.tier && q.key == r.key && q.created >= r.created)
    || r.created + Width(r.tier) <= CutOf(fl, From(r.tier))
  }

  ghost predicate Inv(d: Db, fl: Cuts)
  {
    && (forall r :: r in d.rows ==> r.created >= CutOf(fl, r.tier))
    && (forall r :: r in d.ever && r.tier != M1 ==> Barred(d.rows, fl, r))
    && (forall t, k, b :: t != M1 ==> |At(d.ever, t, k, b)| <= 1)
  }

  /** A group that gets past the watermark has no record yet. */
  lemma NewGroupIsNew(s: Series, d: Db, fl: Cuts, to: Tier, now: int, r: Row)
    requires to != M1 && Inv(d, fl)
    requires r in Inserted(s, d.rows, to, now)
    ensures At(d.ever, to, r.key, r.created) == []
    ensures exists x :: x in d.rows && x.tier == From(to) && r.created == Bucket(to, x.created)
  {
    hide Bucket;
    var cutoff := Bucket(to, now);
    NewRowsIn(s, d.rows, to, Watermarks(d.rows, to), Groups(d.rows, to, cutoff), r);
    GroupsFacts(d.rows, to, cutoff);
    WatermarkFacts(d.rows, to, r.key);
    var x :| x in d.rows && x.tier == From(to) && x.created < cutoff && (r.key, r.created) == (x.key, Bucket(to, x.created));
    BucketBounds(to, x.created);
    if At(d.ever, to, r.key, r.created) != [] {
      var o := At(d.ever, to, r.key, r.created)[0];
      MembersIn(d.ever, to, M1, r.key, r.created, o);
      SameInstant(o.created);
      assert false;
    }
  }

  lemma SameInstant(t: int)
    ensures Bucket(M1, t) == t
  {
  }

  lemma AggregateKeeps(s: Series, d: Db, fl: Cuts, to: Tier, now: int, faults: set<Tier>)
    requires to != M1 && Inv(d, fl)
    requires CutOf(fl, to) + Width(to) - 1 <= CutOf(fl, From(to))
    ensures Inv(AggregateTier(s, d, to, now, faults), fl)
  {
    hide Bucket;
    if to !in faults {
      var last, gs := Watermarks(d.rows, to), Groups(d.rows, to, Bucket(to, now));
      var added := Inserted(s, d.rows, to, now);
      var d' := AggregateTier(s, d, to, now, faults);
      GroupsFacts(d.rows, to, Bucket(to, now));
      forall r | r in added
        ensures r.tier == to && r.created >= CutOf(fl, to)
      {
        NewRowsIn(s, d.rows, to, last, gs, r);
        NewGroupIsNew(s, d, fl, to, now, r);
        var x :| x in d.rows && x.tier == From(to) && r.created == Bucket(to, x.created);
        BucketBounds(to, x.created);
      }
      forall r | r in d'.ever && r.tier != M1
        ensures Barred(d'.rows, fl, r)
      {
        if r in d.ever {
          assert Barred(d.rows, fl, r);
          assert forall q :: q in d.rows ==> q in d'.rows;
        } else {
          assert r in d'.rows;
        }
      }
      forall t, k, b | t != M1
        ensures |At(d'.ever, t, k, b)| <= 1
      {
        OneMoreAt(s, d, fl, to, now, t, k, b);
      }
    }
  }

  lemma OneMoreAt(s: Series, d: Db, fl: Cuts, to: Tier, now: int, t: Tier, k: string, b: int)
    requires to != M1 && Inv(d, fl) && t != M1
    ensures |At(d.ever + Inserted(s, d.rows, to, now), t, k, b)| <= 1
  {
    hide Bucket, Members, Rollup;
    var last, gs := Watermarks(d.rows, to), Groups(d.rows, to, Bucket(to, now));
    var added := Inserted(s, d.rows, to, now);
    MembersAppend(d.ever, added, t, M1, k, b);
    assert |At(d.ever, t, k, b)| <= 1;
    GroupsFacts(d.rows, to, Bucket(to, now));
    if t == to {
      NewRowsAt(s, d.rows, to, last, gs, k, b);
      RollupSize(s, d.rows, to, (k, b));
      if At(added, t, k, b) != [] {
        var r := At(added, t, k, b)[0];
        MembersIn(added, t, M1, k, b, r);
        SameInstant(r.created);
        NewGroupIsNew(s, d, fl, to, now, r);
      }
    } else {
      forall r | r in added
        ensures r.tier != t
      {
        NewRowsIn(s, d.rows, to, last, gs, r);
      }
      MembersNone(added, t, M1, k, b);
    }
  }

  lemma RollupSize(s: Series, rows: Table, to: Tier, g: Group)
    requires to != M1
    ensures |Rollup(s, rows, to, g)| <= 1
  {
  }

  /** Deleting the records of a tier leaves their buckets barred, because the tier outlives
      its sources by at least a bucket: retain(to) >= retain(from) + width. */
  lemma ExpireKeeps(d: Db, fl: Cuts, tier: Tier, now: int, v: int)
    requires Inv(d, fl)
    requires CutOf(fl, tier) <= v <= now - Retain(tier)
    requires tier != M1 ==> now - Retain(tier) - 1 + Width(tier) <= CutOf(fl, From(tier))
    ensures Inv(EnforceRetention(d, tier, now), SetCut(fl, tier, v))
  {
    var before, fl' := now - Retain(tier), SetCut(fl, tier, v);
    var d' := EnforceRetention(d, tier, now);
    forall r | r in d'.rows
      ensures r.created >= CutOf(fl', r.tier)
    {
      ExpireIn(d.rows, tier, before, r);
    }
    forall r | r in d'.ever && r.tier != M1
      ensures Barred(d'.rows, fl', r)
    {
      assert Barred(d.rows, fl, r);
      if q :| q in d.rows && q.tier == r.tier && q.key == r.key && q.created >= r.created {
        ExpireIn(d.rows, tier, before, q);
        assert q in d'.rows || (q.tier == tier && q.created < before);
      }
    }
  }

  lemma TryKeeps(d: Db, fl: Cuts, tier: Tier, now: int, faults: Faults, v: int)
    requires Inv(d, fl)
    requires tier !in faults.deletes ==> CutOf(fl, tier) <= v <= now - Retain(tier)
    requires tier !in faults.deletes && tier != M1 ==> now - Retain(tier) - 1 + Width(tier) <= CutOf(fl, From(tier))
    ensures Inv(TryRetention(d, tier, now, faults), if tier in faults.deletes then fl else SetCut(fl, tier, v))
  {
    hide Inv, EnforceRetention;
    if tier !in faults.deletes {
      ExpireKeeps(d, fl, tier, now, v);
    }
  }

  /** Each tier reaches back by a bucket more than the tier it is built from. */
  predicate Linked(fl: Cuts)
  {
    && fl.m10 + Width(M10) - 1 <= fl.m1
    && fl.h1 + Width(H1) - 1 <= fl.m10
    && fl.d1 + Width(D1) - 1 <= fl.h1
  }

  predicate UpTo(del: Cuts, t: int)
  {
    del.m1 <= t && del.m10 <= t && del.h1 <= t && del.d1 <= t
  }

  lemma PassKeeps(s: Series, d: Db, late: nat, del: Cuts, now: int, faults: Faults)
    requires Inv(d, Floors(late, del)) && Linked(Floors(late, del)) && UpTo(del, now)
    requires AllCovered(late, Deleted(del, now, faults), now, faults)
    ensures Inv(Pass(s, d, now, faults), Floors(late, Deleted(del, now, faults)))
    ensures Linked(Floors(late, Deleted(del, now, faults)))
  {
    hide Inv, AggregateTier, TryRetention;
    var f0, to := Floors(late, del), Floors(late, Deleted(del, now, faults));
    AllLinked(late, del, now, faults);
    var a1 := AggregateTier(s, d, M10, now, faults.inserts);
    AggregateKeeps(s, d, f0, M10, now, faults.inserts);
    var e1, f1 := TryRetention(a1, M1, now, faults), f0.(m1 := to.m1);
    TryKeeps(a1, f0, M1, now, faults, now - Oldest(late));
    var a2 := AggregateTier(s, e1, H1, now, faults.inserts);
    AggregateKeeps(s, e1, f1, H1, now, faults.inserts);
    var e2, f2 := TryRetention(a2, M10, now, faults), f1.(m10 := to.m10);
    TryKeeps(a2, f1, M10, now, faults, now - Retain(M10));
    var a3 := AggregateTier(s, e2, D1, now, faults.inserts);
    AggregateKeeps(s, e2, f2, D1, now, faults.inserts);
    var e3, f3 := TryRetention(a3, H1, now, faults), f2.(h1 := to.h1);
    TryKeeps(a3, f2, H1, now, faults, now - Retain(H1));
    TryKeeps(e3, f3, D1, now, faults, now - Retain(D1));
  }

  lemma AllLinked(late: nat, del: Cuts, now: int, faults: Faults)
    requires Linked(Floors(late, del)) && UpTo(del, now)
    requires AllCovered(late, Deleted(del, now, faults), now, faults)
    ensures Linked(Floors(late, Deleted(del, now, faults)))
    ensures forall to: Tier :: to != M1 && to !in faults.deletes ==> Covered(late, Deleted(del, now, faults), to, now)
    ensures UpTo(Deleted(del, now, faults), now)
  {
    assert M10 !in faults.deletes ==> Covered(late, Deleted(del, now, faults), M10, now);
    assert H1 !in faults.deletes ==> Covered(late, Deleted(del, now, faults), H1, now);
    assert D1 !in faults.deletes ==> Covered(late, Deleted(del, now, faults), D1, now);
  }

  lemma ArriveKeeps(d: Db, late: nat, del: Cuts, at: int, row: Row)
    requires Inv(d, Floors(late, del)) && UpTo(del, at) && row.tier == M1 && row.created >= at - late
    ensures Inv(Db(d.rows + [row], d.ever + [row]), Floors(late, del))
  {
    hide Members;
    var fl, d' := Floors(late, del), Db(d.rows + [row], d.ever + [row]);
    forall r | r in d'.ever && r.tier != M1
      ensures Barred(d'.rows, fl, r)
    {
      assert Barred(d.rows, fl, r);
      assert forall q :: q in d.rows ==> q in d'.rows;
    }
    forall t, k, b | t != M1
      ensures |At(d'.ever, t, k, b)| <= 1
    {
      MembersAppend(d.ever, [row], t, M1, k, b);
      assert |At(d.ever, t, k, b)| <= 1;
      MembersOne(row, t, M1, k, b);
    }
  }

  lemma {:induction false} RunKeeps(s: Series, start: int, late: nat, evs: seq<Event>)
    requires late <= LATE && Timely(s, start, late, evs)
    ensures var h := Run(s, start, evs);
            Inv(h.d, Floors(late, h.deleted)) && Linked(Floors(late, h.deleted)) && UpTo(h.deleted, h.clock)
  {
    hide Inv, Pass, AllCovered;
    if evs == [] {
      Empty(Floors(late, Cuts(start, start, start, start)));
    } else {
      var n := |evs| - 1;
      RunKeeps(s, start, late, evs[..n]);
      var h := Run(s, start, evs[..n]);
      hide Floors, Linked;
      match evs[n]
      case Arrive(at, row) => ArriveKeeps(h.d, late, h.deleted, at, row);
      case Cron(now, faults) =>
        PassKeeps(s, h.d, late, h.deleted, now, faults);
        AllLinked(late, h.deleted, now, faults);
    }
  }

  lemma Empty(fl: Cuts)
    ensures Inv(Db([], []), fl)
  {
  }

  // ---- main results ----

  /** Over any run, every bucket of every key is inserted into its tier at most once. */
  lemma {:induction false} AtMostOnce(s: Series, start: int, late: nat, evs: seq<Event>, tier: Tier, key: string, bucket: int)
    requires late <= LATE && Timely(s, start, late, evs) && tier != M1
    ensures |At(Run(s, start, evs).d.ever, tier, key, bucket)| <= 1
  {
    RunKeeps(s, start, late, evs);
  }

  // ---- a pass repeated ----

  /** After a pass, a source row that survives had its group settled by that pass: its
      record, or a newer one, survives with it. */
  lemma NothingNew(s: Series, before: Table, after: Table, to: Tier, now: int)
    requires to != M1
    requires forall x :: x in after && x.tier == From(to) ==> x in before && x.created >= now - Retain(From(to))
    requires forall q :: q in before + Inserted(s, before, to, now) && q.tier == to && q.created >= now - Retain(to) ==> q in after
    ensures Inserted(s, after, to, now) == []
  {
    var again := Inserted(s, after, to, now);
    if again != [] {
      var r := again[0];
      Settled(s, before, after, to, now, r);
      NewRowsIn(s, after, to, Watermarks(after, to), Groups(after, to, Bucket(to, now)), r);
      WatermarkFacts(after, to, r.key);
      assert false;
    }
  }

  lemma Settled(s: Series, before: Table, after: Table, to: Tier, now: int, r: Row)
    requires to != M1 && r in Inserted(s, after, to, now)
    requires forall x :: x in after && x.tier == From(to) ==> x in before && x.created >= now - Retain(From(to))
    requires forall q :: q in before + Inserted(s, before, to, now) && q.tier == to && q.created >= now - Retain(to) ==> q in after
    ensures exists q :: q in after && q.tier == to && q.key == r.key && q.created >= r.created
  {
    hide Bucket, Members, NewRows;
    var cutoff := Bucket(to, now);
    NewRowsIn(s, after, to, Watermarks(after, to), Groups(after, to, cutoff), r);
    GroupsFacts(after, to, cutoff);
    var x :| x in after && x.tier == From(to) && x.created < cutoff && (r.key, r.created) == (x.key, Bucket(to, x.created));
    BucketBounds(to, x.created);
    var last, gs := Watermarks(before, to), Groups(before, to, cutoff);
    GroupsFacts(before, to, cutoff);
    WatermarkFacts(before, to, r.key);
    assert (r.key, r.created) in gs;
    if Passed(last, (r.key, r.created)) {
      var q :| q in before && q.tier == to && q.key == r.key && q.created == last[r.key];
      assert q in after;
    } else {
      var added := Inserted(s, before, to, now);
      NewRowsAt(s, before, to, last, gs, r.key, r.created);
      MembersIn(before, From(to), to, r.key, r.created, x);
      var q := Rollup(s, before, to, (r.key, r.created))[0];
      assert q in At(added, to, r.key, r.created);
      MembersIn(added, to, M1, r.key, r.created, q);
      SameInstant(q.created);
      assert q in after;
    }
  }

  /** The three insertions of a faultless pass, and what is left after it. */
  lemma PassParts(s: Series, d: Db, now: int) returns (n1: Table, n2: Table, n3: Table)
    ensures n1 == Inserted(s, d.rows, M10, now)
    ensures n2 == Inserted(s, Expire(d.rows + n1, M1, now - Retain(M1)), H1, now)
    ensures n3 == Inserted(s, Expire(Expire(d.rows + n1, M1, now - Retain(M1)) + n2, M10, now - Retain(M10)), D1, now)
    ensures Pass(s, d, now, NO_FAULTS).ever == d.ever + n1 + n2 + n3
    ensures Pass(s, d, now, NO_FAULTS).rows ==
            Expire(Expire(Expire(Expire(d.rows + n1, M1, now - Retain(M1)) + n2, M10, now - Retain(M10)) + n3, H1, now - Retain(H1)), D1, now - Retain(D1))
    ensures forall r :: r in n1 ==> r.tier == M10
    ensures forall r :: r in n2 ==> r.tier == H1
    ensures forall r :: r in n3 ==> r.tier == D1
  {
    hide Expire, Inserted;
    n1 := Inserted(s, d.rows, M10, now);
    var e1 := Expire(d.rows + n1, M1, now - Retain(M1));
    n2 := Inserted(s, e1, H1, now);
    var e2 := Expire(e1 + n2, M10, now - Retain(M10));
    n3 := Inserted(s, e2, D1, now);
    TierOf(s, d.rows, M10, now);
    TierOf(s, e1, H1, now);
    TierOf(s, e2, D1, now);
  }

  lemma TierOf(s: Series, rows: Table, to: Tier, now: int)
    requires to != M1
    ensures forall r :: r in Inserted(s, rows, to, now) ==> r.tier == to
  {
    forall r | r in Inserted(s, rows, to, now)
      ensures r.tier == to
    {
      NewRowsIn(s, rows, to, Watermarks(rows, to), Groups(rows, to, Bucket(to, now)), r);
    }
  }

  lemma {:induction false} ExpireNone(rows: Table, tier: Tier, before: int)
    requires forall r :: r in rows ==> !(r.tier == tier && r.created < before)
    ensures Expire(rows, tier, before) == rows
  {
    if rows != [] {
      var n := |rows| - 1;
      assert rows == rows[..n] + [rows[n]];
      assert rows[n] in rows;
      ExpireNone(rows[..n], tier, before);
    }
  }

  /** A second pass at the same time changes nothing, from any table whatsoever: progress
      needs no bookkeeping. */
  lemma {:induction false} PassIsIdempotent(s: Series, d: Db, now: int)
    ensures Pass(s, Pass(s, d, now, NO_FAULTS), now, NO_FAULTS) == Pass(s, d, now, NO_FAULTS)
  {
    hide Expire, Inserted, Pass;
    var n1, n2, n3 := PassParts(s, d, now);
    var p := Pass(s, d, now, NO_FAULTS);
    var e1 := Expire(d.rows + n1, M1, now - Retain(M1));
    var e2 := Expire(e1 + n2, M10, now - Retain(M10));
    var e3 := Expire(e2 + n3, H1, now - Retain(H1));
    forall r
      ensures r in p.rows <==> r in d.rows + n1 + n2 + n3 && r.created >= now - Retain(r.tier)
      ensures r in e1 <==> r in d.rows + n1 && (r.tier == M1 ==> r.created >= now - Retain(M1))
      ensures r in e2 <==> r in e1 + n2 && (r.tier == M10 ==> r.created >= now - Retain(M10))
    {
      ExpireIn(d.rows + n1, M1, now - Retain(M1), r);
      ExpireIn(e1 + n2, M10, now - Retain(M10), r);
      ExpireIn(e2 + n3, H1, now - Retain(H1), r);
      ExpireIn(e3, D1, now - Retain(D1), r);
    }
    NothingNew(s, d.rows, p.rows, M10, now);
    NothingNew(s, e1, p.rows, H1, now);
    NothingNew(s, e2, p.rows, D1, now);
    var m1, m2, m3 := PassParts(s, p, now);
    assert p.rows + m1 == p.rows && p.ever + m1 == p.ever;
    ExpireNone(p.rows, M1, now - Retain(M1));
    assert p.rows + m2 == p.rows;
    ExpireNone(p.rows, M10, now - Retain(M10));
    assert p.rows + m3 == p.rows;
    ExpireNone(p.rows, H1, now - Retain(H1));
    ExpireNone(p.rows, D1, now - Retain(D1));
  }

  // ---- sources that outlive their record ----

  /** A record of this tier and key at least as new as the bucket. */
  ghost predicate Passing(rows: Table, to: Tier, key: string, b: int)
  {
    exists q :: q in rows && q.tier == to && q.key == key && q.created >= b
  }

  /** A row of a completed bucket of the next tier, too late or never deleted, makes the next pass
      insert a record for that bucket exactly when no record of its key as new as the bucket is
      left. */
  lemma SourceInsertsIff(s: Series, d: Db, to: Tier, y: Row, now: int)
    requires to != M1 && y in d.rows && y.tier == From(to) && Bucket(to, y.created) < Bucket(to, now)
    ensures var b := Bucket(to, y.created);
            |At(Pass(s, d, now, NO_FAULTS).ever, to, y.key, b)| ==
            |At(d.ever, to, y.key, b)| + if Passing(d.rows, to, y.key, b) then 0 else 1
  {
    hide Bucket, Members, Pass, Inserted, Expire, Aggregate, Passing;
    var b := Bucket(to, y.created);
    var n1, n2, n3 := PassParts(s, d, now);
    MembersAppend(d.ever + n1 + n2, n3, to, M1, y.key, b);
    MembersAppend(d.ever + n1, n2, to, M1, y.key, b);
    MembersAppend(d.ever, n1, to, M1, y.key, b);
    match to {
      case M10 =>
        MembersNone(n2, to, M1, y.key, b);
        MembersNone(n3, to, M1, y.key, b);
        InsertsIff(s, d.rows, d.rows, to, y, now);
      case H1 =>
        MembersNone(n1, to, M1, y.key, b);
        MembersNone(n3, to, M1, y.key, b);
        var e1 := Expire(d.rows + n1, M1, now - Retain(M1));
        forall r: Row | r.tier == to || (r.tier == From(to) && r in d.rows) ensures r in e1 <==> r in d.rows {
          ExpireIn(d.rows + n1, M1, now - Retain(M1), r);
        }
        InsertsIff(s, d.rows, e1, to, y, now);
      case D1 =>
        MembersNone(n1, to, M1, y.key, b);
        MembersNone(n2, to, M1, y.key, b);
        var e1 := Expire(d.rows + n1, M1, now - Retain(M1));
        var e2 := Expire(e1 + n2, M10, now - Retain(M10));
        forall r: Row | r.tier == to || (r.tier == From(to) && r in d.rows) ensures r in e2 <==> r in d.rows {
          ExpireIn(d.rows + n1, M1, now - Retain(M1), r);
          ExpireIn(e1 + n2, M10, now - Retain(M10), r);
        }
        InsertsIff(s, d.rows, e2, to, y, now);
    }
  }

  /** What the aggregation inserts, seen from the table before the pass. */
  lemma InsertsIff(s: Series, before: Table, rows: Table, to: Tier, y: Row, now: int)
    requires to != M1 && y in rows && y.tier == From(to) && Bucket(to, y.created) < Bucket(to, now)
    requires forall r: Row :: r.tier == to ==> (r in rows <==> r in before)
    ensures |At(Inserted(s, rows, to, now), to, y.key, Bucket(to, y.created))|
            == if Passing(before, to, y.key, Bucket(to, y.created)) then 0 else 1
  {
    hide Bucket, Members, Inserted;
    FirstInsert(s, rows, to, y, now);
    WatermarkFacts(rows, to, y.key);
  }

  lemma FirstInsert(s: Series, rows: Table, to: Tier, y: Row, now: int)
    requires to != M1 && y in rows && y.tier == From(to) && Bucket(to, y.created) < Bucket(to, now)
    ensures |At(Inserted(s, rows, to, now), to, y.key, Bucket(to, y.created))| ==
            if Passed(Watermarks(rows, to), (y.key, Bucket(to, y.created))) then 0 else 1
  {
    hide Bucket, Members;
    var b, cutoff := Bucket(to, y.created), Bucket(to, now);
    BucketBefore(to, y.created, now);
    GroupsFacts(rows, to, cutoff);
    assert (y.key, b) in Groups(rows, to, cutoff);
    NewRowsAt(s, rows, to, Watermarks(rows, to), Groups(rows, to, cutoff), y.key, b);
    MembersIn(rows, From(to), to, y.key, b, y);
  }

  // ---- a DELETE that fails for too long ----

  const EARLY := Row("k", M1, 0, [], [])

  /** The 1m row stays because its DELETE fails, while its 10m record expires. */
  const STUCK := [Arrive(0, EARLY), Cron(10 * MINUTE, NO_FAULTS), Cron(11 * DAY, Faults({}, {M1})), Cron(11 * DAY, NO_FAULTS)]

  /** Every row is of the first instant. */
  ghost predicate AtZero(rows: Table)
  {
    forall r :: r in rows ==> r.created == 0
  }

  lemma BucketZero(to: Tier)
    ensures Bucket(to, 0) == 0
  {
  }

  lemma AggregateAtZero(s: Series, d: Db, to: Tier, now: int)
    requires to != M1 && AtZero(d.rows)
    ensures var e := AggregateTier(s, d, to, now, {});
            && AtZero(e.rows) && (forall r :: r in e.rows && r.tier != to ==> r in d.rows) && (forall r :: r in d.rows ==> r in e.rows)
            && d.ever <= e.ever
  {
    hide Bucket;
    BucketZero(to);
    forall r | r in Inserted(s, d.rows, to, now) ensures r.created == 0 && r.tier == to {
      NewRowsIn(s, d.rows, to, Watermarks(d.rows, to), Groups(d.rows, to, Bucket(to, now)), r);
      GroupsFacts(d.rows, to, Bucket(to, now));
    }
  }

  lemma RetainAtZero(d: Db, tier: Tier, now: int, faults: Faults)
    requires AtZero(d.rows)
    ensures var e := TryRetention(d, tier, now, faults);
            && AtZero(e.rows) && e.ever == d.ever
            && forall r :: r in e.rows <==> r in d.rows && !(r.tier == tier && tier !in faults.deletes && now > Retain(tier))
  {
    forall r ensures r in Expire(d.rows, tier, now - Retain(tier)) <==> r in d.rows && !(r.tier == tier && r.created < now - Retain(tier)) {
      ExpireIn(d.rows, tier, now - Retain(tier), r);
    }
  }

  /** What is left of a tier and of the 1m rows after a pass over rows of the first instant. */
  lemma PassAtZero(s: Series, d: Db, now: int, faults: Faults)
    requires AtZero(d.rows) && faults.inserts == {}
    ensures var e := Pass(s, d, now, faults);
            && AtZero(e.rows) && d.ever <= e.ever
            && (forall r :: r in d.rows && r.tier == M1 && (M1 in faults.deletes || now <= Retain(M1)) ==> r in e.rows)
            && (M10 !in faults.deletes && now > Retain(M10) ==> forall r :: r in e.rows ==> r.tier != M10)
  {
    hide AggregateTier, TryRetention;
    var a1 := AggregateTier(s, d, M10, now, {});
    AggregateAtZero(s, d, M10, now);
    var e1 := TryRetention(a1, M1, now, faults);
    RetainAtZero(a1, M1, now, faults);
    var a2 := AggregateTier(s, e1, H1, now, {});
    AggregateAtZero(s, e1, H1, now);
    var e2 := TryRetention(a2, M10, now, faults);
    RetainAtZero(a2, M10, now, faults);
    var a3 := AggregateTier(s, e2, D1, now, {});
    AggregateAtZero(s, e2, D1, now);
    var e3 := TryRetention(a3, H1, now, faults);
    RetainAtZero(a3, H1, now, faults);
    RetainAtZero(e3, D1, now, faults);
  }

  lemma AtGrows(a: Table, b: Table, t: Tier, key: string, bucket: int)
    requires a <= b
    ensures |At(a, t, key, bucket)| <= |At(b, t, key, bucket)|
  {
    hide Members;
    assert b == a + b[|a|..];
    MembersAppend(a, b[|a|..], t, M1, key, bucket);
  }

  lemma StuckPrefixes()
    ensures STUCK[..3][..2][..1] == [Arrive(0, EARLY)] && |STUCK| == 4
    ensures STUCK[..3][..2] == [Arrive(0, EARLY), Cron(10 * MINUTE, NO_FAULTS)]
    ensures STUCK[..3][2] == Cron(11 * DAY, Faults({}, {M1})) && STUCK[3] == Cron(11 * DAY, NO_FAULTS)
  {
  }

  lemma FirstArrives(s: Series)
    ensures Run(s, 0, [Arrive(0, EARLY)]).d == Db([EARLY], [EARLY])
  {
    assert [Arrive(0, EARLY)][..0] == [];
    assert Run(s, 0, []).d == Db([], []);
    assert [] + [EARLY] == [EARLY];
  }

  /** One sample, on time, whose bucket gets two records. */
  lemma StuckInsertsTwice(s: Series)
    ensures |At(Run(s, 0, STUCK).d.ever, M10, "k", 0)| >= 2
  {
    hide Pass, Members, Bucket;
    StuckPrefixes();
    var first := Db([EARLY], [EARLY]);
    var d1, d2, d3 := Run(s, 0, STUCK[..3][..2][..1]).d, Run(s, 0, STUCK[..3][..2]).d, Run(s, 0, STUCK[..3]).d;
    FirstArrives(s);
    assert d1 == first;
    assert d2 == Pass(s, first, 10 * MINUTE, NO_FAULTS);
    assert d3 == Pass(s, d2, 11 * DAY, Faults({}, {M1}));
    assert Run(s, 0, STUCK).d == Pass(s, d3, 11 * DAY, NO_FAULTS);
    StuckCounts(s, first, d2, d3);
  }

  lemma StuckCounts(s: Series, d1: Db, d2: Db, d3: Db)
    requires d1 == Db([EARLY], [EARLY])
    requires d2 == Pass(s, d1, 10 * MINUTE, NO_FAULTS) && d3 == Pass(s, d2, 11 * DAY, Faults({}, {M1}))
    ensures |At(Pass(s, d3, 11 * DAY, NO_FAULTS).ever, M10, "k", 0)| >= 2
  {
    hide Pass, Members;
    BucketZero(M10);
    PassAtZero(s, d1, 10 * MINUTE, NO_FAULTS);
    PassAtZero(s, d2, 11 * DAY, Faults({}, {M1}));
    assert EARLY in d1.rows && EARLY in d2.rows && EARLY in d3.rows;
    BucketBefore(M10, 0, 10 * MINUTE);
    BucketBefore(M10, 0, 11 * DAY);
    SourceInsertsIff(s, d1, M10, EARLY, 10 * MINUTE);
    SourceInsertsIff(s, d3, M10, EARLY, 11 * DAY);
    AtGrows(d2.ever, d3.ever, M10, "k", 0);
  }
}
