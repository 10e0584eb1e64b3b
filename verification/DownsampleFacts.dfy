/** What the queries of one downsampling pass return. */
module DownsampleFacts {
  import opened Downsample

  // ---- grouping ----

  ghost predicate Distinct(gs: seq<Group>)
  {
    forall i, j :: 0 <= i < j < |gs| ==> gs[i] != gs[j]
  }

  ghost predicate ByBucket(gs: seq<Group>)
  {
    forall i, j :: 0 <= i <= j < |gs| ==> gs[i].1 <= gs[j].1
  }

  lemma {:induction false} AddGroupIn(gs: seq<Group>, g: Group, x: Group)
    ensures x in AddGroup(gs, g) <==> x in gs || x == g
  {
    if gs != [] {
      assert gs == [gs[0]] + gs[1..];
      AddGroupIn(gs[1..], g, x);
    }
  }

  lemma {:induction false} AddGroupFacts(gs: seq<Group>, g: Group)
    requires Distinct(gs) && ByBucket(gs)
    ensures Distinct(AddGroup(gs, g)) && ByBucket(AddGroup(gs, g))
    ensures forall x :: x in AddGroup(gs, g) <==> x in gs || x == g
  {
    forall x
      ensures x in AddGroup(gs, g) <==> x in gs || x == g
    {
      AddGroupIn(gs, g, x);
    }
    if gs != [] && gs[0] != g && g.1 >= gs[0].1 {
      var t := AddGroup(gs[1..], g);
      AddGroupFacts(gs[1..], g);
      ConsGroup(gs[0], gs[1..], t, g);
    }
  }

  lemma ConsGroup(h: Group, rest: seq<Group>, t: seq<Group>, g: Group)
    requires Distinct([h] + rest) && ByBucket([h] + rest) && Distinct(t) && ByBucket(t)
    requires h != g && h.1 <= g.1 && forall x :: x in t <==> x in rest || x == g
    ensures Distinct([h] + t) && ByBucket([h] + t)
  {
    var gs, a := [h] + rest, [h] + t;
    assert forall i :: 1 <= i < |gs| ==> gs[0] != gs[i] && gs[0].1 <= gs[i].1;
    forall i | 0 <= i < |rest|
      ensures h != rest[i] && h.1 <= rest[i].1
    {
      assert gs[i + 1] == rest[i];
    }
    assert forall x :: x in t ==> x != h && h.1 <= x.1;
    assert forall i :: 1 <= i < |a| ==> a[i] == t[i - 1] && t[i - 1] in t;
  }

  /** The groups are the buckets of completed source rows, each once, in bucket order. */
  lemma {:induction false} GroupsFacts(rows: Table, to: Tier, cutoff: int)
    requires to != M1
    ensures var gs := Groups(rows, to, cutoff);
            && Distinct(gs) && ByBucket(gs)
            && forall g :: g in gs <==> exists r :: r in rows && r.tier == From(to) && r.created < cutoff && g == (r.key, Bucket(to, r.created))
  {
    hide Bucket;
    if rows != [] {
      var n := |rows| - 1;
      GroupsFacts(rows[..n], to, cutoff);
      var r := rows[n];
      assert rows == rows[..n] + [r];
      if r.tier == From(to) && r.created < cutoff {
        AddGroupFacts(Groups(rows[..n], to, cutoff), (r.key, Bucket(to, r.created)));
      }
    }
  }

  /** The watermark of a key is its newest row in the target tier. */
  lemma {:induction false} WatermarkFacts(rows: Table, to: Tier, key: string)
    ensures var m := Watermarks(rows, to);
            && (key in m ==> exists r :: r in rows && r.tier == to && r.key == key && r.created == m[key])
            && (forall r :: r in rows && r.tier == to && r.key == key ==> key in m && r.created <= m[key])
  {
    if rows != [] {
      var n := |rows| - 1;
      WatermarkFacts(rows[..n], to, key);
      assert rows == rows[..n] + [rows[n]];
      assert rows[n] in rows;
    }
  }

  // ---- members of a bucket ----

  lemma {:induction false} MembersAppend(a: Table, b: Table, tier: Tier, to: Tier, key: string, k: int)
    ensures Members(a + b, tier, to, key, k) == Members(a, tier, to, key, k) + Members(b, tier, to, key, k)
    decreases |b|
  {
    hide Bucket;
    if b == [] {
      assert a + b == a;
    } else {
      var n := |b| - 1;
      assert (a + b)[..|a + b| - 1] == a + b[..n];
      MembersAppend(a, b[..n], tier, to, key, k);
    }
  }

  lemma {:induction false} MembersIn(rows: Table, tier: Tier, to: Tier, key: string, b: int, r: Row)
    ensures r in Members(rows, tier, to, key, b) <==> r in rows && r.tier == tier && r.key == key && Bucket(to, r.created) == b
  {
    hide Bucket;
    if rows != [] {
      var n := |rows| - 1;
      MembersIn(rows[..n], tier, to, key, b, r);
      assert rows == rows[..n] + [rows[n]];
    }
  }

  /** The rows of one tier and key created exactly at b. */
  function At(rows: Table, tier: Tier, key: string, b: int): Table
  {
    Members(rows, tier, M1, key, b)
  }

  lemma MembersOne(r: Row, tier: Tier, to: Tier, key: string, b: int)
    ensures Members([r], tier, to, key, b) ==
            if r.tier == tier && r.key == key && Bucket(to, r.created) == b then [r] else []
  {
    hide Bucket;
    assert [r][..0] == [];
    assert Members([], tier, to, key, b) == [];
  }

  lemma MembersNone(rows: Table, tier: Tier, to: Tier, key: string, b: int)
    requires forall r :: r in rows ==> !(r.tier == tier && r.key == key && Bucket(to, r.created) == b)
    ensures Members(rows, tier, to, key, b) == []
  {
    if Members(rows, tier, to, key, b) != [] {
      var r := Members(rows, tier, to, key, b)[0];
      MembersIn(rows, tier, to, key, b, r);
      assert false;
    }
  }

  // ---- what one aggregation inserts ----

  /** Inserted rows carry their group's key and bucket, in the target tier. */
  lemma {:induction false} NewRowsIn(s: Series, rows: Table, to: Tier, last: map<string, int>, gs: seq<Group>, r: Row)
    requires to != M1
    requires r in NewRows(s, rows, to, last, gs)
    ensures r.tier == to && (r.key, r.created) in gs && !Passed(last, (r.key, r.created))
    ensures Rollup(s, rows, to, (r.key, r.created)) == [r]
  {
    var n := |gs| - 1;
    if r in NewRows(s, rows, to, last, gs[..n]) {
      NewRowsIn(s, rows, to, last, gs[..n], r);
    }
  }

  /** Per key and bucket, one aggregation inserts the roll-up of its group, once, unless
      the watermark has passed it. */
  lemma {:induction false} NewRowsAt(s: Series, rows: Table, to: Tier, last: map<string, int>, gs: seq<Group>, key: string, b: int)
    requires to != M1 && Distinct(gs)
    ensures At(NewRows(s, rows, to, last, gs), to, key, b) ==
            if (key, b) in gs && !Passed(last, (key, b)) then Rollup(s, rows, to, (key, b)) else []
  {
    hide Rollup, Passed, Bucket, Members;
    if gs == [] {
      RollupAt(s, rows, to, (key, b), key, b);
    } else {
      var n := |gs| - 1;
      var before := NewRows(s, rows, to, last, gs[..n]);
      NewRowsAt(s, rows, to, last, gs[..n], key, b);
      assert gs == gs[..n] + [gs[n]];
      var add := if Passed(last, gs[n]) then [] else Rollup(s, rows, to, gs[n]);
      MembersAppend(before, add, to, M1, key, b);
      RollupAt(s, rows, to, gs[n], key, b);
      assert At(NewRows(s, rows, to, last, gs), to, key, b) == At(before, to, key, b) + At(add, to, key, b);
    }
  }

  lemma RollupAt(s: Series, rows: Table, to: Tier, g: Group, key: string, b: int)
    requires to != M1
    ensures At(Rollup(s, rows, to, g), to, key, b) == if g == (key, b) then Rollup(s, rows, to, g) else []
    ensures At([], to, key, b) == []
  {
    var r := Rollup(s, rows, to, g);
    if r != [] {
      MembersOne(r[0], to, M1, key, b);
      assert r == [r[0]];
    }
  }

  // ---- retention ----

  /** A lower time bound per tier. */
  datatype Cuts = Cuts(m1: int, m10: int, h1: int, d1: int)

  function CutOf(c: Cuts, t: Tier): int
  {
    match t case M1 => c.m1 case M10 => c.m10 case H1 => c.h1 case D1 => c.d1
  }

  function SetCut(c: Cuts, t: Tier, v: int): Cuts
  {
    match t
    case M1 => c.(m1 := v)
    case M10 => c.(m10 := v)
    case H1 => c.(h1 := v)
    case D1 => c.(d1 := v)
  }

  /** The rows not older than their tier's bound. */
  function Keep(rows: Table, c: Cuts): Table
  {
    if rows == [] then []
    else
      var r := rows[|rows| - 1];
      Keep(rows[..|rows| - 1], c) + if r.created < CutOf(c, r.tier) then [] else [r]
  }

  lemma {:induction false} KeepAppend(a: Table, b: Table, c: Cuts)
    ensures Keep(a + b, c) == Keep(a, c) + Keep(b, c)
    decreases |b|
  {
    if b == [] {
      assert a + b == a;
    } else {
      var n := |b| - 1;
      assert (a + b)[..|a + b| - 1] == a + b[..n];
      KeepAppend(a, b[..n], c);
    }
  }

  lemma {:induction false} KeepIn(rows: Table, c: Cuts, r: Row)
    ensures r in Keep(rows, c) <==> r in rows && r.created >= CutOf(c, r.tier)
  {
    if rows != [] {
      var n := |rows| - 1;
      KeepIn(rows[..n], c, r);
      assert rows == rows[..n] + [rows[n]];
    }
  }

  lemma {:induction false} KeepAll(rows: Table, c: Cuts)
    requires forall r :: r in rows ==> r.created >= CutOf(c, r.tier)
    ensures Keep(rows, c) == rows
  {
    if rows != [] {
      var n := |rows| - 1;
      assert rows == rows[..n] + [rows[n]];
      assert rows[n] in rows;
      KeepAll(rows[..n], c);
    }
  }

  lemma {:induction false} ExpireIn(rows: Table, tier: Tier, before: int, r: Row)
    ensures r in Expire(rows, tier, before) <==> r in rows && !(r.tier == tier && r.created < before)
  {
    if rows != [] {
      var n := |rows| - 1;
      ExpireIn(rows[..n], tier, before, r);
      assert rows == rows[..n] + [rows[n]];
    }
  }

  /** Expiring a tier raises its bound and nothing else. */
  lemma {:induction false} ExpireKeep(rows: Table, c: Cuts, tier: Tier, before: int)
    requires CutOf(c, tier) <= before
    ensures Expire(Keep(rows, c), tier, before) == Keep(rows, SetCut(c, tier, before))
  {
    if rows != [] {
      var n := |rows| - 1;
      var r := rows[n];
      ExpireKeep(rows[..n], c, tier, before);
      if r.created >= CutOf(c, r.tier) {
        var k := Keep(rows, c);
        assert k[..|k| - 1] == Keep(rows[..n], c);
      } else {
        assert Keep(rows, c) == Keep(rows[..n], c);
      }
    }
  }

  /** Retention does not touch a bucket that starts at or after its tier's bound. */
  lemma {:induction false} MembersKeep(rows: Table, c: Cuts, tier: Tier, to: Tier, key: string, b: int)
    requires CutOf(c, tier) <= b
    ensures Members(Keep(rows, c), tier, to, key, b) == Members(rows, tier, to, key, b)
  {
    hide Bucket;
    if rows != [] {
      var n := |rows| - 1;
      var r := rows[n];
      MembersKeep(rows[..n], c, tier, to, key, b);
      BucketBounds(to, r.created);
      if r.created >= CutOf(c, r.tier) {
        var k := Keep(rows, c);
        assert k == Keep(rows[..n], c) + [r] && k[..|k| - 1] == Keep(rows[..n], c);
      } else {
        assert Keep(rows, c) == Keep(rows[..n], c);
      }
    }
  }
}
