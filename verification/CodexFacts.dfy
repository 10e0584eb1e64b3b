/** What a codex row says, in terms of the whole file before it
    (agent/internal/tokenwatch/codex.go). */
module CodexFacts {

  import opened Wrappers
  import opened TokenStore
  import opened Codex

  // ---- what the counters remember ----

  /** The k-th event is the last session_meta. */
  predicate LastMeta(evs: seq<Event>, k: nat)
    requires k < |evs|
  {
    evs[k].Meta? && forall j :: k < j < |evs| ==> !evs[j].Meta?
  }

  /** ... the last turn_context that names a model. */
  predicate LastModel(evs: seq<Event>, k: nat)
    requires k < |evs|
  {
    Names(evs[k]) && forall j :: k < j < |evs| ==> !Names(evs[j])
  }

  predicate Names(ev: Event)
  {
    ev.Context? && ev.model != ""
  }

  lemma EndMore(st: State, evs: seq<Event>, ev: Event)
    ensures End(st, evs + [ev]) == Parse(End(st, evs), ev).0
    ensures Emit(st, evs + [ev]) == Emit(st, evs) + Cons(Parse(End(st, evs), ev).1, [])
  {
    ResumeAnywhere(st, evs, [ev]);
    assert [ev][1..] == [];
    hide Parse;
  }

  /** What one event does to them. */
  lemma OneParse(st: State, ev: Event)
    ensures var t := Parse(st, ev).0;
            && t.session == (if ev.Meta? then ev.id else st.session) && t.cwd == (if ev.Meta? then ev.cwd else st.cwd)
            && t.model == (if Names(ev) then ev.model else st.model)
            && t.events == st.events + (if ev.Count? && ev.usage.Some? then 1 else 0)
  {
  }

  lemma {:induction false} SessionSays(evs: seq<Event>, k: nat)
    requires k < |evs| && LastMeta(evs, k)
    ensures var st := End(FRESH, evs); st.session == evs[k].id && st.cwd == evs[k].cwd
    decreases |evs|
  {
    var n := |evs| - 1;
    var front, last := evs[..n], evs[n];
    assert evs == front + [last];
    EndMore(FRESH, front, last);
    OneParse(End(FRESH, front), last);
    if k < n {
      LastBefore(front, last, k);
      SessionSays(front, k);
    }
    hide Parse, End, Emit;
  }

  lemma {:induction false} SessionSaysNone(evs: seq<Event>)
    requires forall k :: 0 <= k < |evs| ==> !evs[k].Meta?
    ensures var st := End(FRESH, evs); st.session == "" && st.cwd == ""
  {
    if evs != [] {
      var n := |evs| - 1;
      var front, last := evs[..n], evs[n];
      assert evs == front + [last];
      EndMore(FRESH, front, last);
      OneParse(End(FRESH, front), last);
      SessionSaysNone(front);
      hide Parse, End, Emit;
    }
  }

  lemma {:induction false} ModelSays(evs: seq<Event>, k: nat)
    requires k < |evs| && LastModel(evs, k)
    ensures var st := End(FRESH, evs); st.model == evs[k].model
    decreases |evs|
  {
    var n := |evs| - 1;
    var front, last := evs[..n], evs[n];
    assert evs == front + [last];
    EndMore(FRESH, front, last);
    OneParse(End(FRESH, front), last);
    if k < n {
      LastBefore(front, last, k);
      ModelSays(front, k);
    }
    hide Parse, End, Emit;
  }

  lemma {:induction false} ModelSaysNone(evs: seq<Event>)
    requires forall k :: 0 <= k < |evs| ==> !Names(evs[k])
    ensures var st := End(FRESH, evs); st.model == ""
  {
    if evs != [] {
      var n := |evs| - 1;
      var front, last := evs[..n], evs[n];
      assert evs == front + [last];
      EndMore(FRESH, front, last);
      OneParse(End(FRESH, front), last);
      ModelSaysNone(front);
      hide Parse, End, Emit;
    }
  }

  lemma {:induction false} EventsSay(evs: seq<Event>)
    ensures var st := End(FRESH, evs);
            st.events == |Totals(evs)|
  {
    if evs != [] {
      var n := |evs| - 1;
      var front, last := evs[..n], evs[n];
      EventsSay(front);
      assert evs == front + [last];
      EndMore(FRESH, front, last);
      OneParse(End(FRESH, front), last);
      TotalsMore(front, last);
      hide Parse, End, Emit, Totals;
    }
  }

  /** After any lines of a file: the session and directory of the last session_meta, the last model
      named, and the number of totals reported. */
  lemma StateSays(evs: seq<Event>)
    ensures var st := End(FRESH, evs);
            && (forall k :: 0 <= k < |evs| && LastMeta(evs, k) ==> st.session == evs[k].id && st.cwd == evs[k].cwd)
            && (forall k :: 0 <= k < |evs| && LastModel(evs, k) ==> st.model == evs[k].model)
            && ((forall k :: 0 <= k < |evs| ==> !evs[k].Meta?) ==> st.session == "" && st.cwd == "")
            && ((forall k :: 0 <= k < |evs| ==> !Names(evs[k])) ==> st.model == "")
            && st.events == |Totals(evs)|
  {
    hide End, Totals;
    forall k | 0 <= k < |evs| && LastMeta(evs, k)
      ensures End(FRESH, evs).session == evs[k].id && End(FRESH, evs).cwd == evs[k].cwd
    {
      SessionSays(evs, k);
    }
    forall k | 0 <= k < |evs| && LastModel(evs, k)
      ensures End(FRESH, evs).model == evs[k].model
    {
      ModelSays(evs, k);
    }
    if forall k :: 0 <= k < |evs| ==> !evs[k].Meta? {
      SessionSaysNone(evs);
    }
    if forall k :: 0 <= k < |evs| ==> !Names(evs[k]) {
      ModelSaysNone(evs);
    }
    EventsSay(evs);
  }

  lemma LastBefore(front: seq<Event>, last: Event, k: nat)
    requires k < |front|
    ensures (front + [last])[k] == front[k]
    ensures LastMeta(front + [last], k) <==> LastMeta(front, k) && !last.Meta?
    ensures LastModel(front + [last], k) <==> LastModel(front, k) && !Names(last)
  {
    var evs := front + [last];
    assert evs[|front|] == last;
    assert forall j :: 0 <= j < |front| ==> evs[j] == front[j];
  }

  lemma {:induction false} TotalsMore(front: seq<Event>, last: Event)
    ensures Totals(front + [last]) == Totals(front) + Cons(if last.Count? then last.usage else None, [])
    decreases |front|
  {
    if front == [] {
      assert front + [last] == [last] && [last][1..] == [];
    } else {
      assert (front + [last])[1..] == front[1..] + [last];
      TotalsMore(front[1..], last);
    }
  }

  // ---- what a row says ----

  /** The row of a total, if either count has moved: the tokens since the total before, or all of
      them after a counter went back, with the cached ones split off the input; named after the
      session and the number of totals so far. */
  lemma RowSays(st: State, cur: Usage, at: int)
    ensures var row := Parse(st, Count(Some(cur), at)).1;
            var base := if cur.input < st.last.input || cur.output < st.last.output then ZERO else st.last;
            && (row.Some? <==> cur.input != base.input || cur.output != base.output)
            && (row.Some? ==>
                  var r := row.value;
                  && r.output == cur.output - base.output && r.cacheRead == cur.cached - base.cached
                  && r.input == Max(0, cur.input - base.input - (cur.cached - base.cached))
                  && r.cacheCreation == 0
                  && r.key == "codex:" + st.session + ":" + Decimal(st.events + 1) && r.session == st.session
                  && r.source == "codex" && r.at == at && r.app == ""
                  && r.model == (if st.model == "" then "gpt-codex" else st.model))
  {
  }

  // ---- cached tokens are conserved ----

  function RowsCached(rows: seq<Row>): int { if rows == [] then 0 else rows[0].cacheRead + RowsCached(rows[1..]) }

  function SumCached(us: seq<Usage>): int { if us == [] then 0 else us[0].cached + SumCached(us[1..]) }

  /** What totals whose input and output did not move say about cached tokens. */
  function Unbilled(prev: Usage, us: seq<Usage>): int
    decreases |us|
  {
    if us == [] then 0
    else
      var d := Delta(prev, us[0]);
      (if d.input == 0 && d.output == 0 then d.cached else 0) + Unbilled(us[0], us[1..])
  }

  /** The cached tokens billed as cache reads are those at the ends of the runs without a counter
      drop, but for what was reported while nothing else moved. */
  lemma {:induction false} CacheConservation(st: State, evs: seq<Event>)
    ensures var ends, rows := RunEnds([st.last] + Totals(evs)), Emit(st, evs);
            RowsCached(rows) == SumCached(ends) - st.last.cached - Unbilled(st.last, Totals(evs))
    decreases |evs|
  {
    if evs != [] {
      var (st', row) := Parse(st, evs[0]);
      CacheConservation(st', evs[1..]);
      var us, rest := Totals(evs), Totals(evs[1..]);
      if evs[0].Count? && evs[0].usage.Some? {
        assert us == [st'.last] + rest;
        assert ([st.last] + us)[1..] == us;
        assert us[1..] == rest;
        if row.Some? {
          assert Emit(st, evs)[1..] == Emit(st', evs[1..]);
        }
        if Drop(st.last, st'.last) {
          assert RunEnds([st.last] + us)[1..] == RunEnds(us);
        }
      } else {
        assert us == rest && st'.last == st.last && row.None?;
      }
    }
  }
}
