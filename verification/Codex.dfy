/** Codex rollout files carry cumulative counters; rows are the deltas between
    consecutive counts (agent/internal/tokenwatch/codex.go). */
module Codex {
  import opened Wrappers
  import opened Lines
  import opened TokenStore

  datatype Usage = Usage(input: int, cached: int, output: int, reasoning: int, total: int)

  const ZERO := Usage(0, 0, 0, 0, 0)

  /** What the JSON decoder makes of one line. */
  datatype Event =
    | Malformed
    | Meta(id: string, cwd: string)
    | Context(model: string)
    | Count(usage: Option<Usage>, at: int)
    | Other

  /** Per-file counters kept between reads. */
  datatype State = State(session: string, cwd: string, model: string, last: Usage, events: nat)

  const FRESH := State("", "", "", ZERO, 0)

  function Decimal(n: nat): (s: string)
    ensures |s| > 0 && (|s| == 1 <==> n < 10)
    ensures forall i :: 0 <= i < |s| ==> '0' <= s[i] <= '9'
  {
    if n < 10 then ['0' + n as char] else Decimal(n / 10) + ['0' + (n % 10) as char]
  }

  function Key(session: string, n: nat): string
  {
    "codex:" + session + ":" + Decimal(n)
  }

  function Max(a: int, b: int): int { if a > b then a else b }

  /** The counter went backwards: a new session restarted it. */
  predicate Drop(prev: Usage, cur: Usage)
  {
    cur.input < prev.input || cur.output < prev.output
  }

  function Delta(prev: Usage, cur: Usage): Usage
  {
    if Drop(prev, cur) then cur
    else Usage(cur.input - prev.input, cur.cached - prev.cached, cur.output - prev.output,
               cur.reasoning - prev.reasoning, cur.total - prev.total)
  }

  /** One line: the new counters and the row it yields, if any. */
  function Parse(st: State, ev: Event): (State, Option<Row>)
  {
    match ev
    case Malformed => (st, None)
    case Meta(id, cwd) => (st.(session := id, cwd := cwd), None)
    case Context(model) => (if model != "" then st.(model := model) else st, None)
    case Other => (st, None)
    case Count(None, _) => (st, None)
    case Count(Some(cur), at) =>
      var st' := st.(last := cur, events := st.events + 1);
      var d := Delta(st.last, cur);
      if d.input == 0 && d.output == 0 then (st', None)
      else
        (st', Some(Row(Key(st.session, st'.events), "", "codex",
                       if st.model == "" then "gpt-codex" else st.model,
                       Max(d.input - d.cached, 0), d.output, 0, d.cached, st.session, at)))
  }

  /** The counters as the mutable object the tailer updates line by line. */
  class Counters {
    var session: string
    var cwd: string
    var model: string
    var last: Usage
    var events: nat

    ghost function View(): State
      reads this
    {
      State(session, cwd, model, last, events)
    }

    constructor ()
      ensures View() == FRESH
    {
      session, cwd, model, last, events := "", "", "", ZERO, 0;
    }

    method ParseLine(ev: Event) returns (row: Option<Row>)
      modifies this
      ensures (View(), row) == Parse(old(View()), ev)
    {
      row := None;
      match ev
      case Meta(id, dir) =>
        session, cwd := id, dir;
      case Context(m) =>
        if m != "" {
          model := m;
        }
      case Count(Some(cur), at) =>
        var prev := last;
        last := cur;
        events := events + 1;
        var din, dout, dcache := cur.input - prev.input, cur.output - prev.output, cur.cached - prev.cached;
        if din < 0 || dout < 0 {
          din, dout, dcache := cur.input, cur.output, cur.cached;
        }
        if din == 0 && dout == 0 {
          return;
        }
        var name := if model == "" then "gpt-codex" else model;
        row := Some(Row(Key(session, events), "", "codex", name, Max(din - dcache, 0), dout, 0, dcache, session, at));
      case _ =>
    }
  }

  // ---- A whole file ----

  function End(st: State, evs: seq<Event>): State
    decreases |evs|
  {
    if evs == [] then st else End(Parse(st, evs[0]).0, evs[1..])
  }

  function Emit(st: State, evs: seq<Event>): seq<Row>
    decreases |evs|
  {
    if evs == [] then []
    else
      var (st', row) := Parse(st, evs[0]);
      Cons(row, Emit(st', evs[1..]))
  }

  function Cons<T>(first: Option<T>, rest: seq<T>): seq<T>
  {
    match first case Some(x) => [x] + rest case None => rest
  }

  /** Stopping and resuming between two lines changes nothing. */
  lemma {:induction false} ResumeAnywhere(st: State, a: seq<Event>, b: seq<Event>)
    ensures End(st, a + b) == End(End(st, a), b)
    ensures Emit(st, a + b) == Emit(st, a) + Emit(End(st, a), b)
    decreases |a|
  {
    if a == [] {
      assert a + b == b;
    } else {
      assert (a + b)[1..] == a[1..] + b;
      ResumeAnywhere(Parse(st, a[0]).0, a[1..], b);
    }
  }

  // ---- Conservation ----

  /** The cumulative totals a file reports, in order. */
  function Totals(evs: seq<Event>): seq<Usage>
  {
    if evs == [] then []
    else Cons(if evs[0].Count? then evs[0].usage else None, Totals(evs[1..]))
  }

  /** The last total of every maximal run without a counter drop. */
  function RunEnds(us: seq<Usage>): seq<Usage>
  {
    if |us| <= 1 then us
    else if Drop(us[0], us[1]) then [us[0]] + RunEnds(us[1..])
    else RunEnds(us[1..])
  }

  function SumInput(us: seq<Usage>): int { if us == [] then 0 else us[0].input + SumInput(us[1..]) }
  function SumOutput(us: seq<Usage>): int { if us == [] then 0 else us[0].output + SumOutput(us[1..]) }
  function RowsInput(rows: seq<Row>): int { if rows == [] then 0 else rows[0].input + rows[0].cacheRead + RowsInput(rows[1..]) }
  function RowsOutput(rows: seq<Row>): int { if rows == [] then 0 else rows[0].output + RowsOutput(rows[1..]) }

  /** No reported delta caches more input than it consumed (among deltas that yield a row). */
  predicate CachedWithinInput(prev: Usage, us: seq<Usage>)
    decreases |us|
  {
    us != [] ==>
      var d := Delta(prev, us[0]);
      && ((d.input == 0 && d.output == 0) || d.cached <= d.input)
      && CachedWithinInput(us[0], us[1..])
  }

  lemma {:induction false} Conservation(st: State, evs: seq<Event>)
    ensures var ends, rows := RunEnds([st.last] + Totals(evs)), Emit(st, evs);
            && RowsOutput(rows) == SumOutput(ends) - st.last.output
            && RowsInput(rows) >= SumInput(ends) - st.last.input
            && (RowsInput(rows) == SumInput(ends) - st.last.input <==> CachedWithinInput(st.last, Totals(evs)))
    decreases |evs|
  {
    if evs != [] {
      var (st', row) := Parse(st, evs[0]);
      Conservation(st', evs[1..]);
      var us, rest := Totals(evs), Totals(evs[1..]);
      if evs[0].Count? && evs[0].usage.Some? {
        assert us == [st'.last] + rest;
        assert ([st.last] + us)[1..] == us;
        assert us[1..] == rest;
        if row.Some? {
          assert Emit(st, evs)[1..] == Emit(st', evs[1..]);
        }
        if Drop(st.last, st'.last) {
          assert RunEnds([st.last] + us)[1..] == RunEnds(us);
        }
      } else {
        assert us == rest && st'.last == st.last && row.None?;
      }
    }
  }

  /** For a file read from the start: what is billed is the sum of the runs' last totals. */
  lemma {:induction false} FileConservation(evs: seq<Event>)
    ensures var ends, rows := RunEnds(Totals(evs)), Emit(FRESH, evs);
            && RowsOutput(rows) == SumOutput(ends)
            && (RowsInput(rows) == SumInput(ends) <==> CachedWithinInput(ZERO, Totals(evs)))
  {
    Conservation(FRESH, evs);
    var us := Totals(evs);
    var with := RunEnds([ZERO] + us);
    if us != [] {
      assert ([ZERO] + us)[1..] == us;
      if Drop(ZERO, us[0]) {
        assert with[1..] == RunEnds(us);
      }
    } else {
      assert with == [ZERO] && with[1..] == [];
    }
  }

  // ---- Dedup keys ----

  lemma {:induction false} DecimalInjective(m: nat, n: nat)
    requires Decimal(m) == Decimal(n)
    ensures m == n
  {
    var s, t := Decimal(m), Decimal(n);
    if m >= 10 {
      assert s[..|s| - 1] == Decimal(m / 10) && t[..|t| - 1] == Decimal(n / 10);
      assert s[|s| - 1] == t[|t| - 1];
      DecimalInjective(m / 10, n / 10);
    } else {
      assert s[0] == t[0];
    }
  }

  lemma {:induction false} KeyInjective(s: string, m: nat, t: string, n: nat)
    requires Key(s, m) == Key(t, n)
    ensures s == t && m == n
  {
    SplitAtLastColon("codex:" + s, Decimal(m), "codex:" + t, Decimal(n));
    DecimalInjective(m, n);
    assert ("codex:" + s)[6..] == s && ("codex:" + t)[6..] == t;
  }

  lemma {:induction false} SplitAtLastColon(p: string, a: string, q: string, b: string)
    requires p + ":" + a == q + ":" + b
    requires forall i :: 0 <= i < |a| ==> a[i] != ':'
    requires forall i :: 0 <= i < |b| ==> b[i] != ':'
    ensures p == q && a == b
    decreases |a|
  {
    var k := p + ":" + a;
    assert k[|k| - 1] == if a == [] then ':' else a[|a| - 1];
    assert k[|k| - 1] == if b == [] then ':' else b[|b| - 1];
    if a != [] {
      assert k[..|k| - 1] == p + ":" + a[..|a| - 1];
      assert k[..|k| - 1] == q + ":" + b[..|b| - 1];
      SplitAtLastColon(p, a[..|a| - 1], q, b[..|b| - 1]);
      assert a == a[..|a| - 1] + [a[|a| - 1]] && b == b[..|b| - 1] + [b[|b| - 1]];
    } else {
      assert k[..|p|] == p && k[..|q|] == q;
    }
  }

  lemma {:induction false} LaterKeys(st: State, evs: seq<Event>, r: Row)
    requires r in Emit(st, evs)
    ensures exists s, n :: n > st.events && r.key == Key(s, n)
    decreases |evs|
  {
    var (st', row) := Parse(st, evs[0]);
    if row.Some? && r == row.value {
      assert r.key == Key(st.session, st'.events);
    } else {
      LaterKeys(st', evs[1..], r);
    }
  }

  /** Rows of one file never share a dedup key, even if the session id changes midway. */
  lemma {:induction false} KeysDistinct(st: State, evs: seq<Event>, i: nat, j: nat)
    requires i < j < |Emit(st, evs)|
    ensures Emit(st, evs)[i].key != Emit(st, evs)[j].key
    decreases |evs|
  {
    var rows := Emit(st, evs);
    var (st', row) := Parse(st, evs[0]);
    var rest := Emit(st', evs[1..]);
    if row.None? {
      KeysDistinct(st', evs[1..], i, j);
    } else if i > 0 {
      KeysDistinct(st', evs[1..], i - 1, j - 1);
    } else {
      assert rows[j] == rest[j - 1];
      LaterKeys(st', evs[1..], rows[j]);
      var s, n :| n > st'.events && rows[j].key == Key(s, n);
      if rows[i].key == rows[j].key {
        KeyInjective(st.session, st'.events, s, n);
      }
    }
  }

  /** Re-reading a file from its start with counters already at its end (a checkpoint
      saved in the middle of a scan, then a crash) yields rows under new keys. */
  lemma {:induction false} ReplayKeysAreNew(st: State, evs: seq<Event>, again: seq<Event>, r: Row, s: Row)
    requires r in Emit(st, evs) && s in Emit(End(st, evs), again)
    ensures r.key != s.key
  {
    ResumeAnywhere(st, evs, again);
    var a, b := Emit(st, evs), Emit(End(st, evs), again);
    var i :| 0 <= i < |a| && a[i] == r;
    var j :| 0 <= j < |b| && b[j] == s;
    assert (a + b)[i] == r && (a + b)[|a| + j] == s;
    KeysDistinct(st, evs + again, i, |a| + j);
  }

  lemma {:induction false} EndLast(st: State, evs: seq<Event>)
    ensures var us := Totals(evs); End(st, evs).last == if us == [] then st.last else us[|us| - 1]
    decreases |evs|
  {
    if evs != [] {
      EndLast(Parse(st, evs[0]).0, evs[1..]);
      var us, rest := Totals(evs), Totals(evs[1..]);
      if evs[0].Count? && evs[0].usage.Some? {
        assert us == [evs[0].usage.value] + rest;
      }
    }
  }

  /** The output total that the first of these counts goes on from: none after a drop. */
  function Carried(prev: Usage, us: seq<Usage>): int
    requires us != []
  {
    if Drop(prev, us[0]) then 0 else prev.output
  }

  /** ... and bills those lines again, from wherever the counters stood: their output tokens once
      more, but for what each of the two readings goes on from. They are billed exactly twice if
      and only if that is the same for both. */
  lemma {:induction false} ReplayBills(st: State, evs: seq<Event>)
    requires Totals(evs) != []
    ensures var us := Totals(evs);
            var last := us[|us| - 1];
            var once, again := RowsOutput(Emit(st, evs)), RowsOutput(Emit(End(st, evs), evs));
            && again == once + Carried(st.last, us) - Carried(last, us)
            && (again == once <==> Carried(st.last, us) == Carried(last, us))
  {
    var us := Totals(evs);
    var last := us[|us| - 1];
    Conservation(st, evs);
    Conservation(End(st, evs), evs);
    EndLast(st, evs);
    assert ([last] + us)[1..] == us && ([st.last] + us)[1..] == us;
  }
}
