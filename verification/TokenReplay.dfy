/** A run in which the hub ends up with every token of a codex file twice: the batch fills up in
    the middle of a scan, the save takes the counters but not the offset, and a crash follows. */
module TokenReplay {
  import opened Wrappers
  import opened Lines
  import opened TokenStore
  import opened TokenWatch
  import opened TokenPipeline
  import opened TokenRuns
  import Codex

  const ONE_OUT := Codex.Usage(0, 0, 1, 0, 0)
  const TWO_OUT := Codex.Usage(0, 0, 2, 0, 0)

  /** A line "A" reports a total of one token, a line "B" of two; every emit is accepted and every
      save succeeds. */
  function Total(l: Data): Codex.Event
  {
    if l == [65] then Codex.Count(Some(ONE_OUT), 0) else if l == [66] then Codex.Count(Some(TWO_OUT), 0) else Codex.Other
  }

  const REPLAY := Env(p => CodexKind, l => None, l => "", Total, l => true, c => "", n => Outcome(true, true))

  const FILE := "f"

  predicate Odd(k: nat) { k % 2 == 1 }

  function LineAt(k: nat): Data { if Odd(k) then [66] else [65] }

  /** Lines k to n of the file. */
  function LinesFrom(k: nat, n: nat): seq<Data>
    requires k <= n
  {
    seq(n - k, i requires 0 <= i => LineAt(k + i))
  }

  /** The counters after k more lines, `base` having been counted before. */
  function CountersAt(first: Codex.Usage, base: nat, k: nat): Codex.State
  {
    Codex.State("", "", "", if k == 0 then first else if Odd(k) then ONE_OUT else TWO_OUT, base + k)
  }

  function RowAt(i: nat): Row
  {
    Row(Codex.Key("", i), "", "codex", "gpt-codex", 0, 1, 0, 0, "", 0)
  }

  /** Rows base+1 to base+k. */
  function RowsOf(base: nat, k: nat): seq<Row>
  {
    seq(k, i requires 0 <= i => RowAt(base + i + 1))
  }

  lemma Trim(k: nat)
    ensures TrimNL(Readable(LineAt(k))) == LineAt(k) && NL !in LineAt(k) && |LineAt(k)| == 1
  {
    var l := LineAt(k);
    assert (l + [NL])[..1] == l;
    assert TrimNL(l + [NL]) == TrimNL(l) == l;
  }

  lemma TotalAt(k: nat)
    ensures Total(LineAt(k)) == Codex.Count(Some(if Odd(k) then TWO_OUT else ONE_OUT), 0)
  {
    assert [66] != [65 as Byte];
  }

  lemma Rises(last: Codex.Usage, cur: Codex.Usage)
    requires (cur == ONE_OUT && (last == Codex.ZERO || last == TWO_OUT)) || (cur == TWO_OUT && last == ONE_OUT)
    ensures Codex.Delta(last, cur) == ONE_OUT
  {
  }

  /** Every line yields a row of one token: a rise from one to two, or a drop that starts anew. */
  lemma LineYields(first: Codex.Usage, base: nat, k: nat)
    requires first == Codex.ZERO || first == TWO_OUT
    ensures Codex.Parse(CountersAt(first, base, k), Total(LineAt(k))) == (CountersAt(first, base, k + 1), Some(RowAt(base + k + 1)))
  {
    TotalAt(k);
    hide *;
    var cur := if Odd(k) then TWO_OUT else ONE_OUT;
    NextCounters(first, base, k, cur);
    ParseIs(CountersAt(first, base, k), cur);
  }

  lemma NextCounters(first: Codex.Usage, base: nat, k: nat, cur: Codex.Usage)
    requires (first == Codex.ZERO || first == TWO_OUT) && cur == if Odd(k) then TWO_OUT else ONE_OUT
    ensures var st := CountersAt(first, base, k);
            && CountersAt(first, base, k + 1) == st.(last := cur, events := st.events + 1)
            && st.session == "" && st.model == "" && st.events == base + k && Codex.Delta(st.last, cur) == ONE_OUT
  {
    Parity(k);
    hide Codex.Delta, Odd;
    Rises(CountersAt(first, base, k).last, cur);
  }

  lemma ParseIs(st: Codex.State, cur: Codex.Usage)
    requires st.session == "" && st.model == "" && Codex.Delta(st.last, cur) == ONE_OUT
    ensures Codex.Parse(st, Codex.Count(Some(cur), 0)) == (st.(last := cur, events := st.events + 1), Some(RowAt(st.events + 1)))
  {
    hide Codex.Delta, Codex.Key;
  }

  lemma Parity(k: nat)
    ensures Odd(k + 1) <==> !Odd(k)
    ensures !Odd(0)
  {
  }

  /** The watcher in the middle of a batch that consists of the lines read so far. */
  ghost predicate Filling(s: State, first: Codex.Usage, base: nat, k: nat)
  {
    && (first == Codex.ZERO || first == TWO_OUT) && k < FLUSH_ROWS
    && s.checkpoints == map[FILE := Checkpoint(0, Some(CountersAt(first, base, k)))]
    && s.pending == RowsOf(base, k) && s.lastOutput == map[]
  }

  lemma OneMoreLine(s: State, first: Codex.Usage, base: nat, k: nat)
    requires Filling(s, first, base, k)
    ensures var next := map[FILE := Checkpoint(0, Some(CountersAt(first, base, k + 1)))];
            Step(REPLAY, s, FILE, LineAt(k)) ==
            if k + 1 < FLUSH_ROWS then s.(checkpoints := next, pending := RowsOf(base, k + 1))
            else s.(checkpoints := next, pending := [], saved := next, delivered := s.delivered + RowsOf(base, k + 1), attempts := s.attempts + 1)
  {
    Trim(k);
    LineYields(first, base, k);
    NextRow(base, k);
    hide *;
    FillingIs(s, first, base, k);
    LineQueues(s, LineAt(k), CountersAt(first, base, k), CountersAt(first, base, k + 1), RowAt(base + k + 1), RowsOf(base, k + 1));
  }

  lemma FillingIs(s: State, first: Codex.Usage, base: nat, k: nat)
    requires Filling(s, first, base, k)
    ensures s.checkpoints == map[FILE := Checkpoint(0, Some(CountersAt(first, base, k)))]
    ensures s.pending == RowsOf(base, k) && s.lastOutput == map[] && k < FLUSH_ROWS && FLUSH_ROWS == 500
  {
    hide CountersAt, RowsOf;
  }

  lemma NextRow(base: nat, k: nat)
    ensures RowsOf(base, k + 1) == RowsOf(base, k) + [RowAt(base + k + 1)] && RowAt(base + k + 1).(app := "") == RowAt(base + k + 1)
  {
    hide Codex.Key;
  }

  /** A codex line that yields a row. */
  lemma LineQueues(s: State, l: Data, st: Codex.State, next: Codex.State, row: Row, rows: seq<Row>)
    requires s.checkpoints == map[FILE := Checkpoint(0, Some(st))] && s.lastOutput == map[]
    requires TrimNL(Readable(l)) == l && |l| == 1 && Codex.Parse(st, Total(l)) == (next, Some(row))
    requires rows == s.pending + [row] && row.(app := "") == row && |rows| <= 500
    ensures var done := map[FILE := Checkpoint(0, Some(next))];
            Step(REPLAY, s, FILE, l) ==
            if |rows| < 500 then s.(checkpoints := done, pending := rows)
            else s.(checkpoints := done, pending := [], saved := done, delivered := s.delivered + rows, attempts := s.attempts + 1)
  {
    hide TrimNL, Readable, Codex.Parse, Total;
    var done := map[FILE := Checkpoint(0, Some(next))];
    assert s.checkpoints[FILE := Checkpoint(0, Some(next))] == done;
    assert Step(REPLAY, s, FILE, l) == Queue(REPLAY, s.(checkpoints := done), row);
  }

  /** Reading on to the 500th line: the batch is delivered, and the counters saved, with the
      offset still at the start of the file. */
  lemma {:induction false} Fill(s: State, first: Codex.Usage, base: nat, k: nat)
    requires Filling(s, first, base, k)
    ensures var done := map[FILE := Checkpoint(0, Some(CountersAt(first, base, FLUSH_ROWS)))];
            FILE in s.checkpoints
            && ConsumeAll(REPLAY, s, FILE, LinesFrom(k, FLUSH_ROWS)) ==
               s.(checkpoints := done, pending := [], saved := done, delivered := s.delivered + RowsOf(base, FLUSH_ROWS), attempts := s.attempts + 1)
    decreases FLUSH_ROWS - k
  {
    OneMoreLine(s, first, base, k);
    if k + 1 < FLUSH_ROWS {
      FillingOn(s, first, base, k);
    }
    FromHere(k);
    hide *;
    FillingIs(s, first, base, k);
    var t := Step(REPLAY, s, FILE, LineAt(k));
    var rest := LinesFrom(k + 1, FLUSH_ROWS);
    ConsumeOne(s, LineAt(k), rest);
    if k + 1 < FLUSH_ROWS {
      Fill(t, first, base, k + 1);
    } else {
      ConsumeNone(t);
    }
  }

  lemma FillingOn(s: State, first: Codex.Usage, base: nat, k: nat)
    requires Filling(s, first, base, k) && k + 1 < FLUSH_ROWS
    ensures Filling(s.(checkpoints := map[FILE := Checkpoint(0, Some(CountersAt(first, base, k + 1)))], pending := RowsOf(base, k + 1)), first, base, k + 1)
  {
    hide CountersAt, RowsOf;
  }

  lemma FromHere(k: nat)
    requires k < FLUSH_ROWS
    ensures LinesFrom(k, FLUSH_ROWS) == [LineAt(k)] + LinesFrom(k + 1, FLUSH_ROWS)
    ensures k + 1 == FLUSH_ROWS ==> LinesFrom(k + 1, FLUSH_ROWS) == []
  {
  }

  lemma ConsumeOne(s: State, l: Data, rest: seq<Data>)
    requires FILE in s.checkpoints
    ensures ConsumeAll(REPLAY, s, FILE, [l] + rest) == ConsumeAll(REPLAY, Step(REPLAY, s, FILE, l), FILE, rest)
  {
    hide Step;
    assert ([l] + rest)[1..] == rest;
  }

  lemma ConsumeNone(s: State)
    requires FILE in s.checkpoints
    ensures ConsumeAll(REPLAY, s, FILE, []) == s
  {
  }

  lemma {:induction false} UnlinesLength(ls: seq<Data>)
    requires forall l :: l in ls ==> |l| == 1
    ensures |Unlines(ls)| == 2 * |ls|
  {
    if ls != [] {
      UnlinesLength(ls[1..]);
    }
  }

  function Body(): Data { Unlines(LinesFrom(0, FLUSH_ROWS)) }

  lemma BodyFacts()
    ensures var ls := LinesFrom(0, FLUSH_ROWS);
            Complete(Body()) == ls && Rest(Body()) == [] && |ls| == FLUSH_ROWS && Advance(ls) == |Body()| && |Body()| == 1000
  {
    hide Unlines, Complete, Rest, Advance;
    var ls := LinesFrom(0, FLUSH_ROWS);
    forall l | l in ls ensures NL !in l && |l| == 1 {
      var i :| 0 <= i < |ls| && ls[i] == l;
      Trim(i);
    }
    SplitUnique(ls, []);
    assert Unlines(ls) + [] == Unlines(ls);
    UnlinesLength(ls);
    AdvanceLength(ls);
  }

  /** Append, read 500 lines, crash, read them again. */
  function Twice(): seq<Event>
  {
    [Append(FILE, Body()), Begin(FILE, true)] + LineEvents(FLUSH_ROWS)
    + ([Crash, Begin(FILE, true)] + LineEvents(FLUSH_ROWS) + [Finish])
  }

  function Checkpoints(offset: nat, first: Codex.Usage, base: nat, k: nat): map<Path, Checkpoint>
  {
    map[FILE := Checkpoint(offset, Some(CountersAt(first, base, k)))]
  }

  /** One scan from the start of the file with the given counters. */
  lemma OneScan(x: World, first: Codex.Usage, base: nat)
    requires x.tail == Some(Cursor(FILE, 0, 0)) && x.files == map[FILE := Body()] && Filling(x.w, first, base, 0)
    ensures var done := Checkpoints(0, first, base, FLUSH_ROWS);
            var y := RunFrom(REPLAY, x, LineEvents(FLUSH_ROWS));
            && y.tail.Some? && y.files == x.files && y.tail.value.path == FILE && y.tail.value.offset == |Body()|
            && y.w == x.w.(checkpoints := done, pending := [], saved := done, delivered := x.w.delivered + RowsOf(base, FLUSH_ROWS), attempts := x.w.attempts + 1)
  {
    BodyFacts();
    FillingIs(x.w, first, base, 0);
    hide Body, LinesFrom, ConsumeAll, Complete, Rest, Filling, RowsOf, CountersAt, RunFrom, Advance;
    assert Body()[0..] == Body();
    LinesRun(REPLAY, x, Body());
    Fill(x.w, first, base, 0);
  }

  /** The state after each part of the run. */
  lemma TwiceRuns()
    ensures var x := Run(REPLAY, Twice());
            && x.tail.None? && x.files == map[FILE := Body()] && x.w.pending == [] && x.w.lost == {}
            && x.w.checkpoints == Checkpoints(|Body()|, TWO_OUT, FLUSH_ROWS, FLUSH_ROWS)
            && x.w.delivered == RowsOf(0, FLUSH_ROWS) + RowsOf(FLUSH_ROWS, FLUSH_ROWS)
  {
    var x0 := World(map[FILE := Body()], INIT.w, None);
    var x1 := World(map[FILE := Body()], INIT.w.(checkpoints := Checkpoints(0, Codex.ZERO, 0, 0)), Some(Cursor(FILE, 0, 0)));
    FirstTwo(x0, x1);
    OneScan(x1, Codex.ZERO, 0);
    var x2 := RunFrom(REPLAY, x1, LineEvents(FLUSH_ROWS));
    var done := Checkpoints(0, Codex.ZERO, 0, FLUSH_ROWS);
    var x3 := World(map[FILE := Body()], State(done, [], map[], 0, done, RowsOf(0, FLUSH_ROWS), {}, 1), Some(Cursor(FILE, 0, 0)));
    CrashAndBegin(x2, x3);
    SameCounters();
    OneScan(x3, TWO_OUT, FLUSH_ROWS);
    var x4 := RunFrom(REPLAY, x3, LineEvents(FLUSH_ROWS));
    LastStep(x4);
    hide *;
    var a, b := [Append(FILE, Body()), Begin(FILE, true)], [Crash, Begin(FILE, true)];
    RunAppend(REPLAY, INIT, a, LineEvents(FLUSH_ROWS));
    RunAppend(REPLAY, INIT, a + LineEvents(FLUSH_ROWS), b + LineEvents(FLUSH_ROWS) + [Finish]);
    RunAppend(REPLAY, x2, b + LineEvents(FLUSH_ROWS), [Finish]);
    RunAppend(REPLAY, x2, b, LineEvents(FLUSH_ROWS));
    RunOne(REPLAY, x4, Finish);
    RunIs();
  }

  lemma RunIs()
    ensures Run(REPLAY, Twice()) == RunFrom(REPLAY, INIT, Twice())
  {
  }

  lemma FirstTwo(x0: World, x1: World)
    requires x0 == World(map[FILE := Body()], INIT.w, None)
    requires x1 == World(map[FILE := Body()], INIT.w.(checkpoints := Checkpoints(0, Codex.ZERO, 0, 0)), Some(Cursor(FILE, 0, 0)))
    ensures RunFrom(REPLAY, INIT, [Append(FILE, Body()), Begin(FILE, true)]) == x1
    ensures Filling(x1.w, Codex.ZERO, 0, 0)
  {
    BodyFacts();
    hide Body, LinesFrom, Complete, Rest, Advance;
    assert Next(REPLAY, INIT, Append(FILE, Body())) == x0 by {
      assert [] + Body() == Body();
    }
    assert Next(REPLAY, x0, Begin(FILE, true)) == x1;
    TwoSteps(INIT, x0, x1, Append(FILE, Body()), Begin(FILE, true));
  }

  lemma TwoSteps(x: World, y: World, z: World, a: Event, b: Event)
    requires Next(REPLAY, x, a) == y && Next(REPLAY, y, b) == z
    ensures RunFrom(REPLAY, x, [a, b]) == z
  {
    hide Next;
    RunAppend(REPLAY, x, [a], [b]);
    RunOne(REPLAY, x, a);
    RunOne(REPLAY, y, b);
    assert [a] + [b] == [a, b];
  }

  lemma CrashAndBegin(x2: World, x3: World)
    requires var done := Checkpoints(0, Codex.ZERO, 0, FLUSH_ROWS);
             && x2.files == map[FILE := Body()] && x2.tail.Some?
             && x2.w == State(done, [], map[], 0, done, RowsOf(0, FLUSH_ROWS), {}, 1)
             && x3 == World(map[FILE := Body()], x2.w, Some(Cursor(FILE, 0, 0)))
    ensures RunFrom(REPLAY, x2, [Crash, Begin(FILE, true)]) == x3
  {
    CheckpointIs(0, Codex.ZERO, 0, FLUSH_ROWS);
    BodyFacts();
    hide *;
    var y := x2.(tail := None);
    CrashIs(x2, y);
    BeginIs(y, x3);
    TwoSteps(x2, y, x3, Crash, Begin(FILE, true));
  }

  lemma CheckpointIs(offset: nat, first: Codex.Usage, base: nat, k: nat)
    ensures var m := Checkpoints(offset, first, base, k); FILE in m && m[FILE].offset == offset
  {
  }

  lemma CrashIs(x: World, y: World)
    requires x.w.saved == x.w.checkpoints && x.w.pending == [] && x.w.lastOutput == map[] && x.w.unparsed == 0 && y == x.(tail := None)
    ensures Next(REPLAY, x, Crash) == y
  {
  }

  lemma BeginIs(x: World, y: World)
    requires x.files == map[FILE := Body()] && |Body()| == 1000 && x.tail.None? && FILE in x.w.checkpoints
    requires x.w.checkpoints[FILE].offset == 0 && y == x.(tail := Some(Cursor(FILE, 0, 0)))
    ensures Next(REPLAY, x, Begin(FILE, true)) == y
  {
    hide Body;
    assert x.w.checkpoints[FILE := x.w.checkpoints[FILE]] == x.w.checkpoints;
  }

  lemma SameCounters()
    ensures CountersAt(Codex.ZERO, 0, FLUSH_ROWS) == CountersAt(TWO_OUT, FLUSH_ROWS, 0)
  {
  }

  lemma LastStep(x4: World)
    requires x4.tail.Some? && x4.tail.value.path == FILE && x4.tail.value.offset == |Body()|
    requires x4.w.checkpoints == Checkpoints(0, TWO_OUT, FLUSH_ROWS, FLUSH_ROWS)
    ensures Next(REPLAY, x4, Finish) == x4.(w := x4.w.(checkpoints := Checkpoints(|Body()|, TWO_OUT, FLUSH_ROWS, FLUSH_ROWS)), tail := None)
  {
    hide CountersAt, Body;
  }

  // ---- what the hub has ----

  lemma {:induction false} StoredEach(price: Row -> real, system: string, rows: seq<Row>)
    requires forall i, j :: 0 <= i < j < |rows| ==> rows[i].key != rows[j].key
    ensures var t := IngestAll(price, system, map[], rows);
            && |t| == |rows|
            && (forall i :: 0 <= i < |rows| ==> rows[i].key in t && t[rows[i].key].row == rows[i])
            && (forall k :: k in t ==> HasKey(rows, k))
  {
    if rows != [] {
      var n := |rows| - 1;
      var front, last := rows[..n], rows[n];
      StoredEach(price, system, front);
      assert rows == front + [last];
      OneStored(price, system, IngestAll(price, system, map[], front), front, last);
    }
  }

  lemma OneStored(price: Row -> real, system: string, t: Table, front: seq<Row>, last: Row)
    requires forall i :: 0 <= i < |front| ==> front[i].key != last.key && front[i].key in t && t[front[i].key].row == front[i]
    requires |t| == |front| && forall k :: k in t ==> HasKey(front, k)
    ensures var u := Upsert(price, system, t, last);
            var rows := front + [last];
            && |u| == |rows|
            && (forall i :: 0 <= i < |rows| ==> rows[i].key in u && u[rows[i].key].row == rows[i])
            && (forall k :: k in u ==> HasKey(rows, k))
  {
    forall r | r in front ensures r.key != last.key {
      var i :| 0 <= i < |front| && front[i] == r;
    }
    assert !HasKey(front, last.key) && last.key !in t;
    var rows := front + [last];
    assert rows[|front|] == last;
    forall k | HasKey(front, k) ensures HasKey(rows, k) {
      var r :| r in front && r.key == k;
      assert r in rows;
    }
  }

  lemma RowsDistinct(base: nat, k: nat, more: nat)
    ensures var rows := RowsOf(base, k) + RowsOf(base + k, more);
            && |rows| == k + more && (forall i, j :: 0 <= i < j < |rows| ==> rows[i].key != rows[j].key)
            && forall i :: 0 <= i < |rows| ==> rows[i].output == 1
  {
    hide Codex.Key;
    var rows := RowsOf(base, k) + RowsOf(base + k, more);
    assert forall i :: 0 <= i < |rows| ==> rows[i] == RowAt(base + i + 1);
    forall i, j | 0 <= i < j < |rows| ensures rows[i].key != rows[j].key {
      if rows[i].key == rows[j].key {
        Codex.KeyInjective("", base + i + 1, "", base + j + 1);
      }
    }
  }

  lemma {:induction false} FileSays(k: nat)
    ensures FileRows(REPLAY, FILE, LinesFrom(0, k)) == RowsOf(0, k)
    ensures FileState(REPLAY, FILE, LinesFrom(0, k)) == CountersAt(Codex.ZERO, 0, k)
  {
    if k > 0 {
      FileSays(k - 1);
      LinesSnoc(k);
      Trim(k - 1);
      LineYields(Codex.ZERO, 0, k - 1);
      NextRow(0, k - 1);
      hide *;
      FileOneMore(REPLAY, FILE, LinesFrom(0, k - 1), LineAt(k - 1));
      LineCounts(LineAt(k - 1), CountersAt(Codex.ZERO, 0, k - 1), CountersAt(Codex.ZERO, 0, k), RowAt(k));
    }
  }

  lemma LinesSnoc(k: nat)
    requires k > 0
    ensures LinesFrom(0, k) == LinesFrom(0, k - 1) + [LineAt(k - 1)]
  {
    hide LineAt;
  }

  lemma LineCounts(l: Data, st: Codex.State, next: Codex.State, row: Row)
    requires TrimNL(Readable(l)) == l && |l| == 1 && Codex.Parse(st, Total(l)) == (next, Some(row)) && row.(app := "") == row
    ensures LineState(REPLAY, FILE, st, l) == next && LineRow(REPLAY, FILE, st, l) == Some(row)
  {
    hide TrimNL, Readable, Codex.Parse, Total;
  }

  /** The file has 500 rows of one token. After the run, at rest and with no key given up, the hub
      has 1000 records of one token; ingesting the file once gives 500. */
  lemma MidScanSaveBillsTwice(price: Row -> real, system: string)
    ensures var x := Run(REPLAY, Twice());
            var hub := IngestAll(price, system, map[], x.w.delivered);
            var direct := IngestAll(price, system, map[], FileRows(REPLAY, FILE, Complete(Body())));
            && Quiescent(x) && x.w.lost == {} && x.files == map[FILE := Body()]
            && |direct| == 500 && (forall k :: k in direct ==> direct[k].row.output == 1)
            && |hub| == 1000 && (forall k :: k in hub ==> hub[k].row.output == 1)
  {
    hide *;
    TwiceRuns();
    BodyFacts();
    FileSays(FLUSH_ROWS);
    RowsDistinct(0, FLUSH_ROWS, FLUSH_ROWS);
    RowsDistinct(0, FLUSH_ROWS, 0);
    NoRows(FLUSH_ROWS);
    assert RowsOf(0, FLUSH_ROWS) + [] == RowsOf(0, FLUSH_ROWS);
    var x := Run(REPLAY, Twice());
    OnesStored(price, system, x.w.delivered);
    OnesStored(price, system, RowsOf(0, FLUSH_ROWS));
    AtRest(x, FLUSH_ROWS);
    FiveHundred();
  }

  lemma FiveHundred()
    ensures FLUSH_ROWS == 500
  {
  }

  lemma OnesStored(price: Row -> real, system: string, rows: seq<Row>)
    requires forall i, j :: 0 <= i < j < |rows| ==> rows[i].key != rows[j].key
    requires forall i :: 0 <= i < |rows| ==> rows[i].output == 1
    ensures var t := IngestAll(price, system, map[], rows);
            |t| == |rows| && forall k :: k in t ==> t[k].row.output == 1
  {
    hide IngestAll;
    StoredEach(price, system, rows);
    var t := IngestAll(price, system, map[], rows);
    forall k | k in t ensures t[k].row.output == 1 {
      var r :| r in rows && r.key == k;
      var i :| 0 <= i < |rows| && rows[i] == r;
      assert t[rows[i].key].row == rows[i];
    }
  }

  lemma AtRest(x: World, n: nat)
    requires x.tail.None? && x.files == map[FILE := Body()] && x.w.pending == []
    requires x.w.checkpoints == Checkpoints(|Body()|, TWO_OUT, n, n)
    ensures Quiescent(x)
  {
    hide Body, CountersAt;
    assert Body()[|Body()|..] == [];
    NoNewline([]);
  }

  lemma NoRows(base: nat)
    ensures RowsOf(base, 0) == []
  {
  }
}
