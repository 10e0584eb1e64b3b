/** The watcher object's calls are runs of pipeline events, and one run that loses a row. */
module TokenRuns {
  import opened Wrappers
  import opened Lines
  import opened TokenStore
  import opened TokenWatch
  import opened TokenPipeline
  import Codex

  lemma {:induction false} RunAppend(e: Env, x: World, a: seq<Event>, b: seq<Event>)
    ensures RunFrom(e, x, a + b) == RunFrom(e, RunFrom(e, x, a), b)
    decreases |b|
  {
    hide Next;
    if b == [] {
      assert a + b == a;
    } else {
      assert (a + b)[..|a + b| - 1] == a + b[..|b| - 1];
      RunAppend(e, x, a, b[..|b| - 1]);
    }
  }

  lemma RunOne(e: Env, x: World, ev: Event)
    ensures RunFrom(e, x, [ev]) == Next(e, x, ev)
  {
    hide Next;
    assert [ev][..0] == [];
    assert RunFrom(e, x, []) == x;
  }

  function LineEvents(n: nat): seq<Event>
  {
    seq(n, i => Line)
  }

  /** Reading to the end of the file line by line. */
  lemma {:induction false} LinesRun(e: Env, x: World, unread: Data)
    requires x.tail.Some?
    requires var c := x.tail.value;
             c.path in x.w.checkpoints && c.path in x.files && c.pos <= |x.files[c.path]| && unread == x.files[c.path][c.pos..]
    ensures var c := x.tail.value;
            var ls := Complete(unread);
            var y := RunFrom(e, x, LineEvents(|ls|));
            y.tail.Some? && y == x.(w := ConsumeAll(e, x.w, c.path, ls), tail := y.tail)
            && y.tail.value.path == c.path && y.tail.value.offset == c.offset + Advance(ls)
    decreases |unread|
  {
    hide Step, Readable, Next, Complete, NewlineAt;
    var c := x.tail.value;
    var i := NewlineAt(unread);
    if i < |unread| {
      FirstLine(unread, i);
      LineEvent(e, x, unread, i);
      LinesRun(e, Next(e, x, Line), unread[i + 1..]);
      var n := |Complete(unread)|;
      assert LineEvents(n) == [Line] + LineEvents(n - 1);
      RunAppend(e, x, [Line], LineEvents(n - 1));
      RunOne(e, x, Line);
    } else {
      NoNewlineAt(unread);
      assert LineEvents(0) == [];
    }
  }

  lemma LineEvent(e: Env, x: World, unread: Data, i: nat)
    requires x.tail.Some?
    requires var c := x.tail.value;
             c.path in x.w.checkpoints && c.path in x.files && c.pos <= |x.files[c.path]| && unread == x.files[c.path][c.pos..]
    requires i == NewlineAt(unread) < |unread|
    ensures var c := x.tail.value;
            && c.pos + i + 1 <= |x.files[c.path]| && unread[i + 1..] == x.files[c.path][c.pos + i + 1..]
            && Next(e, x, Line) == x.(w := Step(e, x.w, c.path, unread[..i]),
                                      tail := Some(Cursor(c.path, c.pos + i + 1, c.offset + |Readable(unread[..i])|)))
  {
    hide Step, Readable, NewlineAt;
    assert NextRead(x) == unread[..i];
  }

  lemma NoNewlineAt(b: Data)
    requires NewlineAt(b) == |b|
    ensures Complete(b) == []
  {
  }

  /** One uninterrupted scan is the run Begin, Line ... Line, Finish. */
  lemma {:induction false} TailIsARun(e: Env, x: World, p: Path)
    requires x.tail.None? && p in x.files
    ensures exists evs :: RunFrom(e, x, evs) == x.(w := TailFile(e, x.w, p, x.files[p], true))
  {
    var content := x.files[p];
    var b := Next(e, x, Begin(p, true));
    RunOne(e, x, Begin(p, true));
    if b.tail.None? {
      NothingUnread(e, x, p);
    } else {
      var unread := content[b.tail.value.pos..];
      var evs := LineEvents(|Complete(unread)|);
      BeginFacts(e, x, p);
      LinesRun(e, b, unread);
      hide *;
      RunAppend(e, x, [Begin(p, true)], evs);
      var y := RunFrom(e, b, evs);
      RunOne(e, y, Finish);
      RunAppend(e, x, [Begin(p, true)] + evs, [Finish]);
      FinishFacts(e, x, p, y);
      assert RunFrom(e, x, [Begin(p, true)] + evs + [Finish]) == x.(w := TailFile(e, x.w, p, content, true));
    }
  }

  lemma NothingUnread(e: Env, x: World, p: Path)
    requires x.tail.None? && p in x.files && Next(e, x, Begin(p, true)).tail.None?
    ensures Next(e, x, Begin(p, true)) == x.(w := TailFile(e, x.w, p, x.files[p], true))
  {
    hide ConsumeAll, Complete;
  }

  lemma BeginFacts(e: Env, x: World, p: Path)
    requires x.tail.None? && p in x.files && Next(e, x, Begin(p, true)).tail.Some?
    ensures var b := Next(e, x, Begin(p, true));
            var c := b.tail.value;
            c.path == p && p in b.w.checkpoints && b.files == x.files && c.pos <= |x.files[p]| && c.offset == c.pos
  {
  }

  /** Storing the offset at the end is what TailFile does after its lines. */
  lemma FinishFacts(e: Env, x: World, p: Path, y: World)
    requires x.tail.None? && p in x.files && Next(e, x, Begin(p, true)).tail.Some?
    requires var b := Next(e, x, Begin(p, true));
             var ls := Complete(x.files[p][b.tail.value.pos..]);
             y.tail.Some? && y == b.(w := ConsumeAll(e, b.w, p, ls), tail := y.tail)
             && y.tail.value.path == p && y.tail.value.offset == b.tail.value.offset + Advance(ls)
    ensures Next(e, y, Finish) == x.(w := TailFile(e, x.w, p, x.files[p], true))
  {
    hide Step, ConsumeAll, Complete, Advance;
  }

  // ---- codex files: what the pipeline calls the rows of a file conserves its totals ----

  function LineEventOf(e: Env, l: Data): Codex.Event
  {
    var line := TrimNL(Readable(l));
    if line == [] then Codex.Other else e.codex(line)
  }

  function CodexEvents(e: Env, ls: seq<Data>): (evs: seq<Codex.Event>)
    ensures |evs| == |ls|
  {
    seq(|ls|, i requires 0 <= i < |ls| => LineEventOf(e, ls[i]))
  }

  /** Rows that differ in their attribution only. */
  ghost predicate SameButApp(a: seq<Row>, b: seq<Row>)
  {
    |a| == |b| && forall i :: 0 <= i < |a| ==> a[i].(app := "") == b[i].(app := "")
  }

  lemma {:induction false} CodexRows(e: Env, p: Path, ls: seq<Data>)
    requires e.kind(p).CodexKind?
    ensures FileState(e, p, ls) == Codex.End(Codex.FRESH, CodexEvents(e, ls))
    ensures SameButApp(FileRows(e, p, ls), Codex.Emit(Codex.FRESH, CodexEvents(e, ls)))
  {
    hide TrimNL, Readable;
    if ls != [] {
      var n := |ls| - 1;
      CodexRows(e, p, ls[..n]);
      var before, ev := CodexEvents(e, ls[..n]), LineEventOf(e, ls[n]);
      assert CodexEvents(e, ls) == before + [ev];
      Codex.ResumeAnywhere(Codex.FRESH, before, [ev]);
      OneEvent(Codex.End(Codex.FRESH, before), ev);
    }
  }

  lemma OneEvent(st: Codex.State, ev: Codex.Event)
    ensures Codex.End(st, [ev]) == Codex.Parse(st, ev).0
    ensures var row := Codex.Parse(st, ev).1; Codex.Emit(st, [ev]) == if row.Some? then [row.value] else []
  {
    hide Codex.Parse;
    assert [ev][1..] == [];
    assert Codex.End(Codex.Parse(st, ev).0, []) == Codex.Parse(st, ev).0;
    assert Codex.Emit(Codex.Parse(st, ev).0, []) == [];
  }

  lemma {:induction false} SumsIgnoreApp(a: seq<Row>, b: seq<Row>)
    requires SameButApp(a, b)
    ensures Codex.RowsInput(a) == Codex.RowsInput(b) && Codex.RowsOutput(a) == Codex.RowsOutput(b)
  {
    if a != [] {
      assert a[0].(app := "") == b[0].(app := "");
      SumsIgnoreApp(a[1..], b[1..]);
    }
  }

  /** The rows of a codex file add up to the last totals of its counter runs, and no two
      share a dedup key. */
  lemma {:induction false} CodexFileConserves(e: Env, p: Path, ls: seq<Data>)
    requires e.kind(p).CodexKind?
    ensures var rows, totals := FileRows(e, p, ls), Codex.Totals(CodexEvents(e, ls));
            && Codex.RowsOutput(rows) == Codex.SumOutput(Codex.RunEnds(totals))
            && (Codex.RowsInput(rows) == Codex.SumInput(Codex.RunEnds(totals)) <==> Codex.CachedWithinInput(Codex.ZERO, totals))
            && forall i, j :: 0 <= i < j < |rows| ==> rows[i].key != rows[j].key
  {
    hide FileRows, FileState, Codex.Emit, Codex.Totals, Codex.End, CodexEvents, LineEventOf;
    CodexRows(e, p, ls);
    var rows, emitted := FileRows(e, p, ls), Codex.Emit(Codex.FRESH, CodexEvents(e, ls));
    SumsIgnoreApp(rows, emitted);
    Codex.FileConservation(CodexEvents(e, ls));
    forall i, j | 0 <= i < j < |rows|
      ensures rows[i].key != rows[j].key
    {
      Codex.KeysDistinct(Codex.FRESH, CodexEvents(e, ls), i, j);
      assert rows[i].(app := "") == emitted[i].(app := "") && rows[j].(app := "") == emitted[j].(app := "");
    }
  }

  // ---- a shutdown with rows pending loses them ----

  const ONE := Row("k", "", "claude_code", "m", 1, 1, 0, 0, "s", 0)

  const LOSSY := Env(
    p => ClaudeKind, l => Some(ONE), l => "", l => Codex.Other, l => true, c => "", n => Outcome(true, true))

  const LOSING := [Append("f", [65, 10]), Begin("f", true), Line, Finish, Stop, Begin("f", true), Tick]

  /** The row was read, nothing was ever rejected, no limit was met, and still the hub
      never gets it: the shutdown saved an offset past a row it had not sent. */
  lemma ShutdownLosesPending()
    ensures var x := Run(LOSSY, LOSING);
            && Quiescent(x) && x.w.delivered == []
            && RowOf(LOSSY, x.files, ONE)
  {
    hide Next, Step, FileRows, LineRow;
    var f: Data := [65, 10];
    OneLineFile();
    var x1 := World(map["f" := f], INIT.w, None);
    var x2 := x1.(w := INIT.w.(checkpoints := map["f" := Checkpoint(0, None)]), tail := Some(Cursor("f", 0, 0)));
    var x3 := x2.(w := x2.w.(pending := [ONE], lastOutput := map["k" := 1]), tail := Some(Cursor("f", 2, 2)));
    var done := map["f" := Checkpoint(2, None)];
    var x4 := x3.(w := x3.w.(checkpoints := done), tail := None);
    var x5 := x4.(w := State(done, [], map[], 0, done, [], {"k"}, 1));
    var x7 := x5.(w := x5.w.(attempts := 2));
    FirstThree(x1, x2, x3);
    LastFour(x3, x4, x5, x7);
    SevenSteps(LOSSY, LOSING, x1, x2, x3, x4, x5, x5, x7);
    assert f[2..] == [];
    NoNewline([]);
    assert "f" in x7.files && ONE in FileRows(LOSSY, "f", Complete(f));
  }

  lemma OneLineFile()
    ensures var f: Data := [65, 10];
            && NewlineAt(f) == 1 && f[..1] == [65] && Complete(f) == [[65]]
            && TrimNL(Readable([65])) == [65]
            && FileRows(LOSSY, "f", Complete(f)) == [ONE]
  {
    var f, l: Data := [65, 10], [65];
    SplitLine(l, []);
    assert l + [NL] + [] == f;
    NoNewline([]);
    assert f[0] != NL && f[1..] == [10];
    assert Readable(l) == f && f[..1] == l;
    assert TrimNL(f) == TrimNL(l) == l;
    assert [l][..0] == [];
    assert FileRows(LOSSY, "f", []) == [];
    assert LineRow(LOSSY, "f", Codex.FRESH, l) == Some(ONE);
  }

  lemma FirstThree(x1: World, x2: World, x3: World)
    requires x1 == World(map["f" := [65, 10]], INIT.w, None)
    requires x2 == x1.(w := INIT.w.(checkpoints := map["f" := Checkpoint(0, None)]), tail := Some(Cursor("f", 0, 0)))
    requires x3 == x2.(w := x2.w.(pending := [ONE], lastOutput := map["k" := 1]), tail := Some(Cursor("f", 2, 2)))
    ensures Next(LOSSY, INIT, Append("f", [65, 10])) == x1
    ensures Next(LOSSY, x1, Begin("f", true)) == x2
    ensures Next(LOSSY, x2, Line) == x3
  {
    var f: Data := [65, 10];
    OneLineFile();
    assert [] + f == f && f[0..] == f;
    LineEvent(LOSSY, x2, f, 1);
    assert Step(LOSSY, x2.w, "f", [65]) == x3.w;
  }

  lemma LastFour(x3: World, x4: World, x5: World, x7: World)
    requires var done := map["f" := Checkpoint(2, None)];
             && x3 == World(map["f" := [65, 10]], State(map["f" := Checkpoint(0, None)], [ONE], map["k" := 1], 0, map[], [], {}, 0), Some(Cursor("f", 2, 2)))
             && x4 == x3.(w := x3.w.(checkpoints := done), tail := None)
             && x5 == x4.(w := State(done, [], map[], 0, done, [], {"k"}, 1))
             && x7 == x5.(w := x5.w.(attempts := 2))
    ensures Next(LOSSY, x3, Finish) == x4
    ensures Next(LOSSY, x4, Stop) == x5
    ensures Next(LOSSY, x5, Begin("f", true)) == x5
    ensures Next(LOSSY, x5, Tick) == x7
  {
    assert Keys([ONE]) == {"k"} by { assert ONE in [ONE]; }
    assert {} + {"k"} == {"k"};
  }

  lemma SevenSteps(e: Env, evs: seq<Event>, x1: World, x2: World, x3: World, x4: World, x5: World, x6: World, x7: World)
    requires |evs| == 7
    requires x1 == Next(e, INIT, evs[0]) && x2 == Next(e, x1, evs[1]) && x3 == Next(e, x2, evs[2]) && x4 == Next(e, x3, evs[3])
    requires x5 == Next(e, x4, evs[4]) && x6 == Next(e, x5, evs[5]) && x7 == Next(e, x6, evs[6])
    ensures Run(e, evs) == x7
  {
    hide Next;
    assert evs[..0] == [];
    assert evs[..1][..0] == evs[..0] && evs[..2][..1] == evs[..1] && evs[..3][..2] == evs[..2] && evs[..4][..3] == evs[..3];
    assert evs[..5][..4] == evs[..4] && evs[..6][..5] == evs[..5];
    assert RunFrom(e, INIT, evs[..1]) == x1;
    assert RunFrom(e, INIT, evs[..2]) == x2;
    assert RunFrom(e, INIT, evs[..3]) == x3;
    assert RunFrom(e, INIT, evs[..4]) == x4;
    assert RunFrom(e, INIT, evs[..5]) == x5;
    assert RunFrom(e, INIT, evs[..6]) == x6;
  }
}
