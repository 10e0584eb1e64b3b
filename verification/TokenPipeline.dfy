/** Transcripts, watcher, checkpoint file and hub together: appends, scans, flushes the
    hub accepts or rejects, crashes and shutdowns, in any order. */
module TokenPipeline {
  import opened Wrappers
  import opened Lines
  import opened TokenStore
  import opened TokenWatch
  import Codex

  /** The read loop of one file: how far it has read, and the offset it will store. */
  datatype Cursor = Cursor(path: Path, pos: nat, offset: nat)

  datatype World = World(files: map<Path, Data>, w: State, tail: Option<Cursor>)

  datatype Event =
    | Append(path: Path, bytes: Data)
    | Begin(path: Path, openable: bool)
    | Line
    | Finish
    | Tick
    | Crash
    | Stop

  const INIT := World(map[], State(map[], [], map[], 0, map[], [], {}, 0), None)

  function Next(e: Env, x: World, ev: Event): World
  {
    match ev
    case Append(p, b) =>
      x.(files := x.files[p := (if p in x.files then x.files[p] else []) + b])
    case Begin(p, openable) =>
      if x.tail.Some? || p !in x.files then x
      else
        var w := Open(e, x.w, p, |x.files[p]|);
        var from := w.checkpoints[p].offset;
        if |x.files[p]| == from || !openable then x.(w := w)
        else x.(w := w, tail := Some(Cursor(p, from, from)))
    case Line =>
      if x.tail.None? || !LineReady(x) then x
      else
        var c := x.tail.value;
        var l := NextRead(x);
        x.(w := Step(e, x.w, c.path, l), tail := Some(Cursor(c.path, c.pos + |l| + 1, c.offset + |Readable(l)|)))
    case Finish =>
      if x.tail.None? || x.tail.value.path !in x.w.checkpoints then x
      else x.(w := SetOffset(x.w, x.tail.value.path, x.tail.value.offset), tail := None)
    case Tick =>
      if x.tail.Some? then x else x.(w := Flush(e, x.w))
    case Crash =>
      x.(w := Restart(x.w), tail := None)
    case Stop =>
      if x.tail.Some? then x else x.(w := Shutdown(e, x.w))
  }

  /** The cursor stands before a complete line. */
  predicate LineReady(x: World)
    requires x.tail.Some?
  {
    var c := x.tail.value;
    && c.path in x.w.checkpoints && c.path in x.files && c.pos <= |x.files[c.path]|
    && var unread := x.files[c.path][c.pos..];
       NewlineAt(unread) < |unread|
  }

  function NextRead(x: World): Data
    requires x.tail.Some? && LineReady(x)
  {
    var unread := x.files[x.tail.value.path][x.tail.value.pos..];
    unread[..NewlineAt(unread)]
  }

  function RunFrom(e: Env, x: World, evs: seq<Event>): World
  {
    if evs == [] then x else Next(e, RunFrom(e, x, evs[..|evs| - 1]), evs[|evs| - 1])
  }

  function Run(e: Env, evs: seq<Event>): World
  {
    RunFrom(e, INIT, evs)
  }

  // ---- what a file says ----

  function LineState(e: Env, p: Path, st: Codex.State, l: Data): Codex.State
  {
    var line := TrimNL(Readable(l));
    if line == [] || e.kind(p).ClaudeKind? then st else Codex.Parse(st, e.codex(line)).0
  }

  /** The row one line stands for, given the counters before it. */
  function LineRow(e: Env, p: Path, st: Codex.State, l: Data): Option<Row>
  {
    var line := TrimNL(Readable(l));
    if line == [] then None
    else if e.kind(p).ClaudeKind? then
      match e.claude(line)
      case None => None
      case Some(row) => Some(row.(app := e.resolve(e.claudeCwd(line))))
    else
      var (st', row) := Codex.Parse(st, e.codex(line));
      match row
      case None => None
      case Some(r) => Some(r.(app := e.resolve(st'.cwd)))
  }

  function FileState(e: Env, p: Path, ls: seq<Data>): Codex.State
  {
    if ls == [] then Codex.FRESH
    else LineState(e, p, FileState(e, p, ls[..|ls| - 1]), ls[|ls| - 1])
  }

  /** Every usage row of a file, read once from the start. */
  function FileRows(e: Env, p: Path, ls: seq<Data>): seq<Row>
  {
    if ls == [] then []
    else
      var before := ls[..|ls| - 1];
      var row := LineRow(e, p, FileState(e, p, before), ls[|ls| - 1]);
      FileRows(e, p, before) + (if row.Some? then [row.value] else [])
  }

  ghost predicate RowOf(e: Env, files: map<Path, Data>, r: Row)
  {
    exists p :: p in files && r in FileRows(e, p, Complete(files[p]))
  }

  // ---- which files a result is about ----

  /** A choice of files. */
  type Scope = Path -> bool

  predicate All(p: Path) { true }

  function Only(p: Path): Scope
  {
    (q: Path) => q == p
  }

  function ClaudeFiles(e: Env): Scope
  {
    (p: Path) => e.kind(p).ClaudeKind?
  }

  /** A row of a line of some other file, read with whatever counters. */
  ghost predicate Stray(e: Env, scope: Scope, r: Row)
  {
    exists p, st, l :: !scope(p) && LineRow(e, p, st, l) == Some(r)
  }

  lemma {:induction false} FileRowsPrefix(e: Env, p: Path, a: seq<Data>, b: seq<Data>, r: Row)
    ensures r in FileRows(e, p, a) ==> r in FileRows(e, p, a + b)
    decreases |b|
  {
    if b == [] {
      assert a + b == a;
    } else {
      assert (a + b)[..|a + b| - 1] == a + b[..|b| - 1];
      FileRowsPrefix(e, p, a, b[..|b| - 1], r);
    }
  }

  // ---- coverage ----

  ghost predicate Covered(rows: seq<Row>, r: Row)
  {
    exists q :: q in rows && q.key == r.key && q.output >= r.output
  }

  /** The row is in the hub or on its way, or its key was given up. */
  ghost predicate Good(s: State, r: Row)
  {
    r.key in s.lost || Covered(s.delivered + s.pending, r)
  }

  /** The row is in the hub, or its key was given up. */
  ghost predicate Durable(s: State, r: Row)
  {
    r.key in s.lost || Covered(s.delivered, r)
  }

  /** Every suppression the dedup map can cause is justified. */
  ghost predicate Suppressible(s: State)
  {
    forall k :: k in s.lastOutput ==>
      k in s.lost || exists q :: q in s.delivered + s.pending && q.key == k && q.output >= s.lastOutput[k]
  }

  ghost predicate SavedByFlush(s: State, f: State)
  {
    f.saved == f.checkpoints && forall r :: Good(s, r) ==> Durable(f, r)
  }

  /** What one call that only sends, drops or saves does to coverage. */
  ghost predicate Keeps(s: State, f: State)
  {
    && (forall r :: Good(s, r) ==> Good(f, r))
    && (forall r :: Durable(s, r) ==> Durable(f, r))
    && (f.saved == s.saved || SavedByFlush(s, f))
    && (Suppressible(s) ==> Suppressible(f))
  }

  lemma FlushKeeps(e: Env, s: State)
    ensures Keeps(s, Flush(e, s))
    ensures forall q :: q in Flush(e, s).delivered + Flush(e, s).pending ==> q in s.delivered + s.pending
  {
    var f := Flush(e, s);
    if |s.pending| > BACKLOG_CAP && !e.answers(s.attempts).accepted {
      var over := |s.pending| - BACKLOG_CAP;
      assert s.pending == s.pending[..over] + s.pending[over..];
      assert forall q :: q in s.pending[..over] ==> q.key in f.lost;
    }
    assert forall q :: q in s.delivered + s.pending ==> q in f.delivered + f.pending || q.key in f.lost;
  }

  /** Consuming one line: its row is good afterwards, and nothing good is lost. */
  lemma StepKeeps(e: Env, s: State, p: Path, l: Data, st: Codex.State)
    requires p in s.checkpoints && Suppressible(s)
    requires e.kind(p).CodexKind? ==> Counters(s.checkpoints[p]) == st
    ensures var f := Step(e, s, p, l);
            var row := LineRow(e, p, st, l);
            && Keeps(s, f)
            && (row.Some? ==> Good(f, row.value))
            && (f.saved != s.saved && row.Some? ==> Durable(f, row.value))
            && (forall q :: q in f.delivered + f.pending ==> q in s.delivered + s.pending || row == Some(q))
            && (e.kind(p).CodexKind? ==> Counters(f.checkpoints[p]) == LineState(e, p, st, l))
            && (forall x :: x in s.checkpoints && x != p ==> f.checkpoints[x] == s.checkpoints[x])
  {
    var line := TrimNL(Readable(l));
    hide TrimNL, Readable;
    if line != [] && e.kind(p).ClaudeKind? && e.claude(line).Some? {
      var parsed := e.claude(line).value;
      var row := parsed.(app := e.resolve(e.claudeCwd(line)));
      if !(parsed.key in s.lastOutput && parsed.output <= s.lastOutput[parsed.key]) {
        QueueKeeps(e, s, s.(lastOutput := s.lastOutput[parsed.key := parsed.output]), row);
      }
    } else if line != [] && e.kind(p).CodexKind? {
      var cp := s.checkpoints[p];
      var (st', row) := Codex.Parse(Counters(cp), e.codex(line));
      if row.Some? {
        QueueKeeps(e, s, s.(checkpoints := s.checkpoints[p := cp.(codex := Some(st'))]), row.value.(app := e.resolve(st'.cwd)));
      }
    }
  }

  lemma QueueKeeps(e: Env, s: State, t: State, row: Row)
    requires t == s.(lastOutput := t.lastOutput, checkpoints := t.checkpoints)
    requires Suppressible(s)
    requires forall k :: k in t.lastOutput ==> (k in s.lastOutput && t.lastOutput[k] == s.lastOutput[k]) || (k == row.key && t.lastOutput[k] == row.output)
    ensures var f := Queue(e, t, row);
            && Keeps(s, f) && Good(f, row) && Suppressible(f)
            && (f.saved != s.saved ==> Durable(f, row))
            && (forall q :: q in f.delivered + f.pending ==> q in s.delivered + s.pending || q == row)
  {
    var u := t.(pending := t.pending + [row]);
    assert u.delivered + u.pending == s.delivered + s.pending + [row];
    assert row in u.delivered + u.pending;
    assert forall q :: q in s.delivered + s.pending ==> q in u.delivered + u.pending;
    assert Good(u, row) && Suppressible(u);
    assert forall r :: Good(s, r) ==> Good(u, r);
    FlushKeeps(e, u);
  }

  // ---- the invariant ----

  /** A checkpoint whose file has been read up to pos; `told` if its rows are accounted for. */
  ghost predicate FileOK(e: Env, p: Path, content: Data, s: State, cp: Checkpoint, pos: nat, told: bool)
  {
    && Boundary(content, cp.offset) && Boundary(content, pos) && cp.offset <= pos
    && (told && e.kind(p).CodexKind? ==> Counters(cp) == FileState(e, p, Complete(content[..pos])))
    && (told ==> forall r :: r in FileRows(e, p, Complete(content[..pos])) ==> Good(s, r))
  }

  /** No usage line before a saved offset is missing from the hub. */
  ghost predicate SavedOK(e: Env, p: Path, content: Data, s: State, off: nat, told: bool)
  {
    && Boundary(content, off)
    && (told ==> forall r :: r in FileRows(e, p, Complete(content[..off])) ==> Durable(s, r))
  }

  function ReadPos(x: World, p: Path): nat
    requires p in x.w.checkpoints
  {
    if x.tail.Some? && x.tail.value.path == p then x.tail.value.pos else x.w.checkpoints[p].offset
  }

  ghost predicate Inv(e: Env, x: World, scope: Scope)
  {
    && (x.tail.Some? ==> x.tail.value.path in x.w.checkpoints && x.tail.value.offset == x.tail.value.pos)
    && (forall p :: p in x.files ==> NoOversize(Complete(x.files[p])))
    && (forall p :: p in x.w.checkpoints ==>
          p in x.files && FileOK(e, p, x.files[p], x.w, x.w.checkpoints[p], ReadPos(x, p), scope(p)))
    && (forall p :: p in x.w.saved ==> p in x.files && SavedOK(e, p, x.files[p], x.w, x.w.saved[p].offset, scope(p)))
    && Suppressible(x.w)
    && (forall q :: q in x.w.delivered + x.w.pending ==> RowOf(e, x.files, q) || Stray(e, scope, q))
  }

  /** Saved codex counters belong to the saved offset. */
  ghost predicate SavedFits(e: Env, x: World, p: Path)
  {
    p in x.w.saved && p in x.files && e.kind(p).CodexKind? && x.w.saved[p].offset <= |x.files[p]| ==>
      Counters(x.w.saved[p]) == FileState(e, p, Complete(x.files[p][..x.w.saved[p].offset]))
  }

  ghost predicate AllFit(e: Env, x: World, scope: Scope)
  {
    forall p :: scope(p) ==> SavedFits(e, x, p)
  }

  // ---- what a save can spoil ----

  /** The line under the cursor yields a row that is not suppressed. */
  predicate QueuesRow(e: Env, x: World)
    requires x.tail.Some? && LineReady(x)
  {
    var p, line := x.tail.value.path, TrimNL(Readable(NextRead(x)));
    && line != []
    && if e.kind(p).ClaudeKind? then
         e.claude(line).Some? && var row := e.claude(line).value; row.key in x.w.lastOutput ==> row.output > x.w.lastOutput[row.key]
       else
         Codex.Parse(Counters(x.w.checkpoints[p]), e.codex(line)).1.Some?
  }

  /** Reading the line fills the batch, and the flush is accepted and its save succeeds. */
  predicate LineSaves(e: Env, x: World)
  {
    && x.tail.Some? && LineReady(x) && QueuesRow(e, x) && |x.w.pending| + 1 >= FLUSH_ROWS
    && e.answers(x.w.attempts).accepted && e.answers(x.w.attempts).written
  }

  /** A batch is delivered and saved in the middle of the scan of p, a codex file. */
  predicate MidScanSave(e: Env, x: World, ev: Event, p: Path)
  {
    ev.Line? && LineSaves(e, x) && x.tail.value.path == p && e.kind(p).CodexKind?
  }

  /** The checkpoint file is written: by a flush while a file is read or between scans, or by a
      shutdown. */
  predicate Saves(e: Env, x: World, ev: Event)
  {
    var o := e.answers(x.w.attempts);
    match ev
    case Line => LineSaves(e, x)
    case Tick => x.tail.None? && o.written && (x.w.pending == [] || o.accepted)
    case Stop => x.tail.None? && o.written
    case _ => false
  }

  /** The last save of the run was made in the middle of the scan of p, a codex file. */
  predicate Spoiled(e: Env, evs: seq<Event>, p: Path)
  {
    evs != [] &&
    var n := |evs| - 1;
    var x := Run(e, evs[..n]);
    if Saves(e, x, evs[n]) then MidScanSave(e, x, evs[n], p) else Spoiled(e, evs[..n], p)
  }

  /** Lines within the size limit, first scans within the backfill limit. */
  ghost predicate WithinLimits(e: Env, x: World, ev: Event)
  {
    match ev
    case Append(p, b) => NoOversize(Complete((if p in x.files then x.files[p] else []) + b))
    case Begin(p, _) => p in x.files && p !in x.w.checkpoints ==> |x.files[p]| <= MAX_BACKFILL
    case _ => true
  }

  ghost predicate BoundedRun(e: Env, evs: seq<Event>)
  {
    evs == [] || (BoundedRun(e, evs[..|evs| - 1]) && WithinLimits(e, Run(e, evs[..|evs| - 1]), evs[|evs| - 1]))
  }

  /** What the theorems below ask of a run: the limits, and no restart from a checkpoint file
      saved in the middle of the scan of a codex file the theorem is about. */
  ghost predicate AllowedRun(e: Env, evs: seq<Event>, scope: Scope)
  {
    evs == [] ||
    var n := |evs| - 1;
    var x := Run(e, evs[..n]);
    && AllowedRun(e, evs[..n], scope)
    && WithinLimits(e, x, evs[n])
    && (evs[n].Crash? ==> NoneSpoiled(e, evs[..n], scope))
    && (evs[n].Stop? && x.tail.None? ==> NoneSpoiled(e, evs, scope))
  }

  ghost predicate NoneSpoiled(e: Env, evs: seq<Event>, scope: Scope)
  {
    forall p :: scope(p) ==> !Spoiled(e, evs, p)
  }

  lemma PrefixLines(content: Data, off: nat, pos: nat)
    requires Boundary(content, off) && Boundary(content, pos) && off <= pos
    ensures Complete(content[..pos]) == Complete(content[..off]) + Complete(content[off..pos])
  {
    assert Boundary(content[..pos], off);
    SplitAtBoundary(content[..pos], off);
    assert content[..pos][..off] == content[..off] && content[..pos][off..] == content[off..pos];
  }

  lemma RowsBelow(e: Env, p: Path, content: Data, off: nat, pos: nat, r: Row)
    requires Boundary(content, off) && Boundary(content, pos) && off <= pos
    requires r in FileRows(e, p, Complete(content[..off]))
    ensures r in FileRows(e, p, Complete(content[..pos]))
  {
    PrefixLines(content, off, pos);
    FileRowsPrefix(e, p, Complete(content[..off]), Complete(content[off..pos]), r);
  }

  lemma GrownFile(e: Env, p: Path, a: Data, b: Data, pos: nat)
    requires Boundary(a, pos)
    ensures Boundary(a + b, pos) && (a + b)[..pos] == a[..pos]
    ensures forall r :: r in FileRows(e, p, Complete(a)) ==> r in FileRows(e, p, Complete(a + b))
  {
    SplitAppend(a, b);
    forall r | r in FileRows(e, p, Complete(a))
      ensures r in FileRows(e, p, Complete(a + b))
    {
      FileRowsPrefix(e, p, Complete(a), Complete(Rest(a) + b), r);
    }
  }

  // ---- every step keeps it ----

  lemma AppendKeeps(e: Env, x: World, scope: Scope, p: Path, b: Data)
    requires Inv(e, x, scope) && WithinLimits(e, x, Append(p, b))
    ensures Inv(e, Next(e, x, Append(p, b)), scope)
  {
    hide Complete, FileRows, FileState, NoOversize, Boundary, Good, Durable, Suppressible, RowOf, Stray, FileOK, SavedOK;
    var y := Next(e, x, Append(p, b));
    forall q | q in x.w.delivered + x.w.pending && RowOf(e, x.files, q) ensures RowOf(e, y.files, q) {
      AppendRow(e, x, p, b, q);
    }
    if p in x.files {
      if p in x.w.checkpoints {
        AppendFile(e, p, x.files[p], b, x.w, x.w.checkpoints[p], ReadPos(x, p), scope(p));
      }
      if p in x.w.saved {
        AppendSaved(e, p, x.files[p], b, x.w, x.w.saved[p].offset, scope(p));
      }
    }
  }

  lemma AppendFile(e: Env, p: Path, a: Data, b: Data, s: State, cp: Checkpoint, pos: nat, told: bool)
    requires FileOK(e, p, a, s, cp, pos, told)
    ensures FileOK(e, p, a + b, s, cp, pos, told)
  {
    hide Complete, FileRows, FileState, Boundary, Good;
    GrownFile(e, p, a, b, cp.offset);
    GrownFile(e, p, a, b, pos);
  }

  lemma AppendSaved(e: Env, p: Path, a: Data, b: Data, s: State, off: nat, told: bool)
    requires SavedOK(e, p, a, s, off, told)
    ensures SavedOK(e, p, a + b, s, off, told)
  {
    hide Complete, FileRows, Boundary, Durable;
    GrownFile(e, p, a, b, off);
  }

  lemma AppendRow(e: Env, x: World, p: Path, b: Data, r: Row)
    requires RowOf(e, x.files, r)
    ensures RowOf(e, Next(e, x, Append(p, b)).files, r)
  {
    hide Complete, FileRows, Boundary;
    var y := Next(e, x, Append(p, b));
    var o :| o in x.files && r in FileRows(e, o, Complete(x.files[o]));
    if o == p {
      GrownStart(x.files[p]);
      GrownFile(e, p, x.files[p], b, 0);
    }
    assert o in y.files && r in FileRows(e, o, Complete(y.files[o]));
  }

  lemma GrownStart(b: Data)
    ensures Boundary(b, 0)
  {
  }

  /** A step of the watcher that leaves files and read positions alone. */
  lemma StateKeeps(e: Env, x: World, scope: Scope, f: State)
    requires Inv(e, x, scope)
    requires Keeps(x.w, f) && f.checkpoints == x.w.checkpoints
    requires forall q :: q in f.delivered + f.pending ==> q in x.w.delivered + x.w.pending
    ensures Inv(e, x.(w := f), scope)
  {
    hide Complete, FileRows, FileState, NoOversize, Good, Durable, Suppressible;
    var y := x.(w := f);
    forall p | p in f.checkpoints
      ensures FileOK(e, p, x.files[p], f, f.checkpoints[p], ReadPos(y, p), scope(p))
    {
      assert FileOK(e, p, x.files[p], x.w, x.w.checkpoints[p], ReadPos(x, p), scope(p));
    }
    forall p | p in f.saved
      ensures p in x.files && SavedOK(e, p, x.files[p], f, f.saved[p].offset, scope(p))
    {
      if f.saved != x.w.saved {
        SavedOffsets(e, p, x.files[p], x.w, f, x.w.checkpoints[p], ReadPos(x, p), scope(p));
      }
    }
  }

  lemma SavedOffsets(e: Env, p: Path, content: Data, s: State, f: State, cp: Checkpoint, pos: nat, told: bool)
    requires FileOK(e, p, content, s, cp, pos, told) && SavedByFlush(s, f)
    ensures SavedOK(e, p, content, f, cp.offset, told)
  {
    forall r | told && r in FileRows(e, p, Complete(content[..cp.offset]))
      ensures Durable(f, r)
    {
      RowsBelow(e, p, content, cp.offset, pos, r);
    }
  }

  lemma TickKeeps(e: Env, x: World, scope: Scope)
    requires Inv(e, x, scope)
    ensures Inv(e, Next(e, x, Tick), scope)
  {
    FlushKeeps(e, x.w);
    if x.tail.None? {
      StateKeeps(e, x, scope, Flush(e, x.w));
    }
  }

  lemma BeginKeeps(e: Env, x: World, scope: Scope, p: Path, openable: bool)
    requires Inv(e, x, scope) && WithinLimits(e, x, Begin(p, openable))
    ensures Inv(e, Next(e, x, Begin(p, openable)), scope)
  {
    hide Complete, FileRows, FileState, NoOversize, Good, Durable, Suppressible;
    if x.tail.None? && p in x.files {
      var y := Next(e, x, Begin(p, openable));
      if p !in x.w.checkpoints {
        assert x.files[p][..0] == [];
        NoNewline([]);
        EmptyFile(e, p);
      } else {
        assert FileOK(e, p, x.files[p], x.w, x.w.checkpoints[p], x.w.checkpoints[p].offset, scope(p));
      }
      GoodSame(x.w, y.w);
      assert FileOK(e, p, x.files[p], y.w, y.w.checkpoints[p], ReadPos(y, p), scope(p));
      forall q | q in y.w.checkpoints
        ensures q in y.files && FileOK(e, q, y.files[q], y.w, y.w.checkpoints[q], ReadPos(y, q), scope(q))
      {
        if q != p {
          assert FileOK(e, q, x.files[q], x.w, x.w.checkpoints[q], ReadPos(x, q), scope(q));
        }
      }
    }
  }

  lemma EmptyFile(e: Env, p: Path)
    ensures FileState(e, p, []) == Codex.FRESH && FileRows(e, p, []) == []
  {
  }

  lemma GoodSame(s: State, t: State)
    requires t == s.(checkpoints := t.checkpoints, saved := t.saved)
    ensures forall r :: Good(s, r) <==> Good(t, r)
    ensures forall r :: Durable(s, r) <==> Durable(t, r)
    ensures Suppressible(s) <==> Suppressible(t)
  {
  }

  lemma FileOneMore(e: Env, p: Path, ls: seq<Data>, l: Data)
    ensures FileState(e, p, ls + [l]) == LineState(e, p, FileState(e, p, ls), l)
    ensures var row := LineRow(e, p, FileState(e, p, ls), l);
            FileRows(e, p, ls + [l]) == FileRows(e, p, ls) + if row.Some? then [row.value] else []
  {
    assert (ls + [l])[..|ls|] == ls;
  }

  /** The line under the cursor, seen in the whole file. */
  lemma LineInFile(e: Env, p: Path, content: Data, pos: nat, i: nat)
    requires Boundary(content, pos) && i == NewlineAt(content[pos..]) < |content[pos..]|
    requires NoOversize(Complete(content))
    ensures var l := content[pos..][..i];
            var st := FileState(e, p, Complete(content[..pos]));
            var row := LineRow(e, p, st, l);
            && Boundary(content, pos + i + 1)
            && |Readable(l)| == i + 1
            && FileState(e, p, Complete(content[..pos + i + 1])) == LineState(e, p, st, l)
            && FileRows(e, p, Complete(content[..pos + i + 1])) ==
               FileRows(e, p, Complete(content[..pos])) + (if row.Some? then [row.value] else [])
            && (row.Some? ==> row.value in FileRows(e, p, Complete(content)))
  {
    hide LineRow, LineState, Complete, NewlineAt;
    NextLine(content, pos, i);
    var l := content[pos..][..i];
    assert l == content[pos..pos + i];
    var n := pos + i + 1;
    var before := Complete(content[..pos]);
    FileOneMore(e, p, before, l);
    SplitAtBoundary(content, n);
    assert l in before + [l];
    var row := LineRow(e, p, FileState(e, p, before), l);
    if row.Some? {
      FileRowsPrefix(e, p, before + [l], Complete(content[n..]), row.value);
    }
  }

  /** What one line of p, read up to n, does to the watcher. */
  ghost predicate LineStep(e: Env, x: World, scope: Scope, p: Path, f: State, n: nat, row: Option<Row>)
    requires p in x.w.checkpoints && p in x.files
  {
    && f.checkpoints.Keys == x.w.checkpoints.Keys
    && (forall q :: q in f.checkpoints ==> f.checkpoints[q].offset == x.w.checkpoints[q].offset)
    && (forall q :: q in f.checkpoints && q != p ==> f.checkpoints[q] == x.w.checkpoints[q])
    && Keeps(x.w, f)
    && (forall q :: q in f.delivered + f.pending ==> q in x.w.delivered + x.w.pending || row == Some(q))
    && (row.Some? ==> RowOf(e, x.files, row.value) || Stray(e, scope, row.value))
    && FileOK(e, p, x.files[p], f, f.checkpoints[p], n, scope(p))
  }

  lemma LineStepKeeps(e: Env, x: World, scope: Scope, p: Path, f: State, n: nat, row: Option<Row>)
    requires Inv(e, x, scope) && x.tail.Some? && p == x.tail.value.path && LineStep(e, x, scope, p, f, n, row)
    ensures Inv(e, x.(w := f, tail := Some(Cursor(p, n, n))), scope)
  {
    hide Complete, FileRows, FileState, NoOversize, Good, Durable, Suppressible, RowOf;
    var y := x.(w := f, tail := Some(Cursor(p, n, n)));
    forall q | q in f.checkpoints
      ensures q in y.files && FileOK(e, q, y.files[q], f, f.checkpoints[q], ReadPos(y, q), scope(q))
    {
      assert FileOK(e, q, x.files[q], x.w, x.w.checkpoints[q], ReadPos(x, q), scope(q));
    }
    forall q | q in f.saved
      ensures q in y.files && SavedOK(e, q, y.files[q], f, f.saved[q].offset, scope(q))
    {
      if f.saved != x.w.saved {
        SavedOffsets(e, q, x.files[q], x.w, f, x.w.checkpoints[q], ReadPos(x, q), scope(q));
      }
    }
  }

  lemma LineNext(e: Env, x: World, i: nat)
    requires x.tail.Some? && LineReady(x) && x.tail.value.offset == x.tail.value.pos
    requires i == NewlineAt(x.files[x.tail.value.path][x.tail.value.pos..]) && |Readable(NextRead(x))| == i + 1
    ensures var c := x.tail.value;
            Next(e, x, Line) == x.(w := Step(e, x.w, c.path, NextRead(x)), tail := Some(Cursor(c.path, c.pos + i + 1, c.pos + i + 1)))
  {
    hide Step, NewlineAt, Readable;
  }

  lemma LineSteps(e: Env, x: World, scope: Scope) returns (row: Option<Row>, n: nat)
    requires Inv(e, x, scope) && x.tail.Some? && LineReady(x)
    ensures var p := x.tail.value.path;
            var f := Step(e, x.w, p, NextRead(x));
            LineStep(e, x, scope, p, f, n, row) && Next(e, x, Line) == x.(w := f, tail := Some(Cursor(p, n, n)))
  {
    hide Complete, FileRows, FileState, NoOversize, Good, Durable, Suppressible, Step, LineRow, LineState, Readable, NewlineAt, Next;
    var c := x.tail.value;
    var p, pos, content := c.path, c.pos, x.files[c.path];
    assert FileOK(e, p, content, x.w, x.w.checkpoints[p], pos, scope(p));
    var i := NewlineAt(content[pos..]);
    LineInFile(e, p, content, pos, i);
    var l := NextRead(x);
    var st := if scope(p) then FileState(e, p, Complete(content[..pos])) else Counters(x.w.checkpoints[p]);
    StepKeeps(e, x.w, p, l, st);
    row, n := LineRow(e, p, st, l), pos + i + 1;
    LineNext(e, x, i);
    assert scope(p) && row.Some? ==> RowOf(e, x.files, row.value);
    assert !scope(p) && row.Some? ==> Stray(e, scope, row.value);
  }

  lemma LineKeeps(e: Env, x: World, scope: Scope)
    requires Inv(e, x, scope)
    ensures Inv(e, Next(e, x, Line), scope)
  {
    if x.tail.Some? && LineReady(x) {
      var row, n := LineSteps(e, x, scope);
      hide *;
      LineStepKeeps(e, x, scope, x.tail.value.path, Step(e, x.w, x.tail.value.path, NextRead(x)), n, row);
    }
  }

  lemma FinishKeeps(e: Env, x: World, scope: Scope)
    requires Inv(e, x, scope)
    ensures Inv(e, Next(e, x, Finish), scope)
  {
    hide Complete, FileRows, FileState, NoOversize, Good, Durable, Suppressible;
    if x.tail.Some? {
      var p := x.tail.value.path;
      var y := Next(e, x, Finish);
      GoodSame(x.w, y.w);
      forall q | q in y.w.checkpoints
        ensures q in y.files && FileOK(e, q, y.files[q], y.w, y.w.checkpoints[q], ReadPos(y, q), scope(q))
      {
        assert FileOK(e, q, x.files[q], x.w, x.w.checkpoints[q], ReadPos(x, q), scope(q));
      }
    }
  }

  lemma CrashKeeps(e: Env, x: World, scope: Scope)
    requires Inv(e, x, scope) && AllFit(e, x, scope)
    ensures Inv(e, Next(e, x, Crash), scope)
  {
    hide Complete, FileRows, FileState, NoOversize;
    var y := Next(e, x, Crash);
    assert y.w.delivered + y.w.pending == x.w.delivered;
    forall p | p in y.w.checkpoints
      ensures p in y.files && FileOK(e, p, y.files[p], y.w, y.w.checkpoints[p], ReadPos(y, p), scope(p))
      ensures SavedOK(e, p, y.files[p], y.w, y.w.saved[p].offset, scope(p))
    {
      assert SavedOK(e, p, x.files[p], x.w, x.w.saved[p].offset, scope(p));
      assert forall r :: Durable(x.w, r) ==> Durable(y.w, r) && Good(y.w, r);
      assert scope(p) ==> SavedFits(e, x, p);
    }
    forall q | q in y.w.delivered + y.w.pending
      ensures RowOf(e, y.files, q) || Stray(e, scope, q)
    {
      assert q in x.w.delivered + x.w.pending;
    }
  }

  /** Saving without sending is sound once the pending keys count as given up. */
  lemma SaveKeeps(e: Env, x: World, scope: Scope, f: State)
    requires Inv(e, x, scope) && x.tail.None?
    requires f == x.w.(attempts := f.attempts, saved := x.w.checkpoints, lost := x.w.lost + Keys(x.w.pending))
    ensures Inv(e, x.(w := f), scope)
  {
    forall r | Good(x.w, r)
      ensures Durable(f, r)
    {
      if r.key !in x.w.lost {
        var q :| q in x.w.delivered + x.w.pending && q.key == r.key && q.output >= r.output;
        assert q in x.w.pending ==> q.key in f.lost;
      }
    }
    assert Keeps(x.w, f);
    StateKeeps(e, x, scope, f);
  }

  lemma StopKeeps(e: Env, x: World, scope: Scope)
    requires Inv(e, x, scope) && (x.tail.None? ==> AllFit(e, Next(e, x, Stop), scope))
    ensures Inv(e, Next(e, x, Stop), scope)
  {
    hide Inv, SavedFits;
    if x.tail.None? {
      var o := e.answers(x.w.attempts);
      var f := x.w.(attempts := x.w.attempts + 1);
      if o.written {
        f := f.(saved := x.w.checkpoints, lost := x.w.lost + Keys(x.w.pending));
        SaveKeeps(e, x, scope, f);
      } else {
        Attempt(e, x, scope, f);
      }
      var y := x.(w := f);
      assert Next(e, x, Stop) == Next(e, y, Crash);
      forall p | scope(p) ensures SavedFits(e, y, p) {
        SavedSame(e, y, Next(e, x, Stop), p);
      }
      CrashKeeps(e, y, scope);
    }
  }

  lemma Attempt(e: Env, x: World, scope: Scope, f: State)
    requires Inv(e, x, scope) && f == x.w.(attempts := f.attempts)
    ensures Inv(e, x.(w := f), scope)
  {
    assert forall r :: (Good(x.w, r) <==> Good(f, r)) && (Durable(x.w, r) <==> Durable(f, r));
    StateKeeps(e, x, scope, f);
  }

  lemma SavedSame(e: Env, x: World, y: World, p: Path)
    requires x.w.saved == y.w.saved && x.files == y.files
    ensures SavedFits(e, x, p) <==> SavedFits(e, y, p)
  {
  }

  /** Every event keeps the invariant; a restart needs codex counters that fit the offsets. */
  lemma NextKeeps(e: Env, x: World, scope: Scope, ev: Event)
    requires Inv(e, x, scope) && WithinLimits(e, x, ev)
    requires ev.Crash? ==> AllFit(e, x, scope)
    requires ev.Stop? && x.tail.None? ==> AllFit(e, Next(e, x, ev), scope)
    ensures Inv(e, Next(e, x, ev), scope)
  {
    hide Inv;
    match ev
    case Append(p, b) => AppendKeeps(e, x, scope, p, b);
    case Begin(p, openable) => BeginKeeps(e, x, scope, p, openable);
    case Line => LineKeeps(e, x, scope);
    case Finish => FinishKeeps(e, x, scope);
    case Tick => TickKeeps(e, x, scope);
    case Crash => CrashKeeps(e, x, scope);
    case Stop => StopKeeps(e, x, scope);
  }

  // ---- which saves are consistent ----

  lemma {:induction false} EventsGrow(e: Env, p: Path, a: seq<Data>, b: seq<Data>)
    ensures FileState(e, p, a).events <= FileState(e, p, a + b).events
    decreases |b|
  {
    if b == [] {
      assert a + b == a;
    } else {
      var n := |b| - 1;
      EventsGrow(e, p, a, b[..n]);
      assert (a + b)[..|a + b| - 1] == a + b[..n];
    }
  }

  /** Saving while p is not being read, or p is no codex file: its counters are those at its
      offset. */
  lemma SaveFits(e: Env, x: World, scope: Scope, p: Path)
    requires Inv(e, x, scope) && scope(p) && x.w.saved == x.w.checkpoints
    requires x.tail.Some? && x.tail.value.path == p ==> e.kind(p).ClaudeKind?
    ensures SavedFits(e, x, p)
  {
    hide FileState, FileRows, Complete, NoOversize;
    if p in x.w.checkpoints {
      assert FileOK(e, p, x.files[p], x.w, x.w.checkpoints[p], ReadPos(x, p), scope(p));
    }
  }

  /** What a line does to the checkpoint file. */
  lemma StepSaves(e: Env, x: World)
    requires x.tail.Some? && LineReady(x)
    ensures var f := Step(e, x.w, x.tail.value.path, NextRead(x));
            if LineSaves(e, x) then f.saved == f.checkpoints else f.saved == x.w.saved
  {
    hide TrimNL, Readable, NewlineAt;
  }

  lemma NextSaves(e: Env, x: World, ev: Event)
    ensures var y := Next(e, x, ev);
            if Saves(e, x, ev) then y.w.saved == y.w.checkpoints else y.w.saved == x.w.saved
  {
    hide TrimNL, Readable, NewlineAt, Step, QueuesRow;
    match ev {
      case Line =>
        if x.tail.Some? && LineReady(x) {
          StepSaves(e, x);
        }
      case _ =>
    }
  }

  /** The part of the file before its saved offset is the same. */
  predicate SameBelow(x: World, y: World, p: Path)
    requires p in x.w.saved
  {
    var off := x.w.saved[p].offset;
    p in x.files && p in y.files && off <= |x.files[p]| <= |y.files[p]| && y.files[p][..off] == x.files[p][..off]
  }

  lemma UnchangedFits(e: Env, x: World, y: World, p: Path)
    requires y.w.saved == x.w.saved && (p in x.w.saved ==> SameBelow(x, y, p))
    ensures SavedFits(e, y, p) <==> SavedFits(e, x, p)
  {
    hide FileState, Complete;
  }

  lemma SavedWithin(e: Env, x: World, scope: Scope)
    requires Inv(e, x, scope)
    ensures forall p :: p in x.w.saved ==> p in x.files && x.w.saved[p].offset <= |x.files[p]|
  {
    hide Complete, FileRows, FileState, NoOversize;
  }

  lemma FilesGrow(e: Env, x: World, ev: Event)
    ensures forall p :: p in x.files ==> p in Next(e, x, ev).files && x.files[p] <= Next(e, x, ev).files[p]
  {
    hide Step, Flush, Open, Shutdown;
  }

  /** The row that filled the batch has been counted, the offset still stands before its line. */
  lemma MidScanSkews(e: Env, x: World, scope: Scope, p: Path)
    requires Inv(e, x, scope) && scope(p) && Inv(e, Next(e, x, Line), scope) && MidScanSave(e, x, Line, p)
    ensures !SavedFits(e, Next(e, x, Line), p)
  {
    hide *;
    var y := Next(e, x, Line);
    MidScanIsSave(e, x, Line, p);
    NextSaves(e, x, Line);
    CountedMore(e, x, p);
    CountersAtPos(e, x, scope, p);
    var content, off, pos := x.files[p], x.w.checkpoints[p].offset, x.tail.value.pos;
    PrefixLines(content, off, pos);
    EventsGrow(e, p, Complete(content[..off]), Complete(content[off..pos]));
    CountsTell(e, y, p);
  }

  lemma CountersAtPos(e: Env, x: World, scope: Scope, p: Path)
    requires Inv(e, x, scope) && scope(p) && p in x.w.checkpoints && MidScanSave(e, x, Line, p)
    ensures x.tail.Some? && p in x.files && e.kind(p).CodexKind?
    ensures var content, off, pos := x.files[p], x.w.checkpoints[p].offset, x.tail.value.pos;
            && Boundary(content, off) && Boundary(content, pos) && off <= pos <= |content|
            && Counters(x.w.checkpoints[p]) == FileState(e, p, Complete(content[..pos]))
  {
    hide FileState, FileRows, Complete, NoOversize, LineSaves, Good, Durable, Suppressible;
    MidScanTail(e, x, p);
    assert FileOK(e, p, x.files[p], x.w, x.w.checkpoints[p], ReadPos(x, p), scope(p));
  }

  lemma MidScanTail(e: Env, x: World, p: Path)
    requires MidScanSave(e, x, Line, p)
    ensures x.tail.Some? && x.tail.value.path == p
  {
    hide QueuesRow;
  }

  /** Counters with more events than the part before the offset has do not fit it. */
  lemma CountsTell(e: Env, y: World, p: Path)
    requires p in y.w.saved && p in y.files && e.kind(p).CodexKind? && y.w.saved[p].offset <= |y.files[p]|
    requires Counters(y.w.saved[p]).events > FileState(e, p, Complete(y.files[p][..y.w.saved[p].offset])).events
    ensures !SavedFits(e, y, p)
  {
    hide FileState, Complete;
  }

  lemma CountedMore(e: Env, x: World, p: Path)
    requires MidScanSave(e, x, Line, p)
    ensures var y := Next(e, x, Line);
            && y.files == x.files && p in x.w.checkpoints && p in y.w.checkpoints
            && y.w.checkpoints[p].offset == x.w.checkpoints[p].offset
            && Counters(y.w.checkpoints[p]).events == Counters(x.w.checkpoints[p]).events + 1
  {
    hide TrimNL, Readable, NewlineAt;
  }

  /** One event and what the checkpoint file says of p: a save in the middle of its scan spoils it
      if p is a codex file, any other save repairs it, and nothing else touches it. */
  lemma SpoilStep(e: Env, x: World, scope: Scope, ev: Event, p: Path)
    requires Inv(e, x, scope) && Inv(e, Next(e, x, ev), scope) && scope(p)
    ensures MidScanSave(e, x, ev, p) ==> !SavedFits(e, Next(e, x, ev), p)
    ensures Saves(e, x, ev) && !MidScanSave(e, x, ev, p) && !ev.Stop? ==> SavedFits(e, Next(e, x, ev), p)
    ensures !Saves(e, x, ev) ==> (SavedFits(e, Next(e, x, ev), p) <==> SavedFits(e, x, p))
  {
    hide *;
    MidScanIsSave(e, x, ev, p);
    if MidScanSave(e, x, ev, p) {
      MidScanSkews(e, x, scope, p);
    } else if Saves(e, x, ev) {
      if !ev.Stop? {
        NextSaves(e, x, ev);
        TailKept(e, x, ev, p);
        SaveFits(e, Next(e, x, ev), scope, p);
      }
    } else {
      NoSaveStep(e, x, scope, ev, p);
    }
  }

  lemma MidScanIsSave(e: Env, x: World, ev: Event, p: Path)
    ensures MidScanSave(e, x, ev, p) ==> ev == Line && Saves(e, x, ev)
  {
    hide LineSaves;
  }

  lemma NoSaveStep(e: Env, x: World, scope: Scope, ev: Event, p: Path)
    requires Inv(e, x, scope) && !Saves(e, x, ev)
    ensures SavedFits(e, Next(e, x, ev), p) <==> SavedFits(e, x, p)
  {
    var y := Next(e, x, ev);
    NextSaves(e, x, ev);
    SavedWithin(e, x, scope);
    FilesGrow(e, x, ev);
    hide Next, Inv, SavedFits, Saves;
    if p in x.w.saved {
      assert x.files[p] <= y.files[p];
    }
    UnchangedFits(e, x, y, p);
  }

  lemma TailKept(e: Env, x: World, ev: Event, p: Path)
    requires Saves(e, x, ev) && !MidScanSave(e, x, ev, p) && !ev.Stop?
    ensures var y := Next(e, x, ev); y.tail.Some? && y.tail.value.path == p ==> e.kind(p).ClaudeKind?
  {
    hide Step, QueuesRow, Flush;
  }

  /** A written shutdown saves between scans. */
  lemma StopFits(e: Env, x: World, scope: Scope, p: Path)
    requires Inv(e, x, scope) && scope(p) && Saves(e, x, Stop)
    ensures SavedFits(e, Next(e, x, Stop), p)
  {
    var y := x.(w := x.w.(saved := x.w.checkpoints, lost := x.w.lost + Keys(x.w.pending)));
    SaveKeeps(e, x, scope, y.w);
    hide Inv, SavedFits;
    SaveFits(e, y, scope, p);
    SavedSame(e, y, Next(e, x, Stop), p);
  }

  /** The same without a written shutdown. */
  lemma StopUnwritten(e: Env, x: World, p: Path)
    requires !Saves(e, x, Stop)
    ensures SavedFits(e, Next(e, x, Stop), p) <==> SavedFits(e, x, p)
  {
    NextSaves(e, x, Stop);
    StopFiles(e, x);
    hide Next, SavedFits;
    SavedSame(e, x, Next(e, x, Stop), p);
  }

  /** Over any allowed run the invariant holds, and the checkpoint file fits a file exactly when
      the last save was not made in the middle of its scan, or it is no codex file. */
  lemma {:induction false} RunKeeps(e: Env, evs: seq<Event>, scope: Scope)
    requires AllowedRun(e, evs, scope)
    ensures Inv(e, Run(e, evs), scope)
    ensures forall p :: scope(p) ==> (SavedFits(e, Run(e, evs), p) <==> !Spoiled(e, evs, p))
  {
    if evs != [] {
      var n := |evs| - 1;
      var x, ev := Run(e, evs[..n]), evs[n];
      RunKeeps(e, evs[..n], scope);
      hide Inv, Next, WithinLimits, SavedFits, Saves, MidScanSave;
      if ev.Stop? && x.tail.None? {
        forall p | scope(p) ensures SavedFits(e, Next(e, x, ev), p) {
          StopCase(e, evs, scope, p);
        }
      }
      NextKeeps(e, x, scope, ev);
      forall p | scope(p) ensures SavedFits(e, Run(e, evs), p) <==> !Spoiled(e, evs, p) {
        SpoilStep(e, x, scope, ev, p);
      }
    }
  }

  lemma StopCase(e: Env, evs: seq<Event>, scope: Scope, p: Path)
    requires AllowedRun(e, evs, scope) && evs != [] && evs[|evs| - 1].Stop? && scope(p)
    requires var x := Run(e, evs[..|evs| - 1]);
             x.tail.None? && Inv(e, x, scope) && (SavedFits(e, x, p) <==> !Spoiled(e, evs[..|evs| - 1], p))
    ensures SavedFits(e, Run(e, evs), p)
  {
    hide Inv, Next, WithinLimits, SavedFits, Saves;
    var x := Run(e, evs[..|evs| - 1]);
    if Saves(e, x, Stop) {
      StopFits(e, x, scope, p);
    } else {
      StopUnwritten(e, x, p);
    }
  }

  lemma StopFiles(e: Env, x: World)
    ensures Next(e, x, Stop).files == x.files
  {
  }

  // ---- main results ----

  /** Whatever happened before, the checkpoint file never stands past a usage row whose key
      the hub does not hold with at least that output count (or was given up), provided the
      file itself has not been read on from a checkpoint saved in the middle of its scan. */
  lemma {:induction false} DurableOffset(e: Env, evs: seq<Event>, p: Path, r: Row)
    requires AllowedRun(e, evs, Only(p)) && p in Run(e, evs).w.saved
    ensures SavedIsDurable(e, Run(e, evs), p, r)
  {
    RunKeeps(e, evs, Only(p));
    var x := Run(e, evs);
    assert SavedOK(e, p, x.files[p], x.w, x.w.saved[p].offset, Only(p)(p));
  }

  ghost predicate SavedIsDurable(e: Env, x: World, p: Path, r: Row)
    requires p in x.w.saved
  {
    p in x.files && x.w.saved[p].offset <= |x.files[p]| &&
    (r in FileRows(e, p, Complete(x.files[p][..x.w.saved[p].offset])) ==> r.key in x.w.lost || Covered(x.w.delivered, r))
  }

  lemma {:induction false} ClaudeAllowed(e: Env, evs: seq<Event>, scope: Scope)
    requires BoundedRun(e, evs) && forall p :: scope(p) ==> e.kind(p).ClaudeKind?
    ensures AllowedRun(e, evs, scope) && NoneSpoiled(e, evs, scope)
  {
    hide Run, WithinLimits, Saves;
    if evs != [] {
      ClaudeAllowed(e, evs[..|evs| - 1], scope);
    }
  }

  /** For a Claude file no such proviso is needed. */
  lemma ClaudeDurableOffset(e: Env, evs: seq<Event>, p: Path, r: Row)
    requires BoundedRun(e, evs) && e.kind(p).ClaudeKind? && p in Run(e, evs).w.saved
    ensures SavedIsDurable(e, Run(e, evs), p, r)
  {
    hide Run, SavedIsDurable, AllowedRun, BoundedRun;
    ClaudeAllowed(e, evs, Only(p));
    DurableOffset(e, evs, p, r);
  }

  /** Nothing is being read, nothing is waiting, and every complete line has been read. */
  ghost predicate Quiescent(x: World)
  {
    && x.tail.None? && x.w.pending == []
    && forall p :: p in x.files ==>
         p in x.w.checkpoints && x.w.checkpoints[p].offset <= |x.files[p]| &&
         Complete(x.files[p][x.w.checkpoints[p].offset..]) == []
  }

  /** A listing of every usage row in the files, in any order, with any repetition. */
  ghost predicate Lists(e: Env, files: map<Path, Data>, rows: seq<Row>)
  {
    forall r :: r in rows <==> RowOf(e, files, r)
  }

  lemma AllDelivered(e: Env, x: World, scope: Scope, p: Path, r: Row)
    requires Inv(e, x, scope) && Quiescent(x) && p in x.files && scope(p) && r in FileRows(e, p, Complete(x.files[p]))
    ensures r.key in x.w.lost || Covered(x.w.delivered, r)
  {
    hide FileRows, FileState, Complete, NoOversize, Suppressible, Rest;
    var off := x.w.checkpoints[p].offset;
    assert FileOK(e, p, x.files[p], x.w, x.w.checkpoints[p], off, scope(p));
    SplitAtBoundary(x.files[p], off);
    assert Complete(x.files[p]) == Complete(x.files[p][..off]);
    assert Good(x.w, r);
    assert x.w.delivered + x.w.pending == x.w.delivered;
  }

  /** No line of another file can stand for a row of this key. */
  ghost predicate Own(e: Env, scope: Scope, k: string)
  {
    forall p, st, l :: !scope(p) ==> !SaysKey(LineRow(e, p, st, l), k)
  }

  predicate SaysKey(row: Option<Row>, k: string)
  {
    row.Some? && row.value.key == k
  }

  lemma {:induction false} RowsAreOfLines(e: Env, p: Path, ls: seq<Data>, r: Row)
    requires r in FileRows(e, p, ls)
    ensures exists st, l :: LineRow(e, p, st, l) == Some(r)
  {
    hide LineRow;
    var n := |ls| - 1;
    if r in FileRows(e, p, ls[..n]) {
      RowsAreOfLines(e, p, ls[..n], r);
    } else {
      assert LineRow(e, p, FileState(e, p, ls[..n]), ls[n]) == Some(r);
    }
  }

  /** Exactly-once effect: after any allowed run that has come to rest, the hub holds for
      every key that was not given up what ingesting every row directly once gives; the
      whole record too when rows of one key agree on their other fields. The key may come
      from any of the files the run is allowed for, and from no other. */
  lemma {:induction false} ExactlyOnce(
      e: Env, evs: seq<Event>, scope: Scope, price: Row -> real, system: string, rows: seq<Row>, k: string)
    requires AllowedRun(e, evs, scope) && Quiescent(Run(e, evs))
    requires Lists(e, Run(e, evs).files, rows)
    requires k !in Run(e, evs).w.lost && Own(e, scope, k)
    ensures SameFor(price, system, Run(e, evs).w.delivered, rows, k)
  {
    RunKeeps(e, evs, scope);
    var x := Run(e, evs);
    DeliveredIsEnough(e, x, scope, price, system, rows, k);
  }

  /** Ingesting either list leaves the same under the key. */
  ghost predicate SameFor(price: Row -> real, system: string, sent: seq<Row>, rows: seq<Row>, k: string)
  {
    var hub, direct := IngestAll(price, system, map[], sent), IngestAll(price, system, map[], rows);
    && (k in hub <==> k in direct)
    && (k in hub ==> hub[k].row.output == direct[k].row.output)
    && (k in hub && Agree(rows) ==> hub[k] == direct[k])
  }

  /** For a key that is none of codex, only the limits are asked of the run. */
  lemma ClaudeExactlyOnce(
      e: Env, evs: seq<Event>, price: Row -> real, system: string, rows: seq<Row>, k: string)
    requires BoundedRun(e, evs) && Quiescent(Run(e, evs))
    requires Lists(e, Run(e, evs).files, rows)
    requires k !in Run(e, evs).w.lost && !CodexKey(k)
    ensures SameFor(price, system, Run(e, evs).w.delivered, rows, k)
  {
    ClaudeAllowed(e, evs, ClaudeFiles(e));
    CodexSaysCodexKeys(e, k);
    hide *;
    ExactlyOnce(e, evs, ClaudeFiles(e), price, system, rows, k);
  }

  ghost predicate CodexKey(k: string)
  {
    exists session, n :: k == Codex.Key(session, n)
  }

  lemma CodexSaysCodexKeys(e: Env, k: string)
    requires !CodexKey(k)
    ensures Own(e, ClaudeFiles(e), k)
  {
    hide TrimNL, Readable, Codex.Key;
  }

  lemma DeliveredIsEnough(e: Env, x: World, scope: Scope, price: Row -> real, system: string, rows: seq<Row>, k: string)
    requires Inv(e, x, scope) && Quiescent(x) && Lists(e, x.files, rows) && k !in x.w.lost && Own(e, scope, k)
    ensures SameFor(price, system, x.w.delivered, rows, k)
  {
    hide FileOK, SavedOK, Suppressible, NoOversize, FileRows, LineRow, Complete, IngestAll, Agree;
    var sent := OfKey(x.w.delivered, k);
    forall q | q in sent
      ensures q in rows
    {
      OfKeyIn(x.w.delivered, k, q);
      assert q in x.w.delivered + x.w.pending;
      NotStray(e, scope, q);
    }
    forall r | r in rows && r.key == k
      ensures Covered(sent, r)
    {
      assert RowOf(e, x.files, r);
      var p :| p in x.files && r in FileRows(e, p, Complete(x.files[p]));
      RowsAreOfLines(e, p, Complete(x.files[p]), r);
      var st, l :| LineRow(e, p, st, l) == Some(r);
      assert SaysKey(LineRow(e, p, st, l), k);
      AllDelivered(e, x, scope, p, r);
      var q :| q in x.w.delivered && q.key == r.key && q.output >= r.output;
      OfKeyIn(x.w.delivered, k, q);
    }
    SameTop(price, system, sent, rows, k);
    OnlyItsKey(price, system, x.w.delivered, k);
  }

  lemma NotStray(e: Env, scope: Scope, q: Row)
    requires Own(e, scope, q.key)
    ensures !Stray(e, scope, q)
  {
    hide LineRow;
    forall p, st, l | !scope(p) ensures LineRow(e, p, st, l) != Some(q) {
      assert !SaysKey(LineRow(e, p, st, l), q.key);
    }
  }

  function OfKey(rows: seq<Row>, k: string): seq<Row>
  {
    if rows == [] then []
    else OfKey(rows[..|rows| - 1], k) + if rows[|rows| - 1].key == k then [rows[|rows| - 1]] else []
  }

  lemma {:induction false} OfKeyIn(rows: seq<Row>, k: string, r: Row)
    ensures r in OfKey(rows, k) <==> r in rows && r.key == k
  {
    if rows != [] {
      var n := |rows| - 1;
      OfKeyIn(rows[..n], k, r);
      assert rows == rows[..n] + [rows[n]];
    }
  }

  /** What is stored under a key depends on the rows of that key only. */
  lemma {:induction false} OnlyItsKey(price: Row -> real, system: string, rows: seq<Row>, k: string)
    ensures var u, v := IngestAll(price, system, map[], rows), IngestAll(price, system, map[], OfKey(rows, k));
            (k in u <==> k in v) && (k in u ==> u[k] == v[k])
  {
    if rows != [] {
      var n := |rows| - 1;
      OnlyItsKey(price, system, rows[..n], k);
      var before := OfKey(rows[..n], k);
      assert (before + [rows[n]])[..|before|] == before && before + [] == before;
    }
  }

  lemma SameTop(price: Row -> real, system: string, sent: seq<Row>, rows: seq<Row>, k: string)
    requires forall q :: q in sent ==> q in rows
    requires forall r :: r in rows && r.key == k ==> Covered(sent, r)
    ensures SameFor(price, system, sent, rows, k)
  {
    hide IngestAll, Agree;
    SameOutput(price, system, sent, rows, k);
    if k in IngestAll(price, system, map[], sent) && Agree(rows) {
      SameRecord(price, system, sent, rows, k);
    }
  }

  lemma SameOutput(price: Row -> real, system: string, sent: seq<Row>, rows: seq<Row>, k: string)
    requires forall q :: q in sent ==> q in rows
    requires forall r :: r in rows && r.key == k ==> Covered(sent, r)
    ensures var hub := IngestAll(price, system, map[], sent);
            var direct := IngestAll(price, system, map[], rows);
            && (k in hub <==> k in direct)
            && (k in hub ==> hub[k].row.output == direct[k].row.output)
  {
    hide *;
    OutputAtMost(price, system, sent, rows, k);
    OutputAtLeast(price, system, sent, rows, k);
  }

  /** Ingesting fewer rows. */
  lemma OutputAtMost(price: Row -> real, system: string, sent: seq<Row>, rows: seq<Row>, k: string)
    requires forall q :: q in sent ==> q in rows
    ensures var hub := IngestAll(price, system, map[], sent);
            var direct := IngestAll(price, system, map[], rows);
            k in hub ==> k in direct && hub[k].row.output <= direct[k].row.output
  {
    hide IngestAll;
    var hub := IngestAll(price, system, map[], sent);
    IngestMax(price, system, map[], sent, k);
    if k in hub {
      var r :| r in sent && r.key == k && hub[k].row.output == r.output;
      assert r in rows;
      IngestMax(price, system, map[], rows, k);
    }
  }

  /** Ingesting rows that cover all. */
  lemma OutputAtLeast(price: Row -> real, system: string, sent: seq<Row>, rows: seq<Row>, k: string)
    requires forall r :: r in rows && r.key == k ==> Covered(sent, r)
    ensures var hub := IngestAll(price, system, map[], sent);
            var direct := IngestAll(price, system, map[], rows);
            k in direct ==> k in hub && direct[k].row.output <= hub[k].row.output
  {
    hide IngestAll;
    var direct := IngestAll(price, system, map[], rows);
    IngestMax(price, system, map[], rows, k);
    if k in direct {
      var r :| r in rows && r.key == k && direct[k].row.output == r.output;
      assert Covered(sent, r);
      IngestMax(price, system, map[], sent, k);
    }
  }

  lemma SameRecord(price: Row -> real, system: string, sent: seq<Row>, rows: seq<Row>, k: string)
    requires forall q :: q in sent ==> q in rows
    requires var hub := IngestAll(price, system, map[], sent);
             var direct := IngestAll(price, system, map[], rows);
             k in hub && k in direct && hub[k].row.output == direct[k].row.output
    requires Agree(rows)
    ensures IngestAll(price, system, map[], sent)[k] == IngestAll(price, system, map[], rows)[k]
  {
    hide IngestAll, Agree;
    var hub, direct := IngestAll(price, system, map[], sent), IngestAll(price, system, map[], rows);
    SubsetAgrees(sent, rows);
    IngestStoresARow(price, system, sent, k);
    IngestStoresARow(price, system, rows, k);
    SameRowStored(rows, hub[k].row, direct[k].row);
  }

  lemma SubsetAgrees(sent: seq<Row>, rows: seq<Row>)
    requires Agree(rows) && forall q :: q in sent ==> q in rows
    ensures Agree(sent)
  {
  }

  lemma SameRowStored(rows: seq<Row>, r: Row, s: Row)
    requires Agree(rows) && r in rows && s in rows && r.key == s.key && r.output == s.output
    ensures r == s
  {
    assert r.(output := s.output) == s;
  }

  /** A step spoils what a fitting checkpoint file says of p exactly when it is a line of p, a
      codex file, that fills the batch, whose emit is accepted and whose save succeeds. */
  lemma SpoiledByMidScanSaveIff(e: Env, x: World, ev: Event, p: Path)
    requires Inv(e, x, Only(p)) && SavedFits(e, x, p) && WithinLimits(e, x, ev)
    ensures !SavedFits(e, Next(e, x, ev), p) <==> MidScanSave(e, x, ev, p)
  {
    hide Inv, Next, WithinLimits, SavedFits, Saves, MidScanSave;
    MidScanIsSave(e, x, ev, p);
    if ev.Stop? && x.tail.None? {
      if Saves(e, x, ev) {
        StopFits(e, x, Only(p), p);
      } else {
        StopUnwritten(e, x, p);
      }
    }
    NextKeeps(e, x, Only(p), ev);
    SpoilStep(e, x, Only(p), ev, p);
    if ev.Stop? && x.tail.Some? {
      StopIdle(e, x);
    }
  }

  lemma StopIdle(e: Env, x: World)
    requires x.tail.Some?
    ensures !Saves(e, x, Stop)
  {
  }

  // ---- no key is ever given up in a calm run ----

  /** The backlog stays under its cap and a shutdown finds nothing pending. */
  ghost predicate Calm(e: Env, evs: seq<Event>)
  {
    evs == [] ||
    var n := |evs| - 1;
    var w := Run(e, evs[..n]).w;
    && Calm(e, evs[..n])
    && (evs[n].Stop? ==> w.pending == [])
    && |w.pending| < BACKLOG_CAP
  }

  lemma {:induction false} CalmGivesUpNothing(e: Env, evs: seq<Event>)
    requires Calm(e, evs)
    ensures Run(e, evs).w.lost == {}
  {
    if evs != [] {
      var n := |evs| - 1;
      CalmGivesUpNothing(e, evs[..n]);
      NextLost(e, Run(e, evs[..n]), evs[n]);
    }
  }

  lemma StepLost(e: Env, s: State, p: Path, l: Data)
    requires p in s.checkpoints && |s.pending| < BACKLOG_CAP
    ensures Step(e, s, p, l).lost == s.lost
  {
    hide TrimNL, Readable;
  }

  lemma NextLost(e: Env, x: World, ev: Event)
    requires |x.w.pending| < BACKLOG_CAP
    requires ev.Stop? ==> x.w.pending == []
    ensures Next(e, x, ev).w.lost == x.w.lost
  {
    hide TrimNL, Readable, NewlineAt, Step;
    match ev {
      case Line => if x.tail.Some? && LineReady(x) { StepLost(e, x.w, x.tail.value.path, NextRead(x)); }
      case _ =>
    }
  }

  /** With nothing given up and rows that agree, the hub's table is that of direct ingestion, for
      the keys of the files the run is allowed for; for all of them it is the same table. */
  lemma {:induction false} ExactlyOnceTable(
      e: Env, evs: seq<Event>, scope: Scope, price: Row -> real, system: string, rows: seq<Row>)
    requires AllowedRun(e, evs, scope) && Calm(e, evs) && Quiescent(Run(e, evs))
    requires Lists(e, Run(e, evs).files, rows) && Agree(rows)
    ensures var hub := IngestAll(price, system, map[], Run(e, evs).w.delivered);
            var direct := IngestAll(price, system, map[], rows);
            && (forall k :: Own(e, scope, k) ==> (k in hub <==> k in direct) && (k in hub ==> hub[k] == direct[k]))
            && ((forall p :: scope(p)) ==> hub == direct)
  {
    var hub := IngestAll(price, system, map[], Run(e, evs).w.delivered);
    var direct := IngestAll(price, system, map[], rows);
    CalmGivesUpNothing(e, evs);
    hide AllowedRun, Calm, Quiescent, Lists, Agree, Run, IngestAll, LineRow;
    forall k | Own(e, scope, k)
      ensures k in hub <==> k in direct
      ensures k in hub ==> hub[k] == direct[k]
    {
      ExactlyOnce(e, evs, scope, price, system, rows, k);
    }
    if forall p :: scope(p) {
      assert forall k :: Own(e, scope, k);
    }
  }
}
