/** What a shutdown loses, exactly: it saves the offsets of everything read and sends nothing. */
module TokenShutdown {
  import opened Wrappers
  import opened Lines
  import opened TokenStore
  import opened TokenWatch
  import opened TokenPipeline
  import Codex

  /** The row stands in a file, before the position up to which the file has been read. */
  ghost predicate ReadRow(e: Env, x: World, r: Row)
  {
    exists p :: ReadIn(e, x, r, p)
  }

  ghost predicate ReadIn(e: Env, x: World, r: Row, p: Path)
  {
    && p in x.w.checkpoints && p in x.files && ReadPos(x, p) <= |x.files[p]|
    && r in FileRows(e, p, Complete(x.files[p][..ReadPos(x, p)]))
  }

  ghost predicate PendingRead(e: Env, x: World)
  {
    forall q :: q in x.w.pending ==> ReadRow(e, x, q)
  }

  /** Nothing that had been read before p's position is forgotten or changed. */
  ghost predicate ReadsOn(x: World, y: World, p: Path)
    requires p in x.w.checkpoints && p in x.files
  {
    && p in y.w.checkpoints && p in y.files
    && ReadPos(x, p) <= ReadPos(y, p) <= |y.files[p]| && ReadPos(x, p) <= |x.files[p]|
    && y.files[p][..ReadPos(x, p)] == x.files[p][..ReadPos(x, p)]
    && Boundary(y.files[p], ReadPos(x, p)) && Boundary(y.files[p], ReadPos(y, p))
  }

  lemma StillRead(e: Env, x: World, y: World, r: Row, p: Path)
    requires ReadIn(e, x, r, p) && ReadsOn(x, y, p)
    ensures ReadIn(e, y, r, p)
  {
    hide Complete, FileRows, Boundary;
    RowsBelow(e, p, y.files[p], ReadPos(x, p), ReadPos(y, p), r);
  }

  lemma PositionOk(e: Env, x: World, p: Path)
    requires Inv(e, x, All) && p in x.w.checkpoints
    ensures p in x.files && Boundary(x.files[p], ReadPos(x, p)) && ReadPos(x, p) <= |x.files[p]|
    ensures Boundary(x.files[p], x.w.checkpoints[p].offset) && x.w.checkpoints[p].offset <= ReadPos(x, p)
  {
    hide Complete, FileRows, FileState, NoOversize;
    assert FileOK(e, p, x.files[p], x.w, x.w.checkpoints[p], ReadPos(x, p), All(p));
  }

  lemma AppendReadsOn(e: Env, x: World, q: Path, b: Data, p: Path)
    requires Inv(e, x, All) && Inv(e, Next(e, x, Append(q, b)), All) && p in x.w.checkpoints
    ensures p in x.files && ReadsOn(x, Next(e, x, Append(q, b)), p)
  {
    hide Inv, Boundary;
    var y := Next(e, x, Append(q, b));
    PositionOk(e, x, p);
    PositionOk(e, y, p);
    assert x.files[p] <= y.files[p];
    assert Boundary(y.files[p], ReadPos(x, p)) by {
      assert ReadPos(x, p) == ReadPos(y, p);
    }
  }

  lemma BeginReadsOn(e: Env, x: World, q: Path, openable: bool, p: Path)
    requires Inv(e, x, All) && Inv(e, Next(e, x, Begin(q, openable)), All) && p in x.w.checkpoints
    ensures p in x.files && ReadsOn(x, Next(e, x, Begin(q, openable)), p)
  {
    PositionOk(e, x, p);
    BeginPosition(e, x, q, openable, p);
    var y := Next(e, x, Begin(q, openable));
    hide Inv, Boundary, Next;
    PositionOk(e, y, p);
  }

  lemma BeginPosition(e: Env, x: World, q: Path, openable: bool, p: Path)
    requires p in x.w.checkpoints && p in x.files && x.w.checkpoints[p].offset <= |x.files[p]|
    ensures var y := Next(e, x, Begin(q, openable)); y.files == x.files && p in y.w.checkpoints && ReadPos(y, p) == ReadPos(x, p)
  {
  }

  lemma FinishReadsOn(e: Env, x: World, p: Path)
    requires Inv(e, x, All) && Inv(e, Next(e, x, Finish), All) && p in x.w.checkpoints
    ensures p in x.files && ReadsOn(x, Next(e, x, Finish), p)
  {
    PositionOk(e, x, p);
    var y := Next(e, x, Finish);
    assert p in y.w.checkpoints;
    PositionOk(e, y, p);
    FinishPosition(e, x, p);
    hide Inv, Boundary, Next;
  }

  lemma FinishPosition(e: Env, x: World, p: Path)
    requires Inv(e, x, All) && p in x.w.checkpoints
    ensures var y := Next(e, x, Finish); y.files == x.files && p in y.w.checkpoints && ReadPos(y, p) == ReadPos(x, p)
  {
    hide FileOK, SavedOK, Suppressible, NoOversize, Complete;
  }

  lemma LinePosition(e: Env, x: World, i: nat)
    requires x.tail.Some? && LineReady(x) && x.tail.value.offset == x.tail.value.pos
    requires i == NewlineAt(x.files[x.tail.value.path][x.tail.value.pos..]) && |Readable(NextRead(x))| == i + 1
    ensures var y := Next(e, x, Line);
            && y.files == x.files && y.w.checkpoints.Keys == x.w.checkpoints.Keys
            && y.w == Step(e, x.w, x.tail.value.path, NextRead(x))
            && ReadPos(y, x.tail.value.path) == x.tail.value.pos + i + 1
  {
    hide Step, NewlineAt, Readable, Next;
    LineNext(e, x, i);
  }

  lemma OtherPosition(e: Env, x: World, p: Path)
    requires x.tail.Some? && LineReady(x) && p in x.w.checkpoints && p != x.tail.value.path
    ensures var y := Next(e, x, Line); p in y.w.checkpoints && ReadPos(y, p) == ReadPos(x, p) && y.files == x.files
  {
    hide TrimNL, Readable, NewlineAt;
  }

  /** What the invariant says about the file under the cursor. */
  lemma CursorState(e: Env, x: World)
    requires Inv(e, x, All) && x.tail.Some? && LineReady(x)
    ensures var c := x.tail.value;
            && Boundary(x.files[c.path], c.pos) && NoOversize(Complete(x.files[c.path])) && c.offset == c.pos
            && (e.kind(c.path).CodexKind? ==> Counters(x.w.checkpoints[c.path]) == FileState(e, c.path, Complete(x.files[c.path][..c.pos])))
  {
    hide FileRows, FileState, Complete, NoOversize, Good, Suppressible, NewlineAt;
    var p := x.tail.value.path;
    assert FileOK(e, p, x.files[p], x.w, x.w.checkpoints[p], ReadPos(x, p), All(p));
  }

  /** A line queues nothing but its own row. */
  lemma StepPending(e: Env, s: State, p: Path, l: Data, st: Codex.State)
    requires p in s.checkpoints && (e.kind(p).CodexKind? ==> Counters(s.checkpoints[p]) == st)
    ensures forall q :: q in Step(e, s, p, l).pending ==> q in s.pending || LineRow(e, p, st, l) == Some(q)
  {
    hide TrimNL, Readable;
  }

  lemma LineReadsOn(e: Env, x: World, p: Path)
    requires Inv(e, x, All) && Inv(e, Next(e, x, Line), All) && p in x.w.checkpoints
    ensures p in x.files && ReadsOn(x, Next(e, x, Line), p)
  {
    PositionOk(e, x, p);
    if x.tail.Some? && LineReady(x) {
      var y := Next(e, x, Line);
      if p == x.tail.value.path {
        var c := x.tail.value;
        var i := NewlineAt(x.files[p][c.pos..]);
        CursorState(e, x);
        LineInFile(e, p, x.files[p], c.pos, i);
        LinePosition(e, x, i);
        hide *;
        PositionOk(e, y, p);
        MovedOn(x, y, p, i);
      } else {
        OtherPosition(e, x, p);
        hide Inv, Next, Boundary;
        PositionOk(e, y, p);
      }
    }
  }

  lemma MovedOn(x: World, y: World, p: Path, i: nat)
    requires p in x.w.checkpoints && p in x.files && p in y.w.checkpoints && y.files == x.files
    requires ReadPos(y, p) == ReadPos(x, p) + i + 1 <= |y.files[p]|
    requires Boundary(x.files[p], ReadPos(x, p)) && Boundary(y.files[p], ReadPos(y, p))
    ensures ReadsOn(x, y, p)
  {
    hide Boundary;
  }

  /** ... and that row is read afterwards. */
  lemma LineRowRead(e: Env, x: World)
    requires Inv(e, x, All) && Inv(e, Next(e, x, Line), All) && x.tail.Some? && LineReady(x)
    ensures var y := Next(e, x, Line);
            forall q :: q in y.w.pending ==> q in x.w.pending || ReadRow(e, y, q)
  {
    hide *;
    var c, y := x.tail.value, Next(e, x, Line);
    var p := c.path;
    UnderCursor(x);
    var content, l := x.files[p], NextRead(x);
    var i := NewlineAt(content[c.pos..]);
    CursorState(e, x);
    LineInFile(e, p, content, c.pos, i);
    LinePosition(e, x, i);
    PositionOk(e, y, p);
    var st := FileState(e, p, Complete(content[..c.pos]));
    StepPending(e, x.w, p, l, st);
    var row := LineRow(e, p, st, l);
    if row.Some? {
      RowIsRead(e, y, p, c.pos + i + 1, row.value);
    }
  }

  lemma UnderCursor(x: World)
    requires x.tail.Some? && LineReady(x)
    ensures var c := x.tail.value;
            && c.path in x.files && c.path in x.w.checkpoints && c.pos <= |x.files[c.path]|
            && NewlineAt(x.files[c.path][c.pos..]) < |x.files[c.path][c.pos..]|
            && NextRead(x) == x.files[c.path][c.pos..][..NewlineAt(x.files[c.path][c.pos..])]
  {
  }

  lemma RowIsRead(e: Env, y: World, p: Path, n: nat, r: Row)
    requires p in y.w.checkpoints && p in y.files && ReadPos(y, p) == n <= |y.files[p]|
    requires r in FileRows(e, p, Complete(y.files[p][..n]))
    ensures ReadRow(e, y, r)
  {
    hide FileRows, Complete;
    assert ReadIn(e, y, r, p);
  }

  lemma FlushPending(e: Env, s: State)
    ensures forall q :: q in Flush(e, s).pending ==> q in s.pending
  {
  }

  lemma NextPending(e: Env, x: World, ev: Event)
    requires Inv(e, x, All) && Inv(e, Next(e, x, ev), All) && PendingRead(e, x)
    ensures PendingRead(e, Next(e, x, ev))
  {
    var y := Next(e, x, ev);
    match ev {
      case Append(q, b) =>
        forall p | p in x.w.checkpoints ensures p in x.files && ReadsOn(x, y, p) { AppendReadsOn(e, x, q, b, p); }
        PendingReadsOn(e, x, y);
      case Begin(q, openable) =>
        forall p | p in x.w.checkpoints ensures p in x.files && ReadsOn(x, y, p) { BeginReadsOn(e, x, q, openable, p); }
        PendingReadsOn(e, x, y);
      case Line =>
        if x.tail.Some? && LineReady(x) {
          hide Next, Inv, Complete, FileRows, NewlineAt, ReadsOn, ReadIn;
          forall p | p in x.w.checkpoints ensures p in x.files && ReadsOn(x, y, p) { LineReadsOn(e, x, p); }
          LineRowRead(e, x);
          forall q | q in y.w.pending ensures ReadRow(e, y, q) {
            if q in x.w.pending {
              RowReadsOn(e, x, y, q);
            }
          }
        }
      case Finish =>
        forall p | p in x.w.checkpoints ensures p in x.files && ReadsOn(x, y, p) { FinishReadsOn(e, x, p); }
        PendingReadsOn(e, x, y);
      case Tick =>
        FlushPending(e, x.w);
        TickPosition(e, x);
      case Crash =>
      case Stop =>
    }
  }

  lemma TickPosition(e: Env, x: World)
    ensures var y := Next(e, x, Tick); forall r :: ReadRow(e, x, r) ==> ReadRow(e, y, r)
  {
    hide FileRows, Complete;
    var y := Next(e, x, Tick);
    forall r | ReadRow(e, x, r) ensures ReadRow(e, y, r) {
      var p :| ReadIn(e, x, r, p);
      assert ReadIn(e, y, r, p);
    }
  }

  lemma RowReadsOn(e: Env, x: World, y: World, r: Row)
    requires forall p :: p in x.w.checkpoints ==> p in x.files && ReadsOn(x, y, p)
    requires ReadRow(e, x, r)
    ensures ReadRow(e, y, r)
  {
    hide ReadsOn, FileRows, Complete;
    var p :| ReadIn(e, x, r, p);
    StillRead(e, x, y, r, p);
  }

  lemma PendingReadsOn(e: Env, x: World, y: World)
    requires forall p :: p in x.w.checkpoints ==> p in x.files && ReadsOn(x, y, p)
    requires PendingRead(e, x) && y.w.pending == x.w.pending
    ensures PendingRead(e, y)
  {
    hide ReadsOn, ReadRow;
    forall q | q in y.w.pending ensures ReadRow(e, y, q) {
      RowReadsOn(e, x, y, q);
    }
  }

  lemma {:induction false} RunPending(e: Env, evs: seq<Event>)
    requires AllowedRun(e, evs, All)
    ensures PendingRead(e, Run(e, evs))
  {
    if evs != [] {
      var n := |evs| - 1;
      hide Next, Inv, PendingRead;
      RunPending(e, evs[..n]);
      RunKeeps(e, evs[..n], All);
      RunKeeps(e, evs, All);
      NextPending(e, Run(e, evs[..n]), evs[n]);
    }
  }

  // ---- the shutdown ----

  /** Everything before the saved offsets is in the hub, keys in `lost` excepted. */
  ghost predicate SavedCovered(e: Env, x: World, lost: set<string>)
  {
    forall p, r :: p in x.w.saved && p in x.files && x.w.saved[p].offset <= |x.files[p]|
                   && r in FileRows(e, p, Complete(x.files[p][..x.w.saved[p].offset]))
                   ==> r.key in lost || Covered(x.w.delivered, r)
  }

  /** A shutdown that saves loses nothing more than was given up before exactly when every row it
      finds pending is in the hub already, under its key and with at least its output. */
  lemma ShutdownKeepsIff(e: Env, evs: seq<Event>)
    requires AllowedRun(e, evs, All) && Run(e, evs).tail.None? && e.answers(Run(e, evs).w.attempts).written
    ensures var x := Run(e, evs);
            SavedCovered(e, Next(e, x, Stop), x.w.lost) <==> forall q :: q in x.w.pending ==> Durable(x.w, q)
  {
    hide *;
    var x := Run(e, evs);
    RunKeeps(e, evs, All);
    RunPending(e, evs);
    StopSaves(e, x);
    var y := Next(e, x, Stop);
    if forall q :: q in x.w.pending ==> Durable(x.w, q) {
      AllCovered(e, x, y);
    }
    if SavedCovered(e, y, x.w.lost) {
      forall q | q in x.w.pending ensures Durable(x.w, q) {
        PendingCovered(e, x, y, q);
      }
    }
  }

  lemma StopSaves(e: Env, x: World)
    requires x.tail.None? && e.answers(x.w.attempts).written
    ensures var y := Next(e, x, Stop); y.w.saved == x.w.checkpoints && y.files == x.files && y.w.delivered == x.w.delivered
  {
  }

  lemma AllCovered(e: Env, x: World, y: World)
    requires Inv(e, x, All) && x.tail.None? && y.w.saved == x.w.checkpoints && y.files == x.files && y.w.delivered == x.w.delivered
    requires forall q :: q in x.w.pending ==> Durable(x.w, q)
    ensures SavedCovered(e, y, x.w.lost)
  {
    hide Inv, FileRows, Complete, Covered, Good;
    forall p, r | p in y.w.saved && p in y.files && y.w.saved[p].offset <= |y.files[p]|
                  && r in FileRows(e, p, Complete(y.files[p][..y.w.saved[p].offset]))
      ensures r.key in x.w.lost || Covered(y.w.delivered, r)
    {
      ReadIsGood(e, x, p, r);
      GoodIsDurable(x.w, r);
    }
  }

  lemma PendingCovered(e: Env, x: World, y: World, q: Row)
    requires x.tail.None? && y.w.saved == x.w.checkpoints && y.files == x.files && y.w.delivered == x.w.delivered
    requires PendingRead(e, x) && q in x.w.pending && SavedCovered(e, y, x.w.lost)
    ensures Durable(x.w, q)
  {
    hide FileRows, Complete, Covered;
    assert ReadRow(e, x, q);
    var p :| ReadIn(e, x, q, p);
    assert p in y.w.saved && p in y.files && y.w.saved[p].offset == ReadPos(x, p);
  }

  lemma ReadIsGood(e: Env, x: World, p: Path, r: Row)
    requires Inv(e, x, All) && x.tail.None? && p in x.w.checkpoints && p in x.files
    requires x.w.checkpoints[p].offset <= |x.files[p]| && r in FileRows(e, p, Complete(x.files[p][..x.w.checkpoints[p].offset]))
    ensures Good(x.w, r)
  {
    hide FileRows, FileState, Complete, NoOversize, Suppressible;
    assert FileOK(e, p, x.files[p], x.w, x.w.checkpoints[p], ReadPos(x, p), All(p));
  }

  lemma GoodIsDurable(s: State, r: Row)
    requires Good(s, r) && forall q :: q in s.pending ==> Durable(s, q)
    ensures Durable(s, r)
  {
    if r.key !in s.lost {
      var q :| q in s.delivered + s.pending && q.key == r.key && q.output >= r.output;
      if q in s.pending {
        var o :| o in s.delivered && o.key == q.key && o.output >= q.output;
      }
    }
  }
}
