/** What one scan of one transcript queues, and what a scan does with a transcript that was
    rewritten shorter (agent/internal/tokenwatch/watcher.go). */
module TokenScans {

  import opened Wrappers
  import opened Lines
  import opened TokenStore
  import opened TokenWatch
  import opened TokenPipeline
  import opened IncrementalTail
  import Codex

  // ---- lines ----

  /** A line is taken without the line ends it ends with, all of them and nothing else. */
  lemma {:induction false} TrimmedIs(b: Data)
    ensures var r := TrimNL(b);
            && r <= b && (forall i :: |r| <= i < |b| ==> b[i] == NL || b[i] == CR)
            && (r != [] ==> r[|r| - 1] != NL && r[|r| - 1] != CR)
  {
    if b != [] && (b[|b| - 1] == NL || b[|b| - 1] == CR) {
      TrimmedIs(b[..|b| - 1]);
    }
  }

  // ---- a transcript that was rewritten ----

  /** A codex checkpoint has counters and a claude one has none. */
  predicate KindOk(e: Env, p: Path, cp: Checkpoint)
  {
    cp.codex.Some? <==> e.kind(p).CodexKind?
  }

  predicate KindsOk(e: Env, s: State)
  {
    && (forall p :: p in s.checkpoints ==> KindOk(e, p, s.checkpoints[p]))
    && (forall p :: p in s.saved ==> KindOk(e, p, s.saved[p]))
  }

  function Forget(s: State, p: Path): State
  {
    s.(checkpoints := s.checkpoints - {p})
  }

  /** A checkpoint that reads the file from its start. */
  function FromStart(e: Env, p: Path): Checkpoint
  {
    Checkpoint(0, if e.kind(p).CodexKind? then Some(Codex.FRESH) else None)
  }

  /** A file shorter than its offset is opened like one never seen before, unless it is so large
      that a file never seen before would be followed from its end only. */
  lemma OpenRewrittenIff(e: Env, s: State, p: Path, size: nat)
    requires p in s.checkpoints && KindOk(e, p, s.checkpoints[p]) && size < s.checkpoints[p].offset
    ensures Open(e, s, p, size).checkpoints[p] == FromStart(e, p)
    ensures Open(e, s, p, size) == Open(e, Forget(s, p), p, size) <==> size <= MAX_BACKFILL
  {
    var a, b := Open(e, s, p, size), Open(e, Forget(s, p), p, size);
    if size <= MAX_BACKFILL {
      assert a.checkpoints == b.checkpoints;
    } else {
      assert a.checkpoints[p].offset == 0 && b.checkpoints[p].offset == size;
    }
  }

  /** Scanning it then leaves whatever scanning a new file with these bytes would leave. */
  lemma RewrittenIsNew(e: Env, s: State, p: Path, content: Data, openable: bool)
    requires p in s.checkpoints && KindOk(e, p, s.checkpoints[p]) && |content| < s.checkpoints[p].offset && |content| <= MAX_BACKFILL
    ensures TailFile(e, s, p, content, openable) == TailFile(e, Forget(s, p), p, content, openable)
  {
    OpenRewrittenIff(e, s, p, |content|);
    hide Open, ConsumeAll, Complete, Advance;
  }

  /** It reads every complete line of the file, from fresh counters, and the offset ends at the
      last line boundary exactly when no line is oversize. */
  lemma RewrittenIsReadFromStart(e: Env, s: State, p: Path, content: Data)
    requires p in s.checkpoints && KindOk(e, p, s.checkpoints[p]) && |content| < s.checkpoints[p].offset
    ensures var u := s.(checkpoints := s.checkpoints[p := FromStart(e, p)]);
            var t := TailFile(e, s, p, content, true);
            && t == SetOffset(ConsumeAll(e, u, p, Complete(content)), p, t.checkpoints[p].offset)
            && t.checkpoints[p].offset <= |content| - |Rest(content)|
            && (t.checkpoints[p].offset == |content| - |Rest(content)| <==> NoOversize(Complete(content)))
  {
    OpenRewrittenIff(e, s, p, |content|);
    TailIsConsume(e, s, p, content);
    OffsetAtLineEndIff(e, s, p, content);
    assert content[0..] == content;
    hide ConsumeAll, Complete, Advance, TailFile, Rest, NoOversize, Unlines;
  }

  /** A scan of any file keeps the kinds, and so does everything else the watcher does. */
  lemma OpenKinds(e: Env, s: State, p: Path, size: nat)
    requires KindsOk(e, s)
    ensures KindsOk(e, Open(e, s, p, size))
  {
  }

  lemma FlushKinds(e: Env, s: State)
    requires KindsOk(e, s)
    ensures KindsOk(e, Flush(e, s))
  {
  }

  lemma StepKinds(e: Env, s: State, p: Path, l: Data)
    requires KindsOk(e, s) && p in s.checkpoints
    ensures KindsOk(e, Step(e, s, p, l))
  {
    hide TrimNL, Readable;
    var line := TrimNL(Readable(l));
    if line != [] && e.kind(p).ClaudeKind? && e.claude(line).Some? {
      var row := e.claude(line).value;
      QueueKinds(e, s.(lastOutput := s.lastOutput[row.key := row.output]), row.(app := e.resolve(e.claudeCwd(line))));
    } else if line != [] && e.kind(p).CodexKind? {
      var cp := s.checkpoints[p];
      var (st, row) := Codex.Parse(Counters(cp), e.codex(line));
      var t := s.(checkpoints := s.checkpoints[p := cp.(codex := Some(st))]);
      assert KindsOk(e, t);
      if row.Some? {
        QueueKinds(e, t, row.value.(app := e.resolve(st.cwd)));
      }
    }
  }

  lemma QueueKinds(e: Env, s: State, row: Row)
    requires KindsOk(e, s)
    ensures KindsOk(e, Queue(e, s, row))
  {
    FlushKinds(e, s.(pending := s.pending + [row]));
  }

  /** In every run the watcher's and the saved checkpoints are of their files' kinds. */
  lemma {:induction false} RunKinds(e: Env, evs: seq<Event>)
    ensures KindsOk(e, Run(e, evs).w)
  {
    if evs != [] {
      var n := |evs| - 1;
      RunKinds(e, evs[..n]);
      NextKinds(e, Run(e, evs[..n]), evs[n]);
    }
  }

  lemma NextKinds(e: Env, x: World, ev: Event)
    requires KindsOk(e, x.w)
    ensures KindsOk(e, Next(e, x, ev).w)
  {
    hide Step, Open, Flush, KindOk;
    match ev
    case Begin(p, _) =>
      if p in x.files {
        OpenKinds(e, x.w, p, |x.files[p]|);
      }
    case Line =>
      if x.tail.Some? && LineReady(x) {
        StepKinds(e, x.w, x.tail.value.path, NextRead(x));
      }
    case Finish =>
      if x.tail.Some? && x.tail.value.path in x.w.checkpoints {
        OffsetKinds(e, x.w, x.tail.value.path, x.tail.value.offset);
      }
    case Tick => FlushKinds(e, x.w);
    case _ =>
  }

  lemma OffsetKinds(e: Env, s: State, p: Path, n: nat)
    requires KindsOk(e, s) && p in s.checkpoints
    ensures KindsOk(e, SetOffset(s, p, n))
  {
  }

  // ---- flushes ----

  /** Rows handed to the hub so far and rows waiting, in the order they were queued. */
  function Sent(s: State): seq<Row>
  {
    s.delivered + s.pending
  }

  /** A flush that is turned down with more rows waiting than the cap allows. */
  predicate Overflows(e: Env, s: State)
  {
    !e.answers(s.attempts).accepted && |s.pending| > BACKLOG_CAP
  }

  /** A flush sends nothing twice and out of order: it gives up the oldest waiting rows if there
      are too many, and no more of them than that. It forgets what it has seen only after an
      accepted batch, once it remembers too much. */
  lemma FlushConserves(e: Env, s: State)
    ensures var f := Flush(e, s);
            && (!Overflows(e, s) ==> Sent(f) == Sent(s) && f.lost == s.lost)
            && (Overflows(e, s) ==>
                  && f.delivered == s.delivered && |f.pending| == BACKLOG_CAP
                  && exists given :: given + f.pending == s.pending && f.lost == s.lost + Keys(given))
            && (f.pending == [] <==> s.pending == [] || e.answers(s.attempts).accepted)
            && (f.pending != [] ==> f.delivered == s.delivered)
            && f.lastOutput == (if s.pending != [] && f.pending == [] && |s.lastOutput| > 50_000 then map[] else s.lastOutput)
            && (f.saved == if e.answers(s.attempts).written && f.pending == [] then s.checkpoints else s.saved)
            && f.attempts == s.attempts + 1 && f.unparsed == s.unparsed
  {
    if Overflows(e, s) {
      var over := |s.pending| - BACKLOG_CAP;
      assert s.pending[..over] + Flush(e, s).pending == s.pending;
    }
  }

  // ---- the backlog ----

  predicate Bounded(s: State)
  {
    |s.pending| <= BACKLOG_CAP
  }

  lemma QueueBounded(e: Env, s: State, row: Row)
    requires Bounded(s)
    ensures Bounded(Queue(e, s, row))
  {
    FlushConserves(e, s.(pending := s.pending + [row]));
  }

  lemma StepBounded(e: Env, s: State, p: Path, l: Data)
    requires p in s.checkpoints && Bounded(s)
    ensures Bounded(Step(e, s, p, l))
  {
    hide TrimNL, Readable, Queue;
    var line := TrimNL(Readable(l));
    if line != [] && e.kind(p).ClaudeKind? && e.claude(line).Some? {
      var row := e.claude(line).value;
      QueueBounded(e, s.(lastOutput := s.lastOutput[row.key := row.output]), row.(app := e.resolve(e.claudeCwd(line))));
    } else if line != [] && e.kind(p).CodexKind? {
      var cp := s.checkpoints[p];
      var (st, row) := Codex.Parse(Counters(cp), e.codex(line));
      if row.Some? {
        QueueBounded(e, s.(checkpoints := s.checkpoints[p := cp.(codex := Some(st))]), row.value.(app := e.resolve(st.cwd)));
      }
    }
  }

  /** However long the hub stays away, no more than 10,000 rows ever wait. */
  lemma {:induction false} BacklogIsBounded(e: Env, evs: seq<Event>)
    ensures |Run(e, evs).w.pending| <= 10_000
  {
    if evs != [] {
      var n := |evs| - 1;
      BacklogIsBounded(e, evs[..n]);
      NextBounded(e, Run(e, evs[..n]), evs[n]);
    }
  }

  lemma FlushBounded(e: Env, s: State)
    requires Bounded(s)
    ensures Bounded(Flush(e, s))
  {
    FlushConserves(e, s);
    hide Flush;
  }

  lemma NextBounded(e: Env, x: World, ev: Event)
    requires Bounded(x.w)
    ensures Bounded(Next(e, x, ev).w)
  {
    hide Step, Flush;
    match ev
    case Line =>
      if x.tail.Some? && LineReady(x) {
        StepBounded(e, x.w, x.tail.value.path, NextRead(x));
      }
    case Tick => FlushBounded(e, x.w);
    case _ =>
  }

  // ---- the rows of a scan ----

  /** No batch of the next n is turned down, or there is room for n more rows. */
  predicate Room(e: Env, s: State, n: nat)
  {
    |s.pending| + n <= BACKLOG_CAP || forall i :: s.attempts <= i < s.attempts + n ==> e.answers(i).accepted
  }

  /** Queuing one row with room for it. */
  lemma QueueConserves(e: Env, s: State, row: Row)
    requires Room(e, s, 1)
    ensures var t := Queue(e, s, row);
            && Sent(t) == Sent(s) + [row] && t.lost == s.lost && t.unparsed == s.unparsed && t.checkpoints == s.checkpoints
            && s.attempts <= t.attempts <= s.attempts + 1 && |t.pending| <= |s.pending| + 1
            && (t.lastOutput == s.lastOutput || |s.lastOutput| > DEDUP_CAP)
  {
    var u := s.(pending := s.pending + [row]);
    assert Sent(u) == Sent(s) + [row];
    FlushConserves(e, u);
    hide Flush;
  }

  lemma RoomLeft(e: Env, s: State, t: State, k: nat, n: nat)
    requires Room(e, s, k + n) && s.attempts <= t.attempts <= s.attempts + k && |t.pending| <= |s.pending| + k
    ensures Room(e, t, n)
  {
  }

  /** Lines that are neither empty nor usage nor JSON. */
  function Unreadable(e: Env, p: Path, ls: seq<Data>): nat
  {
    if ls == [] then 0
    else
      var before, line := ls[..|ls| - 1], TrimNL(Readable(ls[|ls| - 1]));
      Unreadable(e, p, before)
      + if line != [] && LineRow(e, p, FileState(e, p, before), ls[|ls| - 1]).None? && !e.validJSON(line) then 1 else 0
  }

  /** A codex line queues its row, whatever is in the watcher's other fields. */
  lemma CodexStep(e: Env, s: State, p: Path, l: Data, st: Codex.State)
    requires p in s.checkpoints && e.kind(p).CodexKind? && Counters(s.checkpoints[p]) == st
    requires LineRow(e, p, st, l).Some? ==> Room(e, s, 1)
    ensures var t := Step(e, s, p, l);
            var row := LineRow(e, p, st, l);
            var n := if row.Some? then 1 else 0;
            var line := TrimNL(Readable(l));
            && Counters(t.checkpoints[p]) == LineState(e, p, st, l)
            && Sent(t) == Sent(s) + (if row.Some? then [row.value] else []) && t.lost == s.lost
            && s.attempts <= t.attempts <= s.attempts + n && |t.pending| <= |s.pending| + n
            && t.unparsed == s.unparsed + (if line != [] && row.None? && !e.validJSON(line) then 1 else 0)
  {
    hide TrimNL, Readable, Queue;
    var line := TrimNL(Readable(l));
    if line != [] {
      var cp := s.checkpoints[p];
      var (st', row) := Codex.Parse(Counters(cp), e.codex(line));
      var u := s.(checkpoints := s.checkpoints[p := cp.(codex := Some(st'))]);
      if row.Some? {
        QueueConserves(e, u, row.value.(app := e.resolve(st'.cwd)));
      }
    }
  }

  lemma ConsumeOneMore(e: Env, s: State, p: Path, ls: seq<Data>)
    requires p in s.checkpoints && ls != []
    ensures var n := |ls| - 1; ConsumeAll(e, s, p, ls) == Step(e, ConsumeAll(e, s, p, ls[..n]), p, ls[n])
  {
    hide Step;
    var n := |ls| - 1;
    assert ls == ls[..n] + [ls[n]];
    ConsumeAppend(e, s, p, ls[..n], [ls[n]]);
    assert [ls[n]][1..] == [];
  }

  /** Reading lines of a codex file from fresh counters queues the rows of that file, each once, in
      order, behind whatever was queued before, and counts the lines it cannot read. */
  lemma {:induction false} CodexScan(e: Env, s: State, p: Path, ls: seq<Data>)
    requires p in s.checkpoints && e.kind(p).CodexKind? && Counters(s.checkpoints[p]) == Codex.FRESH
    requires Room(e, s, |FileRows(e, p, ls)|)
    ensures var t, n := ConsumeAll(e, s, p, ls), |FileRows(e, p, ls)|;
            && Counters(t.checkpoints[p]) == FileState(e, p, ls)
            && Sent(t) == Sent(s) + FileRows(e, p, ls) && t.lost == s.lost
            && s.attempts <= t.attempts <= s.attempts + n && |t.pending| <= |s.pending| + n
            && t.unparsed == s.unparsed + Unreadable(e, p, ls)
  {
    hide Step, LineRow, LineState, Room, TrimNL, Readable;
    if ls == [] {
      assert Sent(s) + [] == Sent(s);
    } else {
      var n := |ls| - 1;
      var k := |FileRows(e, p, ls[..n])|;
      var u := ConsumeAll(e, s, p, ls[..n]);
      var row := LineRow(e, p, FileState(e, p, ls[..n]), ls[n]);
      RoomFor(e, s, k, |FileRows(e, p, ls)| - k);
      CodexScan(e, s, p, ls[..n]);
      RoomLeft(e, s, u, k, |FileRows(e, p, ls)| - k);
      ConsumeOneMore(e, s, p, ls);
      CodexStep(e, u, p, ls[n], FileState(e, p, ls[..n]));
    }
  }

  lemma RoomFor(e: Env, s: State, k: nat, n: nat)
    requires Room(e, s, k + n)
    ensures Room(e, s, k)
  {
  }

  /** A codex transcript that was rewritten shorter: the scan queues the rows of one reading of its
      new content and leaves its counters where that reading leaves them. */
  lemma RewrittenCodexRows(e: Env, s: State, p: Path, content: Data)
    requires p in s.checkpoints && KindOk(e, p, s.checkpoints[p]) && e.kind(p).CodexKind? && |content| < s.checkpoints[p].offset
    requires Room(e, s, |FileRows(e, p, Complete(content))|)
    ensures var t := TailFile(e, s, p, content, true);
            && Sent(t) == Sent(s) + FileRows(e, p, Complete(content)) && t.lost == s.lost
            && Counters(t.checkpoints[p]) == FileState(e, p, Complete(content))
  {
    RewrittenIsReadFromStart(e, s, p, content);
    var u := s.(checkpoints := s.checkpoints[p := FromStart(e, p)]);
    hide TailFile, ConsumeAll, Complete, FileRows, FileState, KindOk, Rest, NoOversize;
    CodexScan(e, u, p, Complete(content));
  }

  // ---- claude files ----

  /** The k-th row says more output than every earlier row of its key, and than was seen before. */
  predicate Rises(seen: map<string, int>, rows: seq<Row>, k: nat)
    requires k < |rows|
  {
    && (rows[k].key in seen ==> rows[k].output > seen[rows[k].key])
    && forall j :: 0 <= j < k && rows[j].key == rows[k].key ==> rows[k].output > rows[j].output
  }

  /** The rows that do, in order. */
  function Risen(seen: map<string, int>, rows: seq<Row>): seq<Row>
  {
    if rows == [] then []
    else
      var n := |rows| - 1;
      Risen(seen, rows[..n]) + if Rises(seen, rows, n) then [rows[n]] else []
  }

  /** `peaks` remembers the greatest output of every key seen before or in these rows. */
  ghost predicate Peaks(seen: map<string, int>, rows: seq<Row>, peaks: map<string, int>)
  {
    && (forall k :: k in seen ==> k in peaks && peaks[k] >= seen[k])
    && (forall j :: 0 <= j < |rows| ==> rows[j].key in peaks && peaks[rows[j].key] >= rows[j].output)
    && (forall k :: k in peaks ==> Reached(seen, rows, k, peaks[k]))
  }

  predicate Reached(seen: map<string, int>, rows: seq<Row>, k: string, v: int)
  {
    (k in seen && v == seen[k]) || exists j :: 0 <= j < |rows| && rows[j].key == k && v == rows[j].output
  }

  lemma RisesIff(seen: map<string, int>, rows: seq<Row>, peaks: map<string, int>)
    requires rows != [] && Peaks(seen, rows[..|rows| - 1], peaks)
    ensures var r := rows[|rows| - 1];
            Rises(seen, rows, |rows| - 1) <==> !(r.key in peaks && r.output <= peaks[r.key])
  {
    var n := |rows| - 1;
    var r := rows[n];
    assert forall j :: 0 <= j < n ==> rows[..n][j] == rows[j];
    if r.key in peaks && !(r.key in seen && peaks[r.key] == seen[r.key]) {
      var j :| 0 <= j < n && rows[..n][j].key == r.key && peaks[r.key] == rows[..n][j].output;
      assert rows[j].key == r.key;
    }
  }

  lemma ReachedNext(seen: map<string, int>, rows: seq<Row>, r: Row, k: string, v: int)
    requires Reached(seen, rows, k, v) || (k == r.key && v == r.output)
    ensures Reached(seen, rows + [r], k, v)
  {
    var all := rows + [r];
    assert all[|rows|] == r;
    if !(k == r.key && v == r.output) && !(k in seen && v == seen[k]) {
      var j :| 0 <= j < |rows| && rows[j].key == k && v == rows[j].output;
      assert all[j] == rows[j];
    }
  }

  lemma PeaksNext(seen: map<string, int>, rows: seq<Row>, r: Row, peaks: map<string, int>)
    requires Peaks(seen, rows, peaks)
    ensures Peaks(seen, rows + [r], if r.key in peaks && r.output <= peaks[r.key] then peaks else peaks[r.key := r.output])
  {
    hide Reached;
    var all := rows + [r];
    var next := if r.key in peaks && r.output <= peaks[r.key] then peaks else peaks[r.key := r.output];
    forall k | k in next ensures Reached(seen, all, k, next[k]) {
      ReachedNext(seen, rows, r, k, next[k]);
    }
    forall j | 0 <= j < |all| ensures all[j].key in next && next[all[j].key] >= all[j].output {
      assert all[j] == if j == |rows| then r else rows[j];
    }
  }

  /** A claude line queues its row if it says more than what is remembered for its key. */
  lemma ClaudeStep(e: Env, s: State, p: Path, l: Data, st: Codex.State)
    requires p in s.checkpoints && e.kind(p).ClaudeKind? && Room(e, s, 1) && |s.lastOutput| <= DEDUP_CAP - 1
    ensures var t := Step(e, s, p, l);
            var row := LineRow(e, p, st, l);
            var known := row.Some? && row.value.key in s.lastOutput && row.value.output <= s.lastOutput[row.value.key];
            var n := if row.Some? then 1 else 0;
            var line := TrimNL(Readable(l));
            && Sent(t) == Sent(s) + (if row.Some? && !known then [row.value] else []) && t.lost == s.lost
            && t.lastOutput == (if row.Some? && !known then s.lastOutput[row.value.key := row.value.output] else s.lastOutput)
            && |t.lastOutput| <= |s.lastOutput| + n
            && s.attempts <= t.attempts <= s.attempts + n && |t.pending| <= |s.pending| + n
            && t.unparsed == s.unparsed + (if line != [] && row.None? && !e.validJSON(line) then 1 else 0)
  {
    hide TrimNL, Readable, Queue;
    var line := TrimNL(Readable(l));
    if line != [] && e.claude(line).Some? {
      var row := e.claude(line).value;
      var u := s.(lastOutput := s.lastOutput[row.key := row.output]);
      if !(row.key in s.lastOutput && row.output <= s.lastOutput[row.key]) {
        OneMoreKey(s.lastOutput, row.key, row.output);
        QueueConserves(e, u, row.(app := e.resolve(e.claudeCwd(line))));
      }
    }
  }

  lemma OneMoreKey(m: map<string, int>, k: string, v: int)
    ensures |m[k := v]| <= |m| + 1
  {
    if k in m {
      assert m[k := v].Keys == m.Keys;
    } else {
      assert m[k := v].Keys == m.Keys + {k};
    }
  }

  /** Reading lines of a claude file queues exactly the rows that say more output than every
      earlier row of their key, each once, in order, as long as the memory of keys is not reset. */
  lemma {:induction false} ClaudeScan(e: Env, s: State, p: Path, ls: seq<Data>)
    requires p in s.checkpoints && e.kind(p).ClaudeKind?
    requires Room(e, s, |ls|) && |s.lastOutput| + |ls| <= DEDUP_CAP
    ensures var t, rows := ConsumeAll(e, s, p, ls), FileRows(e, p, ls);
            && Sent(t) == Sent(s) + Risen(s.lastOutput, rows) && t.lost == s.lost
            && Peaks(s.lastOutput, rows, t.lastOutput) && |t.lastOutput| <= |s.lastOutput| + |ls|
            && s.attempts <= t.attempts <= s.attempts + |ls| && |t.pending| <= |s.pending| + |ls|
            && t.unparsed == s.unparsed + Unreadable(e, p, ls)
  {
    hide Step, LineRow, LineState, Room, TrimNL, Readable, Peaks, Rises, FileState;
    if ls == [] {
      assert Sent(s) + [] == Sent(s);
      assert Peaks(s.lastOutput, [], s.lastOutput) by { NoPeaks(s.lastOutput); }
    } else {
      var n := |ls| - 1;
      var u := ConsumeAll(e, s, p, ls[..n]);
      var st := FileState(e, p, ls[..n]);
      var row := LineRow(e, p, st, ls[n]);
      RoomFor(e, s, n, 1);
      ClaudeScan(e, s, p, ls[..n]);
      RoomLeft(e, s, u, n, 1);
      ConsumeOneMore(e, s, p, ls);
      ClaudeStep(e, u, p, ls[n], st);
      FileRowsMore(e, p, ls);
      hide FileRows, ConsumeAll, Risen;
      if row.Some? {
        RisenMore(s.lastOutput, FileRows(e, p, ls[..n]), row.value, u.lastOutput);
      }
    }
  }

  lemma FileRowsMore(e: Env, p: Path, ls: seq<Data>)
    requires ls != []
    ensures var before := ls[..|ls| - 1];
            var row := LineRow(e, p, FileState(e, p, before), ls[|ls| - 1]);
            FileRows(e, p, ls) == if row.Some? then FileRows(e, p, before) + [row.value] else FileRows(e, p, before)
  {
    hide LineRow, FileState;
  }

  /** One row more. */
  lemma RisenMore(seen: map<string, int>, rows: seq<Row>, r: Row, peaks: map<string, int>)
    requires Peaks(seen, rows, peaks)
    ensures var known := r.key in peaks && r.output <= peaks[r.key];
            && Risen(seen, rows + [r]) == Risen(seen, rows) + (if known then [] else [r])
            && Peaks(seen, rows + [r], if known then peaks else peaks[r.key := r.output])
  {
    hide Peaks, Rises;
    var all := rows + [r];
    assert all[..|all| - 1] == rows;
    RisesIff(seen, all, peaks);
    PeaksNext(seen, rows, r, peaks);
  }

  lemma NoPeaks(seen: map<string, int>)
    ensures Peaks(seen, [], seen)
  {
  }
}
