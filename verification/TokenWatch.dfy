/** The agent's transcript tailer: per-file offsets, batching, and checkpoints that
    are saved when rows have been delivered (agent/internal/tokenwatch/watcher.go).

    Bookkeeping beside the watcher's own fields: `delivered` lists the rows of accepted
    emits in order, `saved` is the content of the checkpoint file, and `lost` collects
    the dedup keys of rows the watcher gave up on. */
module TokenWatch {
  import opened Wrappers
  import opened Lines
  import opened TokenStore
  import Codex

  type Path = string

  datatype Kind = ClaudeKind | CodexKind

  datatype Checkpoint = Checkpoint(offset: nat, codex: Option<Codex.State>)

  /** What the outside answers to one flush: whether the emit was accepted and whether
      the checkpoint file could be written. */
  datatype Outcome = Outcome(accepted: bool, written: bool)

  /** Everything the watcher takes from outside. `answers` is asked once per flush. */
  datatype Env = Env(
    kind: Path -> Kind,
    claude: Data -> Option<Row>,
    claudeCwd: Data -> string,
    codex: Data -> Codex.Event,
    validJSON: Data -> bool,
    resolve: string -> string,
    answers: nat -> Outcome)

  const MAX_LINE_BYTES: nat := 4 * 1024 * 1024
  const MAX_BACKFILL: nat := 50 * 1024 * 1024
  const FLUSH_ROWS: nat := 500
  const BACKLOG_CAP: nat := 10_000
  const DEDUP_CAP: nat := 50_000

  datatype State = State(
    checkpoints: map<Path, Checkpoint>,
    pending: seq<Row>,
    lastOutput: map<string, int>,
    unparsed: nat,
    saved: map<Path, Checkpoint>,
    delivered: seq<Row>,
    lost: set<string>,
    attempts: nat)

  function Keys(rows: seq<Row>): set<string>
  {
    set r | r in rows :: r.key
  }

  // ---- flush ----

  function Save(s: State, written: bool): State
  {
    if written then s.(saved := s.checkpoints) else s
  }

  function Flush(e: Env, s: State): (f: State)
    ensures f.checkpoints == s.checkpoints
  {
    var o := e.answers(s.attempts);
    var s := s.(attempts := s.attempts + 1);
    if s.pending == [] then
      Save(s, o.written)
    else if o.accepted then
      var sent := Save(s.(delivered := s.delivered + s.pending, pending := []), o.written);
      if |s.lastOutput| > DEDUP_CAP then sent.(lastOutput := map[]) else sent
    else if |s.pending| > BACKLOG_CAP then
      var over := |s.pending| - BACKLOG_CAP;
      s.(pending := s.pending[over..], lost := s.lost + Keys(s.pending[..over]))
    else
      s
  }

  // ---- one line ----

  /** Drops every trailing newline and carriage return. */
  function TrimNL(b: Data): Data
  {
    if b != [] && (b[|b| - 1] == NL || b[|b| - 1] == CR) then TrimNL(b[..|b| - 1]) else b
  }

  /** The counters a codex checkpoint holds. */
  function Counters(cp: Checkpoint): Codex.State
  {
    match cp.codex case Some(st) => st case None => Codex.FRESH
  }

  function Queue(e: Env, s: State, row: Row): State
  {
    var s := s.(pending := s.pending + [row]);
    if |s.pending| >= FLUSH_ROWS then Flush(e, s) else s
  }

  /** A trimmed line that did not yield a row. */
  function Skip(e: Env, s: State, line: Data): State
  {
    if e.validJSON(line) then s else s.(unparsed := s.unparsed + 1)
  }

  function ConsumeLine(e: Env, s: State, p: Path, line: Data): (c: State)
    requires p in s.checkpoints
    ensures c.checkpoints.Keys == s.checkpoints.Keys
    ensures c.checkpoints[p].offset == s.checkpoints[p].offset
  {
    if line == [] then s
    else if e.kind(p).ClaudeKind? then
      match e.claude(line)
      case None => Skip(e, s, line)
      case Some(row) =>
        if row.key in s.lastOutput && row.output <= s.lastOutput[row.key] then s
        else
          Queue(e, s.(lastOutput := s.lastOutput[row.key := row.output]), row.(app := e.resolve(e.claudeCwd(line))))
    else
      var cp := s.checkpoints[p];
      var (st, row) := Codex.Parse(Counters(cp), e.codex(line));
      var s := s.(checkpoints := s.checkpoints[p := cp.(codex := Some(st))]);
      match row
      case None => Skip(e, s, line)
      case Some(r) => Queue(e, s, r.(app := e.resolve(st.cwd)))
  }

  /** readLine hands over an empty slice for an oversize line. */
  function Readable(l: Data): Data
  {
    if |l| + 1 > MAX_LINE_BYTES then [] else l + [NL]
  }

  function Step(e: Env, s: State, p: Path, l: Data): (c: State)
    requires p in s.checkpoints
    ensures c.checkpoints.Keys == s.checkpoints.Keys
    ensures c.checkpoints[p].offset == s.checkpoints[p].offset
  {
    ConsumeLine(e, s, p, TrimNL(Readable(l)))
  }

  function ConsumeAll(e: Env, s: State, p: Path, lines: seq<Data>): (c: State)
    requires p in s.checkpoints
    ensures c.checkpoints.Keys == s.checkpoints.Keys
    ensures c.checkpoints[p].offset == s.checkpoints[p].offset
    decreases |lines|
  {
    if lines == [] then s else ConsumeAll(e, Step(e, s, p, lines[0]), p, lines[1..])
  }

  /** How far the offset moves over a list of lines. */
  function Advance(lines: seq<Data>): nat
  {
    if lines == [] then 0 else |Readable(lines[0])| + Advance(lines[1..])
  }

  // ---- one file ----

  /** The checkpoint a scan of p starts from, given the file's size. */
  function Open(e: Env, s: State, p: Path, size: nat): (o: State)
    ensures p in o.checkpoints && o.checkpoints[p].offset <= size
  {
    var zeroed := if e.kind(p).CodexKind? then Some(Codex.FRESH) else None;
    var cp :=
      if p in s.checkpoints then s.checkpoints[p]
      else Checkpoint(if size > MAX_BACKFILL then size else 0, zeroed);
    var cp' :=
      if size < cp.offset then Checkpoint(0, if cp.codex.Some? then Some(Codex.FRESH) else None) else cp;
    s.(checkpoints := s.checkpoints[p := cp'])
  }

  function SetOffset(s: State, p: Path, offset: nat): State
    requires p in s.checkpoints
  {
    s.(checkpoints := s.checkpoints[p := s.checkpoints[p].(offset := offset)])
  }

  function TailFile(e: Env, s: State, p: Path, content: Data, openable: bool): (t: State)
    ensures p in t.checkpoints
  {
    var s1 := Open(e, s, p, |content|);
    var from := s1.checkpoints[p].offset;
    if |content| == from || !openable then s1
    else
      var lines := Complete(content[from..]);
      SetOffset(ConsumeAll(e, s1, p, lines), p, from + Advance(lines))
  }

  /** A new process that finds `saved` on disk. */
  function Restart(s: State): State
  {
    s.(checkpoints := s.saved, pending := [], lastOutput := map[], unparsed := 0)
  }

  /** Context cancelled: checkpoints are written, pending rows are not sent. */
  function Shutdown(e: Env, s: State): State
  {
    var o := e.answers(s.attempts);
    var s := Save(s.(attempts := s.attempts + 1), o.written);
    Restart(if o.written then s.(lost := s.lost + Keys(s.pending)) else s)
  }

  // ---- the watcher as an object ----

  class Watcher {
    const env: Env
    var checkpoints: map<Path, Checkpoint>
    var pending: seq<Row>
    var lastOutput: map<string, int>
    var unparsed: nat
    var saved: map<Path, Checkpoint>
    var attempts: nat
    ghost var delivered: seq<Row>
    ghost var lost: set<string>

    ghost function View(): State
      reads this
    {
      State(checkpoints, pending, lastOutput, unparsed, saved, delivered, lost, attempts)
    }

    /** A watcher started on the checkpoint file left by an earlier one. */
    constructor (env: Env, saved: map<Path, Checkpoint>)
      ensures this.env == env
      ensures View() == State(saved, [], map[], 0, saved, [], {}, 0)
    {
      this.env, this.saved, checkpoints := env, saved, saved;
      pending, lastOutput, unparsed, attempts := [], map[], 0, 0;
      delivered, lost := [], {};
    }

    method SaveCheckpoints(written: bool)
      modifies this`saved
      ensures View() == Save(old(View()), written)
    {
      if written {
        saved := checkpoints;
      }
    }

    method FlushPending()
      modifies this
      ensures View() == Flush(env, old(View()))
    {
      var o := env.answers(attempts);
      attempts := attempts + 1;
      if |pending| == 0 {
        SaveCheckpoints(o.written);
        return;
      }
      if o.accepted {
        delivered := delivered + pending;
        pending := [];
        SaveCheckpoints(o.written);
        if |lastOutput| > DEDUP_CAP {
          lastOutput := map[];
        }
      } else if |pending| > BACKLOG_CAP {
        lost := lost + Keys(pending[..|pending| - BACKLOG_CAP]);
        pending := pending[|pending| - BACKLOG_CAP..];
      }
    }

    method Consume(path: Path, line: Data)
      requires path in checkpoints
      modifies this
      ensures View() == ConsumeLine(env, old(View()), path, line)
    {
      if line == [] {
        return;
      }
      match env.kind(path) {
      case ClaudeKind =>
        var parsed := env.claude(line);
        if parsed.None? {
          if !env.validJSON(line) {
            unparsed := unparsed + 1;
          }
          return;
        }
        var row := parsed.value;
        if row.key in lastOutput && row.output <= lastOutput[row.key] {
          return;
        }
        lastOutput := lastOutput[row.key := row.output];
        pending := pending + [row.(app := env.resolve(env.claudeCwd(line)))];
      case CodexKind =>
        var cp := checkpoints[path];
        var (st, row) := Codex.Parse(Counters(cp), env.codex(line));
        checkpoints := checkpoints[path := cp.(codex := Some(st))];
        if row.None? {
          if !env.validJSON(line) {
            unparsed := unparsed + 1;
          }
          return;
        }
        pending := pending + [row.value.(app := env.resolve(st.cwd))];
      }
      if |pending| >= FLUSH_ROWS {
        FlushPending();
      }
    }

    /** The checkpoint of a transcript of the given size, created or reset as needed. */
    method OpenCheckpoint(path: Path, size: nat) returns (from: nat)
      modifies this`checkpoints
      ensures View() == Open(env, old(View()), path, size)
      ensures path in checkpoints && checkpoints[path].offset == from <= size
    {
      var cp: Checkpoint;
      if path in checkpoints {
        cp := checkpoints[path];
      } else {
        cp := Checkpoint(0, None);
        if size > MAX_BACKFILL {
          cp := cp.(offset := size);
        }
        if env.kind(path).CodexKind? {
          cp := cp.(codex := Some(Codex.FRESH));
        }
      }
      if size < cp.offset {
        cp := cp.(offset := 0);
        if cp.codex.Some? {
          cp := cp.(codex := Some(Codex.FRESH));
        }
      }
      checkpoints := checkpoints[path := cp];
      from := cp.offset;
    }

    /** The read loop over the bytes that follow the checkpoint. */
    method ReadLines(path: Path, unread: Data) returns (advanced: nat)
      requires path in checkpoints
      modifies this
      ensures View() == ConsumeAll(env, old(View()), path, Complete(unread))
      ensures advanced == Advance(Complete(unread))
    {
      ghost var start := View();
      var rest := unread;
      advanced := 0;
      var i := NewlineAt(rest);
      while i < |rest|
        invariant i == NewlineAt(rest)
        invariant path in checkpoints
        invariant ConsumeAll(env, start, path, Complete(unread)) == ConsumeAll(env, View(), path, Complete(rest))
        invariant Advance(Complete(unread)) == advanced + Advance(Complete(rest))
        decreases |rest|
      {
        FirstLine(rest, i);
        var n := ReadLine(path, rest[..i + 1], rest[..i]);
        advanced := advanced + n;
        rest := rest[i + 1..];
        i := NewlineAt(rest);
      }
    }

    /** One line of the loop, newline included. */
    method ReadLine(path: Path, raw: Data, ghost l: Data) returns (n: nat)
      requires path in checkpoints && raw == l + [NL]
      modifies this
      ensures View() == Step(env, old(View()), path, l) && n == |Readable(l)|
    {
      var line := raw;
      if |line| > MAX_LINE_BYTES {
        line := [];
      }
      Consume(path, TrimNL(line));
      n := |line|;
    }

    /** One scan of one transcript whose current bytes are `content`. */
    method Tail(path: Path, content: Data, openable: bool)
      modifies this
      ensures View() == TailFile(env, old(View()), path, content, openable)
    {
      hide ConsumeAll, Advance, Complete;
      var from := OpenCheckpoint(path, |content|);
      if |content| == from || !openable {
        return;
      }
      var advanced := ReadLines(path, content[from..]);
      checkpoints := checkpoints[path := checkpoints[path].(offset := from + advanced)];
    }

    /** Process exit on a cancelled context; the next process starts from `saved`. */
    method Stop()
      modifies this
      ensures View() == Shutdown(env, old(View()))
    {
      var o := env.answers(attempts);
      attempts := attempts + 1;
      SaveCheckpoints(o.written);
      if o.written {
        lost := lost + Keys(pending);
      }
      checkpoints, pending, lastOutput, unparsed := saved, [], map[], 0;
    }
  }

  // ---- offsets ----

  ghost predicate NoOversize(lines: seq<Data>)
  {
    forall l :: l in lines ==> |l| + 1 <= MAX_LINE_BYTES
  }

  lemma {:induction false} AdvanceLength(lines: seq<Data>)
    ensures Advance(lines) <= |Unlines(lines)|
    ensures Advance(lines) == |Unlines(lines)| <==> NoOversize(lines)
  {
    if lines != [] {
      AdvanceLength(lines[1..]);
      assert lines == [lines[0]] + lines[1..];
      assert NoOversize(lines) <==> NoOversize(lines[1..]) && |lines[0]| + 1 <= MAX_LINE_BYTES;
    }
  }

  /** A scan leaves the offset at the end of the last complete line exactly when none of
      the lines it read is oversize; otherwise it stays short of it. */
  lemma {:induction false} OffsetAtLineEndIff(e: Env, s: State, p: Path, content: Data)
    ensures var from := Open(e, s, p, |content|).checkpoints[p].offset;
            var after := TailFile(e, s, p, content, true).checkpoints[p].offset;
            var end := |content| - |Rest(content[from..])|;
            && after <= end
            && (after == end <==> NoOversize(Complete(content[from..])))
  {
    var from := Open(e, s, p, |content|).checkpoints[p].offset;
    var unread := content[from..];
    SplitRoundTrip(unread);
    AdvanceLength(Complete(unread));
    if |content| == from {
      assert unread == [];
    }
  }
}
