/** Scanning a growing file any number of times is scanning it once. */
module IncrementalTail {
  import opened Wrappers
  import opened Lines
  import opened TokenStore
  import opened TokenWatch

  /** The state without the checkpoint file and without p's offset. */
  ghost function Core(s: State, p: Path): State
    requires p in s.checkpoints
  {
    SetOffset(s, p, 0).(saved := map[])
  }

  ghost predicate SameCore(s: State, t: State, p: Path)
  {
    p in s.checkpoints && p in t.checkpoints && Core(s, p) == Core(t, p)
  }

  lemma CoreParts(s: State, t: State, p: Path)
    requires SameCore(s, t, p)
    ensures s.checkpoints[p].codex == t.checkpoints[p].codex
    ensures t == s.(saved := t.saved, checkpoints := t.checkpoints)
    ensures forall x :: x in s.checkpoints && x != p ==> x in t.checkpoints && t.checkpoints[x] == s.checkpoints[x]
    ensures s.checkpoints.Keys == t.checkpoints.Keys
  {
    var u, v := SetOffset(s, p, 0).checkpoints, SetOffset(t, p, 0).checkpoints;
    assert u == v;
    assert u.Keys == s.checkpoints.Keys && v.Keys == t.checkpoints.Keys;
    assert forall x :: x in s.checkpoints && x != p ==> u[x] == s.checkpoints[x];
    assert u[p] == v[p];
  }

  lemma CoreFrom(s: State, t: State, p: Path)
    requires p in s.checkpoints && p in t.checkpoints
    requires s.checkpoints[p].codex == t.checkpoints[p].codex
    requires t == s.(saved := t.saved, checkpoints := t.checkpoints)
    requires forall x :: x in s.checkpoints && x != p ==> x in t.checkpoints && t.checkpoints[x] == s.checkpoints[x]
    requires s.checkpoints.Keys == t.checkpoints.Keys
    ensures SameCore(s, t, p)
  {
    assert SetOffset(s, p, 0).checkpoints == SetOffset(t, p, 0).checkpoints;
  }

  lemma FlushCore(e: Env, s: State, t: State, p: Path)
    requires SameCore(s, t, p)
    ensures SameCore(Flush(e, s), Flush(e, t), p)
  {
    CoreParts(s, t, p);
    CoreFrom(Flush(e, s), Flush(e, t), p);
  }

  /** Consuming a line never looks at offsets or at the checkpoint file. */
  lemma StepCore(e: Env, s: State, t: State, p: Path, l: Data)
    requires SameCore(s, t, p)
    ensures SameCore(Step(e, s, p, l), Step(e, t, p, l), p)
  {
    CoreParts(s, t, p);
    var line := TrimNL(Readable(l));
    if line != [] && e.kind(p).ClaudeKind? && e.claude(line).Some? {
      var row := e.claude(line).value;
      if !(row.key in s.lastOutput && row.output <= s.lastOutput[row.key]) {
        var r := row.(app := e.resolve(e.claudeCwd(line)));
        var out := s.lastOutput[row.key := row.output];
        QueueCore(e, s.(lastOutput := out), t.(lastOutput := out), p, r);
      }
    } else if line != [] && e.kind(p).CodexKind? {
      var (st, row) := Codex.Parse(Counters(s.checkpoints[p]), e.codex(line));
      var s' := s.(checkpoints := s.checkpoints[p := s.checkpoints[p].(codex := Some(st))]);
      var t' := t.(checkpoints := t.checkpoints[p := t.checkpoints[p].(codex := Some(st))]);
      CoreFrom(s', t', p);
      if row.Some? {
        QueueCore(e, s', t', p, row.value.(app := e.resolve(st.cwd)));
      } else {
        CoreFrom(Skip(e, s', line), Skip(e, t', line), p);
      }
    } else if line != [] {
      CoreFrom(Skip(e, s, line), Skip(e, t, line), p);
    }
  }

  lemma QueueCore(e: Env, s: State, t: State, p: Path, row: Row)
    requires SameCore(s, t, p)
    ensures SameCore(Queue(e, s, row), Queue(e, t, row), p)
  {
    CoreParts(s, t, p);
    var s', t' := s.(pending := s.pending + [row]), t.(pending := t.pending + [row]);
    CoreFrom(s', t', p);
    FlushCore(e, s', t', p);
  }

  lemma {:induction false} ConsumeAllCore(e: Env, s: State, t: State, p: Path, ls: seq<Data>)
    requires SameCore(s, t, p)
    ensures SameCore(ConsumeAll(e, s, p, ls), ConsumeAll(e, t, p, ls), p)
    decreases |ls|
  {
    if ls != [] {
      StepCore(e, s, t, p, ls[0]);
      ConsumeAllCore(e, Step(e, s, p, ls[0]), Step(e, t, p, ls[0]), p, ls[1..]);
    }
  }

  lemma {:induction false} ConsumeAppend(e: Env, s: State, p: Path, a: seq<Data>, b: seq<Data>)
    requires p in s.checkpoints
    ensures ConsumeAll(e, s, p, a + b) == ConsumeAll(e, ConsumeAll(e, s, p, a), p, b)
    ensures Advance(a + b) == Advance(a) + Advance(b)
    decreases |a|
  {
    if a == [] {
      assert a + b == b;
    } else {
      assert (a + b)[1..] == a[1..] + b;
      ConsumeAppend(e, Step(e, s, p, a[0]), p, a[1..], b);
    }
  }

  // ---- scans ----

  /** Equal in everything but the checkpoint file. */
  ghost predicate Same(s: State, t: State)
  {
    s.(saved := t.saved) == t
  }

  lemma SetOffsetSame(s: State, t: State, p: Path, n: nat)
    requires SameCore(s, t, p)
    ensures Same(SetOffset(s, p, n), SetOffset(t, p, n))
  {
    CoreParts(s, t, p);
    assert SetOffset(s, p, n).checkpoints == SetOffset(t, p, n).checkpoints;
  }

  /** The early return of a scan is the case of no lines. */
  lemma TailIsConsume(e: Env, s: State, p: Path, content: Data)
    ensures var s1 := Open(e, s, p, |content|);
            var from := s1.checkpoints[p].offset;
            var lines := Complete(content[from..]);
            TailFile(e, s, p, content, true) == SetOffset(ConsumeAll(e, s1, p, lines), p, from + Advance(lines))
  {
    hide Open, Step, NewlineAt;
    var s1 := Open(e, s, p, |content|);
    var from := s1.checkpoints[p].offset;
    if |content| == from {
      assert content[from..] == [];
      NoNewline([]);
      assert SetOffset(s1, p, from).checkpoints == s1.checkpoints;
    }
  }

  lemma OpenSame(e: Env, s: State, t: State, p: Path, size: nat)
    requires Same(s, t)
    ensures SameCore(Open(e, s, p, size), Open(e, t, p, size), p)
    ensures Open(e, s, p, size).checkpoints == Open(e, t, p, size).checkpoints
  {
    CoreFrom(Open(e, s, p, size), Open(e, t, p, size), p);
  }

  lemma ConsumeSame(e: Env, s: State, t: State, p: Path, lines: seq<Data>, n: nat)
    requires SameCore(s, t, p)
    ensures Same(SetOffset(ConsumeAll(e, s, p, lines), p, n), SetOffset(ConsumeAll(e, t, p, lines), p, n))
  {
    ConsumeAllCore(e, s, t, p, lines);
    SetOffsetSame(ConsumeAll(e, s, p, lines), ConsumeAll(e, t, p, lines), p, n);
  }

  lemma TailSame(e: Env, s: State, t: State, p: Path, content: Data)
    requires Same(s, t)
    ensures Same(TailFile(e, s, p, content, true), TailFile(e, t, p, content, true))
  {
    hide *;
    OpenSame(e, s, t, p, |content|);
    var s1, t1 := Open(e, s, p, |content|), Open(e, t, p, |content|);
    var from := s1.checkpoints[p].offset;
    assert t1.checkpoints[p].offset == from;
    var lines := Complete(content[from..]);
    ConsumeSame(e, s1, t1, p, lines, from + Advance(lines));
    TailIsConsume(e, s, p, content);
    TailIsConsume(e, t, p, content);
  }

  /** A file that may be scanned: its checkpoint, if any, stands at a line boundary, and
      a first scan does not find it too large to backfill. */
  ghost predicate Scannable(s: State, p: Path, content: Data)
  {
    if p in s.checkpoints then Boundary(content, s.checkpoints[p].offset) else |content| <= MAX_BACKFILL
  }

  /** A scan of a file whose lines are within the limit ends at the last line boundary. */
  lemma {:induction false} ScanEnds(e: Env, s: State, p: Path, content: Data)
    requires Scannable(s, p, content) && NoOversize(Complete(content))
    ensures var from := Open(e, s, p, |content|).checkpoints[p].offset;
            var m := TailFile(e, s, p, content, true).checkpoints[p].offset;
            && Boundary(content, from) && NoOversize(Complete(content[from..]))
            && m == |content| - |Rest(content)| && from <= m && Boundary(content, m)
            && content[m..] == Rest(content[from..]) && from + Advance(Complete(content[from..])) == m
  {
    hide ConsumeAll, Complete, Rest, Step, TailFile, NewlineAt, Advance, Unlines;
    var from := Open(e, s, p, |content|).checkpoints[p].offset;
    var m := TailFile(e, s, p, content, true).checkpoints[p].offset;
    SplitAtBoundary(content, from);
    OffsetAtLineEndIff(e, s, p, content);
    TailIsConsume(e, s, p, content);
    var unread := content[from..];
    SplitRoundTrip(unread);
    var joined := Unlines(Complete(unread));
    assert content[m..] == unread[m - from..] == Rest(unread);
    if m > from {
      UnlinesEnd(Complete(unread));
      assert content[m - 1] == unread[m - from - 1] == joined[m - from - 1];
    }
  }

  lemma {:induction false} UnlinesEnd(ls: seq<Data>)
    ensures Unlines(ls) == [] || Unlines(ls)[|Unlines(ls)| - 1] == NL
  {
    if ls != [] {
      UnlinesEnd(ls[1..]);
    }
  }

  /** Pausing between two batches of lines. */
  lemma ConsumeInTwo(e: Env, s: State, p: Path, la: seq<Data>, lb: seq<Data>, m: nat)
    requires p in s.checkpoints
    ensures Same(SetOffset(ConsumeAll(e, SetOffset(ConsumeAll(e, s, p, la), p, m), p, lb), p, m + Advance(lb)),
                 SetOffset(ConsumeAll(e, s, p, la + lb), p, m + Advance(lb)))
  {
    var after := ConsumeAll(e, s, p, la);
    var mid := SetOffset(after, p, m);
    assert SetOffset(mid, p, 0).checkpoints == SetOffset(after, p, 0).checkpoints;
    ConsumeAppend(e, s, p, la, lb);
    ConsumeSame(e, mid, after, p, lb, m + Advance(lb));
  }

  lemma GrownLines(a: Data, b: Data, from: nat, m: nat)
    requires |a| <= |b| && b[..|a|] == a
    requires from <= m <= |a| && a[m..] == Rest(a[from..])
    ensures Complete(b[from..]) == Complete(a[from..]) + Complete(b[m..])
  {
    assert b[from..] == a[from..] + b[|a|..];
    SplitAppend(a[from..], b[|a|..]);
    assert b[m..] == a[m..] + b[|a|..];
  }

  /** Two scans, the file having grown in between, are one scan of the grown file. */
  lemma {:induction false} TailTwice(e: Env, s: State, p: Path, a: Data, b: Data)
    requires |a| <= |b| && b[..|a|] == a
    requires Scannable(s, p, a) && (p in s.checkpoints || |b| <= MAX_BACKFILL)
    requires NoOversize(Complete(a))
    ensures Same(TailFile(e, TailFile(e, s, p, a, true), p, b, true), TailFile(e, s, p, b, true))
  {
    hide ConsumeAll, Complete, TailFile, Advance, Rest, Step, NoOversize, SetOffset;
    ScanEnds(e, s, p, a);
    var s1 := Open(e, s, p, |a|);
    assert s1 == Open(e, s, p, |b|);
    var from := s1.checkpoints[p].offset;
    var la := Complete(a[from..]);
    var m := from + Advance(la);
    var lb := Complete(b[m..]);
    GrownLines(a, b, from, m);
    ConsumeInTwo(e, s1, p, la, lb, m);
    ConsumeAppend(e, s1, p, la, lb);
    TailIsConsume(e, s, p, a);
    TailIsConsume(e, s, p, b);
    Resume(e, s1, p, la, m, b);
  }

  lemma Resume(e: Env, s1: State, p: Path, la: seq<Data>, m: nat, b: Data)
    requires p in s1.checkpoints && m <= |b|
    ensures var mid := SetOffset(ConsumeAll(e, s1, p, la), p, m);
            var lb := Complete(b[m..]);
            TailFile(e, mid, p, b, true) == SetOffset(ConsumeAll(e, mid, p, lb), p, m + Advance(lb))
  {
    hide ConsumeAll, Complete, TailFile, Advance;
    var mid := SetOffset(ConsumeAll(e, s1, p, la), p, m);
    assert Open(e, mid, p, |b|).checkpoints == mid.checkpoints;
    TailIsConsume(e, mid, p, b);
  }

  /** Successive contents of one growing file. */
  ghost predicate Growing(contents: seq<Data>)
  {
    forall i, j :: 0 <= i <= j < |contents| ==> |contents[i]| <= |contents[j]| && contents[j][..|contents[i]|] == contents[i]
  }

  function TailMany(e: Env, s: State, p: Path, contents: seq<Data>): State
  {
    if contents == [] then s
    else TailFile(e, TailMany(e, s, p, contents[..|contents| - 1]), p, contents[|contents| - 1], true)
  }

  /** Any number of scans of a growing file, with partial final lines on the way, queue
      the same rows and reach the same offset and counters as one scan of its final
      content; the offset always stands at a line boundary. */
  lemma {:induction false} IncrementalIsOnePass(e: Env, s: State, p: Path, contents: seq<Data>)
    requires contents != [] && Growing(contents)
    requires Scannable(s, p, contents[0])
    requires p in s.checkpoints || |contents[|contents| - 1]| <= MAX_BACKFILL
    requires NoOversize(Complete(contents[|contents| - 1]))
    ensures var last := contents[|contents| - 1];
            var after := TailMany(e, s, p, contents);
            && Same(after, TailFile(e, s, p, last, true))
            && p in after.checkpoints
            && after.checkpoints[p].offset == |last| - |Rest(last)| && Boundary(last, after.checkpoints[p].offset)
    decreases |contents|
  {
    hide ConsumeAll, Complete, TailFile, Advance, Rest, Step, SetOffset, Open;
    var n := |contents| - 1;
    var last := contents[n];
    assert contents[0] == last[..|contents[0]|];
    assert Scannable(s, p, last);
    ScanEnds(e, s, p, last);
    var before := contents[..n];
    if n == 0 {
      assert TailMany(e, s, p, before) == s;
    } else {
      var prev := contents[n - 1];
      assert before[n - 1] == prev && before[0] == contents[0];
      assert last == prev + last[|prev|..];
      SplitAppend(prev, last[|prev|..]);
      assert contents[0] == prev[..|contents[0]|];
      assert Scannable(s, p, prev);
      IncrementalIsOnePass(e, s, p, before);
      OneScanMore(e, s, TailMany(e, s, p, before), p, prev, last);
    }
  }

  lemma OneScanMore(e: Env, s: State, t: State, p: Path, prev: Data, last: Data)
    requires Same(t, TailFile(e, s, p, prev, true))
    requires |prev| <= |last| && last[..|prev|] == prev
    requires Scannable(s, p, prev) && (p in s.checkpoints || |last| <= MAX_BACKFILL)
    requires NoOversize(Complete(prev))
    ensures Same(TailFile(e, t, p, last, true), TailFile(e, s, p, last, true))
  {
    TailSame(e, t, TailFile(e, s, p, prev, true), p, last);
    TailTwice(e, s, p, prev, last);
  }
}
