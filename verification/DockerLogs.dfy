/** Container logs: the frame demultiplexer and line splitter of
    agent/internal/dockerapp/client.go (all at once) and follow.go (as they come). */
module DockerLogs {

  import opened Lines

  // ---- frames ----

  /** Big-endian 32-bit value of header bytes 4 to 7. */
  function Size(hdr: Data): nat
    requires |hdr| == 8
  {
    ((hdr[4] as nat * 256 + hdr[5] as nat) * 256 + hdr[6] as nat) * 256 + hdr[7] as nat
  }

  /** One frame can be read completely from the front of b. */
  predicate HasFrame(b: Data)
  {
    |b| >= 8 && |b| >= 8 + Size(b[..8])
  }

  /** The payloads read until a header or a payload is cut short. */
  function Payloads(b: Data): seq<Data>
    decreases |b|
  {
    if !HasFrame(b) then []
    else
      var n := 8 + Size(b[..8]);
      [b[8..n]] + Payloads(b[n..])
  }

  function Joined(ps: seq<Data>): Data
  {
    if ps == [] then [] else Joined(ps[..|ps| - 1]) + ps[|ps| - 1]
  }

  /** A frame of the Docker engine's attach stream. */
  datatype Frame = Frame(stream: Byte, payload: Data)
  {
    predicate Valid() { stream <= 2 && |payload| < 0x1_0000_0000 }
  }

  function EncodeSize(n: nat): Data
    requires n < 0x1_0000_0000
  {
    [(n / 0x100_0000) as Byte, (n / 0x1_0000 % 256) as Byte, (n / 256 % 256) as Byte, (n % 256) as Byte]
  }

  function EncodeFrame(f: Frame): Data
    requires f.Valid()
  {
    [f.stream, 0, 0, 0] + EncodeSize(|f.payload|) + f.payload
  }

  function Encode(fs: seq<Frame>): Data
    requires forall f :: f in fs ==> f.Valid()
  {
    if fs == [] then [] else EncodeFrame(fs[0]) + Encode(fs[1..])
  }

  function PayloadsOf(fs: seq<Frame>): seq<Data>
  {
    if fs == [] then [] else [fs[0].payload] + PayloadsOf(fs[1..])
  }

  // ---- lines ----

  function TrimCR(l: Data): Data
  {
    if l != [] && l[|l| - 1] == CR then l[..|l| - 1] else l
  }

  function Trimmed(ls: seq<Data>): seq<Data>
  {
    if ls == [] then [] else Trimmed(ls[..|ls| - 1]) + [TrimCR(ls[|ls| - 1])]
  }

  lemma {:induction false} TrimmedJoin(a: seq<Data>, b: seq<Data>)
    ensures Trimmed(a + b) == Trimmed(a) + Trimmed(b)
  {
    hide TrimCR;
    if b == [] {
      assert a + b == a;
    } else {
      var n := |b| - 1;
      TrimmedJoin(a, b[..n]);
      assert (a + b)[..|a + b| - 1] == a + b[..n];
    }
  }

  /** The lines of a log text: a carriage return before a newline goes, a last line without a
      newline counts when it is not empty. */
  function LinesOf(text: Data): seq<Data>
  {
    Trimmed(Complete(text)) + if Rest(text) == [] then [] else [Rest(text)]
  }

  // ---- terminals: no frames ----

  const MAX_TOKEN := 1024 * 1024

  /** What the line scanner yields: it stops at a line that does not fit its buffer, and trims
      the carriage return of the last line as well. */
  function Scanned(b: Data): seq<Data>
    decreases |b|
  {
    var i := NewlineAt(b);
    if i >= MAX_TOKEN || b == [] then []
    else if i == |b| then [TrimCR(b)]
    else [TrimCR(b[..i])] + Scanned(b[i + 1..])
  }

  predicate Terminal(body: Data) { body != [] && body[0] > 2 }

  // ---- the code ----

  /** One step of the scanner: the next line and what is left, or the end. */
  method Scan(b: Data) returns (more: bool, line: Data, rest: Data)
    ensures more <==> Scanned(b) != []
    ensures more ==> |rest| < |b| && Scanned(b) == [line] + Scanned(rest)
  {
    var i := NewlineAt(b);
    if i >= MAX_TOKEN || b == [] {
      return false, [], b;
    }
    if i == |b| {
      return true, TrimCR(b), [];
    }
    return true, TrimCR(b[..i]), b[i + 1..];
  }

  /** The inner loop of both: takes the complete lines off the pending text. */
  method TakeLines(text: Data) returns (lines: seq<Data>, pending: Data)
    ensures lines == Trimmed(Complete(text)) && pending == Rest(text)
  {
    hide Complete, Rest, Trimmed, TrimCR;
    lines, pending := [], text;
    ghost var taken: seq<Data> := [];
    NoLines();
    assert taken + Complete(pending) == Complete(pending);
    while NewlineAt(pending) < |pending|
      invariant Complete(text) == taken + Complete(pending) && Rest(text) == Rest(pending)
      invariant lines == Trimmed(taken)
      decreases |pending|
    {
      var i := NewlineAt(pending);
      LineOff(pending, i);
      OneMoreLine(taken, pending[..i], Complete(pending[i + 1..]));
      lines := lines + [TrimCR(pending[..i])];
      taken := taken + [pending[..i]];
      pending := pending[i + 1..];
    }
    AllTaken(pending);
    assert taken + [] == taken;
  }

  lemma NoLines()
    ensures Trimmed([]) == []
  {
  }

  lemma LineOff(b: Data, i: nat)
    requires i == NewlineAt(b) < |b|
    ensures Complete(b) == [b[..i]] + Complete(b[i + 1..]) && Rest(b) == Rest(b[i + 1..])
  {
    hide *;
    FirstLine(b, i);
    RestLine(b, i);
    assert Complete(b) == [Complete(b)[0]] + Complete(b)[1..];
  }

  lemma OneMoreLine(taken: seq<Data>, l: Data, more: seq<Data>)
    ensures taken + ([l] + more) == taken + [l] + more
    ensures Trimmed(taken + [l]) == Trimmed(taken) + [TrimCR(l)]
  {
    assert (taken + [l])[..|taken|] == taken;
  }

  lemma AllTaken(b: Data)
    requires NewlineAt(b) == |b|
    ensures Complete(b) == [] && Rest(b) == b
  {
  }

  method Logs(body: Data) returns (lines: seq<Data>)
    ensures lines == if Terminal(body) then Scanned(body) else LinesOf(Joined(Payloads(body)))
  {
    if body == [] {
      lines := [];
    } else if body[0] > 2 {
      lines := ScanAll(body);
    } else {
      lines := Demux(body);
    }
  }

  method ScanAll(body: Data) returns (lines: seq<Data>)
    ensures lines == Scanned(body)
  {
    hide *;
    lines := [];
    var b := body;
    var more, line, rest := Scan(b);
    assert [] + Scanned(b) == Scanned(b);
    while more
      invariant Scanned(body) == lines + Scanned(b)
      invariant more <==> Scanned(b) != []
      invariant more ==> |rest| < |b| && Scanned(b) == [line] + Scanned(rest)
      decreases |b|
    {
      assert lines + ([line] + Scanned(rest)) == lines + [line] + Scanned(rest);
      lines, b := lines + [line], rest;
      more, line, rest := Scan(b);
    }
    assert lines + [] == lines;
  }

  method Demux(body: Data) returns (lines: seq<Data>)
    ensures lines == LinesOf(Joined(Payloads(body)))
  {
    hide Payloads, Trimmed, Complete, Rest;
    lines := [];
    var b, pending: Data := body, [];
    ghost var read: seq<Data> := [];
    NothingRead();
    while HasFrame(b)
      invariant Payloads(body) == read + Payloads(b)
      invariant lines == Trimmed(Complete(Joined(read))) && pending == Rest(Joined(read))
      decreases |b|
    {
      var n := 8 + Size(b[..8]);
      var frame := b[8..n];
      PayloadsStep(b, n);
      var more;
      more, pending := AddFrame(read, frame, pending);
      lines := lines + more;
      assert read + ([frame] + Payloads(b[n..])) == read + [frame] + Payloads(b[n..]);
      read := read + [frame];
      b := b[n..];
    }
    PayloadsEnd(b);
    assert read + [] == read;
    if pending != [] {
      lines := lines + [pending];
    } else {
      assert lines + [] == lines;
    }
  }

  lemma NothingRead()
    ensures Trimmed(Complete(Joined([]))) == [] && Rest(Joined([])) == []
  {
  }

  lemma PayloadsEnd(b: Data)
    requires !HasFrame(b)
    ensures Payloads(b) == []
  {
  }

  lemma PayloadsStep(b: Data, n: nat)
    requires HasFrame(b) && n == 8 + Size(b[..8])
    ensures Payloads(b) == [b[8..n]] + Payloads(b[n..])
  {
    hide Size;
  }

  /** One frame more. */
  method AddFrame(ghost read: seq<Data>, frame: Data, pending: Data) returns (lines: seq<Data>, rest: Data)
    requires pending == Rest(Joined(read))
    ensures Trimmed(Complete(Joined(read + [frame]))) == Trimmed(Complete(Joined(read))) + lines
    ensures rest == Rest(Joined(read + [frame]))
    ensures lines == Trimmed(Complete(pending + frame))
  {
    lines, rest := TakeLines(pending + frame);
    FrameMore(read, frame);
  }

  lemma FrameMore(read: seq<Data>, frame: Data)
    ensures var text := Joined(read);
            && Trimmed(Complete(Joined(read + [frame]))) == Trimmed(Complete(text)) + Trimmed(Complete(Rest(text) + frame))
            && Rest(Joined(read + [frame])) == Rest(Rest(text) + frame)
  {
    assert (read + [frame])[..|read|] == read;
    assert Joined(read + [frame]) == Joined(read) + frame;
    hide *;
    SplitAppend(Joined(read), frame);
    TrimmedJoin(Complete(Joined(read)), Complete(Rest(Joined(read)) + frame));
  }

  /** The batches `Follow` hands over, one frame after the other. */
  function Batches(pending: Data, ps: seq<Data>): seq<seq<Data>>
    decreases |ps|
  {
    if ps == [] then []
    else
      var ls := Trimmed(Complete(pending + ps[0]));
      (if ls == [] then [] else [ls]) + Batches(Rest(pending + ps[0]), ps[1..])
  }

  function Singles(ls: seq<Data>): seq<seq<Data>>
  {
    if ls == [] then [] else [[ls[0]]] + Singles(ls[1..])
  }

  function Take<T>(s: seq<T>, n: nat): seq<T> { if n < |s| then s[..n] else s }

  /** Follows the stream until the context is cancelled, which is after `patience` frames or
      lines; `batches` is what the callback receives. The context is asked before a frame but
      after a line, so a terminal's first line is delivered in any case. */
  method Follow(body: Data, patience: nat) returns (batches: seq<seq<Data>>)
    ensures batches == if Terminal(body) then Singles(Take(Scanned(body), if patience == 0 then 1 else patience))
                       else Batches([], Take(Payloads(body), patience))
  {
    if body == [] {
      batches := [];
    } else if body[0] > 2 {
      batches := FollowLines(body, patience);
    } else {
      batches := FollowFrames(body, patience);
    }
  }

  method FollowLines(body: Data, patience: nat) returns (batches: seq<seq<Data>>)
    ensures batches == Singles(Take(Scanned(body), if patience == 0 then 1 else patience))
  {
    hide Scanned, Take, Singles;
    ghost var n := if patience == 0 then 1 else patience;
    batches := [];
    var b, k := body, 0;
    var more, line, rest := Scan(b);
    while more && (k == 0 || k < patience)
      invariant k <= n
      invariant Singles(Take(Scanned(body), n)) == batches + Singles(Take(Scanned(b), n - k))
      invariant more <==> Scanned(b) != []
      invariant more ==> |rest| < |b| && Scanned(b) == [line] + Scanned(rest)
      decreases |b|
    {
      SinglesStep(line, Scanned(rest), n - k);
      assert batches + ([[line]] + Singles(Take(Scanned(rest), n - k - 1)))
          == batches + [[line]] + Singles(Take(Scanned(rest), n - k - 1));
      batches, b, k := batches + [[line]], rest, k + 1;
      more, line, rest := Scan(b);
    }
    NoSingles(Scanned(b), n - k);
    assert batches + [] == batches;
  }

  lemma NoSingles(ls: seq<Data>, n: nat)
    requires ls == [] || n == 0
    ensures Singles(Take(ls, n)) == []
  {
  }

  method FollowFrames(body: Data, patience: nat) returns (batches: seq<seq<Data>>)
    ensures batches == Batches([], Take(Payloads(body), patience))
  {
    hide Payloads, Trimmed, Complete, Rest, Batches;
    batches := [];
    var b, pending: Data, k := body, [], 0;
    while k < patience && HasFrame(b)
      invariant k <= patience
      invariant Batches([], Take(Payloads(body), patience)) == batches + Batches(pending, Take(Payloads(b), patience - k))
      decreases |b|
    {
      hide Take;
      var n := 8 + Size(b[..8]);
      var lines, rest := TakeLines(pending + b[8..n]);
      PayloadsStep(b, n);
      BatchesStep(pending, b[8..n], Payloads(b[n..]), patience - k);
      ghost var after := Batches(rest, Take(Payloads(b[n..]), patience - k - 1));
      if lines != [] {
        assert batches + ([lines] + after) == batches + [lines] + after;
        batches := batches + [lines];
      } else {
        assert [] + after == after;
      }
      pending, b, k := rest, b[n..], k + 1;
    }
    if !HasFrame(b) {
      PayloadsEnd(b);
    }
    NoBatches(pending, Take(Payloads(b), patience - k));
    assert batches + [] == batches;
  }

  lemma NoBatches(pending: Data, ps: seq<Data>)
    requires ps == []
    ensures Batches(pending, ps) == []
  {
  }

  lemma SinglesStep(l: Data, ls: seq<Data>, n: nat)
    requires n > 0
    ensures Singles(Take([l] + ls, n)) == [[l]] + Singles(Take(ls, n - 1))
  {
    assert Take([l] + ls, n) == [l] + Take(ls, n - 1);
    assert ([l] + Take(ls, n - 1))[1..] == Take(ls, n - 1);
  }

  lemma BatchesStep(pending: Data, p: Data, ps: seq<Data>, n: nat)
    requires n > 0
    ensures Batches(pending, Take([p] + ps, n))
            == (if Trimmed(Complete(pending + p)) == [] then [] else [Trimmed(Complete(pending + p))])
               + Batches(Rest(pending + p), Take(ps, n - 1))
  {
    assert Take([p] + ps, n) == [p] + Take(ps, n - 1);
    assert ([p] + Take(ps, n - 1))[1..] == Take(ps, n - 1);
  }

  // ---- what is promised ----

  lemma EncodeSizeBack(n: nat)
    requires n < 0x1_0000_0000
    ensures forall hdr: Data :: |hdr| == 8 && hdr[4..] == EncodeSize(n) ==> Size(hdr) == n
  {
    var e := EncodeSize(n);
    forall hdr: Data | |hdr| == 8 && hdr[4..] == e ensures Size(hdr) == n {
      assert hdr[4] == hdr[4..][0] && hdr[5] == hdr[4..][1] && hdr[6] == hdr[4..][2] && hdr[7] == hdr[4..][3];
      assert n / 0x1_0000 == (n / 256) / 256 && n / 0x100_0000 == (n / 0x1_0000) / 256;
    }
  }

  lemma FrameBack(f: Frame, t: Data)
    requires f.Valid()
    ensures var b := EncodeFrame(f) + t;
            HasFrame(b) && 8 + Size(b[..8]) == |EncodeFrame(f)| && b[8..8 + |f.payload|] == f.payload && b[8 + |f.payload|..] == t
  {
    var b := EncodeFrame(f) + t;
    assert b[..8][4..] == EncodeSize(|f.payload|);
    EncodeSizeBack(|f.payload|);
  }

  /** Decoding gives back the payloads of any frames, and ignores a frame cut short. */
  lemma {:induction false} DecodeEncode(fs: seq<Frame>, cut: Data)
    requires forall f :: f in fs ==> f.Valid()
    requires !HasFrame(cut)
    ensures Payloads(Encode(fs) + cut) == PayloadsOf(fs)
  {
    if fs == [] {
      assert Encode(fs) + cut == cut;
    } else {
      DecodeEncode(fs[1..], cut);
      var t := Encode(fs[1..]) + cut;
      var b := EncodeFrame(fs[0]) + t;
      assert |EncodeFrame(fs[0])| == 8 + |fs[0].payload|;
      hide Payloads, HasFrame, Size, EncodeFrame;
      assert Encode(fs) + cut == b;
      FrameBack(fs[0], t);
      PayloadsStep(b, 8 + |fs[0].payload|);
    }
  }

  /** A frame cut short is not read as one, wherever it is cut. */
  lemma CutFrame(f: Frame, k: nat)
    requires f.Valid() && k < |EncodeFrame(f)|
    ensures !HasFrame(EncodeFrame(f)[..k])
  {
    FrameBack(f, []);
    var e := EncodeFrame(f);
    assert e + [] == e;
    if k >= 8 {
      assert e[..k][..8] == e[..8];
    }
  }

  function Text(fs: seq<Frame>): Data
  {
    Joined(PayloadsOf(fs))
  }

  lemma NotTerminal(fs: seq<Frame>, f: Frame, k: nat)
    requires (forall g :: g in fs ==> g.Valid()) && f.Valid() && k < |EncodeFrame(f)|
    ensures !Terminal(Encode(fs) + EncodeFrame(f)[..k])
  {
    if fs != [] {
      assert fs[0].Valid();
      assert (Encode(fs) + EncodeFrame(f)[..k])[0] == EncodeFrame(fs[0])[0] == fs[0].stream;
    } else if k > 0 {
      assert (Encode(fs) + EncodeFrame(f)[..k])[0] == f.stream;
    }
  }

  /** For every list of frames, followed by a frame cut short anywhere, the log shows exactly
      the lines of the joined payloads: frame boundaries leave no trace. */
  lemma LogsShowText(fs: seq<Frame>, f: Frame, k: nat)
    requires (forall g :: g in fs ==> g.Valid()) && f.Valid() && k < |EncodeFrame(f)|
    ensures var body := Encode(fs) + EncodeFrame(f)[..k];
            !Terminal(body) && LinesOf(Joined(Payloads(body))) == LinesOf(Text(fs))
  {
    CutFrame(f, k);
    DecodeEncode(fs, EncodeFrame(f)[..k]);
    NotTerminal(fs, f, k);
  }

  function Flat(bs: seq<seq<Data>>): seq<Data>
  {
    if bs == [] then [] else bs[0] + Flat(bs[1..])
  }

  lemma {:induction false} FlatBatches(pending: Data, ps: seq<Data>)
    requires NL !in pending
    ensures Flat(Batches(pending, ps)) == Trimmed(Complete(pending + JoinedFront(ps)))
    decreases |ps|
  {
    if ps == [] {
      NoNewline(pending);
      assert pending + [] == pending;
    } else {
      var t, u := pending + ps[0], JoinedFront(ps[1..]);
      var ls := Trimmed(Complete(t));
      assert t == pending + ps[0] && u == JoinedFront(ps[1..]);
      assert JoinedFront(ps) == ps[0] + u;
      assert pending + (ps[0] + u) == t + u;
      assert Batches(pending, ps) == (if ls == [] then [] else [ls]) + Batches(Rest(t), ps[1..]);
      hide Trimmed, Complete, Batches, JoinedFront, Flat;
      FlatBatches(Rest(t), ps[1..]);
      var more := Batches(Rest(t), ps[1..]);
      SplitAppend(t, u);
      TrimmedJoin(Complete(t), Complete(Rest(t) + u));
      FlatFirst(ls, more);
    }
  }

  lemma FlatFirst(ls: seq<Data>, more: seq<seq<Data>>)
    ensures Flat((if ls == [] then [] else [ls]) + more) == ls + Flat(more)
  {
    if ls == [] {
      assert [] + more == more;
    } else {
      assert ([ls] + more)[1..] == more;
    }
  }

  function JoinedFront(ps: seq<Data>): Data
  {
    if ps == [] then [] else ps[0] + JoinedFront(ps[1..])
  }

  lemma {:induction false} JoinedEither(ps: seq<Data>)
    ensures Joined(ps) == JoinedFront(ps)
  {
    if ps != [] {
      var n := |ps| - 1;
      JoinedEither(ps[..n]);
      JoinedFrontLast(ps[..n], ps[n]);
      assert ps == ps[..n] + [ps[n]];
    }
  }

  lemma {:induction false} JoinedFrontLast(ps: seq<Data>, p: Data)
    ensures JoinedFront(ps + [p]) == JoinedFront(ps) + p
  {
    if ps == [] {
      assert ps + [p] == [p] && [p][1..] == [];
    } else {
      JoinedFrontLast(ps[1..], p);
      assert (ps + [p])[1..] == ps[1..] + [p];
    }
  }

  lemma {:induction false} BatchesFull(pending: Data, ps: seq<Data>)
    ensures forall b :: b in Batches(pending, ps) ==> b != []
    decreases |ps|
  {
    if ps != [] {
      BatchesFull(Rest(pending + ps[0]), ps[1..]);
    }
  }

  /** Following the same stream delivers, in non-empty batches, the same complete lines in the
      same order; a last line without a newline is never delivered. */
  lemma FollowShowsLines(body: Data)
    ensures var text := Joined(Payloads(body));
            var bs := Batches([], Payloads(body));
            && Flat(bs) + (if Rest(text) == [] then [] else [Rest(text)]) == LinesOf(text)
            && forall b :: b in bs ==> b != []
  {
    FlatBatches([], Payloads(body));
    JoinedEither(Payloads(body));
    assert [] + Joined(Payloads(body)) == Joined(Payloads(body));
    BatchesFull([], Payloads(body));
  }

  // ---- what a program wrote ----

  /** A line as it was written: its text, and whether a carriage return precedes the newline. */
  datatype Written = Written(text: Data, cr: bool)

  predicate Plain(l: Data)
  {
    NL !in l && (l != [] ==> l[|l| - 1] != CR)
  }

  /** The bytes of these lines. */
  function Output(ws: seq<Written>): Data
  {
    if ws == [] then []
    else
      var w := ws[|ws| - 1];
      Output(ws[..|ws| - 1]) + (w.text + (if w.cr then [CR] else []) + [NL])
  }

  function Texts(ws: seq<Written>): seq<Data>
  {
    if ws == [] then [] else Texts(ws[..|ws| - 1]) + [ws[|ws| - 1].text]
  }

  lemma {:induction false} OutputLines(ws: seq<Written>, last: Data)
    requires (forall w :: w in ws ==> Plain(w.text)) && NL !in last
    ensures Trimmed(Complete(Output(ws) + last)) == Texts(ws) && Rest(Output(ws) + last) == last
    decreases |ws|
  {
    if ws == [] {
      assert Output(ws) + last == last;
      NoNewline(last);
    } else {
      var n := |ws| - 1;
      var w := ws[n];
      var raw := w.text + if w.cr then [CR] else [];
      assert ws == ws[..n] + [w];
      assert Plain(w.text);
      TrimWritten(w);
      hide Complete, Rest, Trimmed, TrimCR, Plain;
      OutputLines(ws[..n], []);
      assert Output(ws[..n]) + [] == Output(ws[..n]);
      assert Output(ws) + last == Output(ws[..n]) + (raw + [NL] + last);
      SplitAppend(Output(ws[..n]), raw + [NL] + last);
      assert [] + (raw + [NL] + last) == raw + [NL] + last;
      NoNewline(last);
      SplitLine(raw, last);
      TrimmedJoin(Complete(Output(ws[..n])), [raw]);
      assert [raw] + [] == [raw];
      TrimmedOne(raw);
    }
  }

  lemma TrimWritten(w: Written)
    requires Plain(w.text)
    ensures var raw := w.text + (if w.cr then [CR] else []); TrimCR(raw) == w.text && NL !in raw
  {
    if w.cr {
      assert (w.text + [CR])[..|w.text|] == w.text;
    } else {
      assert w.text + [] == w.text;
    }
  }

  lemma TrimmedOne(l: Data)
    ensures Trimmed([l]) == [TrimCR(l)]
  {
    assert [l][..0] == [];
  }

  /** Round trip: the log shows the lines a program wrote, whichever of the two line ends it used,
      and a last line it has not ended yet. */
  lemma WrittenLinesShow(ws: seq<Written>, last: Data)
    requires (forall w :: w in ws ==> Plain(w.text)) && NL !in last
    ensures LinesOf(Output(ws) + last) == Texts(ws) + (if last == [] then [] else [last])
  {
    OutputLines(ws, last);
  }

  // ---- what the line scanner shows ----

  /** The lines of a text as they are, an unfinished last one included. */
  function Raw(b: Data): seq<Data>
  {
    Complete(b) + if Rest(b) == [] then [] else [Rest(b)]
  }

  /** The lines before the first that the scanner has no room for. */
  function Fitting(ls: seq<Data>): seq<Data>
    decreases |ls|
  {
    if ls == [] || |ls[0]| >= MAX_TOKEN then [] else [ls[0]] + Fitting(ls[1..])
  }

  /** A terminal's log is read up to the first line of a mebibyte or more, and is then complete
      exactly if there is none. */
  lemma {:induction false} ScannedIs(b: Data)
    ensures Scanned(b) == Trimmed(Fitting(Raw(b)))
    decreases |b|
  {
    hide *;
    var i := NewlineAt(b);
    if i < |b| {
      ScannedIs(b[i + 1..]);
      ScanLine(b, i);
    } else {
      ScanEnd(b);
    }
  }

  lemma ScanLine(b: Data, i: nat)
    requires i == NewlineAt(b) < |b| && Scanned(b[i + 1..]) == Trimmed(Fitting(Raw(b[i + 1..])))
    ensures Scanned(b) == Trimmed(Fitting(Raw(b)))
  {
    hide Complete, Rest, TrimCR, NewlineAt;
    var l, more := b[..i], b[i + 1..];
    LineOff(b, i);
    RawLine(b, i);
    FittingLine(l, Raw(more));
    TrimmedJoin([l], Fitting(Raw(more)));
    TrimmedOne(l);
  }

  lemma RawLine(b: Data, i: nat)
    requires i < |b| && Complete(b) == [b[..i]] + Complete(b[i + 1..]) && Rest(b) == Rest(b[i + 1..])
    ensures Raw(b) == [b[..i]] + Raw(b[i + 1..])
  {
  }

  lemma FittingLine(l: Data, ls: seq<Data>)
    ensures Fitting([l] + ls) == if |l| >= MAX_TOKEN then [] else [l] + Fitting(ls)
  {
    assert ([l] + ls)[1..] == ls;
  }

  lemma ScanEnd(b: Data)
    requires NewlineAt(b) == |b|
    ensures Scanned(b) == Trimmed(Fitting(Raw(b)))
  {
    AllTaken(b);
    hide Complete, Rest, TrimCR, NewlineAt;
    if b == [] {
      assert Raw(b) == [];
    } else {
      assert Raw(b) == [b] + [];
      FittingLine(b, []);
      TrimmedOne(b);
    }
  }

  lemma {:induction false} FittingIff(ls: seq<Data>)
    ensures Fitting(ls) == ls <==> forall l :: l in ls ==> |l| < MAX_TOKEN
    ensures |Fitting(ls)| == |ls| ==> Fitting(ls) == ls
    ensures |Fitting(ls)| <= |ls|
    decreases |ls|
  {
    if ls != [] {
      assert ls == [ls[0]] + ls[1..];
      FittingIff(ls[1..]);
    }
  }

  lemma {:induction false} TrimmedLength(ls: seq<Data>)
    ensures |Trimmed(ls)| == |ls|
  {
    if ls != [] {
      TrimmedLength(ls[..|ls| - 1]);
    }
  }

  /** ... every line is shown if and only if none is that long. */
  lemma ScannedAllIff(b: Data)
    ensures Scanned(b) == Trimmed(Raw(b)) <==> forall l :: l in Raw(b) ==> |l| < 0x10_0000
  {
    hide Scanned, Trimmed, Raw, Fitting;
    ScannedIs(b);
    FittingIff(Raw(b));
    TrimmedLength(Raw(b));
    TrimmedLength(Fitting(Raw(b)));
  }

  // ---- following, cut short ----

  lemma {:induction false} FlatSingles(ls: seq<Data>)
    ensures Flat(Singles(ls)) == ls
    decreases |ls|
  {
    if ls != [] {
      FlatSingles(ls[1..]);
      assert Singles(ls)[1..] == Singles(ls[1..]);
      assert ls == [ls[0]] + ls[1..];
    }
  }

  lemma SinglesAre(ls: seq<Data>, n: nat)
    ensures Flat(Singles(Take(ls, n))) == ls[..if n < |ls| then n else |ls|]
  {
    FlatSingles(Take(ls, n));
  }

  lemma {:induction false} JoinedTake(ps: seq<Data>, n: nat)
    requires n <= |ps|
    ensures Joined(ps[..n]) <= Joined(ps)
  {
    if n < |ps| {
      var m := |ps| - 1;
      JoinedTake(ps[..m], n);
      assert ps[..m][..n] == ps[..n];
    } else {
      assert ps[..n] == ps;
    }
  }

  lemma MoreText(a: Data, b: Data)
    ensures Trimmed(Complete(a)) <= Trimmed(Complete(a + b))
  {
    hide Trimmed, Complete, Rest;
    SplitAppend(a, b);
    TrimmedJoin(Complete(a), Complete(Rest(a) + b));
  }

  /** Whenever the context is cancelled, what was delivered are the first lines of what would have
      been: of a terminal exactly as many as were asked for, but at least one. */
  lemma FollowIsPrefix(body: Data, patience: nat)
    ensures Flat(Batches([], Take(Payloads(body), patience))) <= Flat(Batches([], Payloads(body)))
    ensures var n := if patience == 0 then 1 else patience;
            Flat(Singles(Take(Scanned(body), n))) == Scanned(body)[..if n < |Scanned(body)| then n else |Scanned(body)|]
  {
    hide Scanned, Singles, Payloads, Trimmed, Complete, Batches, Flat;
    var ps := Payloads(body);
    var few := Take(ps, patience);
    SinglesAre(Scanned(body), if patience == 0 then 1 else patience);
    FlatBatches([], ps);
    FlatBatches([], few);
    JoinedEither(ps);
    JoinedEither(few);
    JoinedTake(ps, |few|);
    assert few == ps[..|few|];
    var a, b := Joined(few), Joined(ps);
    assert a + b[|a|..] == b;
    MoreText(a, b[|a|..]);
    assert [] + a == a && [] + b == b;
  }
}
