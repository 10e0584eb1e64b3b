/** The standard reading of an event stream, sections 9.2.5 and 9.2.6 of the WHATWG HTML Living
    Standard, and when the parser of agent/internal/tokenproxy/parse.go agrees with it. */
module EventStream {
  import opened Wrappers
  import opened Lines
  import opened Sse

  const SPACE: Byte := 32
  const COLON: Byte := 58
  const BOM: Data := [0xEF, 0xBB, 0xBF]
  const DATA_FIELD: Data := [100, 97, 116, 97]         // "data"

  // ---- the standard: lines (9.2.5) ----

  /** Index of the first CR or LF, or the length when there is none. */
  function EndAt(b: Data): (i: nat)
    ensures i <= |b|
    ensures forall j :: 0 <= j < i ==> b[j] != NL && b[j] != CR
    ensures i < |b| ==> b[i] == NL || b[i] == CR
  {
    if b == [] || b[0] == NL || b[0] == CR then 0 else 1 + EndAt(b[1..])
  }

  /** Lines end with CRLF, with LF, or with CR. */
  function TerminatedLines(b: Data): (ls: seq<Data>)
    ensures forall l :: l in ls ==> NL !in l && CR !in l
    decreases |b|
  {
    var i := EndAt(b);
    if i == |b| then []
    else
      var next := if b[i] == CR && i + 1 < |b| && b[i + 1] == NL then i + 2 else i + 1;
      [b[..i]] + TerminatedLines(b[next..])
  }

  /** A byte order mark in front is no part of the first line. */
  function StandardLines(body: Data): seq<Data>
  {
    TerminatedLines(if BOM <= body then body[3..] else body)
  }

  // ---- the standard: events (9.2.6) ----

  function ColonAt(l: Data): (i: nat)
    ensures i <= |l|
    ensures forall j :: 0 <= j < i ==> l[j] != COLON
    ensures i < |l| ==> l[i] == COLON
  {
    if l == [] || l[0] == COLON then 0 else 1 + ColonAt(l[1..])
  }

  /** The name of the field: empty in a comment, the whole line without a colon. */
  function Field(l: Data): Data
  {
    l[..ColonAt(l)]
  }

  /** What follows the colon, less one space. */
  function Value(l: Data): Data
  {
    var i := ColonAt(l);
    if i == |l| then []
    else if i + 1 < |l| && l[i + 1] == SPACE then l[i + 2..]
    else l[i + 1..]
  }

  /** The data buffer, and the data of the events dispatched. */
  datatype Reader = Reader(buffer: Data, sent: seq<Data>)

  function Interpret(r: Reader, l: Data): Reader
  {
    if l == [] then
      if r.buffer == [] then r
      else Reader([], r.sent + [if r.buffer[|r.buffer| - 1] == NL then r.buffer[..|r.buffer| - 1] else r.buffer])
    else if Field(l) == DATA_FIELD then r.(buffer := r.buffer + (Value(l) + [NL]))
    else r
  }

  function InterpretAll(ls: seq<Data>): Reader
  {
    if ls == [] then Reader([], []) else Interpret(InterpretAll(ls[..|ls| - 1]), ls[|ls| - 1])
  }

  /** The data of every event of the body; what is buffered at its end is discarded. */
  function Messages(body: Data): seq<Data>
  {
    InterpretAll(StandardLines(body)).sent
  }

  // ---- what a client of either reading decodes ----

  /** The data texts, trimmed, that are neither blank nor the end mark. */
  function Payloads(trim: Data -> Data, texts: seq<Data>): seq<Data>
  {
    if texts == [] then []
    else
      var before, p := Payloads(trim, texts[..|texts| - 1]), trim(texts[|texts| - 1]);
      if p == [] || p == DONE then before else before + [p]
  }

  function Decoded(decode: Data -> Option<Event>, ps: seq<Data>): seq<Event>
  {
    if ps == [] then []
    else
      var before := Decoded(decode, ps[..|ps| - 1]);
      match decode(ps[|ps| - 1])
      case None => before
      case Some(e) => before + [e]
  }

  function EventsOf(env: Env, texts: seq<Data>): seq<Event>
  {
    Decoded(env.decode, Payloads(env.trim, texts))
  }

  function StandardEvents(env: Env, body: Data): seq<Event>
  {
    EventsOf(env, Messages(body))
  }

  // ---- trimming ----

  /** What is assumed of strings.TrimSpace. */
  ghost predicate Trims(trim: Data -> Data)
  {
    && trim([]) == []
    && (forall x: Data :: NL !in x ==> NL !in trim(x))
    && (forall x: Data :: trim([SPACE] + x) == trim(x))
    && (forall x: Data, y: Data :: trim(x) == [] ==> trim(x + [NL] + y) == trim(y))
    && (forall x: Data, y: Data :: trim(y) == [] ==> trim(x + [NL] + y) == trim(x))
    && (forall x: Data, y: Data :: trim(x) != [] && trim(y) != [] ==> NL in trim(x + [NL] + y))
  }

  predicate IsSpace(c: Byte) { c == SPACE || 9 <= c <= 13 }

  function TrimLeft(x: Data): Data
  {
    if x != [] && IsSpace(x[0]) then TrimLeft(x[1..]) else x
  }

  function TrimRight(x: Data): Data
  {
    if x != [] && IsSpace(x[|x| - 1]) then TrimRight(x[..|x| - 1]) else x
  }

  /** Trimming of ASCII text. */
  function TrimSpace(x: Data): Data
  {
    TrimRight(TrimLeft(x))
  }

  predicate Blank(x: Data)
  {
    forall i :: 0 <= i < |x| ==> IsSpace(x[i])
  }

  lemma {:induction false} TrimLeftOf(x: Data, y: Data)
    ensures TrimLeft(x + y) == if Blank(x) then TrimLeft(y) else TrimLeft(x) + y
    ensures TrimLeft(x) == [] <==> Blank(x)
    ensures NL !in x ==> NL !in TrimLeft(x)
  {
    if x == [] {
      assert x + y == y;
    } else {
      assert (x + y)[1..] == x[1..] + y;
      TrimLeftOf(x[1..], y);
    }
  }

  lemma {:induction false} TrimRightOf(x: Data, y: Data)
    ensures TrimRight(x + y) == if Blank(y) then TrimRight(x) else x + TrimRight(y)
    ensures TrimRight(y) == [] <==> Blank(y)
    ensures NL !in y ==> NL !in TrimRight(y)
  {
    if y == [] {
      assert x + y == x;
    } else {
      var n := |y| - 1;
      assert (x + y)[..|x + y| - 1] == x + y[..n];
      TrimRightOf(x, y[..n]);
    }
  }

  lemma {:induction false} NotBlankInside(x: Data)
    requires !Blank(x)
    ensures TrimLeft(x) != [] && !Blank(TrimLeft(x))
  {
    if !IsSpace(x[0]) {
    } else {
      NotBlankInside(x[1..]);
    }
  }

  lemma TrimBlankIff(x: Data)
    ensures TrimSpace(x) == [] <==> Blank(x)
    ensures NL !in x ==> NL !in TrimSpace(x)
  {
    TrimLeftOf(x, []);
    TrimRightOf([], TrimLeft(x));
    if !Blank(x) {
      NotBlankInside(x);
    }
  }

  lemma TrimAround(x: Data, y: Data)
    ensures Blank(x) ==> TrimSpace(x + [NL] + y) == TrimSpace(y)
    ensures Blank(y) ==> TrimSpace(x + [NL] + y) == TrimSpace(x)
    ensures !Blank(x) && !Blank(y) ==> NL in TrimSpace(x + [NL] + y)
  {
    TrimLeftOf(x + [NL], y);
    TrimLeftOf(x, [NL]);
    assert TrimLeft(x + [NL]) == if Blank(x) then TrimLeft([NL]) else TrimLeft(x) + [NL];
    assert Blank([NL]) && TrimLeft([NL][1..]) == [];
    if Blank(x) {
      assert Blank(x + [NL]);
      TrimBlankIff(x);
      TrimBlankIff(y);
    } else {
      var l := TrimLeft(x);
      assert TrimLeft(x + [NL] + y) == l + [NL] + y;
      if Blank(y) {
        assert Blank([NL] + y);
        assert l + [NL] + y == l + ([NL] + y);
        TrimRightOf(l, [NL] + y);
      } else {
        TrimRightOf(l + [NL], y);
        assert NL in l + [NL] + TrimRight(y);
      }
    }
  }

  /** ASCII trimming is as assumed. */
  lemma TrimSpaceTrims()
    ensures Trims(TrimSpace)
  {
    forall x: Data ensures NL !in x ==> NL !in TrimSpace(x) {
      TrimBlankIff(x);
    }
    forall x: Data ensures TrimSpace([SPACE] + x) == TrimSpace(x) {
      TrimLeftOf([SPACE], x);
    }
    forall x: Data, y: Data
      ensures TrimSpace(x) == [] ==> TrimSpace(x + [NL] + y) == TrimSpace(y)
      ensures TrimSpace(y) == [] ==> TrimSpace(x + [NL] + y) == TrimSpace(x)
      ensures TrimSpace(x) != [] && TrimSpace(y) != [] ==> NL in TrimSpace(x + [NL] + y)
    {
      TrimBlankIff(x);
      TrimBlankIff(y);
      TrimAround(x, y);
    }
    hide TrimSpace;
    TrimNothing();
  }

  lemma TrimNothing()
    ensures TrimSpace([]) == []
  {
  }

  // ---- the same lines ----

  /** The lines of the code, without the CR of a CRLF. */
  function Bare(ls: seq<Data>): seq<Data>
  {
    seq(|ls|, i requires 0 <= i < |ls| => TrimCR(ls[i]))
  }

  function CodeLines(body: Data): seq<Data>
  {
    Bare(Complete(body))
  }

  /** Every CR is the first half of a CRLF, and no complete line has a byte order mark in front. */
  predicate CodeLineEnds(body: Data)
  {
    && PairedCRs(body)
    && (BOM <= body ==> NL !in body)
  }

  predicate PairedCRs(b: Data)
  {
    forall k :: 0 <= k < |b| && b[k] == CR ==> k + 1 < |b| && b[k + 1] == NL
  }

  lemma BareCons(l: Data, ls: seq<Data>)
    ensures Bare([l] + ls) == [TrimCR(l)] + Bare(ls)
  {
  }

  /** The first line end of m, a line end and t. */
  lemma EndAfter(m: Data, t: Data)
    requires NL !in m && CR !in m && t != [] && (t[0] == NL || t[0] == CR)
    ensures EndAt(m + t) == |m|
  {
    var s := m + t;
    assert s[|m|] == t[0];
    assert forall j :: 0 <= j < |m| ==> s[j] == m[j] && m[j] in m;
  }

  lemma LineThenLF(m: Data, t: Data)
    requires NL !in m && CR !in m
    ensures TerminatedLines(m + [NL] + t) == [m] + TerminatedLines(t)
  {
    var s := m + [NL] + t;
    assert s == m + ([NL] + t);
    EndAfter(m, [NL] + t);
    assert s[..|m|] == m && s[|m| + 1..] == t;
  }

  lemma LineThenCRLF(m: Data, t: Data)
    requires NL !in m && CR !in m
    ensures TerminatedLines(m + [CR, NL] + t) == [m] + TerminatedLines(t)
  {
    var s := m + [CR, NL] + t;
    assert s == m + ([CR, NL] + t);
    EndAfter(m, [CR, NL] + t);
    assert s[|m| + 1] == NL && s[..|m|] == m && s[|m| + 2..] == t;
  }

  lemma LineThenCR(m: Data, t: Data)
    requires NL !in m && CR !in m && (t == [] || t[0] != NL)
    ensures TerminatedLines(m + [CR] + t) == [m] + TerminatedLines(t)
  {
    var s := m + [CR] + t;
    assert s == m + ([CR] + t);
    EndAfter(m, [CR] + t);
    assert s[..|m|] == m && s[|m| + 1..] == t;
    assert t != [] ==> s[|m| + 1] == t[0];
  }

  /** One line of the code, when it has no CR but at its end. */
  lemma OneCodeLine(l: Data, t: Data)
    requires NL !in l && CR !in TrimCR(l)
    ensures TerminatedLines(l + [NL] + t) == [TrimCR(l)] + TerminatedLines(t)
  {
    var m := TrimCR(l);
    if m == l {
      LineThenLF(l, t);
    } else {
      assert l == m + [CR];
      assert l + [NL] + t == m + [CR, NL] + t;
      LineThenCRLF(m, t);
    }
  }

  lemma PairedStep(l: Data, t: Data)
    requires NL !in l
    ensures PairedCRs(l + [NL] + t) <==> CR !in TrimCR(l) && PairedCRs(t)
  {
    var b := l + [NL] + t;
    assert b[|l|] == NL;
    assert forall k :: 0 <= k < |l| ==> b[k] == l[k];
    assert forall k :: 0 <= k < |t| ==> b[|l| + 1 + k] == t[k];
    if PairedCRs(b) {
      forall k | 0 <= k < |t| && t[k] == CR ensures k + 1 < |t| && t[k + 1] == NL {
        assert b[|l| + 1 + k] == CR;
        assert b[|l| + 1 + k + 1] == NL;
      }
      var m := TrimCR(l);
      assert forall k :: 0 <= k < |l| ==> l[k] in l;
      forall k | 0 <= k < |m| ensures m[k] != CR {
        assert m[k] == b[k];
        assert k + 1 < |l| ==> b[k + 1] != NL;
      }
    }
    if CR !in TrimCR(l) && PairedCRs(t) {
      forall k | 0 <= k < |b| && b[k] == CR ensures k + 1 < |b| && b[k + 1] == NL {
        if k < |l| {
          assert l[k] == CR && k == |l| - 1;
        } else {
          assert t[k - |l| - 1] == CR;
          assert t[k - |l|] == NL;
        }
      }
    }
  }

  lemma NoLineEnd(b: Data)
    requires NL !in b
    ensures TerminatedLines(b) == [] <==> PairedCRs(b)
  {
    if EndAt(b) < |b| {
      assert b[EndAt(b)] == CR;
    }
    assert forall k :: 0 <= k < |b| ==> b[k] in b;
  }

  /** Apart from a byte order mark, the code finds the lines of the standard exactly when every
      CR is directly followed by an LF. */
  lemma {:induction false} LinesAgreeIff(b: Data)
    ensures CodeLines(b) == TerminatedLines(b) <==> PairedCRs(b)
    decreases |b|
  {
    var i := NewlineAt(b);
    if i == |b| {
      assert Complete(b) == [];
      NoLineEnd(b);
    } else {
      var l, t := b[..i], b[i + 1..];
      assert b == l + [NL] + t;
      hide Complete, TerminatedLines, Bare, TrimCR, PairedCRs, NewlineAt;
      SplitLine(l, t);
      BareCons(l, Complete(t));
      PairedStep(l, t);
      LinesAgreeIff(t);
      if CR !in TrimCR(l) {
        OneCodeLine(l, t);
        assert ([TrimCR(l)] + CodeLines(t))[1..] == CodeLines(t);
        assert ([TrimCR(l)] + TerminatedLines(t))[1..] == TerminatedLines(t);
      } else {
        assert CodeLines(b)[0] == TrimCR(l);
        assert CodeLines(b) != TerminatedLines(b);
      }
    }
  }

  /** With a byte order mark, only a body without complete lines keeps its lines. */
  lemma MarkShows(t: Data)
    requires NL in BOM + t
    ensures CodeLines(BOM + t) != TerminatedLines(t)
  {
    hide CodeLines, TerminatedLines, NewlineAt, EndAt;
    var b := BOM + t;
    var i := NewlineAt(b);
    MarkBefore(t, i);
    FirstCodeLine(b, i);
    FirstTerminated(t);
    assert |TrimCR(b[..i])| >= i - 1;
    hide *;
  }

  lemma MarkBefore(t: Data, i: nat)
    requires NL in BOM + t && i == NewlineAt(BOM + t)
    ensures i < |BOM + t| && EndAt(t) <= i - 3 && EndAt(t) < |t|
  {
    var b := BOM + t;
    var k :| 0 <= k < |b| && b[k] == NL;
    assert i < |b| && i >= 3;
    assert t[i - 3] == b[i] == NL;
  }

  lemma FirstCodeLine(b: Data, i: nat)
    requires i == NewlineAt(b) < |b|
    ensures CodeLines(b) != [] && CodeLines(b)[0] == TrimCR(b[..i])
  {
    FirstLine(b, i);
    hide Complete, TrimCR, NewlineAt;
  }

  lemma FirstTerminated(t: Data)
    ensures EndAt(t) < |t| ==> TerminatedLines(t) != [] && |TerminatedLines(t)[0]| == EndAt(t)
  {
    hide EndAt;
  }

  /** The code finds the lines of the standard exactly when the line ends are its own. */
  lemma SameLinesIff(body: Data)
    ensures CodeLines(body) == StandardLines(body) <==> CodeLineEnds(body)
  {
    if BOM <= body {
      var t := body[3..];
      assert body == BOM + t;
      assert NL !in body ==> CodeLines(body) == [] by {
        if NL !in body {
          NoNewline(body);
        }
      }
      hide TerminatedLines, CodeLines, PairedCRs;
      if NL in body {
        MarkShows(t);
      } else {
        assert forall k :: 0 <= k < |t| ==> t[k] == body[k + 3] && body[k + 3] in body;
        NoLineEnd(t);
        MarkPaired(t);
      }
    } else {
      hide TerminatedLines, CodeLines, PairedCRs;
      LinesAgreeIff(body);
    }
  }

  lemma MarkPaired(t: Data)
    ensures PairedCRs(BOM + t) <==> PairedCRs(t)
  {
    var b := BOM + t;
    assert forall k :: 0 <= k < |t| ==> b[k + 3] == t[k];
    if PairedCRs(b) {
      forall k | 0 <= k < |t| && t[k] == CR ensures k + 1 < |t| && t[k + 1] == NL {
        assert b[k + 3] == CR && b[k + 4] == NL;
      }
    }
    if PairedCRs(t) {
      forall k | 0 <= k < |b| && b[k] == CR ensures k + 1 < |b| && b[k + 1] == NL {
        assert t[k - 3] == CR && t[k - 2] == NL;
      }
    }
  }

  // ---- the same events ----

  /** A data line with something in it. */
  predicate Says(trim: Data -> Data, l: Data)
  {
    Field(l) == DATA_FIELD && trim(Value(l)) != []
  }

  /** What the data lines after the last empty line say. */
  function Open(trim: Data -> Data, ls: seq<Data>): seq<Data>
  {
    if ls == [] then []
    else
      var before, l := Open(trim, ls[..|ls| - 1]), ls[|ls| - 1];
      if l == [] then [] else if Says(trim, l) then before + [trim(Value(l))] else before
  }

  /** An empty line never ends an event of two data lines that say something. */
  predicate OneLinePerEvent(trim: Data -> Data, ls: seq<Data>)
  {
    forall k :: 0 <= k < |ls| && ls[k] == [] ==> |Open(trim, ls[..k])| <= 1
  }

  /** After the last empty line no data line says anything but the end mark. */
  predicate LastEventEnds(trim: Data -> Data, ls: seq<Data>)
  {
    var open := Open(trim, ls);
    forall p :: p in open ==> p == DONE
  }

  /** The texts after "data:" that the code takes, line by line. */
  function DataTexts(ls: seq<Data>): seq<Data>
  {
    if ls == [] then []
    else
      var before, l := DataTexts(ls[..|ls| - 1]), ls[|ls| - 1];
      if DATA <= l then before + [l[5..]] else before
  }

  /** The code's data lines are those of the standard, up to trimming; but a field without a
      colon has no value. */
  lemma DataLine(trim: Data -> Data, l: Data)
    requires Trims(trim)
    ensures Says(trim, l) <==> DATA <= l && trim(l[5..]) != []
    ensures DATA <= l ==> trim(Value(l)) == trim(l[5..])
  {
    DataFieldIs(l);
    if DATA <= l && 5 < |l| && l[5] == SPACE {
      assert l[5..] == [SPACE] + l[6..];
    }
  }

  lemma PrefixOf(l: Data, p: Data, c: Byte)
    requires p + [c] <= l
    ensures l[..|p|] == p
  {
    assert l[..|p| + 1] == p + [c];
  }

  lemma DataFieldIs(l: Data)
    ensures DATA <= l ==> Field(l) == DATA_FIELD && Value(l) == if 5 < |l| && l[5] == SPACE then l[6..] else l[5..]
    ensures Field(l) == DATA_FIELD && !(DATA <= l) ==> Value(l) == []
  {
    assert DATA == DATA_FIELD + [COLON];
    var i := ColonAt(l);
    if DATA <= l {
      assert l[0] == 100 && l[1] == 97 && l[2] == 116 && l[3] == 97 && l[4] == COLON;
      assert i == 4;
      PrefixOf(l, DATA_FIELD, COLON);
    }
    if i < |l| && l[..i] == DATA_FIELD {
      assert i == 4 && l[4] == COLON;
      assert l[..5] == l[..4] + [l[4]] == DATA;
    }
  }

  function Marked(ps: seq<Data>): seq<Data>
  {
    if ps == [] then []
    else if ps[|ps| - 1] == DONE then Marked(ps[..|ps| - 1])
    else Marked(ps[..|ps| - 1]) + [ps[|ps| - 1]]
  }

  lemma InFrontOrLast<T>(s: seq<T>, x: T)
    requires s != []
    ensures x in s <==> x in s[..|s| - 1] || x == s[|s| - 1]
  {
    assert s == s[..|s| - 1] + [s[|s| - 1]];
  }

  lemma {:induction false} MarkedEmptyIff(ps: seq<Data>)
    ensures Marked(ps) == [] <==> forall p :: p in ps ==> p == DONE
  {
    if ps != [] {
      var n := |ps| - 1;
      MarkedEmptyIff(ps[..n]);
      if Marked(ps) == [] {
        forall p | p in ps ensures p == DONE {
          InFrontOrLast(ps, p);
        }
      } else if ps[n] == DONE {
        var p :| p in ps[..n] && p != DONE;
        InFrontOrLast(ps, p);
      } else {
        assert ps[n] in ps;
      }
    }
  }

  function Undelivered(buffer: Data): Data
  {
    if buffer != [] && buffer[|buffer| - 1] == NL then buffer[..|buffer| - 1] else buffer
  }

  /** The buffer holds what the open data lines say. */
  ghost predicate Holds(trim: Data -> Data, buffer: Data, open: seq<Data>)
  {
    && (buffer == [] || buffer[|buffer| - 1] == NL)
    && (buffer == [] ==> open == [])
    && (open == [] ==> trim(Undelivered(buffer)) == [])
    && (|open| == 1 ==> trim(Undelivered(buffer)) == open[0])
    && (|open| > 1 ==> NL in trim(Undelivered(buffer)))
    && (forall p :: p in open ==> p != [] && NL !in p)
  }

  lemma HoldsMore(trim: Data -> Data, buffer: Data, open: seq<Data>, v: Data)
    requires Trims(trim) && Holds(trim, buffer, open) && NL !in v
    ensures Holds(trim, buffer + (v + [NL]), if trim(v) == [] then open else open + [trim(v)])
  {
    var b := buffer + (v + [NL]);
    assert b[|b| - 1] == NL;
    if buffer == [] {
      assert b[..|b| - 1] == v;
    } else {
      var x := Undelivered(buffer);
      assert buffer == x + [NL];
      assert b[..|b| - 1] == x + [NL] + v;
    }
  }

  lemma {:induction false} BufferHolds(trim: Data -> Data, ls: seq<Data>)
    requires Trims(trim)
    requires forall l :: l in ls ==> NL !in l
    ensures Holds(trim, InterpretAll(ls).buffer, Open(trim, ls))
  {
    if ls != [] {
      var n := |ls| - 1;
      BufferHolds(trim, ls[..n]);
      var l := ls[n];
      hide Holds;
      if l == [] {
        NothingHeld(trim);
        BufferAfter(trim, InterpretAll(ls[..n]));
      } else if Field(l) == DATA_FIELD {
        ValueInside(l);
        HoldsMore(trim, InterpretAll(ls[..n]).buffer, Open(trim, ls[..n]), Value(l));
      }
    }
  }

  lemma ValueInside(l: Data)
    ensures forall c :: c in Value(l) ==> c in l
  {
  }

  lemma BufferAfter(trim: Data -> Data, r: Reader)
    ensures Interpret(r, []).buffer == []
  {
  }

  lemma NothingHeld(trim: Data -> Data)
    requires Trims(trim)
    ensures Holds(trim, [], [])
  {
  }

  lemma OnePerEventStep(trim: Data -> Data, ls: seq<Data>)
    requires ls != []
    ensures var n := |ls| - 1;
            OneLinePerEvent(trim, ls) <==> OneLinePerEvent(trim, ls[..n]) && (ls[n] == [] ==> |Open(trim, ls[..n])| <= 1)
  {
    hide Open;
    var n := |ls| - 1;
    assert forall k :: 0 <= k < n ==> ls[..n][..k] == ls[..k] && ls[..n][k] == ls[k];
  }

  lemma PayloadsMore(trim: Data -> Data, texts: seq<Data>, t: Data)
    ensures Payloads(trim, texts + [t])
            == Payloads(trim, texts) + if trim(t) == [] || trim(t) == DONE then [] else [trim(t)]
  {
    assert (texts + [t])[..|texts|] == texts;
  }

  lemma MarkedMore(ps: seq<Data>, p: Data)
    ensures Marked(ps + [p]) == Marked(ps) + if p == DONE then [] else [p]
  {
    assert (ps + [p])[..|ps|] == ps;
  }

  /** The payload a text gives, if any. */
  function PayloadOf(trim: Data -> Data, text: Data): seq<Data>
  {
    if trim(text) == [] || trim(text) == DONE then [] else [trim(text)]
  }

  /** A dispatch delivers the buffer, unless it is empty. */
  lemma Delivered(trim: Data -> Data, r: Reader)
    ensures Payloads(trim, Interpret(r, []).sent)
            == Payloads(trim, r.sent) + if r.buffer == [] then [] else PayloadOf(trim, Undelivered(r.buffer))
  {
    if r.buffer == [] {
      assert Payloads(trim, r.sent) + [] == Payloads(trim, r.sent);
    } else {
      PayloadsMore(trim, r.sent, Undelivered(r.buffer));
      hide Payloads;
    }
  }

  /** What the buffer delivers is what the open data lines say, if it is one line or none. */
  lemma DeliversOpen(trim: Data -> Data, buffer: Data, open: seq<Data>)
    requires Holds(trim, buffer, open) && |open| <= 1
    ensures Marked(open) == if buffer == [] then [] else PayloadOf(trim, Undelivered(buffer))
  {
    MarkedFew(open);
    assert |open| == 1 ==> open[0] in open;
    hide Marked, Undelivered;
  }

  /** Two lines or more deliver one payload with a line feed in it. */
  lemma DeliversJoined(trim: Data -> Data, buffer: Data, open: seq<Data>)
    requires Holds(trim, buffer, open) && |open| > 1
    ensures buffer != [] && NL in trim(Undelivered(buffer)) && PayloadOf(trim, Undelivered(buffer)) == [trim(Undelivered(buffer))]
  {
    hide Undelivered;
    NoLineFeed();
  }

  lemma NoLineFeed()
    ensures NL !in DONE && NL !in []
  {
  }

  /** What a dispatch adds to the payloads. */
  lemma DispatchAdds(trim: Data -> Data, r: Reader, open: seq<Data>)
    requires Holds(trim, r.buffer, open)
    ensures var after := Payloads(trim, Interpret(r, []).sent);
            && (|open| <= 1 ==> after == Payloads(trim, r.sent) + Marked(open))
            && (|open| > 1 ==> exists p :: p in after && NL in p)
            && forall p :: p in Payloads(trim, r.sent) ==> p in after
  {
    hide *;
    Delivered(trim, r);
    var p := trim(Undelivered(r.buffer));
    InEither(Payloads(trim, r.sent), if r.buffer == [] then [] else PayloadOf(trim, Undelivered(r.buffer)));
    if |open| <= 1 {
      DeliversOpen(trim, r.buffer, open);
    } else {
      DeliversJoined(trim, r.buffer, open);
      assert p in [p];
      assert p in Payloads(trim, Interpret(r, []).sent) && NL in p;
    }
  }

  lemma InEither(a: seq<Data>, b: seq<Data>)
    ensures forall x :: x in a + b <==> x in a || x in b
  {
  }

  lemma MarkedFew(open: seq<Data>)
    ensures open == [] ==> Marked(open) == []
    ensures |open| == 1 ==> Marked(open) == if open[0] == DONE then [] else [open[0]]
  {
    assert Marked([]) == [];
    if |open| == 1 {
      assert [] + [open[0]] == open;
      MarkedMore([], open[0]);
    }
  }

  /** The payloads of the code, and of the standard, while no event had two lines; afterwards
      the standard has one with a line feed in it. */
  lemma {:induction false} PayloadsCompared(trim: Data -> Data, ls: seq<Data>)
    requires Trims(trim)
    requires forall l :: l in ls ==> NL !in l
    ensures var sent := InterpretAll(ls).sent;
            && (OneLinePerEvent(trim, ls) ==>
                  Payloads(trim, DataTexts(ls)) == Payloads(trim, sent) + Marked(Open(trim, ls)))
            && (!OneLinePerEvent(trim, ls) ==> exists p :: p in Payloads(trim, sent) && NL in p)
            && forall p :: p in Payloads(trim, DataTexts(ls)) ==> NL !in p
  {
    if ls != [] {
      var n := |ls| - 1;
      var front, l := ls[..n], ls[n];
      PayloadsCompared(trim, front);
      OnePerEventStep(trim, ls);
      BufferHolds(trim, front);
      var r := InterpretAll(front);
      assert InterpretAll(ls) == Interpret(r, l);
      hide InterpretAll, Payloads, Holds, OneLinePerEvent, Marked;
      DataLine(trim, l);
      hide Says, Trims, Field, Value;
      if l == [] {
        assert DataTexts(ls) == DataTexts(front) && Open(trim, ls) == [];
        DispatchAdds(trim, r, Open(trim, front));
        NothingMarked();
      } else {
        SentAfter(r, l);
        TextAdds(trim, ls);
      }
    }
  }

  lemma NothingMarked()
    ensures Marked([]) == []
  {
  }

  lemma SentAfter(r: Reader, l: Data)
    requires l != []
    ensures Interpret(r, l).sent == r.sent
  {
  }

  /** What a line that is not empty adds to the payloads of the code, and to the open event. */
  lemma TextAdds(trim: Data -> Data, ls: seq<Data>)
    requires Trims(trim) && ls != [] && ls[|ls| - 1] != [] && NL !in ls[|ls| - 1]
    ensures var front := ls[..|ls| - 1];
            exists more :: Payloads(trim, DataTexts(ls)) == Payloads(trim, DataTexts(front)) + more
                        && Marked(Open(trim, ls)) == Marked(Open(trim, front)) + more
                        && forall p :: p in more ==> NL !in p
  {
    var n := |ls| - 1;
    var front, l := ls[..n], ls[n];
    DataLine(trim, l);
    var before, open := Payloads(trim, DataTexts(front)), Open(trim, front);
    assert before + [] == before && Marked(open) + [] == Marked(open);
    if DATA <= l {
      var p := trim(l[5..]);
      assert NL !in l[5..];
      PayloadsMore(trim, DataTexts(front), l[5..]);
      if p != [] {
        MarkedMore(open, p);
        assert forall q :: q in [p] ==> NL !in q;
      }
    }
  }

  /** Of the same lines both readings take the same payloads exactly when no event has two data
      lines that say something and none is left open at the end. */
  lemma SamePayloadsIff(trim: Data -> Data, ls: seq<Data>)
    requires Trims(trim)
    requires forall l :: l in ls ==> NL !in l
    ensures Payloads(trim, DataTexts(ls)) == Payloads(trim, InterpretAll(ls).sent)
            <==> OneLinePerEvent(trim, ls) && LastEventEnds(trim, ls)
  {
    hide *;
    PayloadsCompared(trim, ls);
    LastEventEndsIs(trim, ls);
    var sent := Payloads(trim, InterpretAll(ls).sent);
    assert sent + [] == sent;
    assert |sent + Marked(Open(trim, ls))| == |sent| + |Marked(Open(trim, ls))|;
  }

  lemma LastEventEndsIs(trim: Data -> Data, ls: seq<Data>)
    ensures LastEventEnds(trim, ls) <==> Marked(Open(trim, ls)) == []
  {
    MarkedEmptyIff(Open(trim, ls));
  }

  // ---- for every decoder ----

  lemma {:induction false} EventsDecoded(env: Env, ls: seq<Data>)
    ensures Events(env, ls) == Decoded(env.decode, Payloads(env.trim, DataTexts(Bare(ls))))
  {
    if ls != [] {
      var n := |ls| - 1;
      EventsDecoded(env, ls[..n]);
      assert Bare(ls)[..n] == Bare(ls[..n]);
      var l := TrimCR(ls[n]);
      hide TrimCR, Bare;
      assert Bare(ls)[n] == l by {
        BareLast(ls);
      }
      var texts := DataTexts(Bare(ls[..n]));
      if DATA <= l {
        assert DataTexts(Bare(ls)) == texts + [l[5..]];
        PayloadsMore(env.trim, texts, l[5..]);
        DecodedMore(env.decode, Payloads(env.trim, texts), env.trim(l[5..]));
        hide Payloads, DataTexts, Decoded;
      }
    }
  }

  lemma BareLast(ls: seq<Data>)
    requires ls != []
    ensures |Bare(ls)| == |ls| && Bare(ls)[|ls| - 1] == TrimCR(ls[|ls| - 1])
  {
  }

  lemma DecodedMore(decode: Data -> Option<Event>, ps: seq<Data>, p: Data)
    ensures Decoded(decode, ps + [p])
            == Decoded(decode, ps) + match decode(p) case None => [] case Some(e) => [e]
  {
    assert (ps + [p])[..|ps|] == ps;
  }

  /** A decoder that tells all data apart. */
  function Spell(d: Data): Option<Event>
  {
    Some(AnthropicEvent(seq(|d|, i requires 0 <= i < |d| => d[i] as char), None, None))
  }

  lemma SpellApart(d: Data, e: Data)
    requires Spell(d) == Spell(e)
    ensures d == e
  {
    var s, t := Spell(d).value.kind, Spell(e).value.kind;
    assert forall i :: 0 <= i < |s| ==> d[i] as char == s[i] == t[i] == e[i] as char;
  }

  lemma {:induction false} SpelledApart(ps: seq<Data>, qs: seq<Data>)
    requires Decoded(Spell, ps) == Decoded(Spell, qs)
    ensures ps == qs
  {
    SpelledLength(ps);
    SpelledLength(qs);
    if ps != [] {
      var n := |ps| - 1;
      var a, b := Decoded(Spell, ps[..n]), Decoded(Spell, qs[..n]);
      assert (a + [Spell(ps[n]).value])[..n] == a && (b + [Spell(qs[n]).value])[..n] == b by {
        SpelledLength(ps[..n]);
        SpelledLength(qs[..n]);
      }
      SpelledApart(ps[..n], qs[..n]);
      SpellApart(ps[n], qs[n]);
    }
  }

  lemma {:induction false} SpelledLength(ps: seq<Data>)
    ensures |Decoded(Spell, ps)| == |ps|
  {
    if ps != [] {
      SpelledLength(ps[..|ps| - 1]);
    }
  }

  /** Whatever the decoder, the code and the standard read the same events of the body. */
  ghost predicate SameEvents(trim: Data -> Data, body: Data)
  {
    forall decode: Data -> Option<Event> ::
      Events(Env(decode, trim), Complete(body)) == StandardEvents(Env(decode, trim), body)
  }

  lemma SameEventsIffPayloads(trim: Data -> Data, body: Data)
    ensures SameEvents(trim, body) <==> Payloads(trim, DataTexts(CodeLines(body))) == Payloads(trim, Messages(body))
  {
    var ps, qs := Payloads(trim, DataTexts(CodeLines(body))), Payloads(trim, Messages(body));
    hide Events, Complete, Payloads, DataTexts, Messages, Decoded, Spell, Bare;
    forall decode: Data -> Option<Event>
      ensures Events(Env(decode, trim), Complete(body)) == Decoded(decode, ps)
    {
      EventsDecoded(Env(decode, trim), Complete(body));
    }
    if SameEvents(trim, body) {
      assert Events(Env(Spell, trim), Complete(body)) == StandardEvents(Env(Spell, trim), body);
      SpelledApart(ps, qs);
    }
  }

  /** For a body whose line ends are the code's, the code reads the events of the standard
      exactly when every event has at most one data line that says something and the last such
      event is ended by an empty line. */
  lemma SameEventsIff(trim: Data -> Data, body: Data)
    requires Trims(trim) && CodeLineEnds(body)
    ensures SameEvents(trim, body) <==> OneLinePerEvent(trim, CodeLines(body)) && LastEventEnds(trim, CodeLines(body))
  {
    SameLinesIff(body);
    CodeLinesBare(body);
    hide *;
    SamePayloadsIff(trim, CodeLines(body));
    SameEventsIffPayloads(trim, body);
    MessagesAre(body);
  }

  lemma MessagesAre(body: Data)
    ensures Messages(body) == InterpretAll(StandardLines(body)).sent
  {
  }

  lemma CodeLinesBare(body: Data)
    ensures forall l :: l in CodeLines(body) ==> NL !in l
  {
    var ls := Complete(body);
    forall i | 0 <= i < |ls| ensures NL !in TrimCR(ls[i]) {
      assert ls[i] in ls;
    }
  }

  /** The code reads the lines and the events of the standard exactly when the line ends of the
      body are its own, no event has two data lines that say something, and none is left open. */
  lemma AgreesIff(trim: Data -> Data, body: Data)
    requires Trims(trim)
    ensures CodeLines(body) == StandardLines(body) && SameEvents(trim, body)
            <==> CodeLineEnds(body) && OneLinePerEvent(trim, CodeLines(body)) && LastEventEnds(trim, CodeLines(body))
  {
    hide *;
    SameLinesIff(body);
    if CodeLineEnds(body) {
      SameEventsIff(trim, body);
    }
  }

  // ---- bodies that are read differently ----

  predicate Plain(l: Data) { NL !in l && CR !in l }

  lemma Three<T>(a: T, b: T, c: T)
    ensures [a] + ([b] + [c]) == [a, b, c] && [a, b] + [c] == [a, b, c] && [a] + [b] == [a, b] && [] + [a] == [a]
  {
  }

  lemma InterpretMore(ls: seq<Data>, l: Data)
    ensures InterpretAll(ls + [l]) == Interpret(InterpretAll(ls), l)
  {
    assert (ls + [l])[..|ls|] == ls;
  }

  lemma EventsMore(env: Env, ls: seq<Data>, l: Data)
    ensures Events(env, ls + [l]) == Events(env, ls) + match EventOf(env, l) case None => [] case Some(e) => [e]
  {
    hide EventOf;
    assert (ls + [l])[..|ls|] == ls;
  }

  lemma OfNothing(env: Env)
    ensures InterpretAll([]) == Reader([], []) && Events(env, []) == [] && EventsOf(env, []) == []
    ensures Complete([]) == [] && TerminatedLines([]) == []
  {
  }

  /** A text that is data as it stands. */
  predicate Word(env: Env, v: Data, e: Event)
  {
    && v != [] && v[0] != SPACE && v[|v| - 1] != CR && v != DONE && env.trim(v) == v && env.decode(v) == Some(e)
  }

  /** One data line, for the code and for the standard. */
  lemma ReadWord(env: Env, v: Data, e: Event, r: Reader)
    requires Word(env, v, e)
    ensures EventOf(env, DATA + v) == Some(e)
    ensures Interpret(r, DATA + v) == r.(buffer := r.buffer + (v + [NL]))
  {
    var l := DATA + v;
    assert l[5..] == v && l[|l| - 1] == v[|v| - 1];
    DataFieldIs(l);
    hide Field, Value;
  }

  lemma ReadEmpty(env: Env, d: Data)
    ensures EventOf(env, []) == None
    ensures Interpret(Reader(d + [NL], []), []) == Reader([], [d])
  {
    assert (d + [NL])[..|d|] == d;
    assert [] + [d] == [d];
  }

  lemma OnePayload(env: Env, d: Data, e: Event)
    requires d != [] && env.trim(d) != [] && env.trim(d) != DONE && env.decode(env.trim(d)) == Some(e)
    ensures EventsOf(env, [d]) == [e]
  {
    assert [] + [d] == [d];
    PayloadsMore(env.trim, [], d);
    DecodedMore(env.decode, [], env.trim(d));
  }

  lemma NoMark(v: Data, t: Data)
    ensures StandardLines(DATA + v + t) == TerminatedLines(DATA + v + t)
  {
    assert (DATA + v + t)[0] != BOM[0];
  }

  lemma PlainData(v: Data)
    requires Plain(v)
    ensures Plain(DATA + v)
  {
  }

  lemma StandardEventsAre(env: Env, body: Data, ls: seq<Data>)
    requires StandardLines(body) == ls
    ensures StandardEvents(env, body) == EventsOf(env, InterpretAll(ls).sent)
  {
  }

  /** Lines that end with a lone CR: the standard reads an event, the code nothing. */
  lemma LoneReturn(env: Env, v: Data, e: Event)
    requires Word(env, v, e) && Plain(v)
    ensures var body := DATA + v + ([CR] + [CR]);
            Events(env, Complete(body)) == [] && StandardEvents(env, body) == [e]
  {
    hide *;
    var body := DATA + v + ([CR] + [CR]);
    PlainData(v);
    TwoReturns(DATA + v);
    NoMark(v, [CR] + [CR]);
    OfNothing(env);
    OneMessage(env, v, e);
    StandardEventsAre(env, body, [DATA + v, []]);
  }

  lemma TwoReturns(l: Data)
    requires Plain(l)
    ensures Complete(l + ([CR] + [CR])) == [] && TerminatedLines(l + ([CR] + [CR])) == [l, []]
  {
    NoNewline(l + ([CR] + [CR]));
    OfNothing(Env(Spell, x => x));
    hide TerminatedLines, Complete;
    assert l + ([CR] + [CR]) == l + [CR] + [CR] && [] + [CR] + [] == [CR];
    LineThenCR(l, [CR]);
    LineThenCR([], []);
    Three(l, [], []);
    NothingAfter([]);
  }

  /** A message of one data line. */
  lemma OneMessage(env: Env, v: Data, e: Event)
    requires Word(env, v, e)
    ensures EventsOf(env, InterpretAll([DATA + v, []]).sent) == [e]
    ensures EventsOf(env, InterpretAll([DATA + v]).sent) == []
    ensures Events(env, [DATA + v]) == [e]
  {
    OfNothing(env);
    Three(DATA + v, [], []);
    EventsMore(env, [], DATA + v);
    InterpretMore([], DATA + v);
    InterpretMore([DATA + v], []);
    ReadWord(env, v, e, Reader([], []));
    ReadEmpty(env, v);
    OnePayload(env, v, e);
    assert [] + (v + [NL]) == v + [NL] && [] + [e] == [e];
    hide *;
  }

  /** Two data lines before an empty line: one event of the standard, two of the code. */
  lemma TwoDataLines(env: Env, v: Data, w: Data, e: Event, f: Event, g: Event)
    requires Word(env, v, e) && Word(env, w, f) && Plain(v) && Plain(w)
    requires env.trim(v + [NL] + w) == v + [NL] + w && env.decode(v + [NL] + w) == Some(g)
    ensures var body := DATA + v + ([NL] + (DATA + w + [NL] + [NL]));
            Events(env, Complete(body)) == [e, f] && StandardEvents(env, body) == [g]
  {
    hide *;
    PlainData(v);
    PlainData(w);
    ThreeLines(DATA + v, DATA + w);
    NoMark(v, [NL] + (DATA + w + [NL] + [NL]));
    TwoLineMessage(env, v, w, e, f, g);
    StandardEventsAre(env, DATA + v + ([NL] + (DATA + w + [NL] + [NL])), [DATA + v, DATA + w, []]);
  }

  lemma NothingAfter(l: Data)
    ensures var one: seq<Data> := [l]; one + [] == one
  {
  }

  lemma ThreeLines(x: Data, y: Data)
    requires NL !in x && NL !in y
    ensures var body := x + ([NL] + (y + [NL] + [NL]));
            Complete(body) == [x, y, []] && (Plain(x) && Plain(y) ==> TerminatedLines(body) == [x, y, []])
  {
    OfNothing(Env(Spell, x => x));
    hide TerminatedLines, Complete, Rest;
    assert x + ([NL] + (y + [NL] + [NL])) == x + [NL] + (y + [NL] + [NL]) && [] + [NL] + [] == [NL];
    Three(x, y, []);
    NothingAfter([]);
    SplitLine(x, y + [NL] + [NL]);
    SplitLine(y, [NL]);
    SplitLine([], []);
    if Plain(x) && Plain(y) {
      LineThenLF(x, y + [NL] + [NL]);
      LineThenLF(y, [NL]);
      LineThenLF([], []);
    }
  }

  lemma TwoLineMessage(env: Env, v: Data, w: Data, e: Event, f: Event, g: Event)
    requires Word(env, v, e) && Word(env, w, f)
    requires env.trim(v + [NL] + w) == v + [NL] + w && env.decode(v + [NL] + w) == Some(g)
    ensures EventsOf(env, InterpretAll([DATA + v, DATA + w, []]).sent) == [g]
    ensures Events(env, [DATA + v, DATA + w, []]) == [e, f]
  {
    OfNothing(env);
    Three(DATA + v, DATA + w, []);
    Three(e, f, f);
    EventsMore(env, [], DATA + v);
    EventsMore(env, [DATA + v], DATA + w);
    EventsMore(env, [DATA + v, DATA + w], []);
    InterpretMore([], DATA + v);
    InterpretMore([DATA + v], DATA + w);
    InterpretMore([DATA + v, DATA + w], []);
    ReadWord(env, v, e, Reader([], []));
    ReadWord(env, w, f, Reader(v + [NL], []));
    var d := v + [NL] + w;
    assert [] + (v + [NL]) == v + [NL] && v + [NL] + (w + [NL]) == d + [NL];
    ReadEmpty(env, d);
    NotTheMark(v, w);
    OnePayload(env, d, g);
    assert [e, f] + [] == [e, f];
    hide *;
  }

  lemma NotTheMark(v: Data, w: Data)
    ensures v + [NL] + w != DONE
  {
    assert (v + [NL] + w)[|v|] == NL;
    assert forall i :: 0 <= i < |DONE| ==> DONE[i] != NL;
  }

  /** A data line without an empty line after it: the code reads its event, the standard none. */
  lemma OpenAtTheEnd(env: Env, v: Data, e: Event)
    requires Word(env, v, e) && Plain(v)
    ensures var body := DATA + v + [NL];
            Events(env, Complete(body)) == [e] && StandardEvents(env, body) == []
  {
    hide *;
    PlainData(v);
    OneLineOnly(DATA + v);
    NoMark(v, [NL]);
    OneMessage(env, v, e);
    StandardEventsAre(env, DATA + v + [NL], [DATA + v]);
  }

  lemma OneLineOnly(l: Data)
    requires Plain(l)
    ensures Complete(l + [NL]) == [l] && TerminatedLines(l + [NL]) == [l]
  {
    OfNothing(Env(Spell, x => x));
    hide TerminatedLines, Complete, Rest;
    assert l + [NL] == l + [NL] + [];
    NothingAfter(l);
    SplitLine(l, []);
    LineThenLF(l, []);
  }

  /** With lone CRs the events can agree although the lines do not: the code reads its event off
      the first line, the standard off the fourth of its own. */
  function Accident(v: Data): Data
  {
    DATA + ([CR] + v) + ([NL] + (Hidden(v) + [NL] + [NL]))
  }

  /** A comment for the code, a comment and a data line for the standard. */
  function Hidden(v: Data): Data { [COLON] + [CR] + (DATA + v) }

  lemma AgreesByAccident(trim: Data -> Data, v: Data)
    requires Plain(v) && v != [] && v[0] != SPACE && Field(v) != DATA_FIELD
    requires trim(v) == trim([CR] + v) == trim([NL] + v) == v
    ensures CodeLines(Accident(v)) != StandardLines(Accident(v)) && SameEvents(trim, Accident(v))
  {
    hide *;
    var x, y := DATA + ([CR] + v), Hidden(v);
    AccidentBytes(v);
    ThreeLines(x, y);
    BareThree(x, y);
    CodeLinesAre(Accident(v), [x, y, []]);
    FiveLines(DATA, v, [COLON], DATA + v);
    NoMark([CR] + v, [NL] + (y + [NL] + [NL]));
    AccidentCode(trim, v);
    AccidentStandard(trim, v);
    SameEventsIffPayloads(trim, Accident(v));
    MessagesAre(Accident(v));
  }

  lemma BareThree(x: Data, y: Data)
    requires TrimCR(x) == x && TrimCR(y) == y
    ensures Bare([x, y, []]) == [x, y, []]
  {
    assert TrimCR([]) == [];
    hide TrimCR;
  }

  lemma CodeLinesAre(body: Data, ls: seq<Data>)
    requires Complete(body) == ls
    ensures CodeLines(body) == Bare(ls)
  {
  }

  lemma FiveLines(d: Data, x: Data, c: Data, y: Data)
    requires Plain(d) && Plain(x) && Plain(c) && Plain(y) && x != [] && y != []
    ensures TerminatedLines(d + [CR] + (x + [NL] + (c + [CR] + (y + [NL] + [NL])))) == [d, x] + [c, y, []]
  {
    hide TerminatedLines, EndAt;
    LinesAfter(c, y, [NL]);
    LinesAfter(d, x, c + [CR] + (y + [NL] + [NL]));
    OneLineOnly([]);
    assert [] + [NL] == [NL];
    Three(c, y, []);
    assert [d] + ([x] + [c, y, []]) == [d, x] + [c, y, []];
  }

  lemma LinesAfter(d: Data, x: Data, t: Data)
    requires Plain(d) && Plain(x) && x != []
    ensures TerminatedLines(d + [CR] + (x + [NL] + t)) == [d] + ([x] + TerminatedLines(t))
  {
    hide TerminatedLines, EndAt;
    var u := x + [NL] + t;
    assert u[0] == x[0] && x[0] in x;
    LineThenCR(d, u);
    LineThenLF(x, t);
  }

  lemma AccidentBytes(v: Data)
    requires Plain(v) && v != []
    ensures var x, y := DATA + ([CR] + v), Hidden(v);
            && Accident(v) == x + ([NL] + (y + [NL] + [NL]))
            && Accident(v) == DATA + [CR] + (v + [NL] + ([COLON] + [CR] + (DATA + v + [NL] + [NL])))
            && TrimCR(x) == x && TrimCR(y) == y && NL !in x && NL !in y
    ensures Plain(DATA) && Plain([COLON]) && Plain(DATA + v) && DATA + v != []
    ensures |[DATA + ([CR] + v), Hidden(v), []]| != |[DATA, v] + [[COLON], DATA + v, []]|
  {
    assert v[|v| - 1] in v;
    var y := Hidden(v);
    assert y + [NL] + [NL] == [COLON] + [CR] + (DATA + v + [NL] + [NL]);
  }

  lemma TextsMore(ls: seq<Data>, l: Data)
    ensures DataTexts(ls + [l]) == DataTexts(ls) + if DATA <= l then [l[5..]] else []
  {
    assert (ls + [l])[..|ls|] == ls;
  }

  lemma AccidentCode(trim: Data -> Data, v: Data)
    requires v != [] && trim([CR] + v) == v
    ensures Payloads(trim, DataTexts([DATA + ([CR] + v), Hidden(v), []])) == if v == DONE then [] else [v]
  {
    var x, y := DATA + ([CR] + v), Hidden(v);
    assert x[5..] == [CR] + v && y[0] != DATA[0];
    hide *;
    OneText(trim, x, y);
  }

  lemma OneText(trim: Data -> Data, x: Data, y: Data)
    requires DATA <= x && !(DATA <= y)
    ensures var p := trim(x[5..]);
            Payloads(trim, DataTexts([x, y, []])) == if p == [] || p == DONE then [] else [p]
  {
    var t := x[5..];
    assert DataTexts([]) == [] && Payloads(trim, []) == [] && !(DATA <= []);
    hide DataTexts, Payloads;
    TextsMore([], x);
    TextsMore([x], y);
    TextsMore([x, y], []);
    Three(x, y, []);
    Three(t, t, t);
    PayloadsMore(trim, [], t);
    assert [t] + [] == [t];
    hide *;
  }

  lemma AccidentStandard(trim: Data -> Data, v: Data)
    requires v != [] && v[0] != SPACE && Field(v) != DATA_FIELD && trim([NL] + v) == v
    ensures Payloads(trim, InterpretAll([DATA, v] + [[COLON], DATA + v, []]).sent) == if v == DONE then [] else [v]
  {
    AccidentFields(v);
    assert InterpretAll([]) == Reader([], []) && Payloads(trim, []) == [];
    hide InterpretAll, Field, Value;
    Three(DATA, v, [COLON]);
    assert [DATA, v] + [[COLON], DATA + v, []] == [DATA, v] + [[COLON]] + [DATA + v] + [[]];
    InterpretMore([], DATA);
    InterpretMore([DATA], v);
    InterpretMore([DATA, v], [COLON]);
    InterpretMore([DATA, v, [COLON]], DATA + v);
    InterpretMore([DATA, v, [COLON]] + [DATA + v], []);
    var b := [] + ([] + [NL]) + (v + [NL]);
    assert b == [NL] + v + [NL];
    ReadEmpty(Env(Spell, trim), [NL] + v);
    PayloadsMore(trim, [], [NL] + v);
    assert [] + [[NL] + v] == [[NL] + v];
  }

  lemma AccidentFields(v: Data)
    requires v != [] && v[0] != SPACE
    ensures DATA != [] && Field(DATA) == DATA_FIELD && Value(DATA) == []
    ensures DATA + v != [] && Field(DATA + v) == DATA_FIELD && Value(DATA + v) == v
    ensures Field([COLON]) != DATA_FIELD
  {
    DataFieldIs(DATA);
    DataFieldIs(DATA + v);
    assert (DATA + v)[5..] == v;
    assert |Field([COLON])| <= 1;
  }
}
