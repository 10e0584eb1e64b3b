/** Byte strings, and the newline splitter shared by the transcript tailer, the
    container-log decoder and the event-stream parser. */
module Lines {

  newtype Byte = x: int | 0 <= x < 256

  type Data = seq<Byte>

  const NL: Byte := 10
  const CR: Byte := 13

  /** Index of the first newline, or the length when there is none. */
  function NewlineAt(b: Data): (i: nat)
    ensures i <= |b|
    ensures forall j :: 0 <= j < i ==> b[j] != NL
    ensures i < |b| ==> b[i] == NL
  {
    if b == [] || b[0] == NL then 0 else 1 + NewlineAt(b[1..])
  }

  /** The newline-terminated lines of b, without their newlines. */
  function Complete(b: Data): (ls: seq<Data>)
    ensures forall l :: l in ls ==> NL !in l
    decreases |b|
  {
    var i := NewlineAt(b);
    if i == |b| then [] else [b[..i]] + Complete(b[i + 1..])
  }

  /** Taking the first line off b. */
  lemma FirstLine(b: Data, i: nat)
    requires i == NewlineAt(b) < |b|
    ensures b[..i + 1] == b[..i] + [NL]
    ensures Complete(b) != [] && Complete(b)[0] == b[..i] && Complete(b)[1..] == Complete(b[i + 1..])
  {
    hide NewlineAt;
    TakeOneMore(b, i);
    var ls := Complete(b);
    assert ls == [b[..i]] + Complete(b[i + 1..]);
  }

  lemma RestLine(b: Data, i: nat)
    requires i == NewlineAt(b) < |b|
    ensures Rest(b) == Rest(b[i + 1..])
  {
    hide NewlineAt;
  }

  lemma TakeOneMore<T>(b: seq<T>, i: nat)
    requires i < |b|
    ensures b[..i + 1] == b[..i] + [b[i]]
  {
  }

  /** What follows the last newline of b. */
  function Rest(b: Data): (r: Data)
    ensures NL !in r && |r| <= |b|
    decreases |b|
  {
    var i := NewlineAt(b);
    if i == |b| then b else Rest(b[i + 1..])
  }

  /** Glues lines back, each followed by a newline. */
  function Unlines(ls: seq<Data>): Data
  {
    if ls == [] then [] else ls[0] + [NL] + Unlines(ls[1..])
  }

  /** The first newline of l + [NL] + t is the one right after l. */
  lemma {:induction false} NewlineAfter(l: Data, t: Data)
    requires NL !in l
    ensures NewlineAt(l + [NL] + t) == |l|
  {
    var s := l + [NL] + t;
    assert s[|l|] == NL;
    assert forall j :: 0 <= j < |l| ==> s[j] == l[j] && l[j] != NL;
  }

  lemma {:induction false} SplitLine(l: Data, t: Data)
    requires NL !in l
    ensures Complete(l + [NL] + t) == [l] + Complete(t)
    ensures Rest(l + [NL] + t) == Rest(t)
  {
    var s := l + [NL] + t;
    NewlineAfter(l, t);
    assert s[..|l|] == l && s[|l| + 1..] == t;
  }

  /** Splitting loses nothing: lines, newlines and remainder rebuild the input. */
  lemma {:induction false} SplitRoundTrip(b: Data)
    ensures Unlines(Complete(b)) + Rest(b) == b
    decreases |b|
  {
    var i := NewlineAt(b);
    if i < |b| {
      var l, t := b[..i], b[i + 1..];
      assert b == l + [NL] + t;
      SplitLine(l, t);
      SplitRoundTrip(t);
      UnlinesCons(l, Complete(t));
      Assoc(l + [NL], Unlines(Complete(t)), Rest(t));
    }
  }

  lemma Assoc(a: Data, b: Data, c: Data)
    ensures a + b + c == a + (b + c)
  {
  }

  lemma UnlinesCons(l: Data, ls: seq<Data>)
    ensures Unlines([l] + ls) == l + [NL] + Unlines(ls)
  {
    assert ([l] + ls)[1..] == ls;
  }

  /** ... and it is the only such decomposition. */
  lemma {:induction false} SplitUnique(ls: seq<Data>, rest: Data)
    requires forall l :: l in ls ==> NL !in l
    requires NL !in rest
    ensures Complete(Unlines(ls) + rest) == ls
    ensures Rest(Unlines(ls) + rest) == rest
  {
    if ls == [] {
      assert Unlines(ls) + rest == rest;
      NoNewline(rest);
    } else {
      var t := Unlines(ls[1..]) + rest;
      assert Unlines(ls) + rest == ls[0] + [NL] + t;
      SplitLine(ls[0], t);
      SplitUnique(ls[1..], rest);
    }
  }

  lemma NoNewline(b: Data)
    requires NL !in b
    ensures NewlineAt(b) == |b| && Complete(b) == [] && Rest(b) == b
  {
    assert forall j :: 0 <= j < |b| ==> b[j] != NL;
  }

  /** Chunk independence: splitting a + b is splitting a, then carrying a's
      remainder over into b. */
  lemma {:induction false} SplitAppend(a: Data, b: Data)
    ensures Complete(a + b) == Complete(a) + Complete(Rest(a) + b)
    ensures Rest(a + b) == Rest(Rest(a) + b)
    decreases |a|
  {
    hide *;
    var i := NewlineAt(a);
    if i < |a| {
      var l, t := a[..i], a[i + 1..];
      assert a == l + [NL] + t;
      SplitLine(l, t);
      assert a + b == l + [NL] + (t + b);
      SplitLine(l, t + b);
      SplitAppend(t, b);
      assert [l] + (Complete(t) + Complete(Rest(t) + b)) == [l] + Complete(t) + Complete(Rest(t) + b);
    } else {
      NoNewline(a);
      assert [] + Complete(a + b) == Complete(a + b);
    }
  }

  /** Offsets at which a reader may stop: the start, or just after a newline. */
  predicate Boundary(b: Data, off: nat)
  {
    off <= |b| && (off == 0 || b[off - 1] == NL)
  }

  lemma {:induction false} BoundaryRest(b: Data)
    requires b == [] || b[|b| - 1] == NL
    ensures Rest(b) == []
    decreases |b|
  {
    var i := NewlineAt(b);
    if i < |b| {
      BoundaryRest(b[i + 1..]);
    }
  }

  /** At a boundary the lines before and after it are exactly all the lines. */
  lemma {:induction false} SplitAtBoundary(b: Data, off: nat)
    requires Boundary(b, off)
    ensures Complete(b) == Complete(b[..off]) + Complete(b[off..])
    ensures Rest(b) == Rest(b[off..])
  {
    SplitAppend(b[..off], b[off..]);
    BoundaryRest(b[..off]);
    assert b[..off] + b[off..] == b;
    assert Rest(b[..off]) + b[off..] == b[off..];
  }

  /** Reading one more line from a boundary reaches the next boundary. */
  lemma {:induction false} NextLine(b: Data, off: nat, i: nat)
    requires Boundary(b, off)
    requires i == NewlineAt(b[off..]) < |b[off..]|
    ensures Boundary(b, off + i + 1)
    ensures b[off..off + i + 1] == b[off..off + i] + [NL]
    ensures Complete(b[..off + i + 1]) == Complete(b[..off]) + [b[off..off + i]]
  {
    hide *;
    NextSlices(b, off, i);
    OneLine(b[..off], b[off..off + i]);
  }

  lemma NextSlices(b: Data, off: nat, i: nat)
    requires Boundary(b, off)
    requires i == NewlineAt(b[off..]) < |b[off..]|
    ensures Boundary(b, off + i + 1) && NL !in b[off..off + i]
    ensures b[off..off + i + 1] == b[off..off + i] + [NL]
    ensures b[..off + i + 1] == b[..off] + (b[off..off + i] + [NL] + [])
    ensures b[..off] == [] || b[..off][off - 1] == NL
  {
    assert b[off + i] == b[off..][i] == NL;
    assert forall j :: 0 <= j < i ==> b[off..off + i][j] == b[off..][j];
    TakeOneMore(b[off..], i);
  }

  lemma OneLine(a: Data, l: Data)
    requires (a == [] || a[|a| - 1] == NL) && NL !in l
    ensures Complete(a + (l + [NL] + [])) == Complete(a) + [l]
  {
    hide *;
    var t := l + [NL] + [];
    SplitAppend(a, t);
    BoundaryRest(a);
    assert [] + t == t;
    SplitLine(l, []);
    NoNewline([]);
    assert [l] + [] == [l];
  }
}
