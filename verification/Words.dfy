/** Splitting and joining strings at a separator character. */
module Words {

  /** Index of the first separator. */
  function Cut(s: string, sep: char): (i: nat)
    requires sep in s
    ensures i < |s| && s[i] == sep && sep !in s[..i]
  {
    if s[0] == sep then 0
    else
      var i := Cut(s[1..], sep) + 1;
      assert s[..i] == [s[0]] + s[1..][..i - 1];
      i
  }

  function Split(s: string, sep: char): (ps: seq<string>)
    ensures ps != [] && forall p :: p in ps ==> sep !in p
    decreases |s|
  {
    if sep !in s then [s]
    else
      var i := Cut(s, sep);
      [s[..i]] + Split(s[i + 1..], sep)
  }

  function Join(ps: seq<string>, sep: char): string
    requires ps != []
  {
    if |ps| == 1 then ps[0] else ps[0] + [sep] + Join(ps[1..], sep)
  }

  lemma {:induction false} CutIsFirst(s: string, sep: char, k: nat)
    requires k < |s| && s[k] == sep && sep !in s[..k]
    ensures Cut(s, sep) == k
  {
    if k > 0 {
      assert s[..k] == [s[0]] + s[1..][..k - 1];
      CutIsFirst(s[1..], sep, k - 1);
    }
  }

  lemma {:induction false} CutAfter(h: string, t: string, sep: char)
    requires sep !in h
    ensures sep in h + [sep] + t && Cut(h + [sep] + t, sep) == |h|
    ensures Split(h + [sep] + t, sep) == [h] + Split(t, sep)
  {
    var s := h + [sep] + t;
    assert s[|h|] == sep && s[..|h|] == h;
    CutIsFirst(s, sep, |h|);
    assert s[..|h|] == h && s[|h| + 1..] == t;
  }

  lemma {:induction false} JoinSplit(s: string, sep: char)
    ensures Join(Split(s, sep), sep) == s
    decreases |s|
  {
    if sep in s {
      var i := Cut(s, sep);
      JoinSplit(s[i + 1..], sep);
      assert Split(s, sep)[1..] == Split(s[i + 1..], sep);
      assert s == s[..i] + [sep] + s[i + 1..];
    }
  }

  lemma {:induction false} SplitJoin(ps: seq<string>, sep: char)
    requires ps != [] && forall p :: p in ps ==> sep !in p
    ensures Split(Join(ps, sep), sep) == ps
  {
    if |ps| > 1 {
      SplitJoin(ps[1..], sep);
      CutAfter(ps[0], Join(ps[1..], sep), sep);
      assert ps == [ps[0]] + ps[1..];
    }
  }

  lemma Parts(s: string, sep: char)
    requires sep in s
    ensures var i := Cut(s, sep);
            s == s[..i] + [sep] + s[i + 1..] && Split(s, sep) == [s[..i]] + Split(s[i + 1..], sep)
  {
  }

  lemma OnePart(s: string, sep: char)
    requires sep !in s
    ensures Split(s, sep) == [s]
  {
  }

  lemma TwoComponents(s: string, sep: char)
    requires sep in s
    ensures |Split(s, sep)| >= 2
  {
    hide Split;
    Parts(s, sep);
  }

  /** One list of components begins with another exactly when the strings are equal or the
      shorter one, followed by the separator, is a prefix. */
  lemma {:induction false} PrefixIffComponents(a: string, b: string, sep: char)
    ensures Split(a, sep) <= Split(b, sep) <==> a == b || a + [sep] <= b
    decreases |a|
  {
    if sep in a {
      var i := Cut(a, sep);
      var h, t := a[..i], a[i + 1..];
      Parts(a, sep);
      hide Split, Cut;
      if h + [sep] <= b {
        var u := b[i + 1..];
        assert b == h + [sep] + u;
        CutAfter(h, u, sep);
        PrefixIffComponents(t, u, sep);
        ConsPrefix(h, Split(t, sep), Split(u, sep));
        SamePrefix(h + [sep], t, u, sep);
      } else {
        OtherFirst(h, t, b, sep);
      }
    } else {
      OneComponent(a, b, sep);
    }
  }

  lemma OtherFirst(h: string, t: string, b: string, sep: char)
    requires sep !in h && !(h + [sep] <= b)
    ensures var a := h + [sep] + t; !(Split(a, sep) <= Split(b, sep)) && a != b && !(a + [sep] <= b)
  {
    var a := h + [sep] + t;
    CutAfter(h, t, sep);
    assert |Split(a, sep)| >= 2 && Split(a, sep)[0] == h;
    assert h + [sep] <= a;
    if sep in b {
      FirstDiffers(b, h, sep);
    }
  }

  lemma OneComponent(a: string, b: string, sep: char)
    requires sep !in a
    ensures Split(a, sep) <= Split(b, sep) <==> a == b || a + [sep] <= b
  {
    assert Split(a, sep) == [a] && Split(a, sep)[0] == a;
    if a + [sep] <= b {
      var u := b[|a| + 1..];
      assert b == a + [sep] + u;
      CutAfter(a, u, sep);
    } else if sep in b {
      FirstDiffers(b, a, sep);
    } else {
      assert Split(b, sep)[0] == b;
    }
  }

  lemma ConsPrefix(h: string, a: seq<string>, b: seq<string>)
    ensures [h] + a <= [h] + b <==> a <= b
  {
    assert ([h] + a)[1..] == a && ([h] + b)[1..] == b;
    if a <= b {
      assert b == a + b[|a|..];
    }
    if [h] + a <= [h] + b {
      assert forall k :: 0 <= k < |a| ==> a[k] == ([h] + a)[k + 1] == ([h] + b)[k + 1] == b[k];
    }
  }

  lemma SamePrefix(p: string, t: string, u: string, sep: char)
    ensures p + t == p + u <==> t == u
    ensures p + t + [sep] <= p + u <==> t + [sep] <= u
  {
    assert (p + t)[|p|..] == t && (p + u)[|p|..] == u;
    assert p + t + [sep] == p + (t + [sep]);
    if p + (t + [sep]) <= p + u {
      assert forall k :: 0 <= k < |t + [sep]| ==> (t + [sep])[k] == (p + (t + [sep]))[|p| + k] == (p + u)[|p| + k] == u[k];
    }
    if t + [sep] <= u {
      assert u == t + [sep] + u[|t| + 1..];
    }
  }

  /** A string that does not begin with h and a separator does not have h as its first component. */
  lemma FirstDiffers(b: string, h: string, sep: char)
    requires sep in b && !(h + [sep] <= b)
    ensures Split(b, sep)[0] != h
  {
    var i := Cut(b, sep);
    assert b[..i + 1] == b[..i] + [sep];
  }
}
