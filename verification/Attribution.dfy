/** Which app a transcript's working directory belongs to (agent/internal/daemon/tokens.go). */
module Attribution {

  import opened Wrappers
  import opened Words

  type Id = string

  const SEP := '/'

  /** filepath.EvalSymlinks, falling back to the path as given; `links` is the file system. */
  function Eval(links: string -> Option<string>, p: string): string
  {
    match links(p) case Some(r) => r case None => p
  }

  /** The test in the loop. */
  predicate Covers(dir: string, cwd: string)
  {
    cwd == dir || dir + [SEP] <= cwd
  }

  /** The app's directory, resolved, if it has one and it covers the path. */
  predicate Candidate(apps: map<Id, string>, links: string -> Option<string>, cwd: string, id: Id)
  {
    id in apps && apps[id] != "" && Eval(links, apps[id]) != "" && Covers(Eval(links, apps[id]), cwd)
  }

  /** A longest candidate, or "" when there is none. */
  predicate Best(apps: map<Id, string>, links: string -> Option<string>, cwd: string, best: Id)
  {
    if best == "" then forall id :: id in apps ==> !Candidate(apps, links, cwd, id)
    else Candidate(apps, links, cwd, best)
         && forall id :: id in apps && Candidate(apps, links, cwd, id) ==> |Eval(links, apps[id])| <= |Eval(links, apps[best])|
  }

  /** `apps` maps app ids to the directories in their definitions; the loop visits them in
      any order. */
  method ResolveAppByCwd(apps: map<Id, string>, links: string -> Option<string>, cwd: string) returns (best: Id)
    requires "" !in apps
    ensures if cwd == "" then best == "" else Best(apps, links, Eval(links, cwd), best)
  {
    best := "";
    if cwd == "" {
      return;
    }
    var path := Eval(links, cwd);
    var bestLen := 0;
    var rest := apps.Keys;
    while rest != {}
      invariant rest <= apps.Keys
      invariant if best == "" then bestLen == 0 else Candidate(apps, links, path, best) && bestLen == |Eval(links, apps[best])|
      invariant forall id :: id in apps && id !in rest && Candidate(apps, links, path, id) ==> 0 < |Eval(links, apps[id])| <= bestLen
      decreases rest
    {
      var id :| id in rest;
      rest := rest - {id};
      var dir := apps[id];
      if dir == "" {
        continue;
      }
      dir := Eval(links, dir);
      if (path == dir || dir + [SEP] <= path) && |dir| > bestLen {
        best, bestLen := id, |dir|;
      }
    }
  }

  // ---- paths ----

  /** Absolute, without empty components: what EvalSymlinks and filepath.Clean produce. */
  predicate Clean(p: string)
  {
    p != "" && p[0] == SEP && (p == [SEP] || forall c :: c in Split(p[1..], SEP) ==> c != "")
  }

  function Components(p: string): seq<string>
    requires Clean(p)
  {
    if p == [SEP] then [] else Split(p[1..], SEP)
  }

  /** The loop's test is "is the path or an ancestor of it", by whole components, except that
      the root directory covers only itself. */
  lemma CoversIffAncestor(dir: string, cwd: string)
    requires Clean(dir) && Clean(cwd)
    ensures Covers(dir, cwd) <==> Components(dir) <= Components(cwd) && (dir == [SEP] ==> cwd == [SEP])
  {
    if dir == [SEP] {
      if cwd != [SEP] && dir + [SEP] <= cwd {
        EmptyFirst(cwd[1..]);
      }
    } else {
      var d, c := dir[1..], cwd[1..];
      assert dir == [SEP] + d && cwd == [SEP] + c;
      PrefixIffComponents(d, c, SEP);
      SamePrefix([SEP], d, c, SEP);
      if cwd == [SEP] {
        assert c == "" && d != "";
        assert Split(d, SEP) != [];
      }
    }
  }

  lemma EmptyFirst(s: string)
    requires [SEP] <= s
    ensures "" in Split(s, SEP)
  {
    CutIsFirst(s, SEP, 0);
    assert Split(s, SEP)[0] == "";
  }

  /** Of two ancestors of one path, the longer string is the deeper directory. */
  lemma LongerIsDeeper(a: string, b: string, cwd: string)
    requires Clean(a) && Clean(b) && Clean(cwd) && Covers(a, cwd) && Covers(b, cwd)
    ensures |a| < |b| <==> |Components(a)| < |Components(b)|
    ensures |a| == |b| ==> a == b
  {
    CoversIffAncestor(a, cwd);
    CoversIffAncestor(b, cwd);
    CoversIffAncestor(a, b);
    CoversIffAncestor(b, a);
    assert a == cwd[..|a|] && b == cwd[..|b|];
  }

  /** With clean directories that differ, the app found is the one in the deepest ancestor
      directory, and nothing else could be found: the order in which the loop visits the apps
      does not matter. */
  lemma DeepestAncestor(apps: map<Id, string>, links: string -> Option<string>, cwd: string, best: Id, id: Id)
    requires "" !in apps && Clean(cwd) && Best(apps, links, cwd, best)
    requires forall i :: i in apps && apps[i] != "" ==> Clean(Eval(links, apps[i]))
    requires forall i, j :: i in apps && j in apps && i != j && apps[i] != "" && apps[j] != "" ==> Eval(links, apps[i]) != Eval(links, apps[j])
    requires id in apps && apps[id] != "" && Components(Eval(links, apps[id])) <= Components(cwd)
    requires Eval(links, apps[id]) == [SEP] ==> cwd == [SEP]
    ensures best != "" && Covers(Eval(links, apps[best]), cwd)
    ensures id != best ==> |Components(Eval(links, apps[id]))| < |Components(Eval(links, apps[best]))|
    ensures forall other :: Best(apps, links, cwd, other) ==> other == best
  {
    var dir := Eval(links, apps[id]);
    CoversIffAncestor(dir, cwd);
    assert Candidate(apps, links, cwd, id);
    LongerIsDeeper(dir, Eval(links, apps[best]), cwd);
    forall other | Best(apps, links, cwd, other) ensures other == best {
      LongerIsDeeper(Eval(links, apps[other]), Eval(links, apps[best]), cwd);
    }
  }

  /** No app is found exactly when no app's directory is the path or an ancestor of it, the root
      directory not counting as anybody's ancestor. */
  lemma NoneIff(apps: map<Id, string>, links: string -> Option<string>, cwd: string, best: Id)
    requires "" !in apps && Clean(cwd) && Best(apps, links, cwd, best)
    requires forall i :: i in apps && apps[i] != "" ==> Clean(Eval(links, apps[i]))
    ensures best == "" <==>
            forall i :: i in apps && apps[i] != "" ==>
              var dir := Eval(links, apps[i]);
              !(Components(dir) <= Components(cwd)) || (dir == [SEP] && cwd != [SEP])
  {
    forall i | i in apps && apps[i] != ""
      ensures var dir := Eval(links, apps[i]);
              Candidate(apps, links, cwd, i) <==> Components(dir) <= Components(cwd) && (dir == [SEP] ==> cwd == [SEP])
    {
      CoversIffAncestor(Eval(links, apps[i]), cwd);
    }
  }
}
