/** The price table (hub/internal/tokens/pricing.go). Prices are reals. */
module Pricing {

  import opened Wrappers
  import opened Words

  datatype Price = Price(input: real, output: real, cacheCreation: real, cacheRead: real)

  type Table = map<string, Price>

  datatype Usage = Usage(model: string, input: int, output: int, cacheCreation: int, cacheRead: int)

  const DASH := '-'

  /** A shorter name a dated variant falls back to: the model cut before a dash, with at least
      one dash left. */
  predicate Fallback(name: string, model: string)
  {
    DASH in name && name + [DASH] <= model
  }

  /** The entry a model is priced by. */
  predicate Entry(t: Table, model: string, name: string)
  {
    name in t && (name == model || (model !in t && Fallback(name, model) && forall n :: n in t && Fallback(n, model) ==> |n| <= |name|))
  }

  function CostOf(p: Price, u: Usage): real
  {
    u.input as real * p.input + u.output as real * p.output
    + u.cacheCreation as real * p.cacheCreation + u.cacheRead as real * p.cacheRead
  }

  /** Entries without an input or output price are noise. */
  predicate Usable(p: Price) { p.input > 0.0 || p.output > 0.0 }

  function Cleaned(raw: Table): Table
  {
    map name | name in raw && Usable(raw[name]) :: raw[name]
  }

  class PricingTable {

    var models: Table

    constructor ()
      ensures models == map[]
    {
      models := map[];
    }

    /** Swaps in the entries that have an input or an output price, unless there is none or the JSON
        was bad. */
    method Parse(decoded: Option<Table>) returns (ok: bool)
      modifies this
      ensures ok <==> decoded.Some? && exists name :: name in decoded.value && Usable(decoded.value[name])
      ensures ok ==> models.Keys == set name | name in decoded.value && (decoded.value[name].input > 0.0 || decoded.value[name].output > 0.0)
      ensures ok ==> forall name :: name in models ==> models[name] == decoded.value[name]
      ensures !ok ==> models == old(models)
    {
      if decoded.None? {
        return false;
      }
      var raw := decoded.value;
      var cleaned: Table := map[];
      var rest := raw.Keys;
      while rest != {}
        invariant rest <= raw.Keys
        invariant cleaned == map name | name in raw && name !in rest && Usable(raw[name]) :: raw[name]
        decreases rest
      {
        var name :| name in rest;
        var p := raw[name];
        if p.input > 0.0 || p.output > 0.0 {
          cleaned := cleaned[name := p];
        }
        rest := rest - {name};
      }
      assert cleaned == Cleaned(raw);
      if |cleaned| == 0 {
        assert cleaned == map[];
        assert forall name :: name in raw ==> (Usable(raw[name]) <==> name in cleaned);
        return false;
      }
      assert cleaned.Keys != {};
      models := cleaned;
      ok := true;
    }

    /** The exact name, else the longest fallback, else nothing. */
    method Lookup(model: string) returns (p: Option<Price>)
      ensures p.Some? <==> exists name :: Entry(models, model, name)
      ensures forall name :: Entry(models, model, name) ==> p == Some(models[name])
    {
      if model in models {
        assert Entry(models, model, model);
        return Some(models[model]);
      }
      var parts := Split(model, DASH);
      var i := |parts| - 1;
      while i >= 2
        invariant i < |parts|
        invariant forall j :: i < j < |parts| && j >= 2 ==> Join(parts[..j], DASH) !in models
      {
        var name := Join(parts[..i], DASH);
        if name in models {
          FrontIsFallback(model, i);
          forall n | n in models && Fallback(n, model) ensures |n| <= |name| {
            var j := FallbackIsFront(n, model);
            assert j <= i;
            FrontsGrow(model, j, i);
          }
          assert Entry(models, model, name);
          forall n | Entry(models, model, n) ensures n == name {
            SameFallback(n, name, model);
          }
          return Some(models[name]);
        }
        i := i - 1;
      }
      forall n | n in models ensures !Fallback(n, model) {
        if Fallback(n, model) {
          var j := FallbackIsFront(n, model);
          assert false;
        }
      }
      p := None;
    }

    method Cost(u: Usage) returns (cost: real, priced: bool)
      ensures priced <==> exists name :: Entry(models, u.model, name)
      ensures forall name :: Entry(models, u.model, name) ==> cost == CostOf(models[name], u)
      ensures !priced ==> cost == 0.0
    {
      var p := Lookup(u.model);
      if p.None? {
        return 0.0, false;
      }
      var name :| Entry(models, u.model, name);
      return CostOf(p.value, u), true;
    }
  }

  /** Every kind of token is charged at its own price. */
  lemma CostPerKind(p: Price, model: string, n: int)
    ensures CostOf(p, Usage(model, n, 0, 0, 0)) == n as real * p.input
    ensures CostOf(p, Usage(model, 0, n, 0, 0)) == n as real * p.output
    ensures CostOf(p, Usage(model, 0, 0, n, 0)) == n as real * p.cacheCreation
    ensures CostOf(p, Usage(model, 0, 0, 0, n)) == n as real * p.cacheRead
  {
  }

  function Added(u: Usage, v: Usage): Usage
  {
    Usage(u.model, u.input + v.input, u.output + v.output, u.cacheCreation + v.cacheCreation, u.cacheRead + v.cacheRead)
  }

  /** ... and two usages of one model cost together what they cost apart. */
  lemma CostAdds(p: Price, u: Usage, v: Usage)
    ensures CostOf(p, Added(u, v)) == CostOf(p, u) + CostOf(p, v)
  {
    Distributes(u.input, v.input, p.input);
    Distributes(u.output, v.output, p.output);
    Distributes(u.cacheCreation, v.cacheCreation, p.cacheCreation);
    Distributes(u.cacheRead, v.cacheRead, p.cacheRead);
  }

  lemma Distributes(a: int, b: int, p: real)
    ensures (a + b) as real * p == a as real * p + b as real * p
  {
  }

  lemma TakeKeeps(ps: seq<string>, i: nat)
    requires i <= |ps|
    ensures forall p :: p in ps[..i] ==> p in ps
  {
  }

  /** The first i components, joined, are a fallback. */
  lemma FrontIsFallback(model: string, i: nat)
    requires 2 <= i < |Split(model, DASH)|
    ensures Fallback(Join(Split(model, DASH)[..i], DASH), model)
  {
    var parts := Split(model, DASH);
    var name := Join(parts[..i], DASH);
    TakeKeeps(parts, i);
    SplitJoin(parts[..i], DASH);
    PrefixIffComponents(name, model, DASH);
    JoinSplit(model, DASH);
    hide Split, Join;
    assert |parts[..i]| == i && parts[..i] != parts;
    if DASH !in name {
      OnePart(name, DASH);
    }
  }

  /** Every fallback is the join of the first components, at least two and not all. */
  lemma FallbackIsFront(name: string, model: string) returns (i: nat)
    requires Fallback(name, model)
    ensures 2 <= i < |Split(model, DASH)| && name == Join(Split(model, DASH)[..i], DASH)
  {
    hide *;
    var ps, parts := Split(name, DASH), Split(model, DASH);
    FallbackIs(name, model);
    PrefixIffComponents(name, model, DASH);
    TwoComponents(name, DASH);
    JoinSplit(name, DASH);
    JoinSplit(model, DASH);
    i := |ps|;
    assert ps == parts[..i];
    assert parts[..|parts|] == parts;
  }

  lemma FallbackIs(name: string, model: string)
    requires Fallback(name, model)
    ensures DASH in name && name + [DASH] <= model && name != model
  {
  }

  lemma FrontsGrow(model: string, j: nat, i: nat)
    requires 2 <= j <= i < |Split(model, DASH)|
    ensures |Join(Split(model, DASH)[..j], DASH)| <= |Join(Split(model, DASH)[..i], DASH)|
  {
    var parts := Split(model, DASH);
    hide *;
    if j < i {
      var a, b := Join(parts[..j], DASH), Join(parts[..i], DASH);
      TakeKeeps(parts, j);
      TakeKeeps(parts, i);
      SplitJoin(parts[..j], DASH);
      SplitJoin(parts[..i], DASH);
      PrefixIffComponents(a, b, DASH);
      assert parts[..j] == parts[..i][..j];
    }
  }

  /** There is only one fallback of a given length. */
  lemma SameFallback(a: string, b: string, model: string)
    requires a <= model && b <= model
    ensures |a| == |b| ==> a == b
  {
  }

  lemma FallbackOfLonger(n: string, model: string, suffix: string)
    requires DASH !in suffix && n + [DASH] <= model + [DASH] + suffix
    ensures n == model || (n + [DASH] <= model && DASH in model)
  {
    var longer := model + [DASH] + suffix;
    assert (n + [DASH])[|n|] == DASH == longer[|n|];
    assert forall k :: |model| < k < |longer| ==> longer[k] == suffix[k - |model| - 1] && longer[k] != DASH;
    assert n == longer[..|n|];
    if |n| < |model| {
      assert n + [DASH] == longer[..|n| + 1] == model[..|n| + 1];
      assert model[|n|] == DASH;
    }
  }

  /** A date or variant appended to a name that has a dash is ignored, unless the longer name is
      listed itself. */
  lemma SuffixIsIgnored(t: Table, model: string, suffix: string, name: string)
    requires DASH in model && DASH !in suffix && (model + [DASH] + suffix) !in t
    requires Entry(t, model, name)
    ensures Entry(t, model + [DASH] + suffix, name)
  {
    var longer := model + [DASH] + suffix;
    assert model + [DASH] <= longer && name + [DASH] <= longer;
    forall n | n in t && Fallback(n, longer) ensures n == model || Fallback(n, model) {
      FallbackOfLonger(n, model, suffix);
    }
  }

  /** A one-word name has no such fallback: appending anything loses its price. */
  lemma OneWordHasNoVariants(t: Table, model: string, suffix: string)
    requires DASH !in model && DASH !in suffix && (model + [DASH] + suffix) !in t
    ensures !exists name :: Entry(t, model + [DASH] + suffix, name)
  {
    forall n | Fallback(n, model + [DASH] + suffix) ensures n == model || DASH in model {
      FallbackOfLonger(n, model, suffix);
    }
  }
}
