/**
 * Country records and the three array operations the home screen applies to
 * them: `Array.prototype.filter` by region, `Array.prototype.find` by name,
 * and `Array.prototype.slice(0, n)`.
 */
module Countries {
  import opened Optional

  /** A record of the fetched collection; only these three properties are read. */
  datatype Country = Country(name: string, region: string, flag: string)

  /** `xs.filter((c) => c.region === region)`. */
  function FilterByRegion(xs: seq<Country>, region: string): (r: seq<Country>)
    ensures |r| <= |xs|
    ensures forall i :: 0 <= i < |r| ==> r[i].region == region
    ensures |r| == |xs| <==> forall i :: 0 <= i < |xs| ==> xs[i].region == region
    decreases |xs|
  {
    if |xs| == 0 then []
    else (if xs[0].region == region then [xs[0]] else []) + FilterByRegion(xs[1..], region)
  }

  /** `a` is `b` with some elements deleted, the rest kept in their order. */
  ghost predicate IsSubsequence(a: seq<Country>, b: seq<Country>)
    decreases |b|
  {
    if |a| == 0 then true
    else if |b| == 0 then false
    else (a[0] == b[0] && IsSubsequence(a[1..], b[1..])) || IsSubsequence(a, b[1..])
  }

  /** The filtered list holds exactly the records of the region. */
  lemma {:induction false} FilterMembership(xs: seq<Country>, region: string, c: Country)
    ensures c in FilterByRegion(xs, region) <==> c in xs && c.region == region
    decreases |xs|
  {
    if |xs| > 0 {
      FilterMembership(xs[1..], region, c);
      assert c in xs <==> c == xs[0] || c in xs[1..] by {
        assert xs == [xs[0]] + xs[1..];
      }
    }
  }

  /** Each record of the region keeps its number of occurrences; every other record has none. */
  lemma {:induction false} FilterMultiplicity(xs: seq<Country>, region: string, c: Country)
    ensures multiset(FilterByRegion(xs, region))[c] == if c.region == region then multiset(xs)[c] else 0
    decreases |xs|
  {
    if |xs| > 0 {
      FilterMultiplicity(xs[1..], region, c);
      assert xs == [xs[0]] + xs[1..];
      assert multiset(xs) == multiset{xs[0]} + multiset(xs[1..]);
    }
  }

  /** The filtered list keeps the records in their original relative order. */
  lemma {:induction false} FilterIsSubsequence(xs: seq<Country>, region: string)
    ensures IsSubsequence(FilterByRegion(xs, region), xs)
    decreases |xs|
  {
    if |xs| > 0 {
      var rest := FilterByRegion(xs[1..], region);
      FilterIsSubsequence(xs[1..], region);
      if xs[0].region == region {
        assert FilterByRegion(xs, region) == [xs[0]] + rest;
        assert ([xs[0]] + rest)[1..] == rest;
      } else {
        assert FilterByRegion(xs, region) == rest;
        if |rest| > 0 {
          assert IsSubsequence(rest, xs[1..]);
        }
      }
    }
  }

  /** When every record is of the region, filtering changes nothing. */
  lemma {:induction false} FilterKeepsWholeRegion(xs: seq<Country>, region: string)
    requires forall i :: 0 <= i < |xs| ==> xs[i].region == region
    ensures FilterByRegion(xs, region) == xs
    decreases |xs|
  {
    if |xs| > 0 {
      FilterKeepsWholeRegion(xs[1..], region);
      assert [xs[0]] + xs[1..] == xs;
    }
  }

  /** The index `find` stops at, scanning from `i`; `|xs|` when no record from `i` on has the name. */
  function FindIndexFrom(xs: seq<Country>, name: string, i: nat): (k: nat)
    requires i <= |xs|
    ensures i <= k <= |xs|
    ensures k < |xs| ==> xs[k].name == name
    ensures forall j :: i <= j < k ==> xs[j].name != name
    decreases |xs| - i
  {
    if i == |xs| then i
    else if xs[i].name == name then i
    else FindIndexFrom(xs, name, i + 1)
  }

  /** `xs.find((c) => c.name === name)`: the first record with the name, or `undefined`. */
  function FindByName(xs: seq<Country>, name: string): (r: Option<Country>)
    ensures r.None? <==> forall j :: 0 <= j < |xs| ==> xs[j].name != name
    ensures r.Some? ==> exists k :: 0 <= k < |xs| && xs[k] == r.value && r.value.name == name &&
                                    forall j :: 0 <= j < k ==> xs[j].name != name
  {
    var k := FindIndexFrom(xs, name, 0);
    if k < |xs| then Some(xs[k]) else None
  }

  /** `xs.slice(0, n)` for a non-negative `n`: the end is clamped to the length. */
  function Take(xs: seq<Country>, n: nat): (r: seq<Country>)
    ensures |r| == if n < |xs| then n else |xs|
    ensures r == xs[..|r|]
  {
    if n <= |xs| then xs[..n] else xs
  }
}
