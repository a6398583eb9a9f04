/** First-match scans over an ordered list of candidates. The connector makes
    every one of its discovery decisions this way: the first existing browser
    binary, the first folder holding `profiles.ini`, the first profile whose
    storage holds the extension. */
module Search {
  import opened Wrappers

  /** The first element of `xs`, in order, that satisfies `p`. */
  function FirstMatch<T>(xs: seq<T>, p: T -> bool): (r: Option<T>)
    ensures r.Some? ==> r.value in xs && p(r.value)
    ensures r.None? <==> forall i :: 0 <= i < |xs| ==> !p(xs[i])
  {
    if |xs| == 0 then None
    else if p(xs[0]) then Some(xs[0])
    else FirstMatch(xs[1..], p)
  }

  /** The element found is the one at the first index that satisfies `p`. */
  lemma {:induction false} FirstMatchAt<T>(xs: seq<T>, p: T -> bool, k: nat)
    requires k < |xs| && p(xs[k])
    requires forall j :: 0 <= j < k ==> !p(xs[j])
    ensures FirstMatch(xs, p) == Some(xs[k])
  {
    if k > 0 {
      FirstMatchAt(xs[1..], p, k - 1);
    }
  }

  /** Scanning a concatenation scans the second part only when the first has no match. */
  lemma {:induction false} FirstMatchAppend<T>(a: seq<T>, b: seq<T>, p: T -> bool)
    ensures FirstMatch(a + b, p) == if FirstMatch(a, p).Some? then FirstMatch(a, p) else FirstMatch(b, p)
  {
    if |a| > 0 {
      assert (a + b)[0] == a[0];
      assert (a + b)[1..] == a[1..] + b;
      FirstMatchAppend(a[1..], b, p);
    } else {
      assert a + b == b;
    }
  }

  /** Scanning a list that starts with `x`. */
  lemma FirstMatchCons<T>(x: T, rest: seq<T>, p: T -> bool)
    ensures FirstMatch([x] + rest, p) == if p(x) then Some(x) else FirstMatch(rest, p)
  {
    assert ([x] + rest)[0] == x;
    assert ([x] + rest)[1..] == rest;
  }

  /** One step of a scan that has reached index `k`. */
  lemma FirstMatchStep<T>(xs: seq<T>, p: T -> bool, k: nat)
    requires k < |xs|
    ensures FirstMatch(xs[k..], p) == if p(xs[k]) then Some(xs[k]) else FirstMatch(xs[k + 1..], p)
  {
    assert xs[k..][0] == xs[k];
    assert xs[k..][1..] == xs[k + 1..];
  }
}
