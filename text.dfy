/** The two string operations the ticker extractors rely on:
    `String.prototype.endsWith` and `String.prototype.replace` called with a
    string pattern and an empty replacement, which removes the FIRST
    occurrence of the pattern (not necessarily a suffix). */
module Text {
  import opened Wrappers

  /** `s.endsWith(suffix)` */
  predicate EndsWith(s: string, suffix: string) {
    |suffix| <= |s| && s[|s| - |suffix|..] == suffix
  }

  /** `p` occurs in `s` starting at index `i`. */
  predicate OccursAt(s: string, p: string, i: nat) {
    i + |p| <= |s| && s[i..i + |p|] == p
  }

  /** `s.indexOf(p, from)`, with `None` standing for -1. */
  function IndexFrom(s: string, p: string, from: nat): (r: Option<nat>)
    requires from <= |s| + 1
    ensures r.Some? ==> from <= r.value && OccursAt(s, p, r.value)
    ensures r.Some? ==> forall j :: from <= j < r.value ==> !OccursAt(s, p, j)
    ensures r.None? ==> forall j :: from <= j ==> !OccursAt(s, p, j)
    decreases |s| + 1 - from
  {
    if from + |p| > |s| then None
    else if s[from..from + |p|] == p then Some(from)
    else IndexFrom(s, p, from + 1)
  }

  /** `s.indexOf(p)`: the first occurrence of `p` in `s`. */
  function IndexOf(s: string, p: string): Option<nat> {
    IndexFrom(s, p, 0)
  }

  /** `s.replace(p, '')`: removes the first occurrence of `p`, if any. */
  function RemoveFirst(s: string, p: string): (r: string)
    ensures IndexOf(s, p).None? ==> r == s
    ensures IndexOf(s, p).Some? ==> |r| + |p| == |s|
  {
    match IndexOf(s, p)
    case None => s
    case Some(i) => s[..i] + s[i + |p|..]
  }

  /** Independent characterisation of `RemoveFirst`: if `s` splits as
      `a + p + b` and `p` does not start anywhere inside `a`, the result is
      `a + b`. */
  lemma RemoveFirstSplit(a: string, p: string, b: string)
    requires forall j :: 0 <= j < |a| ==> !OccursAt(a + p + b, p, j)
    ensures RemoveFirst(a + p + b, p) == a + b
  {
    var s := a + p + b;
    assert OccursAt(s, p, |a|) by {
      assert s[|a|..|a| + |p|] == p;
    }
    var i := IndexOf(s, p);
    assert i == Some(|a|);
    assert s[..|a|] == a;
    assert s[|a| + |p|..] == b;
  }

  /** A string that ends in `p` always contains `p`, so `RemoveFirst` removes
      exactly `|p|` characters from it. */
  lemma EndsWithOccurs(s: string, p: string)
    requires EndsWith(s, p)
    ensures IndexOf(s, p).Some?
    ensures |RemoveFirst(s, p)| + |p| == |s|
  {
    assert OccursAt(s, p, |s| - |p|);
  }

  /** When the only occurrence of `p` in `s` is its suffix, removing the first
      occurrence is the same as stripping the suffix. */
  lemma RemoveFirstStripsSoleSuffix(s: string, p: string)
    requires EndsWith(s, p)
    requires forall j :: 0 <= j < |s| - |p| ==> !OccursAt(s, p, j)
    ensures RemoveFirst(s, p) + p == s
  {
    var a := s[..|s| - |p|];
    assert s == a + p + [];
    RemoveFirstSplit(a, p, []);
  }

  /** Removing the first occurrence differs from stripping the suffix: an
      identifier with the marker both inside and at the end keeps its
      suffix. */
  lemma RemoveFirstIsNotSuffixStrip()
    ensures EndsWith("USDTAUSDT", "USDT")
    ensures RemoveFirst("USDTAUSDT", "USDT") == "AUSDT"
  {
    RemoveFirstSplit("", "USDT", "AUSDT");
  }
}
