/**
 * The report statistics shared by src/components/Dashboard.tsx,
 * src/components/AdminDashboard.tsx and src/components/UserProfile.tsx:
 * counting reports by status, and `Math.round(resolved / total * 100)`
 * computed exactly on integers (round half up, as `Math.round` does for
 * non-negative numbers).
 */
module ReportStats {

  /** `reports.filter(r => r.status === s).length`. */
  function CountStatus(statuses: seq<string>, s: string): (n: nat)
    ensures n <= |statuses|
    ensures n == 0 <==> s !in statuses
    ensures n == |statuses| <==> forall k :: 0 <= k < |statuses| ==> statuses[k] == s
  {
    if statuses == [] then 0
    else (if statuses[0] == s then 1 else 0) + CountStatus(statuses[1..], s)
  }

  /** Counting works piecewise, so a new report adds at most one to any count. */
  lemma {:induction false} CountAppend(a: seq<string>, b: seq<string>, s: string)
    ensures CountStatus(a + b, s) == CountStatus(a, s) + CountStatus(b, s)
  {
    if a == [] {
      assert a + b == b;
    } else {
      assert (a + b)[0] == a[0] && (a + b)[1..] == a[1..] + b;
      CountAppend(a[1..], b, s);
    }
  }

  /** Reports of two different statuses never add up to more than all reports. */
  lemma {:induction false} TwoStatusesAtMostTotal(statuses: seq<string>, s: string, t: string)
    requires s != t
    ensures CountStatus(statuses, s) + CountStatus(statuses, t) <= |statuses|
  {
    if statuses != [] {
      TwoStatusesAtMostTotal(statuses[1..], s, t);
    }
  }

  /**
   * `Math.round(part / total * 100)`: the whole percentage nearest to
   * `part / total`, halves rounded up.
   */
  function RoundedPercent(part: nat, total: nat): (p: nat)
    requires 0 < total && part <= total
    ensures p <= 100
    ensures 2 * total * p <= 200 * part + total < 2 * total * (p + 1)
    ensures part == 0 ==> p == 0
    ensures part == total ==> p == 100
  {
    RoundedPercentFacts(part, total);
    (200 * part + total) / (2 * total)
  }

  lemma RoundedPercentFacts(part: nat, total: nat)
    requires 0 < total && part <= total
    ensures var p := (200 * part + total) / (2 * total);
      && p <= 100
      && 2 * total * p <= 200 * part + total < 2 * total * (p + 1)
      && (part == 0 ==> p == 0)
      && (part == total ==> p == 100)
  {
    var d := 2 * total;
    var a := 200 * part + total;
    var p := a / d;
    assert d * p <= a < d * (p + 1);
    assert a < d * 101;
    Unique(d, a, p, if part == 0 then 0 else if part == total then 100 else p);
    UpperBound(d, a, p, 101);
  }

  /** The quotient is the only `q` with `d q <= a < d (q + 1)`. */
  lemma Unique(d: nat, a: nat, p: nat, q: nat)
    requires d > 0
    requires d * p <= a < d * (p + 1)
    requires d * q <= a < d * (q + 1)
    ensures p == q
  {
  }

  /** `d p <= a < d k` gives `p < k`. */
  lemma UpperBound(d: nat, a: nat, p: nat, k: nat)
    requires d > 0 && d * p <= a < d * k
    ensures p < k
  {
  }

  /** `total > 0 ? Math.round((resolved / total) * 100) : 0`. */
  function ResolutionRate(resolved: nat, total: nat): (rate: nat)
    requires resolved <= total
    ensures rate <= 100
    ensures total == 0 ==> rate == 0
    ensures total > 0 ==> rate == RoundedPercent(resolved, total)
  {
    if total > 0 then RoundedPercent(resolved, total) else 0
  }
}
