/**
 * The before/after carousel of src/components/BeforeAfter.tsx: the reports
 * it shows, the cyclic index moved by the previous and next buttons, and the
 * comparison slider, a percentage kept within [0, 100].
 */
module BeforeAfter {
  import opened Js

  /** The report fields the carousel reads. */
  datatype Report = Report(status: string, beforeImageUrl: JsValue, afterImageUrl: JsValue, description: string)

  /** Shown only when resolved and carrying both images. */
  predicate Qualifies(r: Report) {
    r.status == "resolved" && Truthy(r.beforeImageUrl) && Truthy(r.afterImageUrl)
  }

  /** `resolvedReports`: the qualifying reports, in their original order. */
  function Resolved(reports: seq<Report>): (shown: seq<Report>)
    ensures |shown| <= |reports|
    ensures forall r :: r in shown <==> r in reports && Qualifies(r)
  {
    if reports == [] then []
    else (if Qualifies(reports[0]) then [reports[0]] else []) + Resolved(reports[1..])
  }

  /** Filtering twice shows the same reports as filtering once. */
  lemma {:induction false} ResolvedIdempotent(reports: seq<Report>)
    ensures Resolved(Resolved(reports)) == Resolved(reports)
  {
    if reports != [] {
      ResolvedIdempotent(reports[1..]);
      var head := if Qualifies(reports[0]) then [reports[0]] else [];
      ResolvedAppend(head, Resolved(reports[1..]));
    }
  }

  /** Filtering works piecewise. */
  lemma {:induction false} ResolvedAppend(a: seq<Report>, b: seq<Report>)
    ensures Resolved(a + b) == Resolved(a) + Resolved(b)
  {
    if a == [] {
      assert a + b == b;
    } else {
      assert (a + b)[0] == a[0] && (a + b)[1..] == a[1..] + b;
      ResolvedAppend(a[1..], b);
    }
  }

  /** `(prev + 1) % n`. */
  function NextIndex(i: int, n: nat): (j: int)
    requires n > 0 && 0 <= i < n
    ensures 0 <= j < n
    ensures j == if i == n - 1 then 0 else i + 1
  {
    (i + 1) % n
  }

  /**
   * `(prev - 1 + n) % n`. The dividend is never negative here, so the
   * truncating `%` of JavaScript and Dafny's Euclidean one agree.
   */
  function PrevIndex(i: int, n: nat): (j: int)
    requires n > 0 && 0 <= i < n
    ensures 0 <= j < n
    ensures j == if i == 0 then n - 1 else i - 1
  {
    (i - 1 + n) % n
  }

  /** Previous undoes next. */
  lemma PrevAfterNext(i: int, n: nat)
    requires n > 0 && 0 <= i < n
    ensures PrevIndex(NextIndex(i, n), n) == i
  {
  }

  /** Next undoes previous. */
  lemma NextAfterPrev(i: int, n: nat)
    requires n > 0 && 0 <= i < n
    ensures NextIndex(PrevIndex(i, n), n) == i
  {
  }

  /** Pressing next `k` times from index `i`. */
  function NextTimes(i: int, n: nat, k: nat): (j: int)
    requires n > 0 && 0 <= i < n
    ensures 0 <= j < n
  {
    if k == 0 then i else NextIndex(NextTimes(i, n, k - 1), n)
  }

  /** Within one round, pressing next `k` times adds `k` and wraps once past the end. */
  lemma {:induction false} NextTimesWithinRound(i: int, n: nat, k: nat)
    requires n > 0 && 0 <= i < n && k <= n
    ensures NextTimes(i, n, k) == if i + k < n then i + k else i + k - n
  {
    if k > 0 {
      NextTimesWithinRound(i, n, k - 1);
    }
  }

  /** Pressing next once per report goes all the way round, back to the start. */
  lemma FullRoundReturns(i: int, n: nat)
    requires n > 0 && 0 <= i < n
    ensures NextTimes(i, n, n) == i
  {
    NextTimesWithinRound(i, n, n);
  }

  /** `Math.max(0, Math.min(100, x))`. */
  function Clamp(x: real): (p: real)
    ensures 0.0 <= p <= 100.0
    ensures 0.0 <= x <= 100.0 ==> p == x
    ensures x < 0.0 ==> p == 0.0
    ensures x > 100.0 ==> p == 100.0
  {
    if x < 0.0 then 0.0 else if x > 100.0 then 100.0 else x
  }

  /** Both buttons are disabled when at most one report qualifies. */
  predicate NavigationDisabled(n: nat) {
    n <= 1
  }

  /** The buttons are disabled exactly when moving could not show another report anyway. */
  lemma DisabledExactlyWhenStuck(i: int, n: nat)
    requires 0 <= i < n
    ensures NavigationDisabled(n) <==> NextIndex(i, n) == i
    ensures NavigationDisabled(n) <==> PrevIndex(i, n) == i
  {
  }

  class Carousel {
    const reports: seq<Report>   // the `reports` prop
    var currentIndex: int
    var sliderPosition: real

    ghost predicate Valid()
      reads this
    {
      (|Resolved(reports)| > 0 ==> 0 <= currentIndex < |Resolved(reports)|) && 0.0 <= sliderPosition <= 100.0
    }

    /** The empty-state panel is shown instead of the carousel when no report qualifies. */
    function ShowsEmptyState(): (empty: bool)
      reads this
      ensures empty <==> forall r :: r in reports ==> !Qualifies(r)
    {
      var shown := Resolved(reports);
      assert |shown| > 0 ==> shown[0] in shown;
      |shown| == 0
    }

    /** The report on show. */
    function Current(): (r: Report)
      reads this
      requires Valid() && !ShowsEmptyState()
      ensures r in reports && Qualifies(r)
    {
      Resolved(reports)[currentIndex]
    }

    constructor (reports: seq<Report>)
      ensures this.reports == reports && currentIndex == 0 && sliderPosition == 50.0
      ensures Valid()
    {
      this.reports := reports;
      currentIndex := 0;
      sliderPosition := 50.0;
    }

    /** `nextReport`. */
    method Next()
      requires Valid() && !ShowsEmptyState()
      modifies this
      ensures Valid()
      ensures currentIndex == NextIndex(old(currentIndex), |Resolved(reports)|)
      ensures sliderPosition == 50.0
    {
      currentIndex := (currentIndex + 1) % |Resolved(reports)|;
      sliderPosition := 50.0;
    }

    /** `prevReport`. */
    method Prev()
      requires Valid() && !ShowsEmptyState()
      modifies this
      ensures Valid()
      ensures currentIndex == PrevIndex(old(currentIndex), |Resolved(reports)|)
      ensures sliderPosition == 50.0
    {
      var n := |Resolved(reports)|;
      currentIndex := (currentIndex - 1 + n) % n;
      sliderPosition := 50.0;
    }

    /** A drag of the handle to `x` percent of the image width. */
    method Drag(x: real)
      requires Valid()
      modifies this
      ensures Valid()
      ensures sliderPosition == Clamp(x) && currentIndex == old(currentIndex)
    {
      sliderPosition := if x < 0.0 then 0.0 else if x > 100.0 then 100.0 else x;
    }
  }
}
