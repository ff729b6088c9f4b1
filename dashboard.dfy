/**
 * The citizen dashboard of src/components/Dashboard.tsx: the report counts
 * and resolution rate computed after a fetch, and the empty-state panel.
 * Reports are reduced to their status; the day-by-day trend series is not
 * modelled.
 */
module Dashboard {
  import opened Common
  import opened ReportStats

  datatype Stats = Stats(totalReports: nat, openReports: nat, resolvedReports: nat, resolutionRate: nat)

  const EmptyStats := Stats(0, 0, 0, 0)

  /** The stats of `fetchDashboardData` for the fetched reports' statuses. */
  function ComputeStats(statuses: seq<string>): (s: Stats)
    ensures s.totalReports == |statuses|
    ensures s.openReports == CountStatus(statuses, "open")
    ensures s.resolvedReports == CountStatus(statuses, "resolved")
    ensures s.openReports + s.resolvedReports <= s.totalReports
    ensures s.resolutionRate <= 100
    ensures s.totalReports == 0 ==> s.resolutionRate == 0
    ensures s.totalReports > 0 ==> s.resolutionRate == RoundedPercent(s.resolvedReports, s.totalReports)
  {
    TwoStatusesAtMostTotal(statuses, "open", "resolved");
    var total := |statuses|;
    var resolved := CountStatus(statuses, "resolved");
    Stats(total, CountStatus(statuses, "open"), resolved, ResolutionRate(resolved, total))
  }

  /** `hasNoData`: the empty-state panel. */
  predicate HasNoData(s: Stats) {
    s.totalReports == 0
  }

  /** After a fetch the empty state shows exactly when no report came back, and then every count is zero. */
  lemma EmptyStateIffNoReports(statuses: seq<string>)
    ensures HasNoData(ComputeStats(statuses)) <==> statuses == []
    ensures statuses == [] ==> ComputeStats(statuses) == EmptyStats
  {
  }

  /** When every report is resolved the rate is 100, and when none is it is 0. */
  lemma RateExtremes(statuses: seq<string>)
    requires statuses != []
    ensures (forall k :: 0 <= k < |statuses| ==> statuses[k] == "resolved") ==> ComputeStats(statuses).resolutionRate == 100
    ensures "resolved" !in statuses ==> ComputeStats(statuses).resolutionRate == 0
  {
  }

  class DashboardView {
    var stats: Stats
    var reports: seq<string>
    var loading: bool

    ghost predicate Valid()
      reads this
    {
      stats.openReports + stats.resolvedReports <= stats.totalReports && stats.resolutionRate <= 100
    }

    constructor ()
      ensures Valid() && stats == EmptyStats && reports == [] && loading
    {
      stats := EmptyStats;
      reports := [];
      loading := true;
    }

    /**
     * `fetchDashboardData`: `rows` is the query's outcome. An error keeps the
     * previous state and shows a toast; a query with no data keeps it
     * silently. Loading ends in every case.
     */
    method FetchDashboardData(rows: Result<Option<seq<string>>, string>) returns (toast: Option<string>)
      requires Valid()
      modifies this
      ensures Valid() && !loading
      ensures rows.Ok? && rows.value.Some? ==> reports == rows.value.value && stats == ComputeStats(rows.value.value)
      ensures !(rows.Ok? && rows.value.Some?) ==> reports == old(reports) && stats == old(stats)
      ensures toast == if rows.Err? then Some("Failed to load dashboard data") else None
    {
      toast := None;
      if rows.Err? {
        toast := Some("Failed to load dashboard data");
      } else if rows.value.Some? {
        reports := rows.value.value;
        stats := ComputeStats(rows.value.value);
      }
      loading := false;
    }
  }
}
