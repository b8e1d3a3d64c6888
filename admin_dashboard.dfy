/**
 * The administrators' dashboard: headline statistics, the per-user activity ranking,
 * the users without recent reports, the recent-activity list and the monthly average.
 */
module AdminDashboardPage {
  import opened Wrappers
  import opened Seqs
  import opened StableSort
  import opened Domain
  import opened Dates
  import opened AdminUsersPage

  datatype Stats = Stats(
    totalUsers: nat,
    totalReports: nat,
    totalTithes: real,
    totalOfferings: real,
    activeMembers: nat,
    reportsThisMonth: nat)

  /** The reports dated in the same month and year as `now`. */
  function ThisMonth(reports: seq<Report>, now: Instant): (rs: seq<Report>)
    ensures forall i :: 0 <= i < |rs| ==> InMonthOf(rs[i].fecha, now) && rs[i] in reports
    ensures forall i :: 0 <= i < |reports| && InMonthOf(reports[i].fecha, now) ==> reports[i] in rs
  {
    FilterMembers(reports, (r: Report) => InMonthOf(r.fecha, now));
    Filter(reports, (r: Report) => InMonthOf(r.fecha, now))
  }

  /** `stats` */
  function ComputeStats(users: seq<User>, reports: seq<Report>, now: Instant): (s: Stats)
    ensures s.totalUsers == |users| && s.totalReports == |reports|
    ensures s.totalTithes == SumField(reports, DiezmoField) && s.totalOfferings == SumField(reports, OfrendaField)
    ensures s.activeMembers == |ActiveUsers(users)| <= s.totalUsers
    ensures s.reportsThisMonth == |ThisMonth(reports, now)| <= s.totalReports
  {
    Stats(|users|, |reports|, SumField(reports, DiezmoField), SumField(reports, OfrendaField),
          |ActiveUsers(users)|, |ThisMonth(reports, now)|)
  }

  /** The monthly average card: the sum of tithes and offerings spread over twelve months. */
  function MonthlyAverage(s: Stats): (avg: real)
    ensures avg * 12.0 == s.totalTithes + s.totalOfferings
  {
    (s.totalTithes + s.totalOfferings) / 12.0
  }

  // ----- user activity -----

  /** A user with the two fields the ranking adds. */
  datatype Activity = Activity(user: User, reportCount: nat, lastReport: Option<string>)

  /** The `map` callback: the count of the user's reports and the date of the last one stored. */
  function ActivityOf(u: User, reports: seq<Report>): (a: Activity)
    ensures a.user == u && a.reportCount == |ReportsOf(reports, u.id)|
    ensures a.lastReport.None? <==> ReportsOf(reports, u.id) == []
  {
    var rs := ReportsOf(reports, u.id);
    Activity(u, |rs|, if |rs| > 0 then Some(rs[|rs| - 1].fecha) else None)
  }

  /** The dashboard's figures for a user are the user page's: the same count and the same last report. */
  lemma ActivityMatchesUserData(u: User, reports: seq<Report>, now: Instant)
    ensures ActivityOf(u, reports).reportCount == GetUserData(reports, u.id, now).totalReports
    ensures ActivityOf(u, reports).lastReport.Some? <==> GetUserData(reports, u.id, now).lastReport.Some?
    ensures ActivityOf(u, reports).lastReport.Some? ==>
              ActivityOf(u, reports).lastReport.value == GetUserData(reports, u.id, now).lastReport.value.fecha
  {
  }

  function Activities(users: seq<User>, reports: seq<Report>): (acts: seq<Activity>)
    ensures |acts| == |users|
    ensures forall i :: 0 <= i < |users| ==> acts[i] == ActivityOf(users[i], reports)
  {
    seq(|users|, i requires 0 <= i < |users| => ActivityOf(users[i], reports))
  }

  function CountKey(a: Activity): real {
    a.reportCount as real
  }

  /** `userActivity`: one entry per user, most reports first. */
  function UserActivity(users: seq<User>, reports: seq<Report>): (ranked: seq<Activity>)
    ensures |ranked| == |users|
    ensures multiset(ranked) == multiset(Activities(users, reports))
    ensures SortedDesc(ranked, CountKey)
  {
    SortDesc(Activities(users, reports), CountKey)
  }

  /** Users with the same number of reports keep their stored order: the sort is stable. */
  lemma RankingKeepsTiesInOrder(users: seq<User>, reports: seq<Report>, count: nat)
    ensures Filter(UserActivity(users, reports), HasKey(CountKey, count as real))
         == Filter(Activities(users, reports), HasKey(CountKey, count as real))
  {
    SortDescStable(Activities(users, reports), CountKey, count as real);
  }

  /** The dashboard's inactivity test: no last date (or an empty one), or one before the cutoff. */
  predicate DashboardInactive(a: Activity, now: Instant) {
    a.lastReport.None? || a.lastReport.value == "" || FechaBeforeInstant(a.lastReport.value, TwoMonthsBefore(now))
  }

  function DashboardInactiveUsers(ranked: seq<Activity>, now: Instant): (us: seq<Activity>)
    ensures forall i :: 0 <= i < |us| ==> DashboardInactive(us[i], now) && us[i] in ranked
    ensures forall i :: 0 <= i < |ranked| && DashboardInactive(ranked[i], now) ==> ranked[i] in us
  {
    FilterMembers(ranked, (a: Activity) => DashboardInactive(a, now));
    Filter(ranked, (a: Activity) => DashboardInactive(a, now))
  }

  /** A user without reports is always inactive on the dashboard. */
  lemma NoReportsMeansInactive(u: User, reports: seq<Report>, now: Instant)
    requires ReportsOf(reports, u.id) == []
    ensures DashboardInactive(ActivityOf(u, reports), now)
  {
  }

  /** Wherever the last report's date is not empty, the dashboard agrees with the user page's `isInactive`. */
  lemma DashboardAgreesWithUserPage(u: User, reports: seq<Report>, now: Instant)
    requires ReportsOf(reports, u.id) != []
    requires GetUserData(reports, u.id, now).lastReport.value.fecha != ""
    ensures DashboardInactive(ActivityOf(u, reports), now) == GetUserData(reports, u.id, now).isInactive
  {
  }

  /** A last report with an empty date counts as inactive here but not on the user page. */
  lemma EmptyLastDateDisagrees(u: User, reports: seq<Report>, now: Instant)
    requires ReportsOf(reports, u.id) != []
    requires GetUserData(reports, u.id, now).lastReport.value.fecha == ""
    ensures DashboardInactive(ActivityOf(u, reports), now)
    ensures !GetUserData(reports, u.id, now).isInactive
  {
    assert ParseIsoDate("").None?;
  }

  // ----- the short lists -----

  /** `list.slice(0, 5)` */
  function Preview<T>(s: seq<T>): (p: seq<T>)
    ensures |p| <= 5 && p <= s
    ensures |s| <= 5 ==> p == s
  {
    Take(s, 5)
  }

  /** The "and N more" line, shown only past five entries. */
  function Overflow(n: nat): (more: Option<nat>)
    ensures more.Some? <==> n > 5
  {
    if n > 5 then Some(n - 5) else None
  }

  /** The preview and the overflow line together account for every entry exactly once. */
  lemma PreviewAndOverflowCoverAll<T>(s: seq<T>)
    ensures |Preview(s)| + Overflow(|s|).GetOr(0) == |s|
  {
  }

  function CreatedKey(r: Report): real {
    r.createdAt as real
  }

  /** The recent-activity card: the five most recently created reports, newest first. */
  function RecentActivity(reports: seq<Report>): (recent: seq<Report>)
    ensures |recent| == if |reports| < 5 then |reports| else 5
    ensures SortedDesc(recent, CreatedKey)
    ensures recent <= SortDesc(reports, CreatedKey)
  {
    Preview(SortDesc(reports, CreatedKey))
  }

  /** No report left out of the card was created after one that is shown. */
  lemma RecentActivityIsNewest(reports: seq<Report>)
    ensures var sorted, recent := SortDesc(reports, CreatedKey), RecentActivity(reports);
            forall i, j :: 0 <= i < |recent| <= j < |sorted| ==> sorted[j].createdAt <= recent[i].createdAt
  {
    var sorted, recent := SortDesc(reports, CreatedKey), RecentActivity(reports);
    forall i, j | 0 <= i < |recent| <= j < |sorted| ensures sorted[j].createdAt <= recent[i].createdAt {
      assert recent[i] == sorted[i];
      assert CreatedKey(sorted[i]) >= CreatedKey(sorted[j]);
    }
  }
}
