/**
 * The administrators' user page: per-user activity figures, the active and inactive
 * tabs, the search box and a user's detail history. Users and reports arrive from the
 * backend; here they are the two lists the page holds.
 */
module AdminUsersPage {
  import opened Wrappers
  import opened Text
  import opened Seqs
  import opened StableSort
  import opened Domain
  import opened Dates

  /** `allReports.filter(r => r.userId === userId)` */
  function ReportsOf(all: seq<Report>, userId: string): (rs: seq<Report>)
    ensures forall i :: 0 <= i < |rs| ==> rs[i].userId == userId && rs[i] in all
    ensures forall i :: 0 <= i < |all| && all[i].userId == userId ==> all[i] in rs
  {
    FilterMembers(all, (r: Report) => r.userId == userId);
    Filter(all, (r: Report) => r.userId == userId)
  }

  /** The record `getUserData` returns. */
  datatype UserData = UserData(
    reports: seq<Report>,
    totalReports: nat,
    totalDiezmos: real,
    totalOfrendas: real,
    lastReport: Option<Report>,
    isInactive: bool)

  /** `getUserData(userId)`, with "now" as a parameter. */
  function GetUserData(all: seq<Report>, userId: string, now: Instant): (d: UserData)
    ensures d.reports == ReportsOf(all, userId) && d.totalReports == |d.reports|
    ensures d.totalDiezmos == SumField(d.reports, DiezmoField)
    ensures d.totalOfrendas == SumField(d.reports, OfrendaField)
    ensures d.lastReport.None? <==> d.reports == []
    ensures d.lastReport.Some? ==> d.lastReport.value == d.reports[|d.reports| - 1]
    ensures d.isInactive <==> d.reports == [] || FechaBeforeInstant(d.lastReport.value.fecha, TwoMonthsBefore(now))
  {
    var rs := ReportsOf(all, userId);
    var last := if |rs| > 0 then Some(rs[|rs| - 1]) else None;
    UserData(rs, |rs|, SumField(rs, DiezmoField), SumField(rs, OfrendaField), last,
             last.None? || FechaBeforeInstant(last.value.fecha, TwoMonthsBefore(now)))
  }

  /** `lastReport` is the user's last report in stored order, which need not be the latest by date. */
  lemma {:induction false} LastReportIsLastStored(all: seq<Report>, userId: string)
    requires ReportsOf(all, userId) != []
    ensures exists i :: 0 <= i < |all| && all[i] == ReportsOf(all, userId)[|ReportsOf(all, userId)| - 1]
                        && all[i].userId == userId
                        && forall j :: i < j < |all| ==> all[j].userId != userId
  {
    var rs := ReportsOf(all, userId);
    var rest := ReportsOf(all[1..], userId);
    assert rs == (if all[0].userId == userId then [all[0]] else []) + rest;
    if rest != [] {
      LastReportIsLastStored(all[1..], userId);
      var i :| 0 <= i < |all[1..]| && all[1..][i] == rest[|rest| - 1] && all[1..][i].userId == userId
               && forall j :: i < j < |all[1..]| ==> all[1..][j].userId != userId;
      assert rs[|rs| - 1] == rest[|rest| - 1];
      assert all[i + 1] == all[1..][i];
      forall j | i + 1 < j < |all| ensures all[j].userId != userId {
        assert all[j] == all[1..][j - 1];
      }
    } else {
      forall j | 0 < j < |all| ensures all[j].userId != userId {
        assert all[j] == all[1..][j - 1];
      }
      assert rs == [all[0]];
    }
  }

  /** `allUsers.filter(u => u.miembroActivo)` */
  function ActiveUsers(users: seq<User>): (us: seq<User>)
    ensures forall i :: 0 <= i < |us| ==> us[i].miembroActivo && us[i] in users
    ensures forall i :: 0 <= i < |users| && users[i].miembroActivo ==> users[i] in us
  {
    FilterMembers(users, (u: User) => u.miembroActivo);
    Filter(users, (u: User) => u.miembroActivo)
  }

  /** The inactive tab's own test, which differs from `isInactive`. */
  predicate ListedInactive(u: User, all: seq<Report>, now: Instant) {
    var d := GetUserData(all, u.id, now);
    !u.miembroActivo || (d.lastReport.Some? && FechaBeforeInstant(d.lastReport.value.fecha, TwoMonthsBefore(now)))
  }

  function InactiveUsers(users: seq<User>, all: seq<Report>, now: Instant): (us: seq<User>)
    ensures forall i :: 0 <= i < |us| ==> ListedInactive(us[i], all, now) && us[i] in users
    ensures forall i :: 0 <= i < |users| && ListedInactive(users[i], all, now) ==> users[i] in us
  {
    FilterMembers(users, (u: User) => ListedInactive(u, all, now));
    Filter(users, (u: User) => ListedInactive(u, all, now))
  }

  /**
   * The tab lists exactly the users that are not active members, plus those with at
   * least one report whom `isInactive` flags.
   */
  lemma ListedInactiveVersusIsInactive(u: User, all: seq<Report>, now: Instant)
    ensures ListedInactive(u, all, now) <==>
              !u.miembroActivo || (ReportsOf(all, u.id) != [] && GetUserData(all, u.id, now).isInactive)
  {
  }

  /** An active member who has never reported is flagged by `isInactive` but not listed in the tab. */
  lemma SilentActiveMemberNotListed(u: User, all: seq<Report>, now: Instant)
    requires u.miembroActivo && ReportsOf(all, u.id) == []
    ensures GetUserData(all, u.id, now).isInactive
    ensures !ListedInactive(u, all, now)
  {
  }

  /** An active member whose last report is older than the cutoff appears in both tabs. */
  lemma StaleActiveMemberInBothTabs(users: seq<User>, all: seq<Report>, now: Instant, i: nat)
    requires i < |users| && users[i].miembroActivo
    requires ReportsOf(all, users[i].id) != [] && GetUserData(all, users[i].id, now).isInactive
    ensures users[i] in ActiveUsers(users) && users[i] in InactiveUsers(users, all, now)
  {
  }

  // ----- search -----

  /** The search test: a name or surname contains the term ignoring case, or the cédula or phone contains it as typed. */
  predicate MatchesSearch(u: User, term: string) {
    || Includes(Lower(u.nombre), Lower(term))
    || Includes(Lower(u.apellido), Lower(term))
    || Includes(u.cedula, term)
    || Includes(u.telefono, term)
  }

  /** `filteredUsers` */
  function SearchUsers(users: seq<User>, term: string): (us: seq<User>)
    ensures forall i :: 0 <= i < |us| ==> MatchesSearch(us[i], term) && us[i] in users
    ensures forall i :: 0 <= i < |users| && MatchesSearch(users[i], term) ==> users[i] in us
  {
    FilterMembers(users, (u: User) => MatchesSearch(u, term));
    Filter(users, (u: User) => MatchesSearch(u, term))
  }

  /** An empty search term keeps every user, in order. */
  lemma EmptySearchKeepsAll(users: seq<User>)
    ensures SearchUsers(users, "") == users
  {
    forall u | u in users ensures MatchesSearch(u, "") {
      IncludesEmpty(u.cedula);
    }
    FilterKeepsAll(users, (u: User) => MatchesSearch(u, ""));
  }

  /**
   * A user whose name contains the term, ignoring case, is found whatever the case of the
   * name and of the term: by the term as typed and by its lower-case form alike.
   */
  lemma NameSearchIgnoresCase(users: seq<User>, term: string, i: nat)
    requires i < |users| && Includes(Lower(users[i].nombre), Lower(term))
    ensures users[i] in SearchUsers(users, term)
    ensures users[i] in SearchUsers(users, Lower(term))
  {
    LowerIdempotent(term);
  }

  // ----- detail history -----

  /** `new Date(fecha).getTime()` as a sort key; an unparsable date sorts as 0. */
  function DateKey(r: Report): real {
    match ParseIsoDate(r.fecha)
    case Some(d) => DayNumber(d) as real
    case None => 0.0
  }

  /** The detail view: the user's reports, newest first, at most ten. */
  function DetailHistory(reports: seq<Report>): (h: seq<Report>)
    ensures |h| == if |reports| < 10 then |reports| else 10
    ensures SortedDesc(h, DateKey)
    ensures h <= SortDesc(reports, DateKey)
    ensures multiset(h) <= multiset(reports)
  {
    var sorted := SortDesc(reports, DateKey);
    var h := Take(sorted, 10);
    assert sorted == h + sorted[|h|..];
    assert multiset(sorted) == multiset(h) + multiset(sorted[|h|..]);
    h
  }

  /**
   * The ten shown are the newest: every report of the user that the sort leaves past the
   * tenth has a date key no greater than any shown one.
   */
  lemma DetailHistoryIsNewest(reports: seq<Report>)
    ensures var sorted, h := SortDesc(reports, DateKey), DetailHistory(reports);
            multiset(sorted) == multiset(reports) &&
            forall i, j :: 0 <= i < |h| <= j < |sorted| ==> DateKey(sorted[j]) <= DateKey(h[i])
  {
    var sorted, h := SortDesc(reports, DateKey), DetailHistory(reports);
    forall i, j | 0 <= i < |h| <= j < |sorted| ensures DateKey(sorted[j]) <= DateKey(h[i]) {
      assert h[i] == sorted[i];
    }
  }

  /** Between two shown reports with valid dates, the earlier-shown one is never older. */
  lemma DetailHistoryNewestFirst(reports: seq<Report>, i: nat, j: nat)
    requires i < j < |DetailHistory(reports)|
    requires ParseIsoDate(DetailHistory(reports)[i].fecha).Some? && ParseIsoDate(DetailHistory(reports)[j].fecha).Some?
    ensures !Before(ParseIsoDate(DetailHistory(reports)[i].fecha).value, ParseIsoDate(DetailHistory(reports)[j].fecha).value)
  {
    var h := DetailHistory(reports);
    BeforeIsDayNumberOrder(ParseIsoDate(h[i].fecha).value, ParseIsoDate(h[j].fecha).value);
    assert DateKey(h[i]) >= DateKey(h[j]);
  }
}
