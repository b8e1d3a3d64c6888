/** A member's own report history: the per-user list, its filters and the per-type totals. */
module ReportHistoryPage {
  import opened Wrappers
  import opened Seqs
  import opened Domain
  import opened Criteria

  /**
   * The page's filter state. An amount bound is `None` when its text is empty or does not
   * parse as a number: either way the comparison excludes nothing.
   */
  datatype HistoryFilters = HistoryFilters(
    dateFrom: string,
    dateTo: string,
    currency: Choice,
    amountMin: Option<real>,
    amountMax: Option<real>,
    tipo: Choice,
    paymentMethod: Choice)

  const ClearedHistoryFilters: HistoryFilters := HistoryFilters("", "", All, None, None, All, All)

  /** `report.userId === user?.id`: with no session, no report belongs. */
  predicate Owns(user: Option<User>, r: Report) {
    user.Some? && r.userId == user.value.id
  }

  /** `allReports.filter(r => r.userId === user?.id)` */
  function UserReports(all: seq<Report>, user: Option<User>): (rs: seq<Report>)
    ensures forall i :: 0 <= i < |rs| ==> Owns(user, rs[i]) && rs[i] in all
    ensures forall i :: 0 <= i < |all| && Owns(user, all[i]) ==> all[i] in rs
  {
    FilterMembers(all, (r: Report) => Owns(user, r));
    Filter(all, (r: Report) => Owns(user, r))
  }

  /** The inclusive amount range on the report total. */
  predicate WithinAmounts(f: HistoryFilters, r: Report) {
    && (f.amountMin.None? || ReportTotal(r) >= f.amountMin.value)
    && (f.amountMax.None? || ReportTotal(r) <= f.amountMax.value)
  }

  /** The filter callback: every active criterion holds. */
  predicate PassesHistory(f: HistoryFilters, r: Report) {
    && OnOrAfter(r.fecha, f.dateFrom)
    && OnOrBefore(r.fecha, f.dateTo)
    && Accepts(f.currency, r.moneda)
    && WithinAmounts(f, r)
    && Accepts(f.tipo, r.tipo)
    && Accepts(f.paymentMethod, r.metodoPago)
  }

  function HistoryFilter(f: HistoryFilters): Report -> bool {
    (r: Report) => PassesHistory(f, r)
  }

  /** `filteredReports` */
  function FilteredHistory(userReports: seq<Report>, f: HistoryFilters): (rs: seq<Report>)
    ensures forall i :: 0 <= i < |rs| ==> PassesHistory(f, rs[i]) && rs[i] in userReports
    ensures forall i :: 0 <= i < |userReports| && PassesHistory(f, userReports[i]) ==> userReports[i] in rs
  {
    FilterMembers(userReports, HistoryFilter(f));
    Filter(userReports, HistoryFilter(f))
  }

  /** The filtered list keeps the order of the member's reports, and filtering again changes nothing. */
  lemma FilteredHistoryOrder(userReports: seq<Report>, f: HistoryFilters)
    ensures IsSubsequence(FilteredHistory(userReports, f), userReports)
    ensures FilteredHistory(FilteredHistory(userReports, f), f) == FilteredHistory(userReports, f)
  {
    FilterIsSubsequence(userReports, HistoryFilter(f));
    FilterIdempotent(userReports, HistoryFilter(f));
  }

  /** The user's list keeps the stored order. */
  lemma UserReportsOrder(all: seq<Report>, user: Option<User>)
    ensures IsSubsequence(UserReports(all, user), all)
  {
    FilterIsSubsequence(all, (r: Report) => Owns(user, r));
  }

  /** With the filters cleared the member sees every one of their reports. */
  lemma ClearedHistoryKeepsAll(userReports: seq<Report>)
    ensures FilteredHistory(userReports, ClearedHistoryFilters) == userReports
  {
    FilterKeepsAll(userReports, HistoryFilter(ClearedHistoryFilters));
  }

  /** A minimum above the maximum lets no report through. */
  lemma CrossedAmountBoundsKeepNone(userReports: seq<Report>, f: HistoryFilters)
    requires f.amountMin.Some? && f.amountMax.Some? && f.amountMin.value > f.amountMax.value
    ensures FilteredHistory(userReports, f) == []
  {
    FilterKeepsNone(userReports, HistoryFilter(f));
  }

  /** Both amount bounds are inclusive on the report total. */
  lemma AmountBoundsInclusive(f: HistoryFilters, r: Report)
    requires f.amountMin == Some(ReportTotal(r)) || f.amountMin.None?
    requires f.amountMax == Some(ReportTotal(r)) || f.amountMax.None?
    ensures WithinAmounts(f, r)
  {
  }

  /**
   * When every report lies in the amount range, the sum of their totals (the sum of the
   * three `getTotalByType` figures) lies between count times minimum and count times maximum.
   */
  lemma SumWithinAmountBounds(rs: seq<Report>, f: HistoryFilters)
    requires forall i :: 0 <= i < |rs| ==> WithinAmounts(f, rs[i])
    ensures f.amountMin.Some? ==> SumTotals(rs) >= |rs| as real * f.amountMin.value
    ensures f.amountMax.Some? ==> SumTotals(rs) <= |rs| as real * f.amountMax.value
  {
    if f.amountMin.Some? {
      SumTotalsAtLeast(rs, f.amountMin.value);
    }
    if f.amountMax.Some? {
      SumTotalsAtMost(rs, f.amountMax.value);
    }
  }

  lemma {:induction false} SumTotalsAtLeast(rs: seq<Report>, lo: real)
    requires forall i :: 0 <= i < |rs| ==> ReportTotal(rs[i]) >= lo
    ensures SumTotals(rs) >= |rs| as real * lo
  {
    if rs != [] {
      SumTotalsAtLeast(rs[..|rs| - 1], lo);
    }
  }

  lemma {:induction false} SumTotalsAtMost(rs: seq<Report>, hi: real)
    requires forall i :: 0 <= i < |rs| ==> ReportTotal(rs[i]) <= hi
    ensures SumTotals(rs) <= |rs| as real * hi
  {
    if rs != [] {
      SumTotalsAtMost(rs[..|rs| - 1], hi);
    }
  }

  /** The page's filter state. */
  class ReportHistory {
    var filters: HistoryFilters

    constructor()
      ensures filters == ClearedHistoryFilters
    {
      filters := ClearedHistoryFilters;
    }

    method SetFilters(f: HistoryFilters)
      modifies this
      ensures filters == f
    {
      filters := f;
    }

    /** `clearFilters()` */
    method ClearFilters()
      modifies this
      ensures filters == ClearedHistoryFilters
    {
      filters := ClearedHistoryFilters;
    }
  }
}
