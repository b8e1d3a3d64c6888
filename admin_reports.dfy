/** The administrators' report page: the filter over every stored report, the totals and the per-method ranking. */
module AdminReportsPage {
  import opened Wrappers
  import opened Seqs
  import opened StableSort
  import opened Tally
  import opened Domain
  import opened Criteria

  datatype AdminFilters = AdminFilters(
    dateFrom: string,
    dateTo: string,
    userId: Choice,
    currency: Choice,
    tipo: Choice,
    cargo: Choice)

  const ClearedAdminFilters: AdminFilters := AdminFilters("", "", All, All, All, All)

  /** `allUsers.find(u => u.id === id)` */
  function FindUser(users: seq<User>, id: string): (r: Option<User>)
    ensures r.Some? ==> r.value.id == id && r.value in users
    ensures r.None? <==> forall i :: 0 <= i < |users| ==> users[i].id != id
    ensures r.Some? ==> exists i :: 0 <= i < |users| && users[i] == r.value &&
                          forall j :: 0 <= j < i ==> users[j].id != id
  {
    if users == [] then None
    else if users[0].id == id then Some(users[0])
    else
      var r := FindUser(users[1..], id);
      if r.Some? then
        var i :| 0 <= i < |users[1..]| && users[1..][i] == r.value && forall j :: 0 <= j < i ==> users[1..][j].id != id;
        assert users[i + 1] == r.value;
        r
      else r
  }

  /** `user?.cargo === cargo` when a role is chosen: a report with no matching user has no role. */
  predicate RoleAccepts(c: Choice, owner: Option<User>) {
    c.All? || (owner.Some? && owner.value.cargo == c.value)
  }

  /** The filter callback: every active criterion holds. */
  predicate PassesAdmin(f: AdminFilters, users: seq<User>, r: Report) {
    && OnOrAfter(r.fecha, f.dateFrom)
    && OnOrBefore(r.fecha, f.dateTo)
    && Accepts(f.userId, r.userId)
    && Accepts(f.currency, r.moneda)
    && Accepts(f.tipo, r.tipo)
    && RoleAccepts(f.cargo, FindUser(users, r.userId))
  }

  /** `filteredReports` */
  function FilteredAdmin(reports: seq<Report>, users: seq<User>, f: AdminFilters): (rs: seq<Report>)
    ensures forall i :: 0 <= i < |rs| ==> PassesAdmin(f, users, rs[i]) && rs[i] in reports
    ensures forall i :: 0 <= i < |reports| && PassesAdmin(f, users, reports[i]) ==> reports[i] in rs
  {
    FilterMembers(reports, (r: Report) => PassesAdmin(f, users, r));
    Filter(reports, (r: Report) => PassesAdmin(f, users, r))
  }

  /** The filtered list keeps the stored order, and filtering again changes nothing. */
  lemma FilteredAdminOrder(reports: seq<Report>, users: seq<User>, f: AdminFilters)
    ensures IsSubsequence(FilteredAdmin(reports, users, f), reports)
    ensures FilteredAdmin(FilteredAdmin(reports, users, f), users, f) == FilteredAdmin(reports, users, f)
  {
    FilterIsSubsequence(reports, (r: Report) => PassesAdmin(f, users, r));
    FilterIdempotent(reports, (r: Report) => PassesAdmin(f, users, r));
  }

  /** With the filters cleared every stored report is shown. */
  lemma ClearedAdminKeepsAll(reports: seq<Report>, users: seq<User>)
    ensures FilteredAdmin(reports, users, ClearedAdminFilters) == reports
  {
    FilterKeepsAll(reports, (r: Report) => PassesAdmin(ClearedAdminFilters, users, r));
  }

  /** Once a role is chosen, a report whose author is not among the users is never shown. */
  lemma OrphanReportsNeedNoRole(reports: seq<Report>, users: seq<User>, f: AdminFilters, r: Report)
    requires f.cargo.Only? && forall i :: 0 <= i < |users| ==> users[i].id != r.userId
    ensures r !in FilteredAdmin(reports, users, f)
  {
  }

  // ----- totals -----

  /** The two per-key breakdowns. */
  datatype Grouping = ByMoneda | ByMetodo

  function GroupKey(g: Grouping, r: Report): string {
    match g
    case ByMoneda => r.moneda
    case ByMetodo => r.metodoPago
  }

  /** The per-key totals the `reduce` builds, in first-appearance order of the keys. */
  function ByKey(rs: seq<Report>, g: Grouping): Entries<string> {
    if rs == [] then []
    else Add(ByKey(rs[..|rs| - 1], g), GroupKey(g, rs[|rs| - 1]), ReportTotal(rs[|rs| - 1]))
  }

  datatype Totals = Totals(
    diezmos: real,
    ofrendas: real,
    ofrendasEspeciales: real,
    total: real,
    byMoneda: Entries<string>,
    byMetodo: Entries<string>)

  /** One step of the `totals` reduce: add a report to the accumulator. */
  function Step(t: Totals, r: Report): Totals {
    var amount := Amount(r.diezmo) + Amount(r.ofrenda) + Amount(r.ofrendaEspecial);
    Totals(t.diezmos + Amount(r.diezmo),
           t.ofrendas + Amount(r.ofrenda),
           t.ofrendasEspeciales + Amount(r.ofrendaEspecial),
           t.total + amount,
           Add(t.byMoneda, r.moneda, amount),
           Add(t.byMetodo, r.metodoPago, amount))
  }

  /** The reduce from the empty accumulator. */
  function TotalsOf(rs: seq<Report>): Totals {
    if rs == [] then Totals(0.0, 0.0, 0.0, 0.0, [], [])
    else Step(TotalsOf(rs[..|rs| - 1]), rs[|rs| - 1])
  }

  /** Each field of the accumulator is the corresponding sum over the reports. */
  lemma {:induction false} TotalsOfFields(rs: seq<Report>)
    ensures TotalsOf(rs).diezmos == SumField(rs, DiezmoField)
    ensures TotalsOf(rs).ofrendas == SumField(rs, OfrendaField)
    ensures TotalsOf(rs).ofrendasEspeciales == SumField(rs, OfrendaEspecialField)
    ensures TotalsOf(rs).total == SumTotals(rs)
  {
    if rs != [] {
      TotalsOfFields(rs[..|rs| - 1]);
    }
  }

  function Breakdown(t: Totals, g: Grouping): Entries<string> {
    match g
    case ByMoneda => t.byMoneda
    case ByMetodo => t.byMetodo
  }

  /** Each breakdown of the accumulator is the per-key totals. */
  lemma {:induction false} TotalsOfBreakdown(rs: seq<Report>, g: Grouping)
    ensures Breakdown(TotalsOf(rs), g) == ByKey(rs, g)
  {
    if rs != [] {
      var n := |rs| - 1;
      TotalsOfBreakdown(rs[..n], g);
      StepBreakdown(TotalsOf(rs[..n]), rs[n], g);
    }
  }

  /** One reduce step adds the report's total to its key's entry. */
  lemma StepBreakdown(t: Totals, r: Report, g: Grouping)
    ensures Breakdown(Step(t, r), g) == Add(Breakdown(t, g), GroupKey(g, r), ReportTotal(r))
  {
  }

  /** The `totals` reduce over the filtered reports, as a loop. */
  method ComputeTotals(rs: seq<Report>) returns (t: Totals)
    ensures t == TotalsOf(rs)
    ensures t.diezmos == SumField(rs, DiezmoField) && t.ofrendas == SumField(rs, OfrendaField)
    ensures t.ofrendasEspeciales == SumField(rs, OfrendaEspecialField)
    ensures t.total == SumTotals(rs) == t.diezmos + t.ofrendas + t.ofrendasEspeciales
  {
    t := Totals(0.0, 0.0, 0.0, 0.0, [], []);
    var i := 0;
    while i < |rs|
      invariant 0 <= i <= |rs|
      invariant t == TotalsOf(rs[..i])
    {
      assert rs[..i + 1][..i] == rs[..i];
      t := Step(t, rs[i]);
      i := i + 1;
    }
    assert rs[..i] == rs;
    TotalsOfFields(rs);
    FieldSumsDecompose(rs);
  }

  /** `total` is the sum of the three per-field totals. */
  lemma TotalIsSumOfFields(rs: seq<Report>)
    ensures SumTotals(rs) == SumField(rs, DiezmoField) + SumField(rs, OfrendaField) + SumField(rs, OfrendaEspecialField)
  {
    FieldSumsDecompose(rs);
  }

  /** Each breakdown has every key once, and its values add up to `total`. */
  lemma {:induction false} ByKeyDistinctAndSum(rs: seq<Report>, g: Grouping)
    ensures DistinctKeys(ByKey(rs, g))
    ensures Sum(ByKey(rs, g)) == SumTotals(rs)
  {
    if rs != [] {
      ByKeyDistinctAndSum(rs[..|rs| - 1], g);
    }
  }

  /** A breakdown has exactly the keys that occur among the reports. */
  lemma {:induction false} ByKeyKeys(rs: seq<Report>, g: Grouping, k: string)
    ensures k in Keys(ByKey(rs, g)) <==> exists i :: 0 <= i < |rs| && GroupKey(g, rs[i]) == k
  {
    if rs != [] {
      var n := |rs| - 1;
      ByKeyKeys(rs[..n], g, k);
      if exists i :: 0 <= i < n && GroupKey(g, rs[..n][i]) == k {
        var i :| 0 <= i < n && GroupKey(g, rs[..n][i]) == k;
        assert rs[i] == rs[..n][i];
      }
      if exists i :: 0 <= i < |rs| && GroupKey(g, rs[i]) == k {
        var i :| 0 <= i < |rs| && GroupKey(g, rs[i]) == k;
        if i < n {
          assert rs[..n][i] == rs[i];
        }
      }
    }
  }

  /** The reports whose key is `k`, in stored order. */
  function WithKey(rs: seq<Report>, g: Grouping, k: string): seq<Report> {
    Filter(rs, (r: Report) => GroupKey(g, r) == k)
  }

  /** The value a breakdown holds for `k` is the sum of the totals of the reports with that key. */
  lemma {:induction false} ByKeyGet(rs: seq<Report>, g: Grouping, k: string)
    ensures Get(ByKey(rs, g), k) == SumTotals(WithKey(rs, g, k))
  {
    if rs != [] {
      var n := |rs| - 1;
      ByKeyGet(rs[..n], g, k);
      ByKeyGetStep(rs, g, k);
      WithKeyStep(rs, g, k);
    }
  }

  lemma ByKeyGetStep(rs: seq<Report>, g: Grouping, k: string)
    requires rs != []
    ensures Get(ByKey(rs, g), k) == Get(ByKey(rs[..|rs| - 1], g), k) +
              (if GroupKey(g, rs[|rs| - 1]) == k then ReportTotal(rs[|rs| - 1]) else 0.0)
  {
    ByKeyDistinctAndSum(rs[..|rs| - 1], g);
  }

  lemma WithKeyStep(rs: seq<Report>, g: Grouping, k: string)
    requires rs != []
    ensures SumTotals(WithKey(rs, g, k)) == SumTotals(WithKey(rs[..|rs| - 1], g, k)) +
              (if GroupKey(g, rs[|rs| - 1]) == k then ReportTotal(rs[|rs| - 1]) else 0.0)
  {
    var n := |rs| - 1;
    var x := rs[n];
    var p := (r: Report) => GroupKey(g, r) == k;
    assert rs == rs[..n] + [x];
    FilterAppend(rs[..n], [x], p);
    var front := WithKey(rs[..n], g, k);
    if GroupKey(g, x) == k {
      assert Filter([x], p) == [x];
      assert (front + [x])[..|front|] == front;
    } else {
      assert Filter([x], p) == [];
      assert front + [] == front;
    }
  }

  /** The page lists the payment-method totals largest first (a stable sort on the value). */
  function MetodoRanking(byMetodo: Entries<string>): (r: Entries<string>)
    ensures SortedDesc(r, (e: (string, real)) => e.1)
    ensures multiset(r) == multiset(byMetodo)
  {
    SortDesc(byMetodo, (e: (string, real)) => e.1)
  }
}
