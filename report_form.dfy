/** The contribution report form: its schema, the at-least-one-amount guard and the confirmation step. */
module ReportFormPage {
  import opened Wrappers
  import opened Domain
  import opened Storage

  /** The validated form values; an untouched amount field is absent. */
  datatype ReportFormData = ReportFormData(
    tipo: string,
    metodoPago: string,
    diezmo: Option<real>,
    ofrenda: Option<real>,
    ofrendaEspecial: Option<real>,
    fecha: string,
    moneda: string,
    observaciones: Option<string>)

  /** The payment methods the form's schema accepts: `Otro` is there, `Efectivo $` is not. */
  const SchemaMetodosPago: seq<string> :=
    ["Transferencia", "Pago movil", "Efectivo Bs.", "Dolares", "Euros", "Otros", "Zelle",
     "Transferencia Internacional", "Otro"]

  predicate NonNegative(a: Option<real>) {
    a.None? || a.value >= 0.0
  }

  /** `reportSchema` */
  predicate ReportSchema(d: ReportFormData) {
    && d.tipo in Tipos
    && d.metodoPago in SchemaMetodosPago
    && NonNegative(d.diezmo) && NonNegative(d.ofrenda) && NonNegative(d.ofrendaEspecial)
    && |d.fecha| >= 1
    && d.moneda in Monedas
  }

  /** The schema's payment methods are the report type's, less `Efectivo $`. */
  lemma SchemaPaymentMethods()
    ensures forall m :: m in SchemaMetodosPago ==> m in MetodosPago
    ensures "Efectivo $" in MetodosPago && "Efectivo $" !in SchemaMetodosPago
    ensures forall m :: m in MetodosPago && m != "Efectivo $" ==> m in SchemaMetodosPago
  {
  }

  /** `diezmo || ofrenda || ofrendaEspecial`: some amount is present and non-zero. */
  predicate HasSomeAmount(d: ReportFormData) {
    Amount(d.diezmo) != 0.0 || Amount(d.ofrenda) != 0.0 || Amount(d.ofrendaEspecial) != 0.0
  }

  /** The stored report: the form's fields, the session user's id, and every missing amount as 0. */
  function NewReport(d: ReportFormData, user: User, id: string, now: int): (r: Report)
    ensures r.userId == user.id && r.fecha == d.fecha && r.tipo == d.tipo
    ensures r.metodoPago == d.metodoPago && r.moneda == d.moneda && r.observaciones == d.observaciones
    ensures r.diezmo.Some? && r.ofrenda.Some? && r.ofrendaEspecial.Some?
    ensures forall k :: FieldAmount(r, k) == FieldAmount(Report("", "", "", "", d.diezmo, d.ofrenda, d.ofrendaEspecial, "", "", None, 0), k)
  {
    Report(id, user.id, d.tipo, d.metodoPago,
           Some(Amount(d.diezmo)), Some(Amount(d.ofrenda)), Some(Amount(d.ofrendaEspecial)),
           d.fecha, d.moneda, d.observaciones, now)
  }

  /** A report that passes the schema and the guard has a strictly positive total. */
  lemma ConfirmedReportHasPositiveTotal(d: ReportFormData, user: User, id: string, now: int)
    requires ReportSchema(d) && HasSomeAmount(d)
    ensures ReportTotal(NewReport(d, user, id, now)) > 0.0
  {
  }

  /**
   * Under the schema, whose amounts are never negative, the some-amount guard holds exactly
   * when the stored report's total is positive.
   */
  lemma SomeAmountIffPositiveTotal(d: ReportFormData, user: User, id: string, now: int)
    requires ReportSchema(d)
    ensures HasSomeAmount(d) <==> ReportTotal(NewReport(d, user, id, now)) > 0.0
    ensures forall k :: FieldAmount(NewReport(d, user, id, now), k) >= 0.0
  {
  }

  datatype ConfirmOutcome = NothingPending | Submitted | StorageError

  class ReportForm {
    var showConfirmation: bool
    var formData: Option<ReportFormData>
    const storage: LocalStorage

    constructor(storage: LocalStorage)
      ensures !showConfirmation && formData.None? && this.storage == storage
    {
      showConfirmation := false;
      formData := None;
      this.storage := storage;
    }

    /** `onSubmit`: a form with no amount is rejected; otherwise it waits for confirmation. Storage is untouched. */
    method OnSubmit(d: ReportFormData)
      requires ReportSchema(d)
      modifies this
      ensures HasSomeAmount(d) ==> showConfirmation && formData == Some(d)
      ensures !HasSomeAmount(d) ==> showConfirmation == old(showConfirmation) && formData == old(formData)
    {
      if !HasSomeAmount(d) {
        return;
      }
      formData := Some(d);
      showConfirmation := true;
    }

    /** The back button of the confirmation view. */
    method CancelConfirmation()
      modifies this
      ensures !showConfirmation && formData == old(formData)
    {
      showConfirmation := false;
    }

    /**
     * `confirmReport`: with pending data and a session user, append the new report to the
     * stored list and clear the pending state; without either, do nothing.
     */
    method ConfirmReport(user: Option<User>, id: string, now: int) returns (o: ConfirmOutcome)
      modifies this, storage
      ensures o.NothingPending? <==> old(formData).None? || user.None?
      ensures !o.Submitted? ==> storage.items == old(storage.items) &&
                                showConfirmation == old(showConfirmation) && formData == old(formData)
      ensures o == StorageError <==> old(formData).Some? && user.Some? && ReadReports(old(storage.items)).None?
      ensures o.Submitted? ==> old(formData).Some? && user.Some? && ReadReports(old(storage.items)).Some?
      ensures o.Submitted? ==>
        && storage.items == old(storage.items)[ReportsKey := ReportList(ReadReports(old(storage.items)).value +
                                                [NewReport(old(formData).value, user.value, id, now)])]
        && !showConfirmation && formData.None?
    {
      if formData.None? || user.None? {
        return NothingPending;
      }
      var existing := ReadReports(storage.items);
      if existing.None? {
        return StorageError;
      }
      storage.SetItem(ReportsKey, ReportList(existing.value + [NewReport(formData.value, user.value, id, now)]));
      showConfirmation := false;
      formData := None;
      o := Submitted;
    }
  }
}
