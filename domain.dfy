/**
 * The records the client keeps in browser storage (users and contribution reports),
 * their enumerations, and the amount sums every page computes. Amounts are exact
 * reals; floating-point rounding is not modelled.
 */
module Domain {
  import opened Wrappers

  /** A registered member. `correo` and `isAdmin` are optional fields. */
  datatype User = User(
    id: string,
    nombre: string,
    apellido: string,
    cedula: string,
    telefono: string,
    fechaNacimiento: string,
    correo: Option<string>,
    cargo: string,
    miembroActivo: bool,
    isAdmin: Option<bool>,
    password: string,
    createdAt: int)

  /** A contribution report; the three amounts are optional and `fecha` is a date string. */
  datatype Report = Report(
    id: string,
    userId: string,
    tipo: string,
    metodoPago: string,
    diezmo: Option<real>,
    ofrenda: Option<real>,
    ofrendaEspecial: Option<real>,
    fecha: string,
    moneda: string,
    observaciones: Option<string>,
    createdAt: int)

  const Cargos: seq<string> := ["Lider", "Miembro", "Maestro", "Musico", "Visitante"]
  const Tipos: seq<string> := ["Diezmo", "Ofrenda", "Diezmo y ofrenda", "Ofrenda Especial", "Ministerio los 300"]
  const MetodosPago: seq<string> :=
    ["Transferencia", "Pago movil", "Efectivo Bs.", "Efectivo $", "Dolares", "Euros", "Otros", "Zelle",
     "Transferencia Internacional", "Otro"]
  const Monedas: seq<string> := ["BS", "USD", "EUR", "OTROS"]

  /** The truthiness test `user.isAdmin` (an absent flag is false). */
  predicate IsAdminUser(u: User) {
    u.isAdmin == Some(true)
  }

  /** `amount || 0`: a missing amount reads as 0. */
  function Amount(a: Option<real>): real {
    a.GetOr(0.0)
  }

  /** The three amount fields of a report, as `getTotalByType` names them. */
  datatype AmountField = DiezmoField | OfrendaField | OfrendaEspecialField

  function FieldAmount(r: Report, k: AmountField): real {
    match k
    case DiezmoField => Amount(r.diezmo)
    case OfrendaField => Amount(r.ofrenda)
    case OfrendaEspecialField => Amount(r.ofrendaEspecial)
  }

  /** `(diezmo || 0) + (ofrenda || 0) + (ofrendaEspecial || 0)` */
  function ReportTotal(r: Report): real {
    Amount(r.diezmo) + Amount(r.ofrenda) + Amount(r.ofrendaEspecial)
  }

  /** `reports.reduce((sum, r) => sum + (r[k] || 0), 0)`, folded from the left. */
  function SumField(rs: seq<Report>, k: AmountField): real {
    if rs == [] then 0.0 else SumField(rs[..|rs| - 1], k) + FieldAmount(rs[|rs| - 1], k)
  }

  /** The sum of the report totals. */
  function SumTotals(rs: seq<Report>): real {
    if rs == [] then 0.0 else SumTotals(rs[..|rs| - 1]) + ReportTotal(rs[|rs| - 1])
  }

  /** The three per-field sums add up to the sum of the report totals. */
  lemma {:induction false} FieldSumsDecompose(rs: seq<Report>)
    ensures SumField(rs, DiezmoField) + SumField(rs, OfrendaField) + SumField(rs, OfrendaEspecialField)
         == SumTotals(rs)
  {
    if rs != [] {
      FieldSumsDecompose(rs[..|rs| - 1]);
    }
  }

  /** Sums distribute over concatenation, so they do not depend on how the list is split. */
  lemma {:induction false} SumFieldAppend(a: seq<Report>, b: seq<Report>, k: AmountField)
    ensures SumField(a + b, k) == SumField(a, k) + SumField(b, k)
    decreases |b|
  {
    if b == [] {
      assert a + b == a;
    } else {
      assert (a + b)[..|a + b| - 1] == a + b[..|b| - 1];
      SumFieldAppend(a, b[..|b| - 1], k);
    }
  }

  /** With amounts that are never negative, every field sum is non-negative. */
  lemma {:induction false} SumFieldNonNegative(rs: seq<Report>, k: AmountField)
    requires forall i :: 0 <= i < |rs| ==> FieldAmount(rs[i], k) >= 0.0
    ensures SumField(rs, k) >= 0.0
  {
    if rs != [] {
      SumFieldNonNegative(rs[..|rs| - 1], k);
    }
  }
}
