/** The filter criteria the report pages share: `'all'`-or-value selects and inclusive date bounds. */
module Criteria {
  import opened Dates

  /** A select whose `'all'` option imposes nothing. */
  datatype Choice = All | Only(value: string)

  /** `choice === 'all' || value === choice` */
  predicate Accepts(c: Choice, v: string) {
    c.All? || c.value == v
  }

  /** Not excluded by `dateFrom && new Date(fecha) < new Date(dateFrom)`. */
  predicate OnOrAfter(fecha: string, dateFrom: string) {
    dateFrom == "" || !FechaBefore(fecha, dateFrom)
  }

  /** Not excluded by `dateTo && new Date(fecha) > new Date(dateTo)`. */
  predicate OnOrBefore(fecha: string, dateTo: string) {
    dateTo == "" || !FechaBefore(dateTo, fecha)
  }

  /** Both date bounds are inclusive: a report dated on a bound passes it. */
  lemma DateBoundsInclusive(fecha: string)
    ensures OnOrAfter(fecha, fecha) && OnOrBefore(fecha, fecha)
  {
  }

  /** A well-formed date strictly outside a well-formed bound is excluded. */
  lemma DateBoundsExclude(fecha: string, bound: string)
    requires bound != "" && ParseIsoDate(fecha).Some? && ParseIsoDate(bound).Some?
    ensures Before(ParseIsoDate(fecha).value, ParseIsoDate(bound).value) ==> !OnOrAfter(fecha, bound)
    ensures Before(ParseIsoDate(bound).value, ParseIsoDate(fecha).value) ==> !OnOrBefore(fecha, bound)
  {
  }

  /** A date that does not parse compares false, so no date bound excludes it. */
  lemma UnparsableDatePasses(fecha: string, dateFrom: string, dateTo: string)
    requires ParseIsoDate(fecha).None?
    ensures OnOrAfter(fecha, dateFrom) && OnOrBefore(fecha, dateTo)
  {
  }
}
