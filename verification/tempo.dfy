/** Dates and instants. The clock is never read: callers pass the current time in. */
module Tempo {

  /** A point in time (`LocalDateTime`). */
  type Instante = int

  /** A calendar date (`LocalDate`). */
  datatype Data = Data(ano: int, mes: int, dia: int)

  /** `a.isAfter(b)`: chronological order. */
  predicate Depois(a: Data, b: Data) {
    a.ano > b.ano || (a.ano == b.ano && (a.mes > b.mes || (a.mes == b.mes && a.dia > b.dia)))
  }
}
