/** The `licencia` table: one row per licence, keyed by `id`
    (src/main/java/com/licencia/licencia/model/Licencia.java). The row is a
    value (`Licencia`); the JPA bean the service loads, changes through its
    setters and saves back is a class (`LicenciaEntity`). */
module LicenciaModel {
  import opened Wrappers
  import opened Text

  /** `java.time.LocalDate`: a calendar date, no time of day. */
  datatype LocalDate = LocalDate(year: int, month: int, day: int)

  /** `java.time.Instant`; the model only stores and copies it. */
  datatype Instant = Instant(epochSecond: int, nano: int)

  /** `a.compareTo(b) <= 0` on dates: year, then month, then day. */
  predicate DateNotAfter(a: LocalDate, b: LocalDate) {
    a.year < b.year
    || (a.year == b.year && a.month < b.month)
    || (a.year == b.year && a.month == b.month && a.day <= b.day)
  }

  /** Any two dates are ordered one way or the other. */
  lemma DateNotAfterTotal(a: LocalDate, b: LocalDate)
    ensures DateNotAfter(a, b) || DateNotAfter(b, a)
  {
  }

  lemma DateNotAfterTransitive(a: LocalDate, b: LocalDate, c: LocalDate)
    requires DateNotAfter(a, b) && DateNotAfter(b, c)
    ensures DateNotAfter(a, c)
  {
  }

  /** One row of the table. A Java null is `None`. */
  datatype Licencia = Licencia(
    id: string,
    clave: string,
    fechaVencimiento: Option<LocalDate>,
    estadoId: Option<string>,
    juegoId: Option<string>,
    usuarioId: Option<string>,
    asignadaEn: Option<Instant>)

  /** `length = 20` on the id, state, game and user columns. */
  const COLUMN_LENGTH: nat := 20

  predicate FitsColumn(s: Option<string>) {
    s.None? || |s.value| <= COLUMN_LENGTH
  }

  /** The constraints a single row must meet to be written: the primary key
      fits its column, `clave` is `@NotBlank`, `fechaVencimiento` is
      `@NotNull`, and the optional string columns fit their length. The
      table-wide uniqueness of `clave` is a property of the store. */
  predicate WellFormed(l: Licencia) {
    |l.id| <= COLUMN_LENGTH
    && !IsJavaBlank(l.clave)
    && l.fechaVencimiento.Some?
    && FitsColumn(l.estadoId)
    && FitsColumn(l.juegoId)
    && FitsColumn(l.usuarioId)
  }

  /** The mutable entity bean: private fields changed one at a time by the
      setters. */
  class LicenciaEntity {
    var id: string
    var clave: string
    var fechaVencimiento: Option<LocalDate>
    var estadoId: Option<string>
    var juegoId: Option<string>
    var usuarioId: Option<string>
    var asignadaEn: Option<Instant>

    /** The row this bean holds. */
    function Row(): Licencia
      reads this
    {
      Licencia(id, clave, fechaVencimiento, estadoId, juegoId, usuarioId, asignadaEn)
    }

    /** A bean loaded from a stored row (`repo.findById`). */
    constructor Load(row: Licencia)
      ensures Row() == row
    {
      id := row.id;
      clave := row.clave;
      fechaVencimiento := row.fechaVencimiento;
      estadoId := row.estadoId;
      juegoId := row.juegoId;
      usuarioId := row.usuarioId;
      asignadaEn := row.asignadaEn;
    }

    method SetId(v: string)
      modifies this
      ensures Row() == old(Row()).(id := v)
    {
      id := v;
    }

    method SetClave(v: string)
      modifies this
      ensures Row() == old(Row()).(clave := v)
    {
      clave := v;
    }

    method SetFechaVencimiento(v: Option<LocalDate>)
      modifies this
      ensures Row() == old(Row()).(fechaVencimiento := v)
    {
      fechaVencimiento := v;
    }

    method SetEstadoId(v: Option<string>)
      modifies this
      ensures Row() == old(Row()).(estadoId := v)
    {
      estadoId := v;
    }

    method SetJuegoId(v: Option<string>)
      modifies this
      ensures Row() == old(Row()).(juegoId := v)
    {
      juegoId := v;
    }

    method SetUsuarioId(v: Option<string>)
      modifies this
      ensures Row() == old(Row()).(usuarioId := v)
    {
      usuarioId := v;
    }

    method SetAsignadaEn(v: Option<Instant>)
      modifies this
      ensures Row() == old(Row()).(asignadaEn := v)
    {
      asignadaEn := v;
    }
  }
}
