/** What each operation of the licence service does to the table, as
    functions of the table before the call
    (src/main/java/com/licencia/licencia/service/LicenciaService.java).
    The repository is a map from id to row; its derived queries are the
    filters below and `save` enforces the table's column constraints. */
module LicenciaRules {
  import opened Wrappers
  import opened Text
  import opened LicenciaModel

  type Store = map<string, Licencia>

  const ESTADO_DISPONIBLE: string := "DISPONIBLE"
  const ESTADO_ASIGNADA: string := "ASIGNADA"

  /** The exceptions the service lets escape: `IllegalArgumentException`
      for a missing or duplicate id, `IllegalStateException` for a licence
      that is not available, and the persistence layer's rejection of a row
      that breaks a column constraint. */
  datatype LicenciaError =
    | NotFound(id: string)
    | AlreadyExists(id: string)
    | NotAvailable(id: string)
    | ConstraintViolation

  /** The table after a call and what the call returned or threw. */
  datatype Outcome = Outcome(store: Store, result: Result<Licencia, LicenciaError>)

  /** Every row sits under its own id and is well formed, and no two rows
      share a `clave` (the unique column). */
  predicate StoreValid(s: Store) {
    && (forall id :: id in s ==> s[id].id == id && WellFormed(s[id]))
    && (forall a, b :: a in s && b in s && s[a].clave == s[b].clave ==> a == b)
  }

  predicate ClaveTakenElsewhere(s: Store, l: Licencia) {
    exists other :: other in s && other != l.id && s[other].clave == l.clave
  }

  /** `repo.save(l)`: writes the row under its id, or is rejected when the
      row breaks a column constraint or its `clave` belongs to another row. */
  function Save(s: Store, l: Licencia): (r: Result<Store, LicenciaError>)
    ensures r.Success? <==> WellFormed(l) && !ClaveTakenElsewhere(s, l)
    ensures r.Success? ==> (r.value.Keys == s.Keys + {l.id} && r.value[l.id] == l
      && forall id :: id in s && id != l.id ==> r.value[id] == s[id])
  {
    if !WellFormed(l) || ClaveTakenElsewhere(s, l) then Failure(ConstraintViolation)
    else Success(s[l.id := l])
  }

  /** Save and return the saved row, leaving the table as it was on rejection. */
  function SaveOutcome(s: Store, l: Licencia): Outcome {
    match Save(s, l)
    case Success(s') => Outcome(s', Success(l))
    case Failure(e) => Outcome(s, Failure(e))
  }

  // ----- the repository's derived queries -----

  /** `findByJuegoIdAndEstadoId`: equality on both columns (a null argument
      matches a null column, as a derived query's `IS NULL`). */
  function FindByJuegoIdAndEstadoId(s: Store, juegoId: Option<string>, estadoId: Option<string>): (r: map<string, Licencia>)
    ensures forall id :: id in r <==> id in s && s[id].juegoId == juegoId && s[id].estadoId == estadoId
    ensures forall id :: id in r ==> r[id] == s[id]
  {
    map id | id in s && s[id].juegoId == juegoId && s[id].estadoId == estadoId :: s[id]
  }

  /** `findByJuegoId`: the rows of that game. */
  function FindByJuegoId(s: Store, juegoId: Option<string>): (r: map<string, Licencia>)
    ensures forall id :: id in r <==> id in s && s[id].juegoId == juegoId
    ensures forall id :: id in r ==> r[id] == s[id]
  {
    map id | id in s && s[id].juegoId == juegoId :: s[id]
  }

  /** `findByEstadoId`: the rows in that state, compared exactly. */
  function FindByEstadoId(s: Store, estadoId: Option<string>): (r: map<string, Licencia>)
    ensures forall id :: id in r <==> id in s && s[id].estadoId == estadoId
    ensures forall id :: id in r ==> r[id] == s[id]
  {
    map id | id in s && s[id].estadoId == estadoId :: s[id]
  }

  // ----- the service's operations -----

  /** `listar`: a filter takes part only when it is non-null and non-blank;
      both together are combined with AND; neither lists every row. */
  function Listar(s: Store, juegoId: Option<string>, estadoId: Option<string>): (r: map<string, Licencia>)
    ensures forall id :: id in r ==> id in s && r[id] == s[id]
    ensures forall id :: id in s ==>
      (id in r <==>
        (IsPresent(juegoId) ==> s[id].juegoId == juegoId)
        && (IsPresent(estadoId) ==> s[id].estadoId == estadoId))
  {
    if IsPresent(juegoId) && IsPresent(estadoId) then FindByJuegoIdAndEstadoId(s, juegoId, estadoId)
    else if IsPresent(juegoId) then FindByJuegoId(s, juegoId)
    else if IsPresent(estadoId) then FindByEstadoId(s, estadoId)
    else s
  }

  /** `listarDisponibles`: the rows of the game whose state is exactly
      "DISPONIBLE". */
  function ListarDisponibles(s: Store, juegoId: Option<string>): (r: map<string, Licencia>)
    ensures forall id :: id in r <==>
      id in s && s[id].juegoId == juegoId && s[id].estadoId == Some(ESTADO_DISPONIBLE)
    ensures forall id :: id in r ==> r[id] == s[id]
  {
    FindByJuegoIdAndEstadoId(s, juegoId, Some(ESTADO_DISPONIBLE))
  }

  /** `obtener`. */
  function Obtener(s: Store, id: string): (r: Result<Licencia, LicenciaError>)
    ensures r.Success? <==> id in s
    ensures r.Success? ==> r.value == s[id]
    ensures r.Failure? ==> r.error == NotFound(id)
  {
    if id in s then Success(s[id]) else Failure(NotFound(id))
  }

  /** The state `crear` stores: "DISPONIBLE" in place of a null or blank
      state, any other value verbatim. */
  function WithDefaultState(l: Licencia): (r: Licencia)
    ensures r.estadoId == if IsPresent(l.estadoId) then l.estadoId else Some(ESTADO_DISPONIBLE)
    ensures r == l.(estadoId := r.estadoId)
  {
    if l.estadoId.None? || IsJavaBlank(l.estadoId.value) then l.(estadoId := Some(ESTADO_DISPONIBLE)) else l
  }

  /** `crear`. */
  function Crear(s: Store, l: Licencia): (r: Outcome)
    ensures l.id in s ==> r == Outcome(s, Failure(AlreadyExists(l.id)))
    ensures l.id !in s ==> (r.result.Success? <==>
      WellFormed(WithDefaultState(l)) && !ClaveTakenElsewhere(s, WithDefaultState(l)))
    ensures l.id !in s && r.result.Failure? ==> r.result.error == ConstraintViolation
    ensures l.id !in s && r.result.Success? ==>
      r.result.value == WithDefaultState(l) && r.store == s[l.id := WithDefaultState(l)]
    ensures r.result.Failure? ==> r.store == s
  {
    if l.id in s then Outcome(s, Failure(AlreadyExists(l.id)))
    else SaveOutcome(s, WithDefaultState(l))
  }

  /** `actualizar`: every field but the id overwritten from `data`. */
  function Actualizar(s: Store, id: string, data: Licencia): (r: Outcome)
    ensures id !in s ==> r == Outcome(s, Failure(NotFound(id)))
    ensures id in s ==> (r.result.Success? <==>
      WellFormed(data.(id := s[id].id)) && !ClaveTakenElsewhere(s, data.(id := s[id].id)))
    ensures id in s && r.result.Failure? ==> r.result.error == ConstraintViolation
    ensures r.result.Success? ==> (id in s &&
      r.result.value == data.(id := s[id].id) && r.store == s[s[id].id := r.result.value])
    ensures r.result.Failure? ==> r.store == s
  {
    if id !in s then Outcome(s, Failure(NotFound(id)))
    else
      var l := s[id];
      SaveOutcome(s, l.(clave := data.clave, fechaVencimiento := data.fechaVencimiento,
                        estadoId := data.estadoId, juegoId := data.juegoId,
                        usuarioId := data.usuarioId, asignadaEn := data.asignadaEn))
  }

  /** `eliminar`. */
  function Eliminar(s: Store, id: string): (r: Result<Store, LicenciaError>)
    ensures r.Success? <==> id in s
    ensures r.Success? ==> r.value.Keys == s.Keys - {id} && forall k :: k in r.value ==> r.value[k] == s[k]
    ensures r.Failure? ==> r.error == NotFound(id)
  {
    if id !in s then Failure(NotFound(id)) else Success(s - {id})
  }

  /** The check `asignar` makes: the state equals "DISPONIBLE" ignoring
      case (a null state never does). */
  predicate IsAvailable(l: Licencia) {
    l.estadoId.Some? && EqualsIgnoreCase(ESTADO_DISPONIBLE, l.estadoId.value)
  }

  /** `asignar` at time `now`. */
  function Asignar(s: Store, id: string, usuarioId: string, now: Instant): (r: Outcome)
    ensures id !in s ==> r == Outcome(s, Failure(NotFound(id)))
    ensures id in s && !IsAvailable(s[id]) ==> r == Outcome(s, Failure(NotAvailable(id)))
    ensures r.result.Success? ==> (id in s && IsAvailable(s[id])
      && r.result.value == s[id].(estadoId := Some(ESTADO_ASIGNADA), usuarioId := Some(usuarioId), asignadaEn := Some(now))
      && r.store == s[s[id].id := r.result.value])
    ensures r.result.Failure? ==> r.store == s
  {
    if id !in s then Outcome(s, Failure(NotFound(id)))
    else if !IsAvailable(s[id]) then Outcome(s, Failure(NotAvailable(id)))
    else SaveOutcome(s, s[id].(estadoId := Some(ESTADO_ASIGNADA), usuarioId := Some(usuarioId), asignadaEn := Some(now)))
  }

  /** The row `liberar` writes: available, with neither holder nor time. */
  function Released(l: Licencia): Licencia {
    l.(estadoId := Some(ESTADO_DISPONIBLE), usuarioId := None, asignadaEn := None)
  }

  /** `liberar`: unconditional on the current state. */
  function Liberar(s: Store, id: string): (r: Outcome)
    ensures id !in s ==> r == Outcome(s, Failure(NotFound(id)))
    ensures r.result.Success? ==> (id in s
      && r.result.value.estadoId == Some(ESTADO_DISPONIBLE)
      && r.result.value.usuarioId.None? && r.result.value.asignadaEn.None?
      && r.result.value == Released(s[id]) && r.store == s[s[id].id := r.result.value])
    ensures r.result.Failure? ==> r.store == s
  {
    if id !in s then Outcome(s, Failure(NotFound(id)))
    else SaveOutcome(s, Released(s[id]))
  }

  /** The rows `obtenerDisponible` may return: exactly-"DISPONIBLE" rows of
      the game with the earliest expiry date. */
  predicate IsEarliestAvailable(s: Store, juegoId: Option<string>, l: Licencia) {
    && l.id in ListarDisponibles(s, juegoId)
    && s[l.id] == l
    && l.fechaVencimiento.Some?
    && forall k :: k in ListarDisponibles(s, juegoId) && s[k].fechaVencimiento.Some? ==>
         DateNotAfter(l.fechaVencimiento.value, s[k].fechaVencimiento.value)
  }
}
