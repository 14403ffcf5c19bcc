/** The licence service: the table it shares with its callers is the field
    `store`; each mutating call loads the row into a `LicenciaEntity`,
    changes it through the setters and saves it back
    (src/main/java/com/licencia/licencia/service/LicenciaService.java). */
module Licencias {
  import opened Wrappers
  import opened Text
  import opened LicenciaModel
  import opened LicenciaRules
  import LicenciaProperties

  class LicenciaService {
    var store: Store

    /** The table's own guarantees: rows under their ids, column constraints
        met, `clave` unique. */
    ghost predicate Valid()
      reads this
    {
      StoreValid(store)
    }

    constructor (initial: Store)
      requires StoreValid(initial)
      ensures Valid() && store == initial
    {
      store := initial;
    }

    /** `listar`: the rows matching every non-null, non-blank filter. */
    function Listar(juegoId: Option<string>, estadoId: Option<string>): (r: map<string, Licencia>)
      reads this
      ensures r == LicenciaRules.Listar(store, juegoId, estadoId)
      ensures forall id :: id in r ==> id in store && r[id] == store[id]
      ensures !IsPresent(juegoId) && !IsPresent(estadoId) ==> r == store
    {
      LicenciaRules.Listar(store, juegoId, estadoId)
    }

    /** `listarDisponibles`: the game's rows in state exactly "DISPONIBLE". */
    function ListarDisponibles(juegoId: Option<string>): (r: map<string, Licencia>)
      reads this
      ensures forall id :: id in r <==>
        id in store && store[id].juegoId == juegoId && store[id].estadoId == Some(ESTADO_DISPONIBLE)
      ensures forall id :: id in r ==> r[id] == store[id]
    {
      LicenciaRules.ListarDisponibles(store, juegoId)
    }

    /** `obtener`: the row, or the not-found error. */
    function Obtener(id: string): (r: Result<Licencia, LicenciaError>)
      reads this
      ensures r.Success? <==> id in store
      ensures r.Success? ==> r.value == store[id]
      ensures r.Failure? ==> r.error == NotFound(id)
    {
      LicenciaRules.Obtener(store, id)
    }

    /** `obtenerDisponible`: some exactly-"DISPONIBLE" licence of the game with
        the earliest expiry date, or none when the game has no such licence
        with a date. Among licences expiring the same day the choice is
        open, as in the repository query. */
    method ObtenerDisponible(juegoId: Option<string>) returns (r: Option<Licencia>)
      requires Valid()
      ensures r.None? <==> forall k :: k in ListarDisponibles(juegoId) ==> store[k].fechaVencimiento.None?
      ensures r.Some? ==> IsEarliestAvailable(store, juegoId, r.value)
    {
      var candidates := LicenciaRules.ListarDisponibles(store, juegoId);
      var pending := candidates.Keys;
      r := None;
      while pending != {}
        invariant pending <= candidates.Keys
        invariant r.None? ==> forall k :: k in candidates && k !in pending ==> candidates[k].fechaVencimiento.None?
        invariant r.Some? ==> r.value.id in candidates && candidates[r.value.id] == r.value && r.value.fechaVencimiento.Some?
        invariant r.Some? ==> forall k :: k in candidates && k !in pending && candidates[k].fechaVencimiento.Some? ==>
          DateNotAfter(r.value.fechaVencimiento.value, candidates[k].fechaVencimiento.value)
        decreases pending
      {
        var k :| k in pending;
        var l := candidates[k];
        if l.fechaVencimiento.Some? {
          if r.None? || !DateNotAfter(r.value.fechaVencimiento.value, l.fechaVencimiento.value) {
            if r.Some? {
              var best := r.value.fechaVencimiento.value;
              DateNotAfterTotal(best, l.fechaVencimiento.value);
              forall j | j in candidates && j !in pending && candidates[j].fechaVencimiento.Some?
                ensures DateNotAfter(l.fechaVencimiento.value, candidates[j].fechaVencimiento.value)
              {
                DateNotAfterTransitive(l.fechaVencimiento.value, best, candidates[j].fechaVencimiento.value);
              }
            }
            r := Some(l);
          }
        }
        pending := pending - {k};
      }
    }

    /** `buscarPorClave`: the licence holding `clave`, if any. */
    method BuscarPorClave(clave: string) returns (r: Option<Licencia>)
      requires Valid()
      ensures r.None? <==> forall k :: k in store ==> store[k].clave != clave
      ensures r.Some? ==> r.value.id in store && store[r.value.id] == r.value && r.value.clave == clave
      ensures r.Some? ==> forall k :: k in store && store[k].clave == clave ==> k == r.value.id
    {
      var pending := store.Keys;
      r := None;
      while pending != {} && r.None?
        invariant pending <= store.Keys
        invariant r.None? ==> forall k :: k in store && k !in pending ==> store[k].clave != clave
        invariant r.Some? ==> r.value.id in store && store[r.value.id] == r.value && r.value.clave == clave
        decreases pending
      {
        var k :| k in pending;
        if store[k].clave == clave {
          r := Some(store[k]);
        }
        pending := pending - {k};
      }
    }

    /** `repo.save(entity)`. */
    method SaveEntity(entity: LicenciaEntity) returns (r: Result<Licencia, LicenciaError>)
      modifies this
      ensures Outcome(store, r) == SaveOutcome(old(store), entity.Row())
    {
      var saved := Save(store, entity.Row());
      if saved.Failure? {
        return Failure(saved.error);
      }
      store := saved.value;
      r := Success(entity.Row());
    }

    method Crear(l: Licencia) returns (r: Result<Licencia, LicenciaError>)
      requires Valid()
      modifies this
      ensures Valid()
      ensures Outcome(store, r) == LicenciaRules.Crear(old(store), l)
    {
      LicenciaProperties.StepPreservesStoreValid(store, LicenciaProperties.Create(l));
      if l.id in store {
        return Failure(AlreadyExists(l.id));
      }
      var entity := new LicenciaEntity.Load(l);
      if entity.estadoId.None? || IsJavaBlank(entity.estadoId.value) {
        entity.SetEstadoId(Some(ESTADO_DISPONIBLE));
      }
      r := SaveEntity(entity);
    }

    method Actualizar(id: string, data: Licencia) returns (r: Result<Licencia, LicenciaError>)
      requires Valid()
      modifies this
      ensures Valid()
      ensures Outcome(store, r) == LicenciaRules.Actualizar(old(store), id, data)
    {
      LicenciaProperties.StepPreservesStoreValid(store, LicenciaProperties.Update(id, data));
      var found := Obtener(id);
      if found.Failure? {
        return Failure(found.error);
      }
      var l := new LicenciaEntity.Load(found.value);
      l.SetClave(data.clave);
      l.SetFechaVencimiento(data.fechaVencimiento);
      l.SetEstadoId(data.estadoId);
      l.SetJuegoId(data.juegoId);
      l.SetUsuarioId(data.usuarioId);
      l.SetAsignadaEn(data.asignadaEn);
      r := SaveEntity(l);
    }

    method Eliminar(id: string) returns (r: Result<(), LicenciaError>)
      requires Valid()
      modifies this
      ensures Valid()
      ensures r.Success? <==> LicenciaRules.Eliminar(old(store), id).Success?
      ensures store == match LicenciaRules.Eliminar(old(store), id)
                       case Success(s) => s
                       case Failure(_) => old(store)
      ensures r.Failure? ==> r.error == NotFound(id)
    {
      LicenciaProperties.StepPreservesStoreValid(store, LicenciaProperties.Delete(id));
      if id !in store {
        return Failure(NotFound(id));
      }
      store := store - {id};
      r := Success(());
    }

    /** `asignar` at the instant `now` (`Instant.now()` in the source). */
    method Asignar(id: string, usuarioId: string, now: Instant) returns (r: Result<Licencia, LicenciaError>)
      requires Valid()
      modifies this
      ensures Valid()
      ensures Outcome(store, r) == LicenciaRules.Asignar(old(store), id, usuarioId, now)
    {
      LicenciaProperties.StepPreservesStoreValid(store, LicenciaProperties.Assign(id, usuarioId, now));
      var found := Obtener(id);
      if found.Failure? {
        return Failure(found.error);
      }
      var licencia := new LicenciaEntity.Load(found.value);
      if !(licencia.estadoId.Some? && EqualsIgnoreCase(ESTADO_DISPONIBLE, licencia.estadoId.value)) {
        return Failure(NotAvailable(id));
      }
      licencia.SetEstadoId(Some(ESTADO_ASIGNADA));
      licencia.SetUsuarioId(Some(usuarioId));
      licencia.SetAsignadaEn(Some(now));
      r := SaveEntity(licencia);
    }

    method Liberar(id: string) returns (r: Result<Licencia, LicenciaError>)
      requires Valid()
      modifies this
      ensures Valid()
      ensures Outcome(store, r) == LicenciaRules.Liberar(old(store), id)
    {
      LicenciaProperties.StepPreservesStoreValid(store, LicenciaProperties.Release(id));
      var found := Obtener(id);
      if found.Failure? {
        return Failure(found.error);
      }
      var licencia := new LicenciaEntity.Load(found.value);
      licencia.SetEstadoId(Some(ESTADO_DISPONIBLE));
      licencia.SetUsuarioId(None);
      licencia.SetAsignadaEn(None);
      r := SaveEntity(licencia);
    }
  }
}
