/** Properties of the licence lifecycle that relate several calls: the
    assignment invariant, release idempotence, double assignment, and the
    table constraints kept by every operation. */
module LicenciaProperties {
  import opened Wrappers
  import opened Text
  import opened LicenciaModel
  import opened LicenciaRules

  /** Invariant I1: a licence is "ASIGNADA" exactly when it has both a
      holder and an assignment time. */
  predicate Consistent(l: Licencia) {
    (l.estadoId == Some(ESTADO_ASIGNADA)) <==> (l.usuarioId.Some? && l.asignadaEn.Some?)
  }

  predicate AllConsistent(s: Store) {
    forall id :: id in s ==> Consistent(s[id])
  }

  /** A call to the service. */
  datatype Op =
    | Create(l: Licencia)
    | Update(id: string, data: Licencia)
    | Assign(id: string, usuarioId: string, now: Instant)
    | Release(id: string)
    | Delete(id: string)

  function Step(s: Store, op: Op): Store {
    match op
    case Create(l) => Crear(s, l).store
    case Update(id, data) => Actualizar(s, id, data).store
    case Assign(id, u, now) => Asignar(s, id, u, now).store
    case Release(id) => Liberar(s, id).store
    case Delete(id) => match Eliminar(s, id) case Success(s') => s' case Failure(_) => s
  }

  /** The table after the calls in order. */
  function Run(s: Store, ops: seq<Op>): Store
    decreases |ops|
  {
    if ops == [] then s else Run(Step(s, ops[0]), ops[1..])
  }

  /** A licence handed to `crear` with a null, blank or "DISPONIBLE" state and
      neither holder nor time. */
  predicate CreatedUnassigned(l: Licencia) {
    && l.usuarioId.None? && l.asignadaEn.None?
    && (l.estadoId.None? || IsJavaBlank(l.estadoId.value) || l.estadoId == Some(ESTADO_DISPONIBLE))
  }

  /** The calls that go through the state machine: creation of unassigned
      licences, assignment, release and deletion (not the metadata update). */
  predicate Lifecycle(op: Op) {
    match op
    case Create(l) => CreatedUnassigned(l)
    case Update(_, _) => false
    case _ => true
  }

  // ----- table constraints -----

  lemma SavePreservesStoreValid(s: Store, l: Licencia)
    requires StoreValid(s)
    requires Save(s, l).Success?
    ensures StoreValid(Save(s, l).value)
  {
  }

  /** Every call leaves every row well formed under its own id and every
      `clave` unique: `save` rejects a row that would break them. */
  lemma StepPreservesStoreValid(s: Store, op: Op)
    requires StoreValid(s)
    ensures StoreValid(Step(s, op))
  {
    match op
    case Create(l) =>
      if l.id !in s { SaveOutcomePreservesStoreValid(s, WithDefaultState(l)); }
    case Update(id, data) =>
      if id in s {
        var l := s[id];
        SaveOutcomePreservesStoreValid(s, l.(clave := data.clave, fechaVencimiento := data.fechaVencimiento,
                        estadoId := data.estadoId, juegoId := data.juegoId,
                        usuarioId := data.usuarioId, asignadaEn := data.asignadaEn));
      }
    case Assign(id, u, now) =>
      if id in s && IsAvailable(s[id]) {
        SaveOutcomePreservesStoreValid(s, s[id].(estadoId := Some(ESTADO_ASIGNADA), usuarioId := Some(u), asignadaEn := Some(now)));
      }
    case Release(id) =>
      if id in s { SaveOutcomePreservesStoreValid(s, Released(s[id])); }
    case Delete(id) =>
  }

  lemma SaveOutcomePreservesStoreValid(s: Store, l: Licencia)
    requires StoreValid(s)
    ensures StoreValid(SaveOutcome(s, l).store)
  {
    if Save(s, l).Success? { SavePreservesStoreValid(s, l); }
  }

  lemma {:induction false} RunPreservesStoreValid(s: Store, ops: seq<Op>)
    requires StoreValid(s)
    ensures StoreValid(Run(s, ops))
    decreases |ops|
  {
    if ops != [] {
      StepPreservesStoreValid(s, ops[0]);
      RunPreservesStoreValid(Step(s, ops[0]), ops[1..]);
    }
  }

  // ----- assignment invariant -----

  lemma StepKeepsConsistent(s: Store, op: Op)
    requires AllConsistent(s)
    requires Lifecycle(op)
    ensures AllConsistent(Step(s, op))
  {
    match op
    case Create(l) =>
      assert Consistent(WithDefaultState(l));
    case Assign(id, u, now) =>
    case Release(id) =>
    case Delete(id) =>
  }

  /** I1 holds after any sequence of creations of unassigned licences,
      assignments, releases and deletions. */
  lemma {:induction false} RunKeepsConsistent(s: Store, ops: seq<Op>)
    requires AllConsistent(s)
    requires forall i :: 0 <= i < |ops| ==> Lifecycle(ops[i])
    ensures AllConsistent(Run(s, ops))
    decreases |ops|
  {
    if ops != [] {
      StepKeepsConsistent(s, ops[0]);
      RunKeepsConsistent(Step(s, ops[0]), ops[1..]);
    }
  }

  /** `actualizar` writes whatever state, holder and time it is given: it can
      leave an "ASIGNADA" licence with no holder. */
  lemma ActualizarDoesNotRecheckConsistency()
    ensures var s := map["L1" := Licencia("L1", "ABC", Some(LocalDate(2026, 12, 31)), Some(ESTADO_DISPONIBLE), None, None, None)];
            var data := Licencia("ignored", "ABC", Some(LocalDate(2026, 12, 31)), Some(ESTADO_ASIGNADA), None, None, None);
            var r := Actualizar(s, "L1", data);
            AllConsistent(s) && r.result.Success? && !Consistent(r.result.value)
  {
    var row := Licencia("L1", "ABC", Some(LocalDate(2026, 12, 31)), Some(ESTADO_ASIGNADA), None, None, None);
    assert !IsJavaWhitespace(row.clave[0]);
    assert WellFormed(row);
  }

  /** The same on any table: an update that writes "ASIGNADA" with no
      holder goes through whenever the row is well formed and its `clave`
      free, and leaves the table with an inconsistent row. */
  lemma ActualizarCanBreakConsistency(s: Store, id: string, data: Licencia)
    requires id in s
    requires data.estadoId == Some(ESTADO_ASIGNADA) && data.usuarioId.None?
    requires WellFormed(data.(id := s[id].id)) && !ClaveTakenElsewhere(s, data.(id := s[id].id))
    ensures var r := Actualizar(s, id, data);
            r.result.Success? && !Consistent(r.result.value) && !AllConsistent(r.store)
  {
    var r := Actualizar(s, id, data);
    assert r.store[s[id].id] == r.result.value;
  }

  // ----- assignment and release -----

  /** A second `asignar` on a licence just assigned fails with the
      not-available error and changes nothing, whoever asks. */
  lemma AsignarTwiceFails(s: Store, id: string, u1: string, t1: Instant, u2: string, t2: Instant)
    requires StoreValid(s)
    requires Asignar(s, id, u1, t1).result.Success?
    ensures var s1 := Asignar(s, id, u1, t1).store;
            Asignar(s1, id, u2, t2) == Outcome(s1, Failure(NotAvailable(id)))
  {
    var s1 := Asignar(s, id, u1, t1).store;
    assert s1[id].estadoId == Some(ESTADO_ASIGNADA);
    assert |ESTADO_DISPONIBLE| != |ESTADO_ASIGNADA|;
  }

  /** On a valid table `liberar` of a present id never fails. */
  lemma LiberarSucceeds(s: Store, id: string)
    requires StoreValid(s) && id in s
    ensures Liberar(s, id).result.Success?
  {
    var l := Released(s[id]);
    assert WellFormed(l);
  }

  /** A second `liberar` gives the same table and the same answer as the first. */
  lemma LiberarIdempotent(s: Store, id: string)
    ensures var s1 := Liberar(s, id).store;
            Liberar(s1, id) == Liberar(s, id)
  {
    var r1 := Liberar(s, id);
    if id in s && r1.result.Success? {
      var s1 := r1.store;
      var l := Released(s[id]);
      assert s1 == s[l.id := l];
      assert Released(s1[id]) == l;
      assert s1[l.id := l] == s1;
    }
  }

  /** On a valid table an available licence is assigned to any holder id
      that fits its column. */
  lemma AsignarSucceeds(s: Store, id: string, usuarioId: string, now: Instant)
    requires StoreValid(s) && id in s && IsAvailable(s[id])
    requires |usuarioId| <= COLUMN_LENGTH
    ensures Asignar(s, id, usuarioId, now).result.Success?
  {
    var l := s[id].(estadoId := Some(ESTADO_ASIGNADA), usuarioId := Some(usuarioId), asignadaEn := Some(now));
    assert WellFormed(l);
  }

  /** Assign to one user, fail for a second, release, then the second user
      gets the licence. */
  lemma AssignReleaseReassign(s: Store, id: string, u1: string, u2: string, t1: Instant, t2: Instant, t3: Instant)
    requires StoreValid(s) && id in s && IsAvailable(s[id])
    requires |u1| <= COLUMN_LENGTH && |u2| <= COLUMN_LENGTH
    ensures var a := Asignar(s, id, u1, t1);
            var b := Asignar(a.store, id, u2, t2);
            var c := Liberar(b.store, id);
            var d := Asignar(c.store, id, u2, t3);
            && a.result.Success? && a.result.value.usuarioId == Some(u1)
            && b.result == Failure(NotAvailable(id))
            && c.result.Success?
            && d.result.Success? && d.result.value.usuarioId == Some(u2)
  {
    AsignarSucceeds(s, id, u1, t1);
    var a := Asignar(s, id, u1, t1);
    AsignarTwiceFails(s, id, u1, t1, u2, t2);
    SaveOutcomePreservesStoreValid(s, s[id].(estadoId := Some(ESTADO_ASIGNADA), usuarioId := Some(u1), asignadaEn := Some(t1)));
    LiberarSucceeds(a.store, id);
    var c := Liberar(a.store, id);
    SaveOutcomePreservesStoreValid(a.store, Released(a.store[id]));
    assert IsAvailable(c.store[id]) by {
      assert c.store[id].estadoId == Some(ESTADO_DISPONIBLE);
      assert EqualsIgnoreCase(ESTADO_DISPONIBLE, ESTADO_DISPONIBLE);
    }
    AsignarSucceeds(c.store, id, u2, t3);
  }

  // ----- creation and listing -----

  /** `crear` with a `clave` another licence already holds is rejected and
      writes nothing. */
  lemma CrearRejectsDuplicateClave(s: Store, l: Licencia, other: string)
    requires other in s && other != l.id && s[other].clave == l.clave
    ensures Crear(s, l).result.Failure? && Crear(s, l).store == s
  {
    assert ClaveTakenElsewhere(s, WithDefaultState(l));
  }

  /** Every licence `listarDisponibles` returns passes the check `asignar`
      makes. */
  lemma ListedAvailableIsAssignable(s: Store, juegoId: Option<string>, id: string)
    requires id in ListarDisponibles(s, juegoId)
    ensures id in s && IsAvailable(s[id])
  {
    assert EqualsIgnoreCase(ESTADO_DISPONIBLE, ESTADO_DISPONIBLE);
  }

  /** The converse fails: a licence in state "disponible" passes the
      case-insensitive check of `asignar` but is not listed as available,
      since the listing compares the state exactly. */
  lemma LowercaseStateAssignableButNotListed()
    ensures var l := Licencia("L1", "ABC", Some(LocalDate(2026, 12, 31)), Some("disponible"), Some("G1"), None, None);
            IsAvailable(l) && "L1" !in ListarDisponibles(map["L1" := l], Some("G1"))
  {
    var l := Licencia("L1", "ABC", Some(LocalDate(2026, 12, 31)), Some("disponible"), Some("G1"), None, None);
    assert Some("disponible") != Some(ESTADO_DISPONIBLE) by {
      assert "disponible"[0] != ESTADO_DISPONIBLE[0];
    }
    assert EqualsIgnoreCase(ESTADO_DISPONIBLE, "disponible");
  }

  /** In general: on a valid table, every licence whose state equals
      "DISPONIBLE" ignoring case but not exactly is assigned by `asignar`
      and never listed by `listarDisponibles`. */
  lemma CaseVariantStateAssignableButNotListed(s: Store, id: string, juegoId: Option<string>,
                                               usuarioId: string, now: Instant)
    requires StoreValid(s) && id in s && IsAvailable(s[id])
    requires s[id].estadoId != Some(ESTADO_DISPONIBLE)
    requires |usuarioId| <= COLUMN_LENGTH
    ensures id !in ListarDisponibles(s, juegoId)
    ensures Asignar(s, id, usuarioId, now).result.Success?
  {
    AsignarSucceeds(s, id, usuarioId, now);
  }
}
