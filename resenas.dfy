/** Admission of game reviews
    (app/src/main/java/com/example/uinavegacion/data/repository/ResenaRepository.kt)
    over the `resenas` table of the local database. The table is a sequence
    of rows in insertion order; a review is never removed, only marked as
    deleted or restored, and the database hands out increasing ids. */
module Resenas {
  import opened Wrappers
  import opened Text

  /** A row of the `resenas` table. */
  datatype ResenaEntity = ResenaEntity(
    id: int, userId: int, juegoId: int, calificacion: int,
    comentario: string, fechaCreacion: string, isDeleted: bool)

  const DUPLICATE := "Ya has hecho una reseña para este juego"
  const BAD_RATING := "La calificación debe estar entre 1 y 5 estrellas"
  const EMPTY_COMMENT := "El comentario no puede estar vacío"

  /** A review that a user still sees: not soft-deleted. */
  predicate IsLive(r: ResenaEntity) { !r.isDeleted }

  predicate IsLiveReviewOf(r: ResenaEntity, userId: int, juegoId: int) {
    IsLive(r) && r.userId == userId && r.juegoId == juegoId
  }

  predicate HasLiveReview(table: seq<ResenaEntity>, userId: int, juegoId: int) {
    exists i :: 0 <= i < |table| && IsLiveReviewOf(table[i], userId, juegoId)
  }

  /** `getByUserAndJuego`: the first non-deleted review of that user for that
      game, if any. */
  function FindLive(table: seq<ResenaEntity>, userId: int, juegoId: int): (r: Option<ResenaEntity>)
    ensures r.Some? <==> HasLiveReview(table, userId, juegoId)
    ensures r.Some? ==> r.value in table && IsLiveReviewOf(r.value, userId, juegoId)
  {
    if table == [] then None
    else if IsLiveReviewOf(table[0], userId, juegoId) then Some(table[0])
    else
      var r := FindLive(table[1..], userId, juegoId);
      assert forall i :: 1 <= i < |table| ==> table[i] == table[1..][i - 1];
      r
  }

  /** `getAll`: the non-deleted reviews, in table order. */
  function Live(table: seq<ResenaEntity>): (r: seq<ResenaEntity>)
    ensures |r| <= |table|
  {
    if table == [] then []
    else (if IsLive(table[0]) then [table[0]] else []) + Live(table[1..])
  }

  /** `getAllResenas`: every review with `includeDeleted`, the non-deleted
      ones otherwise. */
  function GetAllResenas(table: seq<ResenaEntity>, includeDeleted: bool): (r: seq<ResenaEntity>)
    ensures includeDeleted ==> r == table
    ensures !includeDeleted ==> r == Live(table)
  {
    if includeDeleted then table else Live(table)
  }

  /** Why `addResena` refuses a review, checked in the source's order:
      an existing live review first, then the rating, then the comment. */
  function AdmissionError(table: seq<ResenaEntity>, userId: int, juegoId: int,
                          calificacion: int, comentario: string): (r: Option<string>)
    ensures HasLiveReview(table, userId, juegoId) ==> r == Some(DUPLICATE)
    ensures !HasLiveReview(table, userId, juegoId) && !(1 <= calificacion <= 5) ==> r == Some(BAD_RATING)
    ensures (!HasLiveReview(table, userId, juegoId) && 1 <= calificacion <= 5
      && IsBlank(comentario)) ==> r == Some(EMPTY_COMMENT)
    ensures r.None? <==> (!HasLiveReview(table, userId, juegoId) && 1 <= calificacion <= 5
      && !IsBlank(comentario))
  {
    if FindLive(table, userId, juegoId).Some? then Some(DUPLICATE)
    else if calificacion < 1 || calificacion > 5 then Some(BAD_RATING)
    else if IsBlank(comentario) then Some(EMPTY_COMMENT)
    else None
  }

  /** The table invariant: ids below the next id and distinct. */
  predicate TableValid(table: seq<ResenaEntity>, nextId: int) {
    && nextId >= 1
    && (forall i :: 0 <= i < |table| ==> 1 <= table[i].id < nextId)
    && (forall i, j :: 0 <= i < j < |table| ==> table[i].id != table[j].id)
  }

  /** At most one live review per user and game: what the duplicate check of
      `addResena` aims at. Adding and deleting keep it; restoring does not. */
  predicate OneLivePerUserAndGame(table: seq<ResenaEntity>) {
    forall i, j :: 0 <= i < j < |table| && IsLive(table[i]) && IsLive(table[j]) ==>
      table[i].userId != table[j].userId || table[i].juegoId != table[j].juegoId
  }

  /** `UPDATE resenas SET isDeleted = :deleted WHERE id = :id`: `delete`
      with `true`, `restore` with `false`; an absent id changes nothing. */
  function SetDeleted(table: seq<ResenaEntity>, id: int, deleted: bool): (r: seq<ResenaEntity>)
    ensures |r| == |table|
    ensures forall i :: 0 <= i < |table| ==>
      r[i] == if table[i].id == id then table[i].(isDeleted := deleted) else table[i]
  {
    seq(|table|, i requires 0 <= i < |table| =>
      if table[i].id == id then table[i].(isDeleted := deleted) else table[i])
  }

  // ----- lemmas -----

  /** `getAll` keeps exactly the non-deleted reviews. */
  lemma {:induction false} LiveMembers(table: seq<ResenaEntity>)
    ensures forall x :: x in Live(table) <==> x in table && IsLive(x)
  {
    if table != [] {
      LiveMembers(table[1..]);
      assert table == [table[0]] + table[1..];
    }
  }

  lemma {:induction false} LiveConcat(a: seq<ResenaEntity>, b: seq<ResenaEntity>)
    ensures Live(a + b) == Live(a) + Live(b)
  {
    if a == [] {
      assert a + b == b;
    } else {
      assert (a + b)[0] == a[0];
      assert (a + b)[1..] == a[1..] + b;
      LiveConcat(a[1..], b);
    }
  }

  /** `getAll` returns the table itself when nothing was deleted. */
  lemma {:induction false} LiveOfUndeleted(table: seq<ResenaEntity>)
    requires forall i :: 0 <= i < |table| ==> IsLive(table[i])
    ensures Live(table) == table
  {
    if table != [] {
      LiveOfUndeleted(table[1..]);
      assert table == [table[0]] + table[1..];
    }
  }

  /** An admitted review joins the table, keeps its invariant, and a second
      review of the same game by the same user is then refused as a duplicate. */
  lemma AdmittedThenDuplicate(table: seq<ResenaEntity>, nextId: int, r: ResenaEntity,
                              calificacion: int, comentario: string)
    requires TableValid(table, nextId)
    requires !HasLiveReview(table, r.userId, r.juegoId)
    requires r.id == nextId && IsLive(r)
    ensures TableValid(table + [r], nextId + 1)
    ensures OneLivePerUserAndGame(table) ==> OneLivePerUserAndGame(table + [r])
    ensures AdmissionError(table + [r], r.userId, r.juegoId, calificacion, comentario) == Some(DUPLICATE)
    ensures Live(table + [r]) == Live(table) + [r]
  {
    LiveConcat(table, [r]);
    assert [r][1..] == [];
    var t := table + [r];
    assert IsLiveReviewOf(t[|table|], r.userId, r.juegoId);
    if OneLivePerUserAndGame(table) {
      forall i, j | 0 <= i < j < |t| && IsLive(t[i]) && IsLive(t[j])
        ensures t[i].userId != t[j].userId || t[i].juegoId != t[j].juegoId
      {
        if j == |table| {
          assert t[i] == table[i];
          assert !IsLiveReviewOf(table[i], r.userId, r.juegoId);
        }
      }
    }
  }

  /** Marking rows deleted or restored keeps the ids, so the table invariant. */
  lemma SetDeletedValid(table: seq<ResenaEntity>, nextId: int, id: int, deleted: bool)
    requires TableValid(table, nextId)
    ensures TableValid(SetDeleted(table, id, deleted), nextId)
  {
    var t := SetDeleted(table, id, deleted);
    assert forall i :: 0 <= i < |t| ==> t[i].id == table[i].id;
  }

  /** Soft deletion never creates a second live review. */
  lemma DeleteKeepsOneLive(table: seq<ResenaEntity>, id: int)
    requires OneLivePerUserAndGame(table)
    ensures OneLivePerUserAndGame(SetDeleted(table, id, true))
  {
    var t := SetDeleted(table, id, true);
    forall i, j | 0 <= i < j < |t| && IsLive(t[i]) && IsLive(t[j])
      ensures t[i].userId != t[j].userId || t[i].juegoId != t[j].juegoId
    {
      assert t[i] == table[i] && t[j] == table[j];
    }
  }

  /** Restoring a deleted review of a user and game that already has a
      live review leaves two live reviews of that game by that user: the
      restore checks nothing. */
  lemma RestoreBreaksOneLive(table: seq<ResenaEntity>, k: int)
    requires 0 <= k < |table| && !IsLive(table[k])
    requires HasLiveReview(table, table[k].userId, table[k].juegoId)
    requires forall i, j :: 0 <= i < j < |table| ==> table[i].id != table[j].id
    ensures !OneLivePerUserAndGame(SetDeleted(table, table[k].id, false))
  {
    var t := SetDeleted(table, table[k].id, false);
    var m :| 0 <= m < |table| && IsLiveReviewOf(table[m], table[k].userId, table[k].juegoId);
    assert m != k;
    assert t[k] == table[k].(isDeleted := false);
    assert t[m] == table[m];
    if m < k {
      assert IsLive(t[m]) && IsLive(t[k]);
    } else {
      assert IsLive(t[k]) && IsLive(t[m]);
    }
  }

  /** The history that breaks the rule: a review of game `g` by user `u`,
      deleted, then a second one admitted, then the first restored. */
  lemma DeleteAddRestoreHistory(u: int, g: int, fecha: string)
    ensures var t1 := [ResenaEntity(1, u, g, 5, "a", fecha, false)];
            var t2 := SetDeleted(t1, 1, true);
            var t3 := t2 + [ResenaEntity(2, u, g, 5, "b", fecha, false)];
            var t4 := SetDeleted(t3, 1, false);
            && OneLivePerUserAndGame(t1) && TableValid(t1, 2)
            && AdmissionError(t2, u, g, 5, "b") == None
            && TableValid(t4, 3) && !OneLivePerUserAndGame(t4)
  {
    var t1 := [ResenaEntity(1, u, g, 5, "a", fecha, false)];
    var t2 := SetDeleted(t1, 1, true);
    var t3 := t2 + [ResenaEntity(2, u, g, 5, "b", fecha, false)];
    assert !HasLiveReview(t2, u, g);
    assert !IsWhitespace("b"[0]);
    assert IsLiveReviewOf(t3[1], u, g);
    SetDeletedValid(t3, 3, 1, false);
    RestoreBreaksOneLive(t3, 0);
  }

  class ResenaRepository {
    var resenas: seq<ResenaEntity>
    var nextId: int

    ghost predicate Valid()
      reads this
    {
      TableValid(resenas, nextId)
    }

    constructor ()
      ensures Valid() && resenas == [] && nextId == 1
    {
      resenas := [];
      nextId := 1;
    }

    /** `resenaDao.insert`: the row gets the next id. */
    method Insert(r: ResenaEntity) returns (id: int)
      modifies this
      ensures id == old(nextId) && nextId == old(nextId) + 1
      ensures resenas == old(resenas) + [r.(id := id)]
    {
      id := nextId;
      resenas := resenas + [r.(id := id)];
      nextId := nextId + 1;
    }

    /** `addResena`: refuses a second live review of the same game by the
        same user, a rating outside 1..5 and a blank comment, in that order,
        and writes nothing then; otherwise inserts exactly one live review
        with the trimmed comment and returns its id. The creation time is a
        parameter. */
    method AddResena(userId: int, juegoId: int, calificacion: int, comentario: string,
                     fechaCreacion: string) returns (r: Result<int, string>)
      requires Valid()
      modifies this
      ensures Valid()
      ensures OneLivePerUserAndGame(old(resenas)) ==> OneLivePerUserAndGame(resenas)
      ensures var e := AdmissionError(old(resenas), userId, juegoId, calificacion, comentario);
        e.Some? ==> r == Failure(e.value) && resenas == old(resenas) && nextId == old(nextId)
      ensures r.Success? <==>
        AdmissionError(old(resenas), userId, juegoId, calificacion, comentario).None?
      ensures r.Success? ==>
        && r.value == old(nextId)
        && resenas == old(resenas) + [ResenaEntity(r.value, userId, juegoId, calificacion,
                                                   Trim(comentario), fechaCreacion, false)]
        && GetAllResenas(resenas, false) == GetAllResenas(old(resenas), false) + [resenas[|resenas| - 1]]
    {
      ghost var verdict := AdmissionError(resenas, userId, juegoId, calificacion, comentario);
      var existing := FindLive(resenas, userId, juegoId);
      if existing.Some? {
        assert verdict == Some(DUPLICATE);
        return Failure(DUPLICATE);
      }
      if calificacion < 1 || calificacion > 5 {
        assert verdict == Some(BAD_RATING);
        return Failure(BAD_RATING);
      }
      if IsBlank(comentario) {
        assert verdict == Some(EMPTY_COMMENT);
        return Failure(EMPTY_COMMENT);
      }
      assert verdict.None?;
      var resena := ResenaEntity(0, userId, juegoId, calificacion, Trim(comentario), fechaCreacion, false);
      ghost var row := resena.(id := nextId);
      AdmittedThenDuplicate(resenas, nextId, row, calificacion, comentario);
      var id := Insert(resena);
      assert resenas == old(resenas) + [row];
      assert resenas[|resenas| - 1] == row;
      return Success(id);
    }

    /** `deleteResena`: the review with that id is marked deleted. */
    method DeleteResena(id: int)
      requires Valid()
      modifies this
      ensures Valid()
      ensures resenas == SetDeleted(old(resenas), id, true) && nextId == old(nextId)
      ensures OneLivePerUserAndGame(old(resenas)) ==> OneLivePerUserAndGame(resenas)
    {
      SetDeletedValid(resenas, nextId, id, true);
      if OneLivePerUserAndGame(resenas) {
        DeleteKeepsOneLive(resenas, id);
      }
      resenas := SetDeleted(resenas, id, true);
    }

    /** `restoreResena`: the review with that id is live again, whatever
        else the table holds. */
    method RestoreResena(id: int)
      requires Valid()
      modifies this
      ensures Valid()
      ensures resenas == SetDeleted(old(resenas), id, false) && nextId == old(nextId)
    {
      SetDeletedValid(resenas, nextId, id, false);
      resenas := SetDeleted(resenas, id, false);
    }
  }
}
