/** Stock bookkeeping of the local game catalogue and the mapping of a
    remote catalogue entry to a local row
    (app/src/main/java/com/example/uinavegacion/data/repository/GameRepository.kt).
    The `juegos` table is a map from id to row. */
module Games {
  import opened Wrappers
  import opened Text

  /** A row of the `juegos` table; the price is carried, never computed with. */
  datatype JuegoEntity = JuegoEntity(
    id: int, nombre: string, descripcion: string, precio: real, stock: int,
    imagenUrl: Option<string>, desarrollador: string, fechaLanzamiento: string,
    categoriaId: int, generoId: int, activo: bool, descuento: int,
    remoteId: Option<string>)

  /** An entry of the remote catalogue. */
  datatype CatalogoGameResponse = CatalogoGameResponse(
    id: string, nombreJuego: string, precio: real, fotoJuego: Option<string>,
    fechaLanzamiento: Option<string>, categoriaId: Option<string>,
    generoId: Option<string>, estadoId: Option<string>)

  /** What the remote stock service answered; the local update does not
      depend on it. */
  datatype RemoteOutcome = RemoteSucceeded | RemoteFailed | RemoteThrew

  type Table = map<int, JuegoEntity>

  predicate TableValid(t: Table) {
    forall id :: id in t ==> t[id].id == id
  }

  // ----- `String.hashCode` and `remoteIdToLong` -----

  const TWO_31: int := 0x8000_0000
  const TWO_32: int := 0x1_0000_0000

  /** A Java `int` arithmetic result: wrapped into [-2^31, 2^31). */
  function ToInt32(x: int): (r: int)
    ensures -TWO_31 <= r < TWO_31
    ensures (r - x) % TWO_32 == 0
  {
    (x + TWO_31) % TWO_32 - TWO_31
  }

  /** `s[0]*31^(n-1) + ... + s[n-1]` in `int` arithmetic, over code units. */
  function HashUnits(u: seq<int>): (h: int)
    ensures -TWO_31 <= h < TWO_31
  {
    if u == [] then 0 else ToInt32(31 * HashUnits(u[..|u| - 1]) + u[|u| - 1])
  }

  function JavaHashCode(s: string): (h: int)
    ensures -TWO_31 <= h < TWO_31
  {
    HashUnits(Utf16Units(s))
  }

  function Pow31(k: nat): int {
    if k == 0 then 1 else 31 * Pow31(k - 1)
  }

  /** The hash as `String.hashCode` documents it, in unbounded integers:
      `u[0]*31^(n-1) + u[1]*31^(n-2) + ... + u[n-1]`. */
  function PolynomialHash(u: seq<int>): int {
    if u == [] then 0 else u[0] * Pow31(|u| - 1) + PolynomialHash(u[1..])
  }

  /** Appending a unit multiplies the sum by 31 and adds the unit. */
  lemma {:induction false} PolynomialHashSnoc(u: seq<int>, x: int)
    ensures PolynomialHash(u + [x]) == 31 * PolynomialHash(u) + x
  {
    if u == [] {
      assert [] + [x] == [x];
      assert [x][1..] == [];
    } else {
      assert (u + [x])[0] == u[0];
      assert (u + [x])[1..] == u[1..] + [x];
      PolynomialHashSnoc(u[1..], x);
      calc {
        PolynomialHash(u + [x]);
        u[0] * Pow31(|u|) + PolynomialHash(u[1..] + [x]);
        u[0] * (31 * Pow31(|u| - 1)) + 31 * PolynomialHash(u[1..]) + x;
        { assert u[0] * (31 * Pow31(|u| - 1)) == 31 * (u[0] * Pow31(|u| - 1)); }
        31 * PolynomialHash(u) + x;
      }
    }
  }

  /** Two 32-bit values that agree modulo 2^32 are equal. */
  lemma Int32Unique(a: int, b: int)
    requires -TWO_31 <= a < TWO_31 && -TWO_31 <= b < TWO_31
    requires (a - b) % TWO_32 == 0
    ensures a == b
  {
  }

  lemma MultipleOfTwo32(q: int, x: int)
    requires x == q * TWO_32
    ensures x % TWO_32 == 0
  {
  }

  /** Horner's rule with a wrap at every step gives the documented sum
      reduced to 32 bits. */
  lemma {:induction false} HashUnitsIsPolynomial(u: seq<int>)
    ensures (HashUnits(u) - PolynomialHash(u)) % TWO_32 == 0
    ensures HashUnits(u) == ToInt32(PolynomialHash(u))
  {
    if u != [] {
      var init, x := u[..|u| - 1], u[|u| - 1];
      assert u == init + [x];
      HashUnitsIsPolynomial(init);
      PolynomialHashSnoc(init, x);
      var h, p := HashUnits(init), PolynomialHash(init);
      var k := (h - p) / TWO_32;
      assert h - p == k * TWO_32;
      var y := 31 * h + x;
      var j := (HashUnits(u) - y) / TWO_32;
      assert HashUnits(u) - y == j * TWO_32;
      assert HashUnits(u) - PolynomialHash(u) == (j + 31 * k) * TWO_32;
      MultipleOfTwo32(j + 31 * k, HashUnits(u) - PolynomialHash(u));
    }
    var t := ToInt32(PolynomialHash(u));
    MultipleOfTwo32(((HashUnits(u) - PolynomialHash(u)) / TWO_32) - ((t - PolynomialHash(u)) / TWO_32), HashUnits(u) - t);
    Int32Unique(HashUnits(u), t);
  }

  /** `remoteIdToLong`: the absolute hash, as a `Long`, above one billion. */
  function RemoteIdToLong(remoteId: string): (r: int)
    ensures 1_000_000_000 <= r <= 1_000_000_000 + TWO_31
  {
    var h := JavaHashCode(remoteId);
    (if h < 0 then -h else h) + 1_000_000_000
  }

  const DESCRIPCION_FALLBACK := "Información provista por catálogo remoto"
  const REMOTE_STOCK := 20

  /** `CatalogoGameResponse.toEntity`. */
  function ToEntity(g: CatalogoGameResponse): (e: JuegoEntity)
    ensures e.id == RemoteIdToLong(g.id) && 1_000_000_000 <= e.id
    ensures e.nombre == g.nombreJuego && e.precio == g.precio && e.imagenUrl == g.fotoJuego
    ensures e.stock == REMOTE_STOCK && e.descuento == 0
    ensures e.descripcion == DESCRIPCION_FALLBACK && e.desarrollador == "Catálogo Remoto"
    ensures e.fechaLanzamiento == (if g.fechaLanzamiento.Some? then g.fechaLanzamiento.value else "N/D")
    ensures e.activo <==> g.estadoId.None? || EqualsIgnoreCase(g.estadoId.value, "ACTIVO")
    ensures g.categoriaId.None? || ToLongOrNull(g.categoriaId.value).None? ==> e.categoriaId == 1
    ensures g.categoriaId.Some? && ToLongOrNull(g.categoriaId.value).Some? ==>
      e.categoriaId == ToLongOrNull(g.categoriaId.value).value
    ensures g.generoId.None? || ToLongOrNull(g.generoId.value).None? ==> e.generoId == 1
    ensures g.generoId.Some? && ToLongOrNull(g.generoId.value).Some? ==>
      e.generoId == ToLongOrNull(g.generoId.value).value
    ensures e.remoteId == Some(g.id)
  {
    var fecha := if g.fechaLanzamiento.Some? then g.fechaLanzamiento.value else "N/D";
    var categoria := if g.categoriaId.Some? then ToLongOrNull(g.categoriaId.value).GetOr(1) else 1;
    var genero := if g.generoId.Some? then ToLongOrNull(g.generoId.value).GetOr(1) else 1;
    JuegoEntity(
      RemoteIdToLong(g.id), g.nombreJuego, DESCRIPCION_FALLBACK, g.precio, REMOTE_STOCK,
      g.fotoJuego, "Catálogo Remoto", fecha, categoria, genero,
      if g.estadoId.Some? then EqualsIgnoreCase(g.estadoId.value, "ACTIVO") else true,
      0, Some(g.id))
  }

  /** An entry is active whatever the case of its state: any state whose
      upper-case form is "ACTIVO" ("activo", "Activo", ...) gives an
      active game. */
  lemma ToEntityActiveCaseInsensitive(g: CatalogoGameResponse)
    requires g.estadoId.Some? && |g.estadoId.value| == 6
    requires forall i :: 0 <= i < 6 ==> ToUpper(g.estadoId.value[i]) == "ACTIVO"[i]
    ensures ToEntity(g).activo
  {
    var v := g.estadoId.value;
    forall i | 0 <= i < 6
      ensures CharEqualsIgnoreCase(v[i], "ACTIVO"[i])
    {
      assert ToUpper("ACTIVO"[i]) == "ACTIVO"[i];
    }
  }

  function NotFoundMessage(id: int): string {
    "Juego con id=" + IntToString(id) + " no encontrado"
  }

  const NON_POSITIVE_QUANTITY := "La cantidad a descontar debe ser mayor a 0"
  const NEGATIVE_STOCK := "El stock no puede ser negativo"

  class GameRepository {
    var juegos: Table

    ghost predicate Valid()
      reads this
    {
      TableValid(juegos)
    }

    constructor (initial: Table)
      requires TableValid(initial)
      ensures Valid() && juegos == initial
    {
      juegos := initial;
    }

    /** `juegoDao.updateStock`: `UPDATE juegos SET stock = :stock WHERE id = :id`. */
    method WriteStock(id: int, stock: int)
      requires Valid()
      modifies this
      ensures Valid()
      ensures id in old(juegos) ==> juegos == old(juegos)[id := old(juegos)[id].(stock := stock)]
      ensures id !in old(juegos) ==> juegos == old(juegos)
    {
      if id in juegos {
        juegos := juegos[id := juegos[id].(stock := stock)];
      }
    }

    /** `updateStock`: a negative stock is refused; any other value is
        written, and an id with no row is not an error. */
    method UpdateStock(id: int, newStock: int) returns (r: Result<(), string>)
      requires Valid()
      modifies this
      ensures Valid()
      ensures newStock < 0 ==> r == Failure(NEGATIVE_STOCK) && juegos == old(juegos)
      ensures newStock >= 0 ==> r.Success?
      ensures newStock >= 0 && id in old(juegos) ==>
        juegos == old(juegos)[id := old(juegos)[id].(stock := newStock)]
      ensures id !in old(juegos) ==> juegos == old(juegos)
    {
      if newStock < 0 {
        return Failure(NEGATIVE_STOCK);
      }
      WriteStock(id, newStock);
      return Success(());
    }

    /** `decreaseStock`: checks, in order, a positive quantity, an existing
        row, an active game and enough stock; then writes and returns the new
        stock, whatever the remote stock service answered. */
    method DecreaseStock(id: int, quantity: int, remote: RemoteOutcome) returns (r: Result<int, string>)
      requires Valid()
      modifies this
      ensures Valid()
      ensures quantity <= 0 ==> r == Failure(NON_POSITIVE_QUANTITY)
      ensures quantity > 0 && id !in old(juegos) ==> r == Failure(NotFoundMessage(id))
      ensures quantity > 0 && id in old(juegos) && !old(juegos)[id].activo ==>
        r == Failure("El juego " + old(juegos)[id].nombre + " ya no está disponible")
      ensures (quantity > 0 && id in old(juegos) && old(juegos)[id].activo
        && old(juegos)[id].stock < quantity) ==>
        r == Failure("Stock insuficiente para " + old(juegos)[id].nombre)
      ensures r.Failure? ==> juegos == old(juegos)
      ensures r.Success? <==> (quantity > 0 && id in old(juegos) && old(juegos)[id].activo
        && old(juegos)[id].stock >= quantity)
      ensures r.Success? ==>
        && r.value == old(juegos)[id].stock - quantity && r.value >= 0
        && juegos == old(juegos)[id := old(juegos)[id].(stock := r.value)]
    {
      if quantity <= 0 {
        return Failure(NON_POSITIVE_QUANTITY);
      }
      if id !in juegos {
        return Failure(NotFoundMessage(id));
      }
      var game := juegos[id];
      if !game.activo {
        return Failure("El juego " + game.nombre + " ya no está disponible");
      }
      if game.stock < quantity {
        return Failure("Stock insuficiente para " + game.nombre);
      }
      var newStock := game.stock - quantity;
      // The remote service is informed when the game has a remote id; its
      // answer is only logged.
      WriteStock(id, newStock);
      return Success(newStock);
    }

    /** `deactivateGame`: `UPDATE juegos SET activo = 0 WHERE id = :id`,
        successful when a row was affected. */
    method DeactivateGame(id: int) returns (r: Result<(), string>)
      requires Valid()
      modifies this
      ensures Valid()
      ensures r.Success? <==> id in old(juegos)
      ensures id in old(juegos) ==> juegos == old(juegos)[id := old(juegos)[id].(activo := false)]
      ensures id !in old(juegos) ==> juegos == old(juegos) && r == Failure(NotFoundMessage(id))
    {
      var rows := 0;
      if id in juegos {
        juegos := juegos[id := juegos[id].(activo := false)];
        rows := 1;
      }
      if rows > 0 {
        return Success(());
      }
      return Failure(NotFoundMessage(id));
    }
  }
}
