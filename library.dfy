/** The user's game library as the library screen holds it
    (app/src/main/java/com/example/uinavegacion/viewmodel/LibraryViewModel.kt):
    an in-memory list of owned games, each with a status string, the
    filters and counts the screen shows, and the name-based genre guess. */
module Library {
  import opened Wrappers
  import opened Text

  /** `LibraryGame`; the price is carried, never computed with. */
  datatype LibraryGame = LibraryGame(
    id: string, name: string, price: real, dateAdded: string,
    status: string, genre: string)

  const INSTALLED := "Instalado"
  const AVAILABLE := "Disponible"
  const DOWNLOADING := "Descargando"
  const UPDATING := "Actualizando"

  /** The group a status string falls into for filters and counts. */
  datatype StatusGroup = Installed | Available | Downloading | Ungrouped

  function GroupOf(status: string): (g: StatusGroup)
    ensures g == Installed <==> status == INSTALLED
    ensures g == Available <==> status == AVAILABLE
    ensures g == Downloading <==> status == DOWNLOADING || status == UPDATING
  {
    if status == INSTALLED then Installed
    else if status == AVAILABLE then Available
    else if status == DOWNLOADING || status == UPDATING then Downloading
    else Ungrouped
  }

  /** The group a filter tab selects; "Todos" and unknown tabs select all. */
  function FilterGroup(filter: string): (g: Option<StatusGroup>)
    ensures g == Some(Installed) <==> filter == "Instalados"
    ensures g == Some(Available) <==> filter == "Disponibles"
    ensures g == Some(Downloading) <==> filter == "Descargando"
    ensures g != Some(Ungrouped)
  {
    if filter == "Instalados" then Some(Installed)
    else if filter == "Disponibles" then Some(Available)
    else if filter == "Descargando" then Some(Downloading)
    else None
  }

  predicate Selected(g: LibraryGame, filter: string) {
    var f := FilterGroup(filter);
    f.None? || GroupOf(g.status) == f.value
  }

  /** `getGamesByStatus`: the games the filter tab selects, in order. */
  function GetGamesByStatus(games: seq<LibraryGame>, filter: string): (r: seq<LibraryGame>)
    ensures |r| <= |games|
    ensures FilterGroup(filter).None? ==> r == games
  {
    if games == [] then []
    else (if Selected(games[0], filter) then [games[0]] else []) + GetGamesByStatus(games[1..], filter)
  }

  /** `filter { it.id != gameId }`. */
  function WithoutGame(games: seq<LibraryGame>, gameId: string): (r: seq<LibraryGame>)
    ensures |r| <= |games|
  {
    if games == [] then []
    else (if games[0].id != gameId then [games[0]] else []) + WithoutGame(games[1..], gameId)
  }

  /** `map { if (it.id == gameId) it.copy(status = newStatus) else it }`. */
  function WithStatus(games: seq<LibraryGame>, gameId: string, newStatus: string): (r: seq<LibraryGame>)
    ensures |r| == |games|
    ensures forall i :: 0 <= i < |r| ==>
      r[i] == if games[i].id == gameId then games[i].(status := newStatus) else games[i]
  {
    if games == [] then []
    else
      var head := if games[0].id == gameId then games[0].(status := newStatus) else games[0];
      [head] + WithStatus(games[1..], gameId, newStatus)
  }

  /** How many games fall into a status group. */
  function CountIn(games: seq<LibraryGame>, g: StatusGroup): (n: nat)
    ensures n <= |games|
  {
    if games == [] then 0
    else (if GroupOf(games[0].status) == g then 1 else 0) + CountIn(games[1..], g)
  }

  datatype LibraryStats = LibraryStats(
    totalGames: int, installedGames: int, availableGames: int, downloadingGames: int)

  /** `a` is `b` with some elements dropped, the rest in order. */
  predicate IsSubsequence<T(==)>(a: seq<T>, b: seq<T>)
    decreases |b|
  {
    if a == [] then true
    else if b == [] then false
    else if a[0] == b[0] then IsSubsequence(a[1..], b[1..])
    else IsSubsequence(a, b[1..])
  }

  // ----- filters and counts -----

  /** A filter tab shows exactly the games of its group. */
  lemma {:induction false} GamesByStatusMembers(games: seq<LibraryGame>, filter: string)
    ensures forall x :: x in GetGamesByStatus(games, filter) <==> x in games && Selected(x, filter)
  {
    if games != [] {
      GamesByStatusMembers(games[1..], filter);
      assert games == [games[0]] + games[1..];
    }
  }

  /** A filter tab keeps the library's order. */
  lemma {:induction false} GamesByStatusSubsequence(games: seq<LibraryGame>, filter: string)
    ensures IsSubsequence(GetGamesByStatus(games, filter), games)
  {
    if games != [] {
      var rest := GetGamesByStatus(games[1..], filter);
      GamesByStatusSubsequence(games[1..], filter);
      if Selected(games[0], filter) {
        var r := [games[0]] + rest;
        assert GetGamesByStatus(games, filter) == r;
        assert r[0] == games[0] && r[1..] == rest;
      } else {
        assert GetGamesByStatus(games, filter) == rest;
        if rest != [] {
          GamesByStatusMembers(games[1..], filter);
          assert rest[0] in rest;
          assert rest[0] != games[0];
        }
      }
    }
  }

  /** `removeGame` keeps exactly the games with another id. */
  lemma {:induction false} WithoutGameMembers(games: seq<LibraryGame>, gameId: string)
    ensures forall x :: x in WithoutGame(games, gameId) <==> x in games && x.id != gameId
  {
    if games != [] {
      WithoutGameMembers(games[1..], gameId);
      assert games == [games[0]] + games[1..];
    }
  }

  /** `removeGame` keeps the remaining games in order. */
  lemma {:induction false} WithoutGameSubsequence(games: seq<LibraryGame>, gameId: string)
    ensures IsSubsequence(WithoutGame(games, gameId), games)
  {
    if games != [] {
      var rest := WithoutGame(games[1..], gameId);
      WithoutGameSubsequence(games[1..], gameId);
      if games[0].id != gameId {
        var r := [games[0]] + rest;
        assert WithoutGame(games, gameId) == r;
        assert r[0] == games[0] && r[1..] == rest;
      } else {
        assert WithoutGame(games, gameId) == rest;
        if rest != [] {
          WithoutGameMembers(games[1..], gameId);
          assert rest[0] in rest;
          assert rest[0] != games[0];
        }
      }
    }
  }

  /** Renaming the status of an id nobody has changes nothing. */
  lemma WithStatusAbsent(games: seq<LibraryGame>, gameId: string, newStatus: string)
    requires forall i :: 0 <= i < |games| ==> games[i].id != gameId
    ensures WithStatus(games, gameId, newStatus) == games
  {
  }

  /** Every game falls into exactly one group. */
  lemma {:induction false} CountsPartition(games: seq<LibraryGame>)
    ensures CountIn(games, Installed) + CountIn(games, Available)
      + CountIn(games, Downloading) + CountIn(games, Ungrouped) == |games|
  {
    if games != [] {
      CountsPartition(games[1..]);
    }
  }

  /** The count of a group is the length of its filter tab. */
  lemma {:induction false} CountIsFilterLength(games: seq<LibraryGame>, filter: string)
    requires FilterGroup(filter).Some?
    ensures CountIn(games, FilterGroup(filter).value) == |GetGamesByStatus(games, filter)|
  {
    if games != [] {
      CountIsFilterLength(games[1..], filter);
    }
  }

  /** `getLibraryStats`: the size of the library and the size of each tab;
      the three groups never add up to more than the whole. */
  function GetLibraryStats(games: seq<LibraryGame>): (s: LibraryStats)
    ensures s.totalGames == |games|
    ensures s.installedGames == |GetGamesByStatus(games, "Instalados")|
    ensures s.availableGames == |GetGamesByStatus(games, "Disponibles")|
    ensures s.downloadingGames == |GetGamesByStatus(games, "Descargando")|
    ensures 0 <= s.installedGames + s.availableGames + s.downloadingGames <= s.totalGames
  {
    CountsPartition(games);
    CountIsFilterLength(games, "Instalados");
    CountIsFilterLength(games, "Disponibles");
    CountIsFilterLength(games, "Descargando");
    LibraryStats(|games|, CountIn(games, Installed), CountIn(games, Available), CountIn(games, Downloading))
  }

  // ----- genres -----

  const DEFAULT_GENRE := "Acción"

  /** The genre rules in the order they are tried. */
  const GENRE_RULES: seq<(string, string)> := [
    ("Cyberpunk", "RPG"), ("Witcher", "RPG"), ("Minecraft", "Sandbox"),
    ("Among Us", "Multijugador"), ("Valorant", "FPS"), ("Fortnite", "Battle Royale"),
    ("FIFA", "Deportes"), ("Call of Duty", "FPS"), ("Grand Theft Auto", "Acción"),
    ("The Sims", "Simulación")]

  /** The index of the first rule whose word the name contains, or -1. */
  function FirstMatch(rules: seq<(string, string)>, name: string): (i: int)
    ensures -1 <= i < |rules|
    ensures i >= 0 ==> (ContainsIgnoreCase(name, rules[i].0)
      && forall j :: 0 <= j < i ==> !ContainsIgnoreCase(name, rules[j].0))
    ensures i == -1 <==> forall j :: 0 <= j < |rules| ==> !ContainsIgnoreCase(name, rules[j].0)
  {
    if rules == [] then -1
    else if ContainsIgnoreCase(name, rules[0].0) then 0
    else
      var k := FirstMatch(rules[1..], name);
      assert forall j :: 1 <= j < |rules| ==> rules[j] == rules[1..][j - 1];
      if k == -1 then -1 else k + 1
  }

  /** The genre of the first matching rule, or the default. */
  function GenreByRules(rules: seq<(string, string)>, name: string): string {
    var i := FirstMatch(rules, name);
    if i < 0 then DEFAULT_GENRE else rules[i].1
  }

  /** `getGenreForGame`, the `when` chain as written. */
  function GetGenreForGame(gameName: string): (r: string)
    ensures ContainsIgnoreCase(gameName, "Cyberpunk") ==> r == "RPG"
    ensures r in {"RPG", "Sandbox", "Multijugador", "FPS", "Battle Royale", "Deportes",
                  "Acción", "Simulación"}
  {
    if ContainsIgnoreCase(gameName, "Cyberpunk") then "RPG"
    else if ContainsIgnoreCase(gameName, "Witcher") then "RPG"
    else if ContainsIgnoreCase(gameName, "Minecraft") then "Sandbox"
    else if ContainsIgnoreCase(gameName, "Among Us") then "Multijugador"
    else if ContainsIgnoreCase(gameName, "Valorant") then "FPS"
    else if ContainsIgnoreCase(gameName, "Fortnite") then "Battle Royale"
    else if ContainsIgnoreCase(gameName, "FIFA") then "Deportes"
    else if ContainsIgnoreCase(gameName, "Call of Duty") then "FPS"
    else if ContainsIgnoreCase(gameName, "Grand Theft Auto") then "Acción"
    else if ContainsIgnoreCase(gameName, "The Sims") then "Simulación"
    else DEFAULT_GENRE
  }

  /** The `when` chain is the first-match rule table: a name gets the genre
      of the first rule it contains, and the default when it contains none. */
  lemma GenreIsFirstMatch(gameName: string)
    ensures GetGenreForGame(gameName) == GenreByRules(GENRE_RULES, gameName)
    ensures (forall j :: 0 <= j < |GENRE_RULES| ==> !ContainsIgnoreCase(gameName, GENRE_RULES[j].0))
      ==> GetGenreForGame(gameName) == DEFAULT_GENRE
  {
    var i := FirstMatch(GENRE_RULES, gameName);
    assert GENRE_RULES[0].0 == "Cyberpunk";
    assert GENRE_RULES[1].0 == "Witcher";
    assert GENRE_RULES[2].0 == "Minecraft";
    assert GENRE_RULES[3].0 == "Among Us";
    assert GENRE_RULES[4].0 == "Valorant";
    assert GENRE_RULES[5].0 == "Fortnite";
    assert GENRE_RULES[6].0 == "FIFA";
    assert GENRE_RULES[7].0 == "Call of Duty";
    assert GENRE_RULES[8].0 == "Grand Theft Auto";
    assert GENRE_RULES[9].0 == "The Sims";
    if i > 0 { assert !ContainsIgnoreCase(gameName, "Cyberpunk"); }
    if i > 1 { assert !ContainsIgnoreCase(gameName, "Witcher"); }
    if i > 2 { assert !ContainsIgnoreCase(gameName, "Minecraft"); }
    if i > 3 { assert !ContainsIgnoreCase(gameName, "Among Us"); }
    if i > 4 { assert !ContainsIgnoreCase(gameName, "Valorant"); }
    if i > 5 { assert !ContainsIgnoreCase(gameName, "Fortnite"); }
    if i > 6 { assert !ContainsIgnoreCase(gameName, "FIFA"); }
    if i > 7 { assert !ContainsIgnoreCase(gameName, "Call of Duty"); }
    if i > 8 { assert !ContainsIgnoreCase(gameName, "Grand Theft Auto"); }
  }

  class LibraryViewModel {
    var games: seq<LibraryGame>

    constructor ()
      ensures games == []
    {
      games := [];
    }

    /** `updateGameStatus` (its in-memory part): every game with that id
        gets the new status; nothing else changes. */
    method UpdateGameStatus(gameId: string, newStatus: string)
      modifies this
      ensures games == WithStatus(old(games), gameId, newStatus)
      ensures |games| == |old(games)|
      ensures forall i :: 0 <= i < |games| ==>
        games[i].id == old(games)[i].id && games[i].name == old(games)[i].name
        && games[i].price == old(games)[i].price && games[i].dateAdded == old(games)[i].dateAdded
        && games[i].genre == old(games)[i].genre
        && games[i].status == (if old(games)[i].id == gameId then newStatus else old(games)[i].status)
    {
      games := WithStatus(games, gameId, newStatus);
    }

    /** `installGame(String)`: the game starts downloading. */
    method InstallGame(gameId: string)
      modifies this
      ensures games == WithStatus(old(games), gameId, DOWNLOADING)
    {
      UpdateGameStatus(gameId, DOWNLOADING);
    }

    /** `installGame(Int)`: the game "game_<n>" starts downloading, if the
        library has it; otherwise nothing changes. */
    method InstallGameNumber(gameId: int)
      modifies this
      ensures games == WithStatus(old(games), "game_" + IntToString(gameId), DOWNLOADING)
      ensures (forall i :: 0 <= i < |old(games)| ==> old(games)[i].id != "game_" + IntToString(gameId))
        ==> games == old(games)
    {
      var key := "game_" + IntToString(gameId);
      var i := 0;
      var found: Option<LibraryGame> := None;
      while i < |games| && found.None?
        invariant 0 <= i <= |games|
        invariant found.None? ==> forall j :: 0 <= j < i ==> games[j].id != key
        invariant found.Some? ==> found.value.id == key
      {
        if games[i].id == key {
          found := Some(games[i]);
        }
        i := i + 1;
      }
      if found.Some? {
        UpdateGameStatus(found.value.id, DOWNLOADING);
      } else {
        WithStatusAbsent(games, key, DOWNLOADING);
      }
    }

    /** `removeGame`: every game with that id is dropped, the rest kept in
        order. */
    method RemoveGame(gameId: string)
      modifies this
      ensures games == WithoutGame(old(games), gameId)
      ensures forall x :: x in games <==> x in old(games) && x.id != gameId
      ensures IsSubsequence(games, old(games))
    {
      WithoutGameMembers(games, gameId);
      WithoutGameSubsequence(games, gameId);
      games := WithoutGame(games, gameId);
    }

    /** `clearLibrary`. */
    method ClearLibrary()
      modifies this
      ensures games == []
    {
      games := [];
    }
  }
}
