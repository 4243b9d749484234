# Santorini board model

A Dafny model of the board of a two-player Santorini game (`Modele.Plateau`).
The board is a 5x5 grid of cells. Each cell is one Java `int` that packs two
fields: the building level (empty, ground floor, floor, roof, dome: 0..4) in
the three low bits, and the occupant, a player flag, in the other bits. On top
of that encoding the board offers level predicates, in-place cell mutators,
the movement and construction rules, three neighbourhood lists, a deep copy,
a reset and cell-wise equality.

Layout:

- `constante.dfy` (module `Constante`): the constants the board uses. Their
  declaring class `Utile.Constante` is not part of this model. The model
  assumes levels `VIDE, RDC, ETAGE, TOIT, COUPOLE = 0..4` and a 5x5 board.
  Player flags are only assumed to have their three low bits clear.
- `cellule.dfy` (module `Cellule`): the cell encoding as pure functions on a
  `bv32`. A `bv32` is the Java `int`'s bit pattern, so `& 7`, `& ~7`, `|` and
  the `+1`/`-1` with 32-bit wrap-around are exactly Java's.
- `geometrie.dfy` (module `Geometrie`): positions (`java.awt.Point`, `x` is the
  row), the adjacency rule, the row-major order of the enumerations, the
  removal of a point from a list (`ArrayList.remove`), and the bound of eight
  neighbours.
- `plateau.dfy` (module `Modele`): the class `Plateau` over an `array2<bv32>`.
  The cell mutators have `modifies cases`. Each states the new value of the
  one cell it writes and that every other cell is unchanged. Where the value
  written is a level, it also states what that means for the level and the
  occupant: for `FixerBatiments` only when `valeur` is below 8, and not at
  all for `MAJEtage`, which adds an arbitrary amount. `RAZ` has
  `modifies this`: it replaces the whole grid by a fresh one. The list builders and `equals` are loops proved
  against membership, order and size specifications.

The board trusts its callers, and the model keeps the code's behaviour rather than the game's rules:

- The `ajouter*` mutators set the level whatever it was before. They do not
  check for a legal one-step increment.
- The board does not stop a builder from being put on a dome.
- `ameliorerBatiment`/`degraderBatiment` add or subtract one on the whole
  cell value, occupant bits included.
- `MAJEtage` adds `value` to the whole cell value. Its documentation comment
  (src/Modele/Plateau.java:314-319) speaks of setting the cell to the floor
  value `value`. The model follows the code: a 32-bit wrap-around addition.

## Model

| member | source | states |
|---|---|---|
| Cellule.Niveau | src/Modele/Plateau.java:353-355 | the level field `v & 7` is below 8 |
| Cellule.Occupant | src/Modele/Plateau.java:357-359 | the occupant field `v & ~7` has its three low bits clear, and occupant plus level is the cell value |
| Cellule.Decomposition | src/Modele/Plateau.java:349-359 | an occupant with clear low bits and a level below 8 are read back unchanged from their sum |
| Cellule.ChampsDeterminentCase | src/Modele/Plateau.java:349-359 | two cells with equal level and equal occupant are equal, so the two getters determine the cell |
| Cellule.AvecNiveau | src/Modele/Plateau.java:95-124 | the occupant OR-ed with `k` has level exactly `k` and the old occupant |
| Cellule.AvecOccupant | src/Modele/Plateau.java:192-198 | the level OR-ed with `n` has occupant `n & ~7` and the old level OR-ed with `n & 7` as level; for a flag with clear low bits, the occupant is `n` and the level is kept |
| Cellule.SansOccupant | src/Modele/Plateau.java:310-312 | the cell without its occupant is free and keeps its level |
| Cellule.Ameliore | src/Modele/Plateau.java:131-133 | adding one raises a level below 7 by exactly one and keeps the occupant |
| Cellule.Degrade | src/Modele/Plateau.java:140-142 | subtracting one lowers a non-zero level by exactly one and keeps the occupant |
| Cellule.AmeliorerPuisDegrader | src/Modele/Plateau.java:126-142 | upgrade then downgrade, or the reverse, gives back every 32-bit cell value |
| Cellule.AmeliorerCaseLibre | src/Modele/Plateau.java:126-133 | on a free cell below a dome, an upgrade raises the level by one and the cell stays free |
| Geometrie.Atteignable | src/Modele/Plateau.java:207-211 | adjacent exactly when the two points differ and are at most one row and one column apart |
| Geometrie.AtteignableSymetrique | src/Modele/Plateau.java:207-211 | adjacency is irreflexive and symmetric |
| Geometrie.CroissanteSansDoublon | src/Modele/Plateau.java:226-235 | a list in strictly increasing row-major order holds no point twice |
| Geometrie.PremierIndice | src/Modele/Plateau.java:289 | the index found holds `x` and no earlier index does |
| Geometrie.Retirer | src/Modele/Plateau.java:289 | removing a point gives the list with its first occurrence cut out and every other element in its original order; a list without the point is unchanged |
| Geometrie.RetirerCroissante | src/Modele/Plateau.java:289 | on a row-major list, removing a point keeps exactly the other points, still in row-major order |
| Geometrie.AuPlusHuit | src/Modele/Plateau.java:219-292 | a row-major list of cells adjacent to one builder has at most eight elements |
| Modele.Plateau.constructor | src/Modele/Plateau.java:19-23 | a new board has the 5x5 dimensions and every cell 0 |
| Modele.Plateau.Copie | src/Modele/Plateau.java:30-38 | the copy is a fresh grid with the same dimensions and the same value in every cell as the original |
| Modele.Plateau.Lignes | src/Modele/Plateau.java:341-343 | the board has `PLATEAU_LIGNES` rows |
| Modele.Plateau.Colonnes | src/Modele/Plateau.java:345-347 | the board has `PLATEAU_COLONNES` columns |
| Modele.Plateau.Case | src/Modele/Plateau.java:349-351 | a cell's value is its occupant flag plus its level |
| Modele.Plateau.TypeBatiments | src/Modele/Plateau.java:353-355 | a cell's level is below 8 |
| Modele.Plateau.TypeBatisseurs | src/Modele/Plateau.java:357-359 | a cell's occupant has its three low bits clear |
| Modele.Plateau.EstVide | src/Modele/Plateau.java:46-48 | the cell is empty iff its value is 0 modulo 8 |
| Modele.Plateau.EstRDC | src/Modele/Plateau.java:56-58 | the cell is a ground floor iff its value is 1 modulo 8 |
| Modele.Plateau.EstEtage | src/Modele/Plateau.java:66-68 | the cell is a floor iff its value is 2 modulo 8 |
| Modele.Plateau.EstToit | src/Modele/Plateau.java:76-78 | the cell is a roof iff its value is 3 modulo 8 |
| Modele.Plateau.EstCoupole | src/Modele/Plateau.java:86-88 | the cell is a dome iff its value is 4 modulo 8 |
| Modele.Plateau.EstBatisseur | src/Modele/Plateau.java:160-162 | player `n` stands on the cell iff `n` has clear low bits and the cell is `n` plus its level |
| Modele.Plateau.EstLibre | src/Modele/Plateau.java:170-172 | the cell is free iff its raw value is below 8, that is, it holds nothing but a level |
| Modele.Plateau.DeplacementPossible | src/Modele/Plateau.java:181-184 | a move is legal iff the target is a legal build target at most one level above the builder's cell |
| Modele.Plateau.PeutConstruire | src/Modele/Plateau.java:301-303 | a build is legal iff the target is adjacent and its raw value is below 8 and not 4, that is, free and not a dome |
| Modele.Plateau.NiveauxExclusifs | src/Modele/Plateau.java:46-88 | at most one of `estVide` .. `estCoupole` holds, and one holds exactly when the level is at most a dome |
| Modele.Plateau.DeplacementPossibleCaracterise | src/Modele/Plateau.java:181-184 | a move is legal iff the target is another cell at most one row and column away, free, at most one level above the builder's cell, and not a dome |
| Modele.Plateau.PeutConstruireCaracterise | src/Modele/Plateau.java:301-303 | a build is legal iff the target is another cell at most one row and column away, free, and not a dome |
| Modele.Plateau.MonteeLimitee | src/Modele/Plateau.java:181-184 | no move climbs more than one level |
| Modele.Plateau.CoupoleTerminale | src/Modele/Plateau.java:181-184 | a dome admits neither a move nor a build |
| Modele.Plateau.DeplacementImpliqueConstruction | src/Modele/Plateau.java:181-184 | every cell a builder can move to is a cell it can build on |
| Modele.Plateau.EcrireCase | src/Modele/Plateau.java:333-335 | the cell takes the given value and no other cell changes |
| Modele.Plateau.AjouterRDC | src/Modele/Plateau.java:95-97 | the level becomes ground floor whatever it was, the occupant is kept, no other cell changes |
| Modele.Plateau.AjouterEtage | src/Modele/Plateau.java:104-106 | the level becomes floor, the occupant is kept, no other cell changes |
| Modele.Plateau.AjouterToit | src/Modele/Plateau.java:113-115 | the level becomes roof, the occupant is kept, no other cell changes |
| Modele.Plateau.AjouterCoupole | src/Modele/Plateau.java:122-124 | the level becomes dome, the occupant is kept, no other cell changes |
| Modele.Plateau.AmeliorerBatiment | src/Modele/Plateau.java:131-133 | the cell value goes up by one (undone by `DegraderBatiment`); below level 7 that is one level more with the same occupant; no other cell changes |
| Modele.Plateau.DegraderBatiment | src/Modele/Plateau.java:140-142 | the cell value goes down by one (undoes `AmeliorerBatiment`); above level 0 that is one level less with the same occupant; no other cell changes |
| Modele.Plateau.AjouterJoueur | src/Modele/Plateau.java:196-198 | the cell becomes the level OR-ed with `n`; for a player flag the occupant is that player and the level is kept; no other cell changes |
| Modele.Plateau.EnleverJoueur | src/Modele/Plateau.java:310-312 | the cell becomes free and keeps its level; no other cell changes |
| Modele.Plateau.MAJEtage | src/Modele/Plateau.java:320-322 | the cell value grows by `value` with 32-bit wrap-around; no other cell changes |
| Modele.Plateau.FixerBatiments | src/Modele/Plateau.java:337-339 | the cell becomes its occupant plus `valeur`; for a level below 8 the occupant is kept and the level set; no other cell changes |
| Modele.Plateau.RAZ | src/Modele/Plateau.java:327-329 | the board gets a fresh grid whose every cell is 0, so empty and free |
| Modele.Plateau.CasesAccessibles | src/Modele/Plateau.java:219-238 | exactly the grid cells the builder may move to, in strictly increasing row-major order (each once), at most eight |
| Modele.Plateau.ConstructionsPossibles | src/Modele/Plateau.java:246-264 | exactly the grid cells the builder may build on, in row-major order, each once, at most eight |
| Modele.Plateau.CasesVoisines | src/Modele/Plateau.java:272-292 | exactly the grid cells adjacent to the builder, never its own cell, in row-major order, each once, at most eight |
| Modele.Plateau.Egal | src/Modele/Plateau.java:377-389 | true iff the other object is a board with the same value in every cell |
| Modele.Plateau.MemesCasesSymetrique | src/Modele/Plateau.java:377-389 | cell-wise equality is symmetric, so a copy and its original are equal either way round |

## Left out

- `toString` (src/Modele/Plateau.java:363-374): display formatting only.
- The overloads `estBatisseur(Point, Joueur)` and `ajouterJoueur(Point, Joueur)` compute the same expression as the `int` overloads, with `joueur.getNum_joueur()` as the number. The class `Joueur` is not part of this model, so only the `int` overloads are modelled (`EstBatisseur`, `AjouterJoueur`).
- Positions off the grid make Java throw `ArrayIndexOutOfBoundsException`. Every member that reads or writes a cell requires its position on the grid. Because Java's `&&` stops early, some off-grid calls do not throw in the source; the members below name those cases.
- Modele.Plateau.DeplacementPossible: requires the builder's cell on the grid. `deplacementPossible` reads that cell only after `estLibre(position) && atteignable(position, batisseur)` holds (src/Modele/Plateau.java:182-183). So for an off-grid builder and an occupied or non-adjacent target, the source returns `false` without throwing. That case is excluded.
- Modele.Plateau.PeutConstruire: requires the target position on the grid. `peutConstruire` evaluates `atteignable(position, batisseur)` first, and that reads no cell (src/Modele/Plateau.java:302). So for an off-grid position that is not adjacent to the builder, such as (7, 7) seen from (0, 0), the source returns `false` without throwing. That case is excluded. The only caller on the board, `getConstructionsPossible`, passes positions on the grid.
- Modele.Plateau.CasesAccessibles: requires the builder's own cell on the grid, so no off-grid builder is covered. For a builder one row or column off the grid, `deplacementPossible` reads its cell and the source may throw; that exception path is not modelled. For a builder two or more rows or columns off the grid, no neighbour is on the grid, so the source never reads the builder's cell and returns an empty list; that case is excluded too.
- Geometrie.Atteignable: coordinates are unbounded integers. The overflow of Java's `int` subtraction and `Math.abs` for coordinates near ±2^31 is not modelled.
- `equals` is modelled for a `Plateau` argument or `null`. An object of any other class gives `false` in the source. That case is not modelled.
- The returned `ArrayList`s are modelled as sequence values. Their identity and later mutation by callers are not modelled.
- The rule engine (`Jeu`), the phase state machine, players, the network messages and the session are not part of this model.
