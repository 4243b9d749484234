/** The game board (`Modele.Plateau`): a 5x5 grid of packed cells, the
    movement and construction rules, and the lists of neighbouring cells. */
module Modele {
  import opened Constante
  import opened Cellule
  import opened Geometrie

  class Plateau {
    var cases: array2<bv32>
    const lignes: int
    const colonnes: int

    ghost predicate Valid()
      reads this
    {
      lignes == PLATEAU_LIGNES && colonnes == PLATEAU_COLONNES &&
      cases.Length0 == lignes && cases.Length1 == colonnes
    }

    /** Every cell holds 0: no building and no occupant. */
    ghost predicate Vierge()
      reads this, cases
      requires Valid()
    {
      forall i, j :: 0 <= i < lignes && 0 <= j < colonnes ==> cases[i, j] == 0
    }

    /** This board and `o` hold the same value in every cell. */
    ghost predicate MemesCases(o: Plateau)
      reads this, cases, o, o.cases
      requires Valid() && o.Valid()
    {
      forall i, j :: 0 <= i < PLATEAU_LIGNES && 0 <= j < PLATEAU_COLONNES ==> cases[i, j] == o.cases[i, j]
    }

    /** Every cell other than `p` holds the value it held before. */
    twostate predicate SeuleCaseModifiee(p: Point)
      reads this, cases
    {
      cases == old(cases) &&
      forall i, j :: 0 <= i < cases.Length0 && 0 <= j < cases.Length1 && (i != p.x || j != p.y) ==>
        cases[i, j] == old(cases[i, j])
    }

    /** A new board: every cell empty and free. */
    constructor ()
      ensures Valid() && fresh(cases) && Vierge()
    {
      cases := new bv32[PLATEAU_LIGNES, PLATEAU_COLONNES]((i, j) => 0);
      lignes := PLATEAU_LIGNES;
      colonnes := PLATEAU_COLONNES;
    }

    /** A deep copy of `plateau`: a fresh grid holding the same cells. */
    constructor Copie(plateau: Plateau)
      requires plateau.Valid()
      ensures Valid() && fresh(cases) && MemesCases(plateau)
    {
      var l, c := plateau.lignes, plateau.colonnes;
      var t := new bv32[l, c];
      var i := 0;
      while i < l
        invariant 0 <= i <= l
        invariant forall i', j :: 0 <= i' < i && 0 <= j < c ==> t[i', j] == plateau.cases[i', j]
      {
        var j := 0;
        while j < c
          invariant 0 <= j <= c
          invariant forall i', j' :: 0 <= i' < i && 0 <= j' < c ==> t[i', j'] == plateau.cases[i', j']
          invariant forall j' :: 0 <= j' < j ==> t[i, j'] == plateau.cases[i, j']
        {
          t[i, j] := plateau.cases[i, j];
          j := j + 1;
        }
        i := i + 1;
      }
      lignes, colonnes := l, c;
      cases := t;
    }

    function Lignes(): (n: int)
      reads this
      requires Valid()
      ensures n == PLATEAU_LIGNES
    {
      lignes
    }

    function Colonnes(): (n: int)
      reads this
      requires Valid()
      ensures n == PLATEAU_COLONNES
    {
      colonnes
    }

    // Reading a cell

    /** The raw value of cell `p`: its occupant flag plus its level. */
    function Case(p: Point): (r: bv32)
      reads this, cases
      requires Valid() && Dans(p)
      ensures r == TypeBatisseurs(p) + TypeBatiments(p)
    {
      cases[p.x, p.y]
    }

    /** The building level of cell `p`, a value of the three low bits. */
    function TypeBatiments(p: Point): (r: bv32)
      reads this, cases
      requires Valid() && Dans(p)
      ensures r < 8
    {
      Niveau(cases[p.x, p.y])
    }

    /** The occupant flag of cell `p`: it shares no bit with the level. */
    function TypeBatisseurs(p: Point): (r: bv32)
      reads this, cases
      requires Valid() && Dans(p)
      ensures r & 7 == 0
    {
      Occupant(cases[p.x, p.y])
    }

    /** Cell `p` is empty (no building): its value modulo 8 is that level. */
    predicate EstVide(p: Point)
      reads this, cases
      requires Valid() && Dans(p)
      ensures EstVide(p) <==> Case(p) % 8 == VIDE
    {
      TypeBatiments(p) == VIDE
    }

    /** Cell `p` is a ground floor: its value modulo 8 is that level. */
    predicate EstRDC(p: Point)
      reads this, cases
      requires Valid() && Dans(p)
      ensures EstRDC(p) <==> Case(p) % 8 == RDC
    {
      TypeBatiments(p) == RDC
    }

    /** Cell `p` is a floor: its value modulo 8 is that level. */
    predicate EstEtage(p: Point)
      reads this, cases
      requires Valid() && Dans(p)
      ensures EstEtage(p) <==> Case(p) % 8 == ETAGE
    {
      TypeBatiments(p) == ETAGE
    }

    /** Cell `p` is a roof: its value modulo 8 is that level. */
    predicate EstToit(p: Point)
      reads this, cases
      requires Valid() && Dans(p)
      ensures EstToit(p) <==> Case(p) % 8 == TOIT
    {
      TypeBatiments(p) == TOIT
    }

    /** Cell `p` is a dome: its value modulo 8 is that level. */
    predicate EstCoupole(p: Point)
      reads this, cases
      requires Valid() && Dans(p)
      ensures EstCoupole(p) <==> Case(p) % 8 == COUPOLE
    {
      TypeBatiments(p) == COUPOLE
    }

    /** The occupant of `p` is player `numJoueur`. */
    predicate EstBatisseur(p: Point, numJoueur: bv32)
      reads this, cases
      requires Valid() && Dans(p)
      ensures EstBatisseur(p, numJoueur) <==> numJoueur & 7 == 0 && Case(p) == numJoueur + TypeBatiments(p)
    {
      TypeBatisseurs(p) == numJoueur
    }

    /** No builder stands on `p`. */
    predicate EstLibre(p: Point)
      reads this, cases
      requires Valid() && Dans(p)
      ensures EstLibre(p) <==> Case(p) < 8
    {
      TypeBatisseurs(p) == 0
    }

    /** A builder standing on `batisseur` may step onto `position`. */
    predicate DeplacementPossible(position: Point, batisseur: Point)
      reads this, cases
      requires Valid() && Dans(position) && Dans(batisseur)
      ensures DeplacementPossible(position, batisseur) <==>
        PeutConstruire(position, batisseur) &&
        TypeBatiments(position) as int <= TypeBatiments(batisseur) as int + 1
    {
      EstLibre(position) && Atteignable(position, batisseur) &&
      (TypeBatiments(position) as int) - (TypeBatiments(batisseur) as int) <= 1 &&
      !EstCoupole(position)
    }

    /** A builder standing on `batisseur` may build on `position`. */
    predicate PeutConstruire(position: Point, batisseur: Point)
      reads this, cases
      requires Valid() && Dans(position)
      ensures PeutConstruire(position, batisseur) <==> Atteignable(position, batisseur) && Case(position) < 8 && Case(position) != COUPOLE
    {
      Atteignable(position, batisseur) && !EstCoupole(position) && EstLibre(position)
    }

    // Properties of the rules

    /** A cell is at most one of empty, ground floor, floor, roof and dome, and
        it is one of them exactly when its level does not exceed a dome. */
    lemma NiveauxExclusifs(p: Point)
      requires Valid() && Dans(p)
      ensures (EstVide(p) || EstRDC(p) || EstEtage(p) || EstToit(p) || EstCoupole(p)) <==> TypeBatiments(p) <= COUPOLE
      ensures EstVide(p) ==> !EstRDC(p) && !EstEtage(p) && !EstToit(p) && !EstCoupole(p)
      ensures EstRDC(p) ==> !EstEtage(p) && !EstToit(p) && !EstCoupole(p)
      ensures EstEtage(p) ==> !EstToit(p) && !EstCoupole(p)
      ensures EstToit(p) ==> !EstCoupole(p)
    {
    }

    /** The movement rule in terms of the two cell fields: a free, non-dome
        cell around the builder, at most one level above the builder's cell. */
    lemma DeplacementPossibleCaracterise(position: Point, batisseur: Point)
      requires Valid() && Dans(position) && Dans(batisseur)
      ensures DeplacementPossible(position, batisseur) <==>
        position != batisseur &&
        -1 <= position.x - batisseur.x <= 1 && -1 <= position.y - batisseur.y <= 1 &&
        Occupant(Case(position)) == 0 &&
        Niveau(Case(position)) as int <= Niveau(Case(batisseur)) as int + 1 &&
        Niveau(Case(position)) != COUPOLE
    {
    }

    /** The construction rule in terms of the two cell fields: a free,
        non-dome cell around the builder. */
    lemma PeutConstruireCaracterise(position: Point, batisseur: Point)
      requires Valid() && Dans(position)
      ensures PeutConstruire(position, batisseur) <==>
        position != batisseur &&
        -1 <= position.x - batisseur.x <= 1 && -1 <= position.y - batisseur.y <= 1 &&
        Occupant(Case(position)) == 0 &&
        Niveau(Case(position)) != COUPOLE
    {
    }

    /** A builder never climbs more than one level in a move. */
    lemma MonteeLimitee(position: Point, batisseur: Point)
      requires Valid() && Dans(position) && Dans(batisseur)
      requires TypeBatiments(position) as int > TypeBatiments(batisseur) as int + 1
      ensures !DeplacementPossible(position, batisseur)
    {
    }

    /** A dome admits neither a builder nor a further construction. */
    lemma CoupoleTerminale(position: Point, batisseur: Point)
      requires Valid() && Dans(position) && Dans(batisseur)
      requires EstCoupole(position)
      ensures !DeplacementPossible(position, batisseur)
      ensures !PeutConstruire(position, batisseur)
    {
    }

    /** Every cell a builder can move to is also a cell it can build on. */
    lemma DeplacementImpliqueConstruction(position: Point, batisseur: Point)
      requires Valid() && Dans(position) && Dans(batisseur)
      requires DeplacementPossible(position, batisseur)
      ensures PeutConstruire(position, batisseur)
    {
    }

    // Changing cells

    /** `setCase`: overwrite cell `p`, leave every other cell alone. */
    method EcrireCase(p: Point, valeur: bv32)
      requires Valid() && Dans(p)
      modifies cases
      ensures Valid() && Case(p) == valeur && SeuleCaseModifiee(p)
    {
      cases[p.x, p.y] := valeur;
    }

    /** Sets the level of `p` to a ground floor, whatever it was, keeping its
        occupant. */
    method AjouterRDC(p: Point)
      requires Valid() && Dans(p)
      modifies cases
      ensures Valid() && SeuleCaseModifiee(p)
      ensures EstRDC(p) && TypeBatisseurs(p) == old(TypeBatisseurs(p))
    {
      EcrireCase(p, AvecNiveau(Case(p), RDC));
    }

    /** Sets the level of `p` to a floor, keeping its occupant. */
    method AjouterEtage(p: Point)
      requires Valid() && Dans(p)
      modifies cases
      ensures Valid() && SeuleCaseModifiee(p)
      ensures EstEtage(p) && TypeBatisseurs(p) == old(TypeBatisseurs(p))
    {
      EcrireCase(p, AvecNiveau(Case(p), ETAGE));
    }

    /** Sets the level of `p` to a roof, keeping its occupant. */
    method AjouterToit(p: Point)
      requires Valid() && Dans(p)
      modifies cases
      ensures Valid() && SeuleCaseModifiee(p)
      ensures EstToit(p) && TypeBatisseurs(p) == old(TypeBatisseurs(p))
    {
      EcrireCase(p, AvecNiveau(Case(p), TOIT));
    }

    /** Sets the level of `p` to a dome, keeping its occupant. */
    method AjouterCoupole(p: Point)
      requires Valid() && Dans(p)
      modifies cases
      ensures Valid() && SeuleCaseModifiee(p)
      ensures EstCoupole(p) && TypeBatisseurs(p) == old(TypeBatisseurs(p))
    {
      EcrireCase(p, AvecNiveau(Case(p), COUPOLE));
    }

    /** Adds one to the whole cell value. On a cell whose level field can
        still grow this is one level more with the same occupant; undone
        exactly by `DegraderBatiment`. */
    method AmeliorerBatiment(p: Point)
      requires Valid() && Dans(p)
      modifies cases
      ensures Valid() && SeuleCaseModifiee(p)
      ensures Case(p) == Ameliore(old(Case(p)))
      ensures old(TypeBatiments(p)) < 7 ==>
        TypeBatiments(p) == old(TypeBatiments(p)) + 1 && TypeBatisseurs(p) == old(TypeBatisseurs(p))
    {
      EcrireCase(p, Ameliore(Case(p)));
    }

    /** Subtracts one from the whole cell value; undoes `AmeliorerBatiment`. */
    method DegraderBatiment(p: Point)
      requires Valid() && Dans(p)
      modifies cases
      ensures Valid() && SeuleCaseModifiee(p)
      ensures Case(p) == Degrade(old(Case(p)))
      ensures old(TypeBatiments(p)) > 0 ==>
        TypeBatiments(p) == old(TypeBatiments(p)) - 1 && TypeBatisseurs(p) == old(TypeBatisseurs(p))
    {
      EcrireCase(p, Degrade(Case(p)));
    }

    /** Puts player `numJoueur` on `p`. For a player flag (three low bits
        clear) the occupant becomes that player and the level is kept. */
    method AjouterJoueur(p: Point, numJoueur: bv32)
      requires Valid() && Dans(p)
      modifies cases
      ensures Valid() && SeuleCaseModifiee(p)
      ensures Case(p) == AvecOccupant(old(Case(p)), numJoueur)
      ensures numJoueur & 7 == 0 ==>
        EstBatisseur(p, numJoueur) && TypeBatiments(p) == old(TypeBatiments(p))
    {
      EcrireCase(p, AvecOccupant(Case(p), numJoueur));
    }

    /** Removes whichever builder stands on `p`, keeping the level. */
    method EnleverJoueur(p: Point)
      requires Valid() && Dans(p)
      modifies cases
      ensures Valid() && SeuleCaseModifiee(p)
      ensures EstLibre(p) && TypeBatiments(p) == old(TypeBatiments(p))
    {
      EcrireCase(p, SansOccupant(Case(p)));
    }

    /** Adds `value` to the whole cell value (32-bit wrap-around). */
    method MAJEtage(p: Point, value: bv32)
      requires Valid() && Dans(p)
      modifies cases
      ensures Valid() && SeuleCaseModifiee(p)
      ensures Case(p) == old(Case(p)) + value
    {
      EcrireCase(p, Case(p) + value);
    }

    /** `setBatiments`: the cell becomes its occupant plus `valeur`; for a
        level `valeur` below 8 that is the occupant kept and the level set. */
    method FixerBatiments(p: Point, valeur: bv32)
      requires Valid() && Dans(p)
      modifies cases
      ensures Valid() && SeuleCaseModifiee(p)
      ensures Case(p) == old(TypeBatisseurs(p)) + valeur
      ensures valeur < 8 ==>
        TypeBatiments(p) == valeur && TypeBatisseurs(p) == old(TypeBatisseurs(p))
    {
      ghost var o := TypeBatisseurs(p);
      cases[p.x, p.y] := TypeBatisseurs(p) + valeur;
      if valeur < 8 {
        Decomposition(o, valeur);
      }
    }

    /** Resets the board: a fresh grid whose every cell is empty and free. */
    method RAZ()
      requires Valid()
      modifies this
      ensures Valid() && fresh(cases) && Vierge()
      ensures forall p :: Dans(p) ==> EstVide(p) && EstLibre(p)
    {
      cases := new bv32[PLATEAU_LIGNES, PLATEAU_COLONNES]((i, j) => 0);
    }
    // Neighbourhood lists

    /** `getCasesAccessibles`: the cells the builder on `batisseur` can move
        to, each once, in row-major order. */
    method CasesAccessibles(batisseur: Point) returns (r: seq<Point>)
      requires Valid() && Dans(batisseur)
      ensures forall q :: q in r <==> Dans(q) && DeplacementPossible(q, batisseur)
      ensures Croissante(r)
      ensures |r| <= 8
    {
      r := [];
      var l, c := batisseur.x, batisseur.y;
      var i := -1;
      while i < 2
        invariant -1 <= i <= 2
        invariant forall q :: q in r <==> Dans(q) && q.x < i + l && DeplacementPossible(q, batisseur)
        invariant Croissante(r)
      {
        if i + l < lignes && i + l >= 0 {
          var j := -1;
          while j < 2
            invariant -1 <= j <= 2
            invariant forall q :: q in r <==>
              Dans(q) && (q.x < i + l || (q.x == i + l && q.y < j + c)) && DeplacementPossible(q, batisseur)
            invariant Croissante(r)
          {
            var q := Point(i + l, j + c);
            if j + c < colonnes && j + c >= 0 && DeplacementPossible(q, batisseur) {
              r := r + [q];
            }
            j := j + 1;
          }
        }
        i := i + 1;
      }
      AuPlusHuit(batisseur, r);
    }

    /** `getConstructionsPossible`: the cells the builder on `batisseur` can
        build on, each once, in row-major order. The builder's own cell is
        never read, so `batisseur` may lie anywhere. */
    method ConstructionsPossibles(batisseur: Point) returns (r: seq<Point>)
      requires Valid()
      ensures forall q :: q in r <==> Dans(q) && PeutConstruire(q, batisseur)
      ensures Croissante(r)
      ensures |r| <= 8
    {
      r := [];
      var l, c := batisseur.x, batisseur.y;
      var i := -1;
      while i < 2
        invariant -1 <= i <= 2
        invariant forall q :: q in r <==> Dans(q) && q.x < i + l && PeutConstruire(q, batisseur)
        invariant Croissante(r)
      {
        if i + l < lignes && i + l >= 0 {
          var j := -1;
          while j < 2
            invariant -1 <= j <= 2
            invariant forall q :: q in r <==>
              Dans(q) && (q.x < i + l || (q.x == i + l && q.y < j + c)) && PeutConstruire(q, batisseur)
            invariant Croissante(r)
          {
            var q := Point(i + l, j + c);
            if j + c < colonnes && j + c >= 0 && PeutConstruire(q, batisseur) {
              r := r + [q];
            }
            j := j + 1;
          }
        }
        i := i + 1;
      }
      AuPlusHuit(batisseur, r);
    }

    /** `getCasesVoisines`: every grid cell around `batisseur`, each once, in
        row-major order, without the builder's own cell (collected with it,
        then removed). */
    method CasesVoisines(batisseur: Point) returns (r: seq<Point>)
      requires Valid()
      ensures forall q :: q in r <==> Dans(q) && Atteignable(q, batisseur)
      ensures Croissante(r)
      ensures |r| <= 8
    {
      var s := [];
      var l, c := batisseur.x, batisseur.y;
      var i := -1;
      while i < 2
        invariant -1 <= i <= 2
        invariant forall q :: q in s <==> Dans(q) && l - 1 <= q.x < i + l && c - 1 <= q.y <= c + 1
        invariant Croissante(s)
      {
        if i + l < lignes && i + l >= 0 {
          var j := -1;
          while j < 2
            invariant -1 <= j <= 2
            invariant forall q :: q in s <==>
              Dans(q) && c - 1 <= q.y <= c + 1 &&
              (l - 1 <= q.x < i + l || (q.x == i + l && q.y < j + c))
            invariant Croissante(s)
          {
            var q := Point(i + l, j + c);
            if j + c < colonnes && j + c >= 0 {
              s := s + [q];
            }
            j := j + 1;
          }
        }
        i := i + 1;
      }
      r := Retirer(s, batisseur);
      RetirerCroissante(s, batisseur);
      AuPlusHuit(batisseur, r);
    }

    // Comparing boards

    /** `equals`: true exactly when `o` is a board holding the same value in
        every cell. */
    method Egal(o: Plateau?) returns (r: bool)
      requires Valid()
      requires o != null ==> o.Valid()
      ensures r <==> o != null && MemesCases(o)
    {
      if o == null {
        return false;
      }
      var i := 0;
      while i < PLATEAU_LIGNES
        invariant 0 <= i <= PLATEAU_LIGNES
        invariant forall i', j :: 0 <= i' < i && 0 <= j < PLATEAU_COLONNES ==> cases[i', j] == o.cases[i', j]
      {
        var j := 0;
        while j < PLATEAU_COLONNES
          invariant 0 <= j <= PLATEAU_COLONNES
          invariant forall j' :: 0 <= j' < j ==> cases[i, j'] == o.cases[i, j']
        {
          var p := Point(i, j);
          if Case(p) != o.Case(p) {
            return false;
          }
          j := j + 1;
        }
        i := i + 1;
      }
      return true;
    }

    /** Cell-wise equality is symmetric, so a copy and its original compare
        equal in either direction. */
    lemma MemesCasesSymetrique(o: Plateau)
      requires Valid() && o.Valid()
      requires MemesCases(o)
      ensures o.MemesCases(this)
    {
    }
  }
}
