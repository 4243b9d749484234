/** The encoding of one board cell. A cell is a Java `int`, modelled by its
    32-bit pattern: the building level sits in the three low bits and the
    occupant (a player flag whose three low bits are clear) in the others.
    Bit-vector arithmetic wraps around exactly as Java's `int` does. */
module Cellule {
  import opened Constante

  /** The building level of a cell (`v & 7`): a three-bit field. */
  function Niveau(v: bv32): (n: bv32)
    ensures n < 8
  {
    v & 7
  }

  /** The occupant of a cell (`v & ~7`): the cell with its level bits cleared,
      so that level and occupant add up to the cell again. */
  function Occupant(v: bv32): (o: bv32)
    ensures o & 7 == 0
    ensures o + Niveau(v) == v
  {
    v & !7
  }

  /** A level and an occupant with disjoint bits determine the cell: the two
      fields can be read back from their sum. */
  lemma Decomposition(o: bv32, n: bv32)
    requires o & 7 == 0 && n < 8
    ensures Niveau(o + n) == n && Occupant(o + n) == o
  {
  }

  /** Two cells with the same level and the same occupant are equal. */
  lemma ChampsDeterminentCase(v: bv32, w: bv32)
    requires Niveau(v) == Niveau(w) && Occupant(v) == Occupant(w)
    ensures v == w
  {
  }

  /** `getTypeBatisseurs | k`: replace the level field by `k`, keep the occupant. */
  function AvecNiveau(v: bv32, k: bv32): (r: bv32)
    requires k < 8
    ensures Niveau(r) == k && Occupant(r) == Occupant(v)
  {
    Occupant(v) | k
  }

  /** `getTypeBatiments | n`: put occupant `n` on the level of `v`. When the
      flag `n` keeps the level bits clear, the level is untouched and the
      occupant becomes exactly `n`; otherwise the flag's low bits leak into
      the level. */
  function AvecOccupant(v: bv32, n: bv32): (r: bv32)
    ensures Occupant(r) == Occupant(n)
    ensures Niveau(r) == Niveau(v) | Niveau(n)
    ensures n & 7 == 0 ==> Occupant(r) == n && Niveau(r) == Niveau(v)
  {
    Niveau(v) | n
  }

  /** `getTypeBatiments`: the cell with its occupant removed. */
  function SansOccupant(v: bv32): (r: bv32)
    ensures Occupant(r) == 0 && Niveau(r) == Niveau(v)
  {
    Niveau(v)
  }

  /** `getCase + 1`: one level more, as long as the level field does not
      overflow into the occupant bits. */
  function Ameliore(v: bv32): (r: bv32)
    ensures Niveau(v) < 7 ==> Niveau(r) == Niveau(v) + 1 && Occupant(r) == Occupant(v)
  {
    var suivant := v + 1;
    assert Niveau(v) < 7 ==> Niveau(suivant) == Niveau(v) + 1 && Occupant(suivant) == Occupant(v) by {
      SuccesseurBits(v);
    }
    suivant
  }

  /** Adding one to a cell whose three low bits are not all set carries into
      none of the other bits. */
  lemma SuccesseurBits(v: bv32)
    ensures v & 7 < 7 ==> (v + 1) & 7 == (v & 7) + 1 && (v + 1) & !7 == v & !7
  {
  }

  /** `getCase - 1`: one level less, as long as the level is not already 0. */
  function Degrade(v: bv32): (r: bv32)
    ensures Niveau(v) > 0 ==> Niveau(r) == Niveau(v) - 1 && Occupant(r) == Occupant(v)
  {
    var precedent := v - 1;
    assert Niveau(v) > 0 ==> Niveau(precedent) == Niveau(v) - 1 && Occupant(precedent) == Occupant(v) by {
      PredecesseurBits(v);
    }
    precedent
  }

  /** Subtracting one from a cell whose three low bits are not all clear
      borrows from none of the other bits. */
  lemma PredecesseurBits(v: bv32)
    ensures v & 7 > 0 ==> (v - 1) & 7 == (v & 7) - 1 && (v - 1) & !7 == v & !7
  {
  }

  /** Upgrading then downgrading a cell (or the reverse) gives it back, for
      every 32-bit value, wrap-around included. */
  lemma AmeliorerPuisDegrader(v: bv32)
    ensures Degrade(Ameliore(v)) == v
    ensures Ameliore(Degrade(v)) == v
  {
  }

  /** On a free cell below a dome, upgrading raises the level by exactly one
      and leaves the cell free. */
  lemma AmeliorerCaseLibre(v: bv32)
    requires Occupant(v) == 0 && Niveau(v) < COUPOLE
    ensures Niveau(Ameliore(v)) == Niveau(v) + 1 && Occupant(Ameliore(v)) == 0
  {
  }
}
