/** The constants of the game that the board relies on. Their declaring class
    (Utile.Constante) is not part of this model: the values below are the
    assumptions the model makes about it. */
module Constante {
  /** Building levels, stored in the three low bits of a cell. */
  const VIDE: bv32 := 0
  const RDC: bv32 := 1
  const ETAGE: bv32 := 2
  const TOIT: bv32 := 3
  const COUPOLE: bv32 := 4

  /** Board dimensions. */
  const PLATEAU_LIGNES: int := 5
  const PLATEAU_COLONNES: int := 5
}
