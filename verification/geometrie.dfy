/** Positions on the grid (`java.awt.Point`: `x` is the row, `y` the column),
    the adjacency rule, the row-major order in which the board enumerates
    cells, and the removal of a point from a list (`ArrayList.remove`). */
module Geometrie {
  import opened Constante

  datatype Point = Point(x: int, y: int)

  function Abs(n: int): nat
  {
    if n < 0 then -n else n
  }

  /** The position lies on the grid. */
  predicate Dans(p: Point)
  {
    0 <= p.x < PLATEAU_LIGNES && 0 <= p.y < PLATEAU_COLONNES
  }

  /** `atteignable`: the position is one of the eight cells around the builder,
      that is, it differs from it by at most one row and one column and is not
      the builder's own cell. */
  predicate Atteignable(position: Point, batisseur: Point): (r: bool)
    ensures r <==> position != batisseur
                   && -1 <= position.x - batisseur.x <= 1
                   && -1 <= position.y - batisseur.y <= 1
  {
    var a := Abs(position.x - batisseur.x);
    var b := Abs(position.y - batisseur.y);
    a + b > 0 && a < 2 && b < 2
  }

  /** Adjacency is irreflexive and symmetric. */
  lemma AtteignableSymetrique(p: Point, q: Point)
    ensures !Atteignable(p, p)
    ensures Atteignable(p, q) <==> Atteignable(q, p)
  {
  }

  /** Row-major order: `p` comes strictly before `q`. */
  predicate Avant(p: Point, q: Point)
  {
    p.x < q.x || (p.x == q.x && p.y < q.y)
  }

  /** The points are listed in strictly increasing row-major order, hence each
      at most once. */
  predicate Croissante(s: seq<Point>)
  {
    forall a, c :: 0 <= a < c < |s| ==> Avant(s[a], s[c])
  }

  /** A strictly increasing list holds no point twice. */
  lemma CroissanteSansDoublon(s: seq<Point>, a: int, c: int)
    requires Croissante(s) && 0 <= a < c < |s|
    ensures s[a] != s[c]
  {
  }

  /** The index of the first occurrence of `x` in `s`. */
  function PremierIndice(s: seq<Point>, x: Point): (k: nat)
    requires x in s
    ensures k < |s| && s[k] == x && x !in s[..k]
  {
    if s[0] == x then 0
    else
      var k' := PremierIndice(s[1..], x);
      assert s[..k' + 1] == [s[0]] + s[1..][..k'];
      k' + 1
  }

  /** `ArrayList.remove(Object)`: drop the first occurrence of `x`, keeping
      the other elements in their order; a list without `x` is unchanged. */
  function Retirer(s: seq<Point>, x: Point): (r: seq<Point>)
    ensures x in s ==> r == s[..PremierIndice(s, x)] + s[PremierIndice(s, x) + 1..]
    ensures x !in s ==> r == s
  {
    if s == [] then []
    else if s[0] == x then s[1..]
    else
      var r' := Retirer(s[1..], x);
      assert x in s ==> [s[0]] + r' == s[..PremierIndice(s, x)] + s[PremierIndice(s, x) + 1..] by {
        if x in s {
          var k' := PremierIndice(s[1..], x);
          assert s[..k' + 1] == [s[0]] + s[1..][..k'];
          assert s[k' + 2..] == s[1..][k' + 1..];
        }
      }
      [s[0]] + r'
  }

  /** Element `i` of the list with `x` removed is element `i` of the
      original before the removed index, element `i + 1` from it on. */
  lemma RetirerIndice(s: seq<Point>, x: Point, i: int)
    requires x in s && 0 <= i < |Retirer(s, x)|
    ensures |Retirer(s, x)| == |s| - 1
    ensures Retirer(s, x)[i] == s[if i < PremierIndice(s, x) then i else i + 1]
  {
  }

  /** Removing a point from a row-major list keeps it in row-major order. */
  lemma RetirerOrdre(s: seq<Point>, x: Point)
    requires Croissante(s)
    ensures Croissante(Retirer(s, x))
  {
    if x in s {
      var r := Retirer(s, x);
      forall a, c | 0 <= a < c < |r| ensures Avant(r[a], r[c]) {
        RetirerIndice(s, x, a);
        RetirerIndice(s, x, c);
      }
    }
  }

  /** Removing `x` keeps every other point of the list. */
  lemma RetirerGarde(s: seq<Point>, x: Point, q: Point)
    requires q in s && q != x
    ensures q in Retirer(s, x)
  {
    if x in s {
      var k := PremierIndice(s, x);
      var i :| 0 <= i < |s| && s[i] == q;
      var j := if i < k then i else i - 1;
      RetirerIndice(s, x, j);
    }
  }

  /** Removing a point from a row-major list, which holds it at most once,
      leaves no copy of it, and adds nothing. */
  lemma RetirerEnleve(s: seq<Point>, x: Point, q: Point)
    requires Croissante(s)
    requires q in Retirer(s, x)
    ensures q in s && q != x
  {
    if x in s {
      var k := PremierIndice(s, x);
      var r := Retirer(s, x);
      var i :| 0 <= i < |r| && r[i] == q;
      RetirerIndice(s, x, i);
      if i >= k {
        assert Avant(s[k], s[i + 1]);
      }
    }
  }

  /** On a row-major list, where `x` occurs at most once, removing `x` keeps
      exactly the other points, still in row-major order. */
  lemma RetirerCroissante(s: seq<Point>, x: Point)
    requires Croissante(s)
    ensures Croissante(Retirer(s, x))
    ensures forall q :: q in Retirer(s, x) <==> q in s && q != x
  {
    RetirerOrdre(s, x);
    forall q ensures q in Retirer(s, x) <==> q in s && q != x {
      if q in Retirer(s, x) {
        RetirerEnleve(s, x, q);
      }
      if q in s && q != x {
        RetirerGarde(s, x, q);
      }
    }
  }

  /** Position of `q` in the 3x3 block centred on `b`, counted row by row. */
  function Rang(b: Point, q: Point): int
  {
    3 * (q.x - b.x + 1) + (q.y - b.y + 1)
  }

  predicate StrictementCroissante(t: seq<int>)
  {
    forall a, c :: 0 <= a < c < |t| ==> t[a] < t[c]
  }

  /** A strictly increasing list of integers drawn from `[lo, hi)` has at most
      `hi - lo` elements. */
  lemma {:induction false} BorneIntervalle(t: seq<int>, lo: int, hi: int)
    requires lo <= hi
    requires StrictementCroissante(t)
    requires forall k :: 0 <= k < |t| ==> lo <= t[k] < hi
    ensures |t| <= hi - lo
  {
    if t != [] {
      BorneIntervalle(t[1..], t[0] + 1, hi);
    }
  }

  /** The same, when one value `h` of the interval is never taken. */
  lemma {:induction false} BorneIntervalleTrou(t: seq<int>, lo: int, hi: int, h: int)
    requires lo <= h < hi
    requires StrictementCroissante(t)
    requires forall k :: 0 <= k < |t| ==> lo <= t[k] < hi && t[k] != h
    ensures |t| <= hi - lo - 1
  {
    if t != [] {
      if t[0] < h {
        BorneIntervalleTrou(t[1..], t[0] + 1, hi, h);
      } else {
        BorneIntervalle(t, h + 1, hi);
      }
    }
  }

  /** A row-major list of cells all adjacent to `b` has at most eight
      elements. */
  lemma AuPlusHuit(b: Point, s: seq<Point>)
    requires Croissante(s)
    requires forall q :: q in s ==> Atteignable(q, b)
    ensures |s| <= 8
  {
    var t := seq(|s|, k requires 0 <= k < |s| => Rang(b, s[k]));
    forall k | 0 <= k < |s|
      ensures 0 <= t[k] < 9 && t[k] != 4
    {
      assert s[k] in s;
    }
    assert StrictementCroissante(t) by {
      forall a, c | 0 <= a < c < |t|
        ensures t[a] < t[c]
      {
        assert s[a] in s && s[c] in s;
        assert Avant(s[a], s[c]);
      }
    }
    BorneIntervalleTrou(t, 0, 9, 4);
  }
}
