/** The regime categories and their billing ceilings (app.py:90-94), the margin and
    excess against the current ceiling (app.py:127-131) and the search for the
    category the accumulated billing falls into (app.py:238-253). */
module Categories {
  import opened Wrappers

  datatype Category = A | B | C | D | E | F | G | H | I | J | K

  /** The fixed ceiling of each category. */
  function Ceiling(c: Category): (limit: real)
    ensures 7813063.45 <= limit <= 82370281.28
  {
    match c
    case A => 7813063.45
    case B => 11447046.44
    case C => 16050091.57
    case D => 19926340.10
    case E => 23439190.34
    case F => 29374695.90
    case G => 35128502.31
    case H => 53298417.30
    case I => 59657887.55
    case J => 68318880.36
    case K => 82370281.28
  }

  /** The categories in the order of the table. */
  const Scale: seq<Category> := [A, B, C, D, E, F, G, H, I, J, K]

  /** Position of a category in the table. */
  function Rank(c: Category): (n: nat)
    ensures n < |Scale| && Scale[n] == c
  {
    match c
    case A => 0
    case B => 1
    case C => 2
    case D => 3
    case E => 4
    case F => 5
    case G => 6
    case H => 7
    case I => 8
    case J => 9
    case K => 10
  }

  /** The ceilings strictly increase along the table, so sorting the table by ceiling,
      as the search does before scanning, leaves its order unchanged. */
  lemma ScaleStrictlyIncreasing()
    ensures forall i, j :: 0 <= i < j < |Scale| ==> Ceiling(Scale[i]) < Ceiling(Scale[j])
  {
  }

  /** Comparing ceilings is comparing positions in the table. */
  lemma CeilingOrderIsRankOrder(c: Category, d: Category)
    ensures Ceiling(c) < Ceiling(d) <==> Rank(c) < Rank(d)
  {
    ScaleStrictlyIncreasing();
    if Rank(c) < Rank(d) {
      assert Ceiling(Scale[Rank(c)]) < Ceiling(Scale[Rank(d)]);
    } else if Rank(d) < Rank(c) {
      assert Ceiling(Scale[Rank(d)]) < Ceiling(Scale[Rank(c)]);
    }
  }

  /** Billing still available under the ceiling, and billing above it. */
  datatype Standing = Standing(margin: real, excess: real)

  /** max(0, ceiling - accumulated) and max(0, accumulated - ceiling). */
  function Evaluate(accumulated: real, current: Category): (s: Standing)
    ensures s.margin >= 0.0 && s.excess >= 0.0
    ensures s.margin == 0.0 || s.excess == 0.0
    ensures s.margin - s.excess == Ceiling(current) - accumulated
    ensures s.excess > 0.0 <==> accumulated > Ceiling(current)
    ensures s.margin > 0.0 <==> accumulated < Ceiling(current)
  {
    var limit := Ceiling(current);
    Standing(if limit - accumulated > 0.0 then limit - accumulated else 0.0,
             if accumulated - limit > 0.0 then accumulated - limit else 0.0)
  }

  /** Outcome of the excess check: no excess, the category the billing now falls into,
      or no category high enough. */
  datatype Recategorization = WithinCeiling | MovesTo(category: Category) | NoHigherCategory

  /** Only when the accumulated billing is above the current ceiling, scans the
      categories in ascending ceiling order and stops at the first whose ceiling is
      not below the billing. */
  method Recategorize(accumulated: real, current: Category) returns (result: Recategorization)
    ensures result.WithinCeiling? <==> accumulated <= Ceiling(current)
    ensures result.MovesTo? ==> accumulated <= Ceiling(result.category)
    ensures result.MovesTo? ==> forall c :: Rank(c) < Rank(result.category) ==> Ceiling(c) < accumulated
    ensures result.MovesTo? ==> forall c :: accumulated <= Ceiling(c) ==> Ceiling(result.category) <= Ceiling(c)
    ensures result.MovesTo? ==> Ceiling(current) < Ceiling(result.category)
    ensures result.NoHigherCategory? <==> forall c :: Ceiling(c) < accumulated
  {
    if accumulated <= Ceiling(current) {
      return WithinCeiling;
    }
    var fit: Option<Category> := None;
    for i := 0 to |Scale|
      invariant fit.None?
      invariant forall k :: 0 <= k < i ==> Ceiling(Scale[k]) < accumulated
    {
      if accumulated <= Ceiling(Scale[i]) {
        fit := Some(Scale[i]);
        break;
      }
    }
    if fit.None? {
      forall c ensures Ceiling(c) < accumulated {
        assert Scale[Rank(c)] == c;
      }
      return NoHigherCategory;
    }
    var cat := fit.value;
    forall c | Rank(c) < Rank(cat) ensures Ceiling(c) < accumulated {
      assert Scale[Rank(c)] == c;
    }
    forall c | accumulated <= Ceiling(c) ensures Ceiling(cat) <= Ceiling(c) {
      CeilingOrderIsRankOrder(c, cat);
    }
    result := MovesTo(cat);
  }
}
