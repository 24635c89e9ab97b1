/**
  SQL three-valued boolean logic: the meaning every vectorized logical
  operator must reproduce, whatever optimisation flags its columns carry.
 */
module Logic {

  /** A SQL boolean: true, false, or unknown (NULL). */
  datatype Truth = False | True | Null

  /** SQL OR: true if either side is true, null if neither is true and one is null. */
  function Or(a: Truth, b: Truth): Truth {
    if a == True || b == True then True
    else if a == Null || b == Null then Null
    else False
  }

  /** SQL NOT: negates true and false, passes null through. */
  function Not(a: Truth): Truth {
    match a
    case True => False
    case False => True
    case Null => Null
  }

  /** Position of a truth value in the order False < Null < True. */
  function Rank(a: Truth): nat {
    match a
    case False => 0
    case Null => 1
    case True => 2
  }

  function Max(x: nat, y: nat): nat {
    if x < y then y else x
  }

  /** OR is the maximum in the order False < Null < True: an independent reading of the truth table. */
  lemma OrIsMaximum(a: Truth, b: Truth)
    ensures Rank(Or(a, b)) == Max(Rank(a), Rank(b))
  {
  }

  /** NOT mirrors that order, so it is an involution that fixes null. */
  lemma NotMirrorsRank(a: Truth)
    ensures Rank(Not(a)) == 2 - Rank(a)
    ensures Not(Not(a)) == a
  {
  }
}
