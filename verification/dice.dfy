/**
 * Evaluated dice rolls as the rule set reads them: classifying a chat message as a
 * d20 test, recovering the modifier of its first roll, and the formula of the reroll.
 */
module Dice {
  import opened Wrappers
  import opened Decimal

  /**
   * A top-level term of an evaluated roll.
   * Die: a term that is an instance of the host's Die class; its total is absent until evaluated.
   * Compound: a term that is not itself a Die but holds dice (a dice pool, a parenthetical
   *   group or another dice class); it lists the face counts of the dice it holds.
   * Operator, Number: the arithmetic and numeric parts of a formula.
   */
  datatype Term =
    | Die(faces: int, total: Option<int>)
    | Compound(dieFaces: seq<int>)
    | Operator(symbol: char)
    | Number(value: int)

  /** An evaluated roll: its top-level terms, its total and the flavor text of its options. */
  datatype Roll = Roll(terms: seq<Term>, total: int, flavor: Option<string>)

  /** The face counts of every die of the roll, nested ones included: the host's `roll.dice`. */
  function DiceFaces(terms: seq<Term>): seq<int>
  {
    if terms == [] then []
    else
      var here := match terms[0]
        case Die(faces, _) => [faces]
        case Compound(faces) => faces
        case _ => [];
      here + DiceFaces(terms[1..])
  }

  /** Whether some die has twenty faces. */
  function AnyD20(faces: seq<int>): (r: bool)
    ensures r <==> 20 in faces
  {
    if faces == [] then false else faces[0] == 20 || AnyD20(faces[1..])
  }

  /**
   * A message is a d20 test when its first roll has dice and one of them has twenty
   * faces; rolls after the first are not looked at.
   */
  function IsD20TestMessage(rolls: seq<Roll>): (r: bool)
    ensures r <==> |rolls| > 0 && 20 in DiceFaces(rolls[0].terms)
  {
    if |rolls| == 0 then false
    else
      var dice := DiceFaces(rolls[0].terms);
      if |dice| == 0 then false else AnyD20(dice)
  }

  /** A top-level twenty-faced Die anywhere in the first roll makes the message a d20 test. */
  lemma {:induction false} D20DieMakesTest(rolls: seq<Roll>, i: nat)
    requires |rolls| > 0 && i < |rolls[0].terms|
    requires rolls[0].terms[i].Die? && rolls[0].terms[i].faces == 20
    ensures IsD20TestMessage(rolls)
  {
    D20DieInFaces(rolls[0].terms, i);
  }

  lemma {:induction false} D20DieInFaces(terms: seq<Term>, i: nat)
    requires i < |terms| && terms[i].Die? && terms[i].faces == 20
    ensures 20 in DiceFaces(terms)
  {
    if i > 0 {
      D20DieInFaces(terms[1..], i - 1);
    }
  }

  /** What one term adds to the d20 total: a twenty-faced Die's total, 0 when it has none. */
  function D20Contribution(t: Term): int
  {
    if t.Die? && t.faces == 20 then (match t.total case Some(v) => v case None => 0) else 0
  }

  /** The sum of the totals of the twenty-faced Die terms. */
  function D20Total(terms: seq<Term>): int
  {
    if terms == [] then 0 else D20Contribution(terms[0]) + D20Total(terms[1..])
  }

  lemma {:induction false} D20TotalAppend(s: seq<Term>, t: seq<Term>)
    ensures D20Total(s + t) == D20Total(s) + D20Total(t)
  {
    if s == [] {
      assert s + t == t;
    } else {
      D20TotalAppend(s[1..], t);
      assert (s + t)[1..] == s[1..] + t;
    }
  }

  /** The modifier the reroll must reproduce: the roll's total less its d20 total, or 0 when that is 0. */
  function Modifier(roll: Roll): int
  {
    var d20 := D20Total(roll.terms);
    if d20 == 0 then 0 else roll.total - d20
  }

  /** The loop of `computeModifierFromRoll`, accumulating the d20 total term by term. */
  method ComputeModifierFromRoll(roll: Roll) returns (m: int)
    ensures D20Total(roll.terms) == 0 ==> m == 0
    ensures D20Total(roll.terms) != 0 ==> m + D20Total(roll.terms) == roll.total
    ensures m == Modifier(roll)
  {
    var terms := roll.terms;
    var d20Total := 0;
    for i := 0 to |terms|
      invariant d20Total == D20Total(terms[..i])
    {
      var term := terms[i];
      if term.Die? && term.faces == 20 {
        d20Total := d20Total + match term.total case Some(v) => v case None => 0;
      }
      assert terms[..i + 1] == terms[..i] + [term];
      D20TotalAppend(terms[..i], [term]);
    }
    assert terms[..|terms|] == terms;
    if d20Total == 0 {
      return 0;
    }
    return roll.total - d20Total;
  }

  /** Terms other than twenty-faced Dice do not move the d20 total. */
  lemma {:induction false} NonD20TermsIgnored(terms: seq<Term>)
    requires forall i :: 0 <= i < |terms| ==> !(terms[i].Die? && terms[i].faces == 20)
    ensures D20Total(terms) == 0
  {
    if terms != [] {
      NonD20TermsIgnored(terms[1..]);
    }
  }

  /**
   * The classifier and the extractor read different views of a roll: a d20 held only
   * inside a compound term (a pool such as `{1d20, 1d20}kh + 5`) makes the message a
   * d20 test, yet the modifier comes out 0 and the reroll formula drops the bonus.
   */
  lemma NestedD20LosesModifier(kept: int, bonus: int)
    requires 1 <= kept <= 20 && bonus != 0
    ensures var roll := Roll([Compound([20, 20]), Operator('+'), Number(bonus)], kept + bonus, None);
      IsD20TestMessage([roll]) && Modifier(roll) == 0 && Modifier(roll) != roll.total - kept
  {
    var roll := Roll([Compound([20, 20]), Operator('+'), Number(bonus)], kept + bonus, None);
    assert DiceFaces(roll.terms[2..]) == [] by {
      assert roll.terms[2..][1..] == [];
    }
    assert DiceFaces(roll.terms[1..]) == [] by {
      assert roll.terms[1..][1..] == roll.terms[2..];
    }
    assert DiceFaces(roll.terms) == [20, 20];
    NonD20TermsIgnored(roll.terms);
  }

  /** The reroll formula: `1d20`, then the modifier with its sign unless it is 0. */
  function Formula(m: int): (f: string)
    ensures |f| >= 4 && f[..4] == "1d20"
    ensures |f| == 4 <==> m == 0
    ensures |f| > 4 ==> f[4] == (if m > 0 then '+' else '-')
  {
    if m == 0 then "1d20" else "1d20" + (if m >= 0 then "+" else "") + IntToString(m)
  }

  /** Reads a reroll formula back: `1d20`, optionally followed by a sign and decimal digits. */
  function ParseFormula(f: string): (r: Option<int>)
    ensures r.Some? ==> |f| >= 4 && f[..4] == "1d20"
  {
    if |f| < 4 || f[..4] != "1d20" then None
    else
      var rest := f[4..];
      if rest == [] then Some(0)
      else if rest[0] == '+' || rest[0] == '-' then
        match ParseNat(rest[1..])
        case None => None
        case Some(n) =>
          var m: int := if rest[0] == '+' then n as int else -(n as int);
          Some(m)
      else None
  }

  /** Parsing the formula back recovers the modifier. */
  lemma FormulaRoundTrip(m: int)
    ensures ParseFormula(Formula(m)) == Some(m)
  {
    var f := Formula(m);
    if m > 0 {
      ParseNatToString(m);
      assert f[4..][1..] == NatToString(m);
    } else if m < 0 {
      ParseNatToString(-m);
      assert f[4..][1..] == NatToString(-m);
    }
  }

  /** Different modifiers give different formulas. */
  lemma FormulaInjective(m: int, n: int)
    requires Formula(m) == Formula(n)
    ensures m == n
  {
    FormulaRoundTrip(m);
    FormulaRoundTrip(n);
  }

  /** The terms of `1d20`, `1d20+k` or `1d20-k` once its die has come up d20. */
  function RerollTerms(d20: int, m: int): seq<Term>
  {
    [Die(20, Some(d20))] + (if m == 0 then [] else [Operator(if m > 0 then '+' else '-'), Number(if m > 0 then m else -m)])
  }

  /**
   * Evaluating a reroll formula with the die's outcome given: the one source of
   * randomness is the parameter d20.
   */
  function EvaluateFormula(f: string, d20: int): Option<Roll>
  {
    match ParseFormula(f)
    case None => None
    case Some(m) => Some(Roll(RerollTerms(d20, m), d20 + m, None))
  }

  /**
   * The reroll of a modifier's formula is again a d20 test, carries the same modifier,
   * and totals between 1 + m and 20 + m.
   */
  lemma RerollPreservesModifier(m: int, d20: int)
    requires 1 <= d20 <= 20
    ensures EvaluateFormula(Formula(m), d20).Some?
    ensures var roll := EvaluateFormula(Formula(m), d20).value;
      IsD20TestMessage([roll]) && Modifier(roll) == m && roll.total == d20 + m &&
      1 + m <= roll.total <= 20 + m
  {
    FormulaRoundTrip(m);
    var roll := EvaluateFormula(Formula(m), d20).value;
    assert roll.terms == RerollTerms(d20, m);
    D20DieMakesTest([roll], 0);
    assert D20Total(roll.terms) == d20 by {
      NonD20TermsIgnored(roll.terms[1..]);
    }
  }

  /** A check that came up 12 for a total of 15 rerolls as `1d20+3`. */
  lemma ScenarioModifierThree()
    ensures var roll := Roll([Die(20, Some(12)), Operator('+'), Number(3)], 15, None);
      Modifier(roll) == 3 && Formula(Modifier(roll)) == "1d20+3"
  {
  }
}
