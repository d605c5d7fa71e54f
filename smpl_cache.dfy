/**
 * The module-level body models of both evaluation scripts: built on the
 * first evaluation run, reused by every later one.
 */
module SmplCache {

  datatype Gender = Neutral | Male | Female

  /** A loaded body model; its parameters are not modelled. */
  class BodyModel {
    const gender: Gender

    constructor(gender: Gender)
      ensures this.gender == gender
    {
      this.gender := gender;
    }
  }

  /** The globals `g_smpl_neutral`, `g_smpl_male` and `g_smpl_female`. */
  class Cache {
    var neutral: BodyModel?
    var male: BodyModel?
    var female: BodyModel?
    /** How many times the models have been built. */
    ghost var loads: nat

    /** Either nothing is loaded yet, or all three models are, once, one per gender. */
    ghost predicate Valid()
      reads this, neutral, male, female
    {
      if neutral == null then loads == 0 && male == null && female == null
      else
        && loads == 1 && male != null && female != null
        && neutral.gender == Neutral && male.gender == Male && female.gender == Female
    }

    /** The state at import time: `g_smpl_* = None`. */
    constructor()
      ensures Valid() && neutral == null
    {
      neutral, male, female := null, null, null;
      loads := 0;
    }

    /**
     * The start of `run_evaluation`: builds the three models when the neutral
     * one is missing, and otherwise hands back the instances already built.
     */
    method Acquire() returns (n: BodyModel, m: BodyModel, f: BodyModel)
      requires Valid()
      modifies this
      ensures Valid()
      ensures n == neutral && m == male && f == female
      ensures n.gender == Neutral && m.gender == Male && f.gender == Female
      ensures old(neutral) == null ==> fresh(n) && fresh(m) && fresh(f)
      ensures old(neutral) != null ==> n == old(neutral) && m == old(male) && f == old(female)
      ensures loads == 1
    {
      if neutral == null {
        neutral := new BodyModel(Neutral);
        male := new BodyModel(Male);
        female := new BodyModel(Female);
        loads := loads + 1;
      }
      n, m, f := neutral, male, female;
    }
  }

  /** Two evaluation runs in one process share the same three models, built once. */
  method TwoRuns(c: Cache) returns (sameNeutral: bool, sameMale: bool, sameFemale: bool)
    requires c.Valid()
    modifies c
    ensures sameNeutral && sameMale && sameFemale
    ensures c.Valid() && c.loads == 1
  {
    var n1, m1, f1 := c.Acquire();
    var n2, m2, f2 := c.Acquire();
    sameNeutral, sameMale, sameFemale := n1 == n2, m1 == m2, f1 == f2;
  }
}
