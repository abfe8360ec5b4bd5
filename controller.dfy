/**
  The dynamic-difficulty controller of the current revision
  (code/hooks/fuzzy_controller.py): three inputs (health 0-100, deaths 0-10,
  completion time 0-600 s), two multipliers (enemy damage and enemy health)
  sampled on 0.4, 0.41, ..., 1.6, fifteen rules, and the entry point that
  saturates its inputs and falls back to the neutral multiplier 1.0.
*/
module Controller {
  import opened Wrappers
  import opened Fuzzy
  import opened Simulation

  // ---------------------------------------------------------------------------
  // Linguistic variables
  // ---------------------------------------------------------------------------

  const HealthCritical := Term(Critical, Tri(0.0, 25.0, 60.0))
  const HealthModerate := Term(Moderate, Tri(30.0, 60.0, 85.0))
  const HealthOptimal := Term(Optimal, Tri(60.0, 85.0, 100.0))

  const DeathsFew := Term(Few, Tri(0.0, 1.0, 5.0))
  const DeathsModerate := Term(Moderate, Tri(1.0, 5.0, 8.0))
  const DeathsMany := Term(Many, Tri(5.0, 10.0, 10.0))

  const TimeFast := Term(Fast, Tri(0.0, 90.0, 240.0))
  const TimeMedium := Term(Medium, Tri(150.0, 300.0, 450.0))
  const TimeSlow := Term(Slow, Tri(300.0, 480.0, 600.0))

  const DamageDecrease := Term(Decrease, Tri(0.4, 0.6, 0.85))
  const DamageSlightDecrease := Term(SlightDecrease, Tri(0.75, 0.85, 0.97))
  const DamageKeepSame := Term(KeepSame, Tri(0.92, 1.0, 1.08))
  const DamageSlightIncrease := Term(SlightIncrease, Tri(1.03, 1.15, 1.25))
  const DamageIncrease := Term(Increase, Tri(1.15, 1.35, 1.6))

  const EnemyHealthDecrease := Term(Decrease, Tri(0.4, 0.65, 0.9))
  const EnemyHealthSlightDecrease := Term(SlightDecrease, Tri(0.75, 0.85, 0.97))
  const EnemyHealthKeepSame := Term(KeepSame, Tri(0.92, 1.0, 1.08))
  const EnemyHealthSlightIncrease := Term(SlightIncrease, Tri(1.03, 1.15, 1.25))
  const EnemyHealthIncrease := Term(Increase, Tri(1.15, 1.35, 1.6))

  /** np.arange(0.4, 1.61, 0.01): 121 points from 0.4 to 1.6. */
  const Multipliers := Grid(0.4, 0.01, 121)

  const HealthInput := InputVariable(0.0, 100.0, [HealthCritical, HealthModerate, HealthOptimal])
  const DeathsInput := InputVariable(0.0, 10.0, [DeathsFew, DeathsModerate, DeathsMany])
  const TimeInput := InputVariable(0.0, 600.0, [TimeFast, TimeMedium, TimeSlow])

  const DamageOutput := OutputVariable(Multipliers,
    [DamageDecrease, DamageSlightDecrease, DamageKeepSame, DamageSlightIncrease, DamageIncrease])
  const EnemyHealthOutput := OutputVariable(Multipliers,
    [EnemyHealthDecrease, EnemyHealthSlightDecrease, EnemyHealthKeepSame, EnemyHealthSlightIncrease, EnemyHealthIncrease])

  // ---------------------------------------------------------------------------
  // Rules
  // ---------------------------------------------------------------------------

  function HealthIs(t: Term): Condition { Is(Clause(Health, t)) }
  function DeathsAre(t: Term): Condition { Is(Clause(Deaths, t)) }
  function TimeIs(t: Term): Condition { Is(Clause(CompletionTime, t)) }
  function EnemyDamageIs(t: Term): Conclusion { Conclusion(EnemyDamage, t) }
  function EnemyHealthIs(t: Term): Conclusion { Conclusion(EnemyHealth, t) }

  const Rule1 := Rule(And(HealthIs(HealthCritical), DeathsAre(DeathsMany)),
    [EnemyDamageIs(DamageDecrease), EnemyHealthIs(EnemyHealthDecrease)])
  const Rule2 := Rule(And(HealthIs(HealthOptimal), DeathsAre(DeathsFew)),
    [EnemyDamageIs(DamageIncrease), EnemyHealthIs(EnemyHealthIncrease)])
  const Rule3 := Rule(And(TimeIs(TimeFast), HealthIs(HealthOptimal)),
    [EnemyDamageIs(DamageSlightIncrease), EnemyHealthIs(EnemyHealthIncrease)])
  const Rule4 := Rule(And(DeathsAre(DeathsModerate), HealthIs(HealthModerate)),
    [EnemyDamageIs(DamageSlightDecrease), EnemyHealthIs(EnemyHealthKeepSame)])
  const Rule5 := Rule(And(HealthIs(HealthCritical), TimeIs(TimeSlow)),
    [EnemyDamageIs(DamageDecrease), EnemyHealthIs(EnemyHealthSlightDecrease)])
  const Rule6 := Rule(And(DeathsAre(DeathsMany), TimeIs(TimeSlow)),
    [EnemyDamageIs(DamageDecrease), EnemyHealthIs(EnemyHealthDecrease)])
  const Rule7 := Rule(And(DeathsAre(DeathsFew), TimeIs(TimeFast)),
    [EnemyDamageIs(DamageIncrease), EnemyHealthIs(EnemyHealthSlightIncrease)])
  const Rule8 := Rule(And(HealthIs(HealthModerate), DeathsAre(DeathsMany)),
    [EnemyDamageIs(DamageDecrease), EnemyHealthIs(EnemyHealthSlightDecrease)])
  const Rule9 := Rule(And(HealthIs(HealthModerate), DeathsAre(DeathsFew)),
    [EnemyDamageIs(DamageSlightIncrease), EnemyHealthIs(EnemyHealthSlightIncrease)])
  const Rule10 := Rule(And(And(HealthIs(HealthOptimal), DeathsAre(DeathsMany)), TimeIs(TimeSlow)),
    [EnemyDamageIs(DamageDecrease), EnemyHealthIs(EnemyHealthKeepSame)])
  const Rule11 := Rule(And(And(HealthIs(HealthCritical), DeathsAre(DeathsFew)), TimeIs(TimeFast)),
    [EnemyDamageIs(DamageSlightDecrease), EnemyHealthIs(EnemyHealthKeepSame)])
  const Rule12 := Rule(And(And(HealthIs(HealthModerate), DeathsAre(DeathsModerate)), TimeIs(TimeMedium)),
    [EnemyDamageIs(DamageKeepSame), EnemyHealthIs(EnemyHealthKeepSame)])
  const Rule13 := Rule(And(HealthIs(HealthOptimal), TimeIs(TimeMedium)),
    [EnemyDamageIs(DamageSlightIncrease), EnemyHealthIs(EnemyHealthSlightIncrease)])
  const Rule14 := Rule(And(DeathsAre(DeathsFew), TimeIs(TimeSlow)),
    [EnemyDamageIs(DamageKeepSame), EnemyHealthIs(EnemyHealthSlightDecrease)])
  const Rule15 := Rule(And(HealthIs(HealthCritical), TimeIs(TimeMedium)),
    [EnemyDamageIs(DamageDecrease), EnemyHealthIs(EnemyHealthKeepSame)])

  const Rules := [Rule1, Rule2, Rule3, Rule4, Rule5, Rule6, Rule7, Rule8,
                  Rule9, Rule10, Rule11, Rule12, Rule13, Rule14, Rule15]

  const System := ControlSystem(HealthInput, DeathsInput, TimeInput, DamageOutput, EnemyHealthOutput, Rules)

  // ---------------------------------------------------------------------------
  // Facts about the tables
  // ---------------------------------------------------------------------------

  /** Each rule names exactly one set of each output, damage first. */
  predicate NamesBothOutputs(r: Rule)
  {
    |r.consequent| == 2 && r.consequent[0].o == EnemyDamage && r.consequent[1].o == EnemyHealth
  }

  lemma SystemWellFormed()
    ensures WellFormed(System)
    ensures PeaksOnGrid(System.enemyDamage) && PeaksOnGrid(System.enemyHealth)
  {
    RulesDeclared();
    PeaksOnMultiplierGrid();
  }

  lemma TermsListed()
    ensures In(System, Health).terms == [HealthCritical, HealthModerate, HealthOptimal]
    ensures In(System, Deaths).terms == [DeathsFew, DeathsModerate, DeathsMany]
    ensures In(System, CompletionTime).terms == [TimeFast, TimeMedium, TimeSlow]
    ensures Out(System, EnemyDamage).terms == DamageOutput.terms
    ensures Out(System, EnemyHealth).terms == EnemyHealthOutput.terms
  {
  }

  lemma RulesDeclared()
    ensures forall r :: r in Rules ==> ClausesDeclared(System, r.antecedent) && ConclusionsDeclared(System, r)
  {
    forall r | r in Rules ensures ClausesDeclared(System, r.antecedent) && ConclusionsDeclared(System, r) {
      RuleDeclared(r);
    }
  }

  /** One rule at a time: splitting on the rule keeps each case small. */
  lemma RuleDeclared(r: Rule)
    requires r in Rules
    ensures ClausesDeclared(System, r.antecedent) && ConclusionsDeclared(System, r)
  {
    TermsListed();
    if r == Rule1 {
    } else if r == Rule2 {
    } else if r == Rule3 {
    } else if r == Rule4 {
    } else if r == Rule5 {
    } else if r == Rule6 {
    } else if r == Rule7 {
    } else if r == Rule8 {
    } else if r == Rule9 {
    } else if r == Rule10 {
    } else if r == Rule11 {
    } else if r == Rule12 {
    } else if r == Rule13 {
    } else if r == Rule14 {
    } else if r == Rule15 {
    }
  }

  lemma PeaksOnMultiplierGrid()
    ensures PeaksOnGrid(DamageOutput) && PeaksOnGrid(EnemyHealthOutput)
  {
    assert Point(Multipliers, 20) == 0.6;
    assert Point(Multipliers, 25) == 0.65;
    assert Point(Multipliers, 45) == 0.85;
    assert Point(Multipliers, 60) == 1.0;
    assert Point(Multipliers, 75) == 1.15;
    assert Point(Multipliers, 95) == 1.35;
  }

  /** The input sets and the output sets all have ordered breakpoints. */
  lemma SetsOrdered()
    ensures forall t :: t in HealthInput.terms + DeathsInput.terms + TimeInput.terms ==> Ordered(t.mf)
    ensures forall t :: t in DamageOutput.terms + EnemyHealthOutput.terms ==> Ordered(t.mf)
  {
  }

  /** Every rule of the table names one set of each output. */
  lemma AllRulesNameBothOutputs()
    ensures forall r :: r in System.rules ==> Concludes(r, EnemyDamage) && Concludes(r, EnemyHealth)
  {
    forall r | r in Rules ensures Concludes(r, EnemyDamage) && Concludes(r, EnemyHealth) {
      assert NamesBothOutputs(r);
      assert r.consequent[0] in r.consequent && r.consequent[1] in r.consequent;
    }
  }

  /** The table is uniform: well formed, and every rule names both outputs. */
  lemma SystemUniform()
    ensures Uniform(System)
  {
    SystemWellFormed();
    AllRulesNameBothOutputs();
  }

  // ---------------------------------------------------------------------------
  // The entry point
  // ---------------------------------------------------------------------------

  /**
    The three inputs after np.clip into [0, 100], [0, 10] and [0, 600]: each
    lies in its range, is kept when it already did, and becomes the nearer
    bound when it did not. These are the input universes, so the library's
    own saturation changes nothing further.
  */
  function ClippedReading(playerHealth: real, playerDeaths: real, levelTimeSec: real): (inp: Reading)
    ensures 0.0 <= inp.health <= 100.0 && 0.0 <= inp.deaths <= 10.0 && 0.0 <= inp.completionTime <= 600.0
    ensures 0.0 <= playerHealth <= 100.0 ==> inp.health == playerHealth
    ensures 0.0 <= playerDeaths <= 10.0 ==> inp.deaths == playerDeaths
    ensures 0.0 <= levelTimeSec <= 600.0 ==> inp.completionTime == levelTimeSec
    ensures playerHealth < 0.0 ==> inp.health == 0.0
    ensures playerHealth > 100.0 ==> inp.health == 100.0
    ensures playerDeaths < 0.0 ==> inp.deaths == 0.0
    ensures playerDeaths > 10.0 ==> inp.deaths == 10.0
    ensures levelTimeSec < 0.0 ==> inp.completionTime == 0.0
    ensures levelTimeSec > 600.0 ==> inp.completionTime == 600.0
    ensures Bounded(System, inp) == inp
  {
    Reading(Clip(playerHealth, 0.0, 100.0), Clip(playerDeaths, 0.0, 10.0), Clip(levelTimeSec, 0.0, 600.0))
  }

  /**
    What the wrapper makes of one run: any failure gives (1.0, 1.0); otherwise
    each output is read with 1.0 as default and, independently of the other,
    replaced by 1.0 when it is not finite.
  */
  function Fallback(outcome: Result<map<OutputVar, Crisp>, Error>): (pair: (real, real))
    ensures outcome.Failure? ==> pair == (1.0, 1.0)
    ensures outcome.Success? && EnemyDamage in outcome.value && outcome.value[EnemyDamage].Finite? ==>
      pair.0 == outcome.value[EnemyDamage].value
    ensures outcome.Success? && !(EnemyDamage in outcome.value && outcome.value[EnemyDamage].Finite?) ==>
      pair.0 == 1.0
    ensures outcome.Success? && EnemyHealth in outcome.value && outcome.value[EnemyHealth].Finite? ==>
      pair.1 == outcome.value[EnemyHealth].value
    ensures outcome.Success? && !(EnemyHealth in outcome.value && outcome.value[EnemyHealth].Finite?) ==>
      pair.1 == 1.0
  {
    match outcome
    case Failure(_) => (1.0, 1.0)
    case Success(output) =>
      var damage := if EnemyDamage in output then output[EnemyDamage] else Finite(1.0);
      var health := if EnemyHealth in output then output[EnemyHealth] else Finite(1.0);
      (if damage.Finite? then damage.value else 1.0, if health.Finite? then health.value else 1.0)
  }

  /**
    check_DDA_adjust_difficulty as a value: the (damage, health) multipliers
    always lie in [0.4, 1.6]; they are the two centroids when some rule fires
    on the saturated inputs, and (1.0, 1.0) when none does.
  */
  function AdjustDifficulty(playerHealth: real, playerDeaths: real, levelTimeSec: real): (pair: (real, real))
    ensures 0.4 <= pair.0 <= 1.6 && 0.4 <= pair.1 <= 1.6
    ensures var inp := ClippedReading(playerHealth, playerDeaths, levelTimeSec);
      AnyFires(System, inp) ==>
        && Defuzzify(System, EnemyDamage, inp).Success? && Defuzzify(System, EnemyHealth, inp).Success?
        && pair == (Defuzzify(System, EnemyDamage, inp).value, Defuzzify(System, EnemyHealth, inp).value)
    ensures !AnyFires(System, ClippedReading(playerHealth, playerDeaths, levelTimeSec)) ==> pair == (1.0, 1.0)
  {
    var inp := ClippedReading(playerHealth, playerDeaths, levelTimeSec);
    OutcomeWhenSilent(inp);
    OutcomeWhenFiring(inp);
    OutcomeInRange(inp);
    Fallback(Simulate(System, Inputs(inp)))
  }

  lemma OutcomeWhenSilent(inp: Reading)
    ensures !AnyFires(System, inp) ==> Fallback(Simulate(System, Inputs(inp))) == (1.0, 1.0)
  {
    SystemUniform();
    FallbackOutcome(System, inp);
  }

  lemma OutcomeWhenFiring(inp: Reading)
    ensures AnyFires(System, inp) ==>
      && Defuzzify(System, EnemyDamage, inp).Success? && Defuzzify(System, EnemyHealth, inp).Success?
      && Fallback(Simulate(System, Inputs(inp))) == (Defuzzify(System, EnemyDamage, inp).value, Defuzzify(System, EnemyHealth, inp).value)
  {
    SystemUniform();
    FallbackOutcome(System, inp);
  }

  lemma OutcomeInRange(inp: Reading)
    ensures var pair := Fallback(Simulate(System, Inputs(inp)));
      0.4 <= pair.0 <= 1.6 && 0.4 <= pair.1 <= 1.6
  {
    OutcomeWhenSilent(inp);
    OutcomeWhenFiring(inp);
    MultiplierInRange(EnemyDamage, inp);
    MultiplierInRange(EnemyHealth, inp);
  }

  /** The wrapper's result over a run of a uniform system on a complete dictionary. */
  lemma FallbackOutcome(sys: ControlSystem, inp: Reading)
    requires Uniform(sys)
    ensures AnyFires(sys, inp) ==>
      && Defuzzify(sys, EnemyDamage, inp).Success? && Defuzzify(sys, EnemyHealth, inp).Success?
      && Fallback(Simulate(sys, Inputs(inp))) == (Defuzzify(sys, EnemyDamage, inp).value, Defuzzify(sys, EnemyHealth, inp).value)
    ensures !AnyFires(sys, inp) ==> Fallback(Simulate(sys, Inputs(inp))) == (1.0, 1.0)
  {
    UniformRun(sys, inp);
  }

  /** A defined multiplier lies in the output universe [0.4, 1.6]. */
  lemma MultiplierInRange(o: OutputVar, inp: Reading)
    ensures Defuzzify(System, o, inp).Success? ==> 0.4 <= Defuzzify(System, o, inp).value <= 1.6
  {
    assert Top(Multipliers) == 1.6;
  }

  /**
    The imperative wrapper over the module-level simulation: writes the
    saturated inputs, runs compute(), and applies the fallbacks.
  */
  method CheckDdaAdjustDifficulty(sim: ControlSystemSimulation, playerHealth: real, playerDeaths: real, levelTimeSec: real)
    returns (damageOutput: real, healthOutput: real)
    requires sim.system == System
    modifies sim
    ensures sim.input == Inputs(ClippedReading(playerHealth, playerDeaths, levelTimeSec))
    ensures var run := Simulate(System, sim.input);
      && (run.Success? ==> sim.output == run.value)
      && (run.Failure? ==> sim.output == old(sim.output))
    ensures (damageOutput, healthOutput) == AdjustDifficulty(playerHealth, playerDeaths, levelTimeSec)
  {
    sim.SetInput(Health, Clip(playerHealth, 0.0, 100.0));
    sim.SetInput(Deaths, Clip(playerDeaths, 0.0, 10.0));
    sim.SetInput(CompletionTime, Clip(levelTimeSec, 0.0, 600.0));
    assert sim.input.Keys == {Health, Deaths, CompletionTime} by {
      forall k: InputVar ensures k in sim.input <==> k in {Health, Deaths, CompletionTime} {
        assert k.Health? || k.Deaths? || k.CompletionTime?;
      }
    }
    assert sim.input == Inputs(ClippedReading(playerHealth, playerDeaths, levelTimeSec));

    var failure := sim.Compute();
    if failure.Some? {
      return 1.0, 1.0;
    }

    var damage := if EnemyDamage in sim.output then sim.output[EnemyDamage] else Finite(1.0);
    var health := if EnemyHealth in sim.output then sim.output[EnemyHealth] else Finite(1.0);
    damageOutput := if damage.Finite? then damage.value else 1.0;
    healthOutput := if health.Finite? then health.value else 1.0;
  }

  /** An out-of-range input gives the same multipliers as its saturated value. */
  lemma ClippingIsInvisible(playerHealth: real, playerDeaths: real, levelTimeSec: real)
    ensures var inp := ClippedReading(playerHealth, playerDeaths, levelTimeSec);
      AdjustDifficulty(playerHealth, playerDeaths, levelTimeSec) == AdjustDifficulty(inp.health, inp.deaths, inp.completionTime)
  {
    var inp := ClippedReading(playerHealth, playerDeaths, levelTimeSec);
    assert ClippedReading(inp.health, inp.deaths, inp.completionTime) == inp;
  }

  // ---------------------------------------------------------------------------
  // Consequences of the breakpoints
  // ---------------------------------------------------------------------------

  /** Health 100 lies outside every health set: the optimal set ends at 100. */
  lemma FullHealthOutsideEverySet(inp: Reading)
    requires inp.health == 100.0
    ensures Silent(System, Health, inp)
  {
    TermsListed();
  }

  /** Health 0 lies outside every health set: the critical set starts at 0. */
  lemma ZeroHealthOutsideEverySet(inp: Reading)
    requires inp.health == 0.0
    ensures Silent(System, Health, inp)
  {
    TermsListed();
  }

  /** Zero deaths lies outside every deaths set: the few set starts at 0. */
  lemma NoDeathsOutsideEverySet(inp: Reading)
    requires inp.deaths == 0.0
    ensures Silent(System, Deaths, inp)
  {
    TermsListed();
  }

  /** Rules 6, 7 and 14 are the only rules without a health clause, and each has a deaths clause. */
  lemma HealthFreeRules()
    ensures forall r :: r in Rules && !Mentions(r.antecedent, Health) ==> r == Rule6 || r == Rule7 || r == Rule14
    ensures Mentions(Rule6.antecedent, Deaths) && Mentions(Rule7.antecedent, Deaths) && Mentions(Rule14.antecedent, Deaths)
  {
    forall r | r in Rules ensures Mentions(r.antecedent, Health) || r == Rule6 || r == Rule7 || r == Rule14 {
      HealthClause(r);
    }
  }

  lemma HealthClause(r: Rule)
    requires r in Rules
    ensures Mentions(r.antecedent, Health) || r == Rule6 || r == Rule7 || r == Rule14
  {
    if r == Rule6 || r == Rule7 || r == Rule14 {
    } else if r == Rule1 {
      assert Mentions(Rule1.antecedent, Health);
    } else if r == Rule2 {
      assert Mentions(Rule2.antecedent, Health);
    } else if r == Rule3 {
      assert Mentions(Rule3.antecedent, Health);
    } else if r == Rule4 {
      assert Mentions(Rule4.antecedent, Health);
    } else if r == Rule5 {
      assert Mentions(Rule5.antecedent, Health);
    } else if r == Rule8 {
      assert Mentions(Rule8.antecedent, Health);
    } else if r == Rule9 {
      assert Mentions(Rule9.antecedent, Health);
    } else if r == Rule10 {
      assert Mentions(Rule10.antecedent, Health);
    } else if r == Rule11 {
      assert Mentions(Rule11.antecedent, Health);
    } else if r == Rule12 {
      assert Mentions(Rule12.antecedent, Health);
    } else if r == Rule13 {
      assert Mentions(Rule13.antecedent, Health);
    } else if r == Rule15 {
      assert Mentions(Rule15.antecedent, Health);
    }
  }

  /**
    A perfect run (health 100 or more, no deaths) fires no rule at any
    completion time, so both multipliers fall back to 1.0.
  */
  lemma PerfectRunFiresNothing(playerHealth: real, playerDeaths: real, levelTimeSec: real)
    requires playerHealth >= 100.0 && playerDeaths <= 0.0
    ensures !AnyFires(System, ClippedReading(playerHealth, playerDeaths, levelTimeSec))
    ensures AdjustDifficulty(playerHealth, playerDeaths, levelTimeSec) == (1.0, 1.0)
  {
    FullHealthNoDeathsFiresNothing(ClippedReading(playerHealth, playerDeaths, levelTimeSec));
  }

  lemma FullHealthNoDeathsFiresNothing(inp: Reading)
    requires inp.health == 100.0 && inp.deaths == 0.0
    ensures !AnyFires(System, inp)
  {
    FullHealthOutsideEverySet(inp);
    NoDeathsOutsideEverySet(inp);
    SystemWellFormed();
    EveryRuleMentionsHealthOrDeaths();
    SilentInputsFireNothing(System, Health, Deaths, inp);
  }

  lemma EveryRuleMentionsHealthOrDeaths()
    ensures forall r :: r in System.rules ==> Mentions(r.antecedent, Health) || Mentions(r.antecedent, Deaths)
  {
    HealthFreeRules();
  }

  /**
    At health 0 or below (what a death reports) only the rules without a
    health clause can fire: 6, 7 and 14.
  */
  lemma AtZeroHealthOnlyHealthFreeRulesFire(playerHealth: real, playerDeaths: real, levelTimeSec: real)
    requires playerHealth <= 0.0
    ensures var inp := ClippedReading(playerHealth, playerDeaths, levelTimeSec);
      forall r :: r in Rules && Strength(r.antecedent, inp) > 0.0 ==> r == Rule6 || r == Rule7 || r == Rule14
  {
    var inp := ClippedReading(playerHealth, playerDeaths, levelTimeSec);
    ZeroHealthOutsideEverySet(inp);
    SystemWellFormed();
    HealthFreeRules();
    forall r | r in Rules && Mentions(r.antecedent, Health) ensures Strength(r.antecedent, inp) == 0.0 {
      SilentInputSilencesRule(System, r, Health, inp);
    }
  }

  /** The three-clause rules 10 to 12 fire with the least of their three clause degrees. */
  lemma ThreeClauseRulesTakeMinimum(inp: Reading)
    ensures Strength(Rule10.antecedent, inp) ==
      Min(Min(Membership(HealthOptimal.mf, inp.health), Membership(DeathsMany.mf, inp.deaths)), Membership(TimeSlow.mf, inp.completionTime))
    ensures Strength(Rule11.antecedent, inp) ==
      Min(Min(Membership(HealthCritical.mf, inp.health), Membership(DeathsFew.mf, inp.deaths)), Membership(TimeFast.mf, inp.completionTime))
    ensures Strength(Rule12.antecedent, inp) ==
      Min(Min(Membership(HealthModerate.mf, inp.health), Membership(DeathsModerate.mf, inp.deaths)), Membership(TimeMedium.mf, inp.completionTime))
  {
    ThreeClauseMinimum(HealthOptimal, DeathsMany, TimeSlow, inp);
    ThreeClauseMinimum(HealthCritical, DeathsFew, TimeFast, inp);
    ThreeClauseMinimum(HealthModerate, DeathsModerate, TimeMedium, inp);
  }

  lemma ThreeClauseMinimum(h: Term, d: Term, t: Term, inp: Reading)
    ensures Strength(And(And(Is(Clause(Health, h)), Is(Clause(Deaths, d))), Is(Clause(CompletionTime, t))), inp) ==
      Min(Min(Membership(h.mf, inp.health), Membership(d.mf, inp.deaths)), Membership(t.mf, inp.completionTime))
  {
    assert Strength(And(Is(Clause(Health, h)), Is(Clause(Deaths, d))), inp) ==
      Min(Membership(h.mf, inp.health), Membership(d.mf, inp.deaths));
  }
}
