/**
  The earlier revision of the difficulty controller (code/fuzzy_controller.py):
  the same three inputs, multipliers sampled on 0.5, 0.51, ..., 1.5, nine
  rules of which five name only one output, and an entry point that passes
  the inputs through unchanged and reads both outputs by direct lookup, so
  that a failed run or a missing output is an error for the caller.
*/
module EarlyController {
  import opened Wrappers
  import opened Fuzzy
  import opened Simulation

  // ---------------------------------------------------------------------------
  // Linguistic variables
  // ---------------------------------------------------------------------------

  const HealthCritical := Term(Critical, Tri(0.0, 0.0, 40.0))
  const HealthModerate := Term(Moderate, Tri(30.0, 50.0, 70.0))
  const HealthOptimal := Term(Optimal, Tri(60.0, 100.0, 100.0))

  const DeathsFew := Term(Few, Tri(0.0, 0.0, 3.0))
  const DeathsModerate := Term(Moderate, Tri(2.0, 5.0, 7.0))
  const DeathsMany := Term(Many, Tri(6.0, 10.0, 10.0))

  const TimeFast := Term(Fast, Tri(0.0, 0.0, 120.0))
  const TimeMedium := Term(Medium, Tri(120.0, 210.0, 300.0))
  const TimeSlow := Term(Slow, Tri(300.0, 600.0, 600.0))

  const DamageDecrease := Term(Decrease, Tri(0.5, 0.6, 0.8))
  const DamageSlightDecrease := Term(SlightDecrease, Tri(0.75, 0.85, 0.95))
  const DamageKeepSame := Term(KeepSame, Tri(0.95, 1.0, 1.05))
  const DamageIncrease := Term(Increase, Tri(1.05, 1.2, 1.5))

  const EnemyHealthDecrease := Term(Decrease, Tri(0.5, 0.7, 0.9))
  const EnemyHealthKeepSame := Term(KeepSame, Tri(0.95, 1.0, 1.05))
  const EnemyHealthIncrease := Term(Increase, Tri(1.1, 1.3, 1.5))

  /** np.arange(0.5, 1.51, 0.01): 101 points from 0.5 to 1.5. */
  const Multipliers := Grid(0.5, 0.01, 101)

  const HealthInput := InputVariable(0.0, 100.0, [HealthCritical, HealthModerate, HealthOptimal])
  const DeathsInput := InputVariable(0.0, 10.0, [DeathsFew, DeathsModerate, DeathsMany])
  const TimeInput := InputVariable(0.0, 600.0, [TimeFast, TimeMedium, TimeSlow])

  const DamageOutput := OutputVariable(Multipliers,
    [DamageDecrease, DamageSlightDecrease, DamageKeepSame, DamageIncrease])
  const EnemyHealthOutput := OutputVariable(Multipliers,
    [EnemyHealthDecrease, EnemyHealthKeepSame, EnemyHealthIncrease])

  // ---------------------------------------------------------------------------
  // Rules
  // ---------------------------------------------------------------------------

  const Rule1 := Rule(And(Is(Clause(Health, HealthCritical)), Is(Clause(Deaths, DeathsMany))),
    [Conclusion(EnemyDamage, DamageDecrease), Conclusion(EnemyHealth, EnemyHealthDecrease)])
  const Rule2 := Rule(And(Is(Clause(Health, HealthOptimal)), Is(Clause(Deaths, DeathsFew))),
    [Conclusion(EnemyDamage, DamageIncrease), Conclusion(EnemyHealth, EnemyHealthIncrease)])
  const Rule3 := Rule(And(Is(Clause(CompletionTime, TimeFast)), Is(Clause(Health, HealthOptimal))),
    [Conclusion(EnemyHealth, EnemyHealthIncrease)])
  const Rule4 := Rule(Is(Clause(Deaths, DeathsModerate)),
    [Conclusion(EnemyDamage, DamageKeepSame), Conclusion(EnemyHealth, EnemyHealthKeepSame)])
  const Rule5 := Rule(And(Is(Clause(Health, HealthCritical)), Is(Clause(CompletionTime, TimeSlow))),
    [Conclusion(EnemyDamage, DamageDecrease)])
  const Rule6 := Rule(And(Is(Clause(Deaths, DeathsMany)), Is(Clause(CompletionTime, TimeSlow))),
    [Conclusion(EnemyHealth, EnemyHealthDecrease)])
  const Rule7 := Rule(And(Is(Clause(Deaths, DeathsFew)), Is(Clause(CompletionTime, TimeFast))),
    [Conclusion(EnemyDamage, DamageIncrease)])
  const Rule8 := Rule(And(Is(Clause(Health, HealthModerate)), Is(Clause(Deaths, DeathsMany))),
    [Conclusion(EnemyDamage, DamageSlightDecrease)])
  const Rule9 := Rule(And(Is(Clause(Health, HealthModerate)), Is(Clause(Deaths, DeathsFew))),
    [Conclusion(EnemyDamage, DamageKeepSame), Conclusion(EnemyHealth, EnemyHealthKeepSame)])

  const Rules := [Rule1, Rule2, Rule3, Rule4, Rule5, Rule6, Rule7, Rule8, Rule9]

  const System := ControlSystem(HealthInput, DeathsInput, TimeInput, DamageOutput, EnemyHealthOutput, Rules)

  // ---------------------------------------------------------------------------
  // Facts about the tables
  // ---------------------------------------------------------------------------

  lemma SystemWellFormed()
    ensures WellFormed(System)
    ensures PeaksOnGrid(System.enemyDamage) && PeaksOnGrid(System.enemyHealth)
  {
    RulesDeclared();
    PeaksOnMultiplierGrid();
  }

  lemma TermsListed()
    ensures In(System, Health).terms == [HealthCritical, HealthModerate, HealthOptimal]
    ensures In(System, Deaths).terms == [DeathsFew, DeathsModerate, DeathsMany]
    ensures In(System, CompletionTime).terms == [TimeFast, TimeMedium, TimeSlow]
    ensures Out(System, EnemyDamage).terms == DamageOutput.terms
    ensures Out(System, EnemyHealth).terms == EnemyHealthOutput.terms
  {
  }

  lemma RulesDeclared()
    ensures forall r :: r in Rules ==> ClausesDeclared(System, r.antecedent) && ConclusionsDeclared(System, r)
  {
    forall r | r in Rules ensures ClausesDeclared(System, r.antecedent) && ConclusionsDeclared(System, r) {
      RuleDeclared(r);
    }
  }

  /** One rule at a time: splitting on the rule keeps each case small. */
  lemma RuleDeclared(r: Rule)
    requires r in Rules
    ensures ClausesDeclared(System, r.antecedent) && ConclusionsDeclared(System, r)
  {
    TermsListed();
    if r == Rule1 {
    } else if r == Rule2 {
    } else if r == Rule3 {
    } else if r == Rule4 {
    } else if r == Rule5 {
    } else if r == Rule6 {
    } else if r == Rule7 {
    } else if r == Rule8 {
    } else if r == Rule9 {
    }
  }

  lemma PeaksOnMultiplierGrid()
    ensures PeaksOnGrid(DamageOutput) && PeaksOnGrid(EnemyHealthOutput)
  {
    assert Point(Multipliers, 10) == 0.6;
    assert Point(Multipliers, 20) == 0.7;
    assert Point(Multipliers, 35) == 0.85;
    assert Point(Multipliers, 50) == 1.0;
    assert Point(Multipliers, 70) == 1.2;
    assert Point(Multipliers, 80) == 1.3;
  }

  // ---------------------------------------------------------------------------
  // The entry point
  // ---------------------------------------------------------------------------

  /**
    The reading the simulation sees for the raw inputs: each value saturated
    into its universe when it is assigned.
  */
  function Stored(playerHealth: real, playerDeaths: real, levelTimeSec: real): (inp: Reading)
    ensures inp == Bounded(System, Reading(playerHealth, playerDeaths, levelTimeSec))
    ensures 0.0 <= inp.health <= 100.0 && 0.0 <= inp.deaths <= 10.0 && 0.0 <= inp.completionTime <= 600.0
    ensures 0.0 <= playerHealth <= 100.0 && 0.0 <= playerDeaths <= 10.0 && 0.0 <= levelTimeSec <= 600.0 ==>
      inp == Reading(playerHealth, playerDeaths, levelTimeSec)
  {
    assert In(System, Health) == HealthInput && In(System, Deaths) == DeathsInput;
    assert In(System, CompletionTime) == TimeInput;
    Bounded(System, Reading(playerHealth, playerDeaths, levelTimeSec))
  }

  /**
    check_DDA_adjust_difficulty as a value, on the raw inputs as the
    simulation stores them: it succeeds exactly when some rule reaches each
    output, and then the multipliers are the two centroids, finite and in
    [0.5, 1.5]; otherwise it reports the first output no rule reaches.
  */
  function AdjustDifficulty(playerHealth: real, playerDeaths: real, levelTimeSec: real): (r: Result<(Crisp, Crisp), Error>)
    ensures var inp := Stored(playerHealth, playerDeaths, levelTimeSec);
      r.Success? <==> Fires(System, EnemyDamage, inp) && Fires(System, EnemyHealth, inp)
    ensures r.Success? ==>
      && r.value.0.Finite? && 0.5 <= r.value.0.value <= 1.5
      && r.value.1.Finite? && 0.5 <= r.value.1.value <= 1.5
    ensures var inp := Stored(playerHealth, playerDeaths, levelTimeSec);
      r.Success? ==>
        && Defuzzify(System, EnemyDamage, inp).Success? && Defuzzify(System, EnemyHealth, inp).Success?
        && r.value == (Finite(Defuzzify(System, EnemyDamage, inp).value), Finite(Defuzzify(System, EnemyHealth, inp).value))
    ensures var inp := Stored(playerHealth, playerDeaths, levelTimeSec);
      !Fires(System, EnemyDamage, inp) ==> r == Failure(NoRuleFired(EnemyDamage))
    ensures var inp := Stored(playerHealth, playerDeaths, levelTimeSec);
      Fires(System, EnemyDamage, inp) && !Fires(System, EnemyHealth, inp) ==> r == Failure(NoRuleFired(EnemyHealth))
  {
    var inp := Stored(playerHealth, playerDeaths, levelTimeSec);
    RunFacts(inp);
    Lookup(Simulate(System, Inputs(inp)))
  }

  /**
    The direct lookups output['enemy_damage'] and output['enemy_health']
    after a run: a failed run passes its error on, a missing output is an
    error of its own, and otherwise both values are returned as they are.
  */
  function Lookup(run: Result<map<OutputVar, Crisp>, Error>): (r: Result<(Crisp, Crisp), Error>)
    ensures run.Failure? ==> r == Failure(run.error)
    ensures r.Success? <==> run.Success? && EnemyDamage in run.value && EnemyHealth in run.value
    ensures run.Success? && EnemyDamage !in run.value ==> r == Failure(MissingOutput(EnemyDamage))
    ensures run.Success? && EnemyDamage in run.value && EnemyHealth !in run.value ==> r == Failure(MissingOutput(EnemyHealth))
    ensures r.Success? ==> r.value == (run.value[EnemyDamage], run.value[EnemyHealth])
  {
    match run
    case Failure(e) => Failure(e)
    case Success(output) =>
      if EnemyDamage !in output then Failure(MissingOutput(EnemyDamage))
      else if EnemyHealth !in output then Failure(MissingOutput(EnemyHealth))
      else Success((output[EnemyDamage], output[EnemyHealth]))
  }

  lemma RunFacts(inp: Reading)
    ensures Simulate(System, Inputs(inp)).Success? <==> Fires(System, EnemyDamage, inp) && Fires(System, EnemyHealth, inp)
    ensures !Fires(System, EnemyDamage, inp) ==> Simulate(System, Inputs(inp)) == Failure(NoRuleFired(EnemyDamage))
    ensures Fires(System, EnemyDamage, inp) && !Fires(System, EnemyHealth, inp) ==>
      Simulate(System, Inputs(inp)) == Failure(NoRuleFired(EnemyHealth))
    ensures var run := Simulate(System, Inputs(inp));
      run.Success? ==>
        && EnemyDamage in run.value && run.value[EnemyDamage].Finite? && 0.5 <= run.value[EnemyDamage].value <= 1.5
        && EnemyHealth in run.value && run.value[EnemyHealth].Finite? && 0.5 <= run.value[EnemyHealth].value <= 1.5
  {
    SystemWellFormed();
    RunOnAllInputs(System, inp);
    assert Top(Multipliers) == 1.5;
  }

  /** An out-of-range input gives the same result as the bound of its universe. */
  lemma SaturationIsInvisible(playerHealth: real, playerDeaths: real, levelTimeSec: real)
    ensures var inp := Stored(playerHealth, playerDeaths, levelTimeSec);
      AdjustDifficulty(playerHealth, playerDeaths, levelTimeSec) == AdjustDifficulty(inp.health, inp.deaths, inp.completionTime)
  {
    var inp := Stored(playerHealth, playerDeaths, levelTimeSec);
    assert Stored(inp.health, inp.deaths, inp.completionTime) == inp;
  }

  /**
    The imperative wrapper over the module-level simulation: writes the raw
    inputs, runs compute(), and reads both outputs; any failure reaches the
    caller as an error.
  */
  method CheckDdaAdjustDifficulty(sim: ControlSystemSimulation, playerHealth: real, playerDeaths: real, levelTimeSec: real)
    returns (r: Result<(Crisp, Crisp), Error>)
    requires sim.system == System
    modifies sim
    ensures sim.input == Inputs(Stored(playerHealth, playerDeaths, levelTimeSec))
    ensures var run := Simulate(System, sim.input);
      && (run.Success? ==> sim.output == run.value)
      && (run.Failure? ==> sim.output == old(sim.output))
    ensures r == AdjustDifficulty(playerHealth, playerDeaths, levelTimeSec)
  {
    sim.SetInput(Health, playerHealth);
    sim.SetInput(Deaths, playerDeaths);
    sim.SetInput(CompletionTime, levelTimeSec);
    assert sim.input.Keys == {Health, Deaths, CompletionTime} by {
      forall k: InputVar ensures k in sim.input <==> k in {Health, Deaths, CompletionTime} {
        assert k.Health? || k.Deaths? || k.CompletionTime?;
      }
    }
    assert sim.input == Inputs(Stored(playerHealth, playerDeaths, levelTimeSec));

    var failure := sim.Compute();
    if failure.Some? {
      return Failure(failure.value);
    }
    if EnemyDamage !in sim.output {
      return Failure(MissingOutput(EnemyDamage));
    }
    if EnemyHealth !in sim.output {
      return Failure(MissingOutput(EnemyHealth));
    }
    r := Success((sim.output[EnemyDamage], sim.output[EnemyHealth]));
  }

  // ---------------------------------------------------------------------------
  // Consequences of the table
  // ---------------------------------------------------------------------------

  /** Rule 4 has one clause, so it fires exactly to the degree deaths are moderate. */
  lemma SingleClauseRuleStrength(inp: Reading)
    ensures Strength(Rule4.antecedent, inp) == Membership(DeathsModerate.mf, inp.deaths)
  {
  }

  /** The shoulder sets reach 1 at the ends of their universes. */
  lemma ShouldersReachOne()
    ensures Membership(HealthCritical.mf, 0.0) == 1.0 && Membership(HealthOptimal.mf, 100.0) == 1.0
    ensures Membership(DeathsFew.mf, 0.0) == 1.0 && Membership(DeathsMany.mf, 10.0) == 1.0
    ensures Membership(TimeFast.mf, 0.0) == 1.0 && Membership(TimeSlow.mf, 600.0) == 1.0
  {
  }

  /** Rules 1 and 5 are the only ones naming damage "decrease". */
  lemma DamageDecreaseRules()
    ensures forall r :: r in Rules && Conclusion(EnemyDamage, DamageDecrease) in r.consequent ==> r == Rule1 || r == Rule5
    ensures Conclusion(EnemyDamage, DamageDecrease) in Rule1.consequent
    ensures Conclusion(EnemyDamage, DamageDecrease) in Rule5.consequent
  {
  }

  /** Damage "decrease" is activated to the larger of the strengths of rules 1 and 5. */
  lemma SharedSetTakesMaximum(inp: Reading)
    ensures Activation(Rules, Conclusion(EnemyDamage, DamageDecrease), inp) ==
      Max(Strength(Rule1.antecedent, inp), Strength(Rule5.antecedent, inp))
  {
    DamageDecreaseRules();
    var s := Activation(Rules, Conclusion(EnemyDamage, DamageDecrease), inp);
    assert Strength(Rule1.antecedent, inp) <= s && Strength(Rule5.antecedent, inp) <= s;
  }

  /**
    At health 20 with no deaths and completion time 0 only rule 7 fires. It
    names damage alone, so enemy health has no value and the run fails.
  */
  lemma OnlyDamageRuleFires()
    ensures Fires(System, EnemyDamage, Reading(20.0, 0.0, 0.0))
    ensures !Fires(System, EnemyHealth, Reading(20.0, 0.0, 0.0))
    ensures AdjustDifficulty(20.0, 0.0, 0.0) == Failure(NoRuleFired(EnemyHealth))
  {
    var inp := Reading(20.0, 0.0, 0.0);
    assert Stored(20.0, 0.0, 0.0) == inp;
    Rule7Fires(inp);
    OthersSilent(inp);
  }

  lemma Rule7Fires(inp: Reading)
    requires inp == Reading(20.0, 0.0, 0.0)
    ensures Fires(System, EnemyDamage, inp)
  {
    assert Strength(Rule7.antecedent, inp) == 1.0;
    assert Rule7.consequent[0] in Rule7.consequent;
    assert Concludes(Rule7, EnemyDamage);
    assert Rule7 in System.rules;
  }

  lemma OthersSilent(inp: Reading)
    requires inp == Reading(20.0, 0.0, 0.0)
    ensures !Fires(System, EnemyHealth, inp)
  {
    HealthRulesSilent(inp);
    assert !Concludes(Rule5, EnemyHealth) && !Concludes(Rule7, EnemyHealth) && !Concludes(Rule8, EnemyHealth);
  }

  /** At health 20, no deaths and time 0 every rule naming enemy health has strength 0. */
  lemma HealthRulesSilent(inp: Reading)
    requires inp == Reading(20.0, 0.0, 0.0)
    ensures forall r :: r in [Rule1, Rule2, Rule3, Rule4, Rule6, Rule9] ==> Strength(r.antecedent, inp) == 0.0
  {
    assert Strength(Rule1.antecedent, inp) == 0.0 by { assert Membership(DeathsMany.mf, 0.0) == 0.0; }
    assert Strength(Rule2.antecedent, inp) == 0.0 by { assert Membership(HealthOptimal.mf, 20.0) == 0.0; }
    assert Strength(Rule3.antecedent, inp) == 0.0 by { assert Membership(HealthOptimal.mf, 20.0) == 0.0; }
    assert Strength(Rule4.antecedent, inp) == 0.0 by { assert Membership(DeathsModerate.mf, 0.0) == 0.0; }
    assert Strength(Rule6.antecedent, inp) == 0.0 by { assert Membership(DeathsMany.mf, 0.0) == 0.0; }
    assert Strength(Rule9.antecedent, inp) == 0.0 by { assert Membership(HealthModerate.mf, 20.0) == 0.0; }
  }
}
