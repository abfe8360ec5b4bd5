/**
  Mamdani fuzzy inference as the scikit-fuzzy control API performs it for the
  difficulty controllers: triangular membership, rule firing strength as the
  minimum over the clauses joined by `&`, per-output-set activation as the
  maximum over the rules that name the set, clip-then-max aggregation over the
  sampled output universe, and the centre of gravity of the aggregate curve.
  Everything is stated over `real`.
*/
module Fuzzy {
  import opened Wrappers

  function Min(x: real, y: real): real { if x <= y then x else y }

  function Max(x: real, y: real): real { if x >= y then x else y }

  // ---------------------------------------------------------------------------
  // Membership functions
  // ---------------------------------------------------------------------------

  /** A triangular membership function with breakpoints a, b, c (trimf). */
  datatype Tri = Tri(a: real, b: real, c: real)

  /** The breakpoint order the library asserts when a set is defined. */
  predicate Ordered(t: Tri) { t.a <= t.b <= t.c }

  /**
    Degree of membership of x: exactly 1 at the peak b, the rising edge on
    (a, b), the falling edge on (b, c), and 0 everywhere else. A shoulder
    such as [0, 0, 40] has no rising edge, so its value at 0 is 1.
  */
  function Membership(t: Tri, x: real): (m: real)
    ensures 0.0 <= m <= 1.0
    ensures x == t.b ==> m == 1.0
    ensures Ordered(t) ==> (m > 0.0 <==> (t.a < x < t.c || x == t.b))
  {
    if x == t.b then 1.0
    else if t.a < x < t.b then FractionInUnit(x - t.a, t.b - t.a); (x - t.a) / (t.b - t.a)
    else if t.b < x < t.c then FractionInUnit(t.c - x, t.c - t.b); (t.c - x) / (t.c - t.b)
    else 0.0
  }

  lemma FractionInUnit(p: real, q: real)
    requires 0.0 < p < q
    ensures 0.0 < p / q < 1.0
  {
    var r := p / q;
    assert r * q == p;
    if r >= 1.0 {
      // then r * q >= q > p
      assert false;
    }
  }

  /** Membership rises monotonically from a to the peak b. */
  lemma MembershipRises(t: Tri, x: real, y: real)
    requires Ordered(t) && t.a <= x <= y <= t.b
    ensures Membership(t, x) <= Membership(t, y)
  {
    if y < t.b && t.a < x {
      var d := t.b - t.a;
      assert (x - t.a) / d <= (y - t.a) / d by {
        assert (y - t.a) / d - (x - t.a) / d == (y - x) / d;
      }
    }
  }

  /** Membership falls monotonically from the peak b to c. */
  lemma MembershipFalls(t: Tri, x: real, y: real)
    requires Ordered(t) && t.b <= x <= y <= t.c
    ensures Membership(t, y) <= Membership(t, x)
  {
    if t.b < x && y < t.c {
      var d := t.c - t.b;
      assert (t.c - y) / d <= (t.c - x) / d by {
        assert (t.c - x) / d - (t.c - y) / d == (y - x) / d;
      }
    }
  }

  // ---------------------------------------------------------------------------
  // Linguistic variables, rules and the control system
  // ---------------------------------------------------------------------------

  datatype Label =
    | Critical | Moderate | Optimal
    | Few | Many
    | Fast | Medium | Slow
    | Decrease | SlightDecrease | KeepSame | SlightIncrease | Increase

  /** A named fuzzy set of a variable, as `variable["label"] = trimf(...)`. */
  datatype Term = Term(name: Label, mf: Tri)

  datatype InputVar = Health | Deaths | CompletionTime

  datatype OutputVar = EnemyDamage | EnemyHealth

  /** An input variable: its universe bounds and its sets. */
  datatype InputVariable = InputVariable(lo: real, hi: real, terms: seq<Term>)

  /** An evenly sampled universe: the points lo, lo + step, ..., n of them. */
  datatype Grid = Grid(lo: real, step: real, n: nat)

  function Point(u: Grid, i: int): real { u.lo + (i as real) * u.step }

  /** The last sample point of a non-empty universe. */
  function Top(u: Grid): real { Point(u, u.n - 1) }

  /** An output variable: its sampled universe and its sets. */
  datatype OutputVariable = OutputVariable(universe: Grid, terms: seq<Term>)

  /** `variable["label"]` used in a rule antecedent. */
  datatype Clause = Clause(v: InputVar, term: Term)

  /** A rule antecedent: a single clause or two antecedents joined by `&`. */
  datatype Condition = Is(clause: Clause) | And(left: Condition, right: Condition)

  /** `output["label"]` used in a rule consequent. */
  datatype Conclusion = Conclusion(o: OutputVar, term: Term)

  datatype Rule = Rule(antecedent: Condition, consequent: seq<Conclusion>)

  datatype ControlSystem = ControlSystem(
    health: InputVariable,
    deaths: InputVariable,
    completionTime: InputVariable,
    enemyDamage: OutputVariable,
    enemyHealth: OutputVariable,
    rules: seq<Rule>)

  function In(sys: ControlSystem, v: InputVar): InputVariable
  {
    match v
    case Health => sys.health
    case Deaths => sys.deaths
    case CompletionTime => sys.completionTime
  }

  function Out(sys: ControlSystem, o: OutputVar): OutputVariable
  {
    match o
    case EnemyDamage => sys.enemyDamage
    case EnemyHealth => sys.enemyHealth
  }

  /** A universe the centroid can be taken over. */
  predicate ValidUniverse(u: Grid) { u.n > 0 && u.step > 0.0 }

  /** Every clause names a set of its own variable, every conclusion a set of its output. */
  predicate WellFormed(sys: ControlSystem)
  {
    && ValidUniverse(sys.enemyDamage.universe)
    && ValidUniverse(sys.enemyHealth.universe)
    && forall r :: r in sys.rules ==> ClausesDeclared(sys, r.antecedent) && ConclusionsDeclared(sys, r)
  }

  /** Every clause of the antecedent names a set of its own input variable. */
  predicate ClausesDeclared(sys: ControlSystem, a: Condition)
  {
    match a
    case Is(c) => c.term in In(sys, c.v).terms
    case And(l, r) => ClausesDeclared(sys, l) && ClausesDeclared(sys, r)
  }

  /** Every conclusion of the rule names a set of its own output variable. */
  predicate ConclusionsDeclared(sys: ControlSystem, r: Rule)
  {
    forall c :: c in r.consequent ==> c.term in Out(sys, c.o).terms
  }

  /** Every set of an output variable has its peak on a sample point. */
  predicate PeaksOnGrid(v: OutputVariable)
  {
    forall t :: t in v.terms ==> exists i :: 0 <= i < v.universe.n && Point(v.universe, i) == t.mf.b
  }

  // ---------------------------------------------------------------------------
  // Fuzzification and rule firing
  // ---------------------------------------------------------------------------

  /** The three crisp inputs of one inference run. */
  datatype Reading = Reading(health: real, deaths: real, completionTime: real)

  function Value(inp: Reading, v: InputVar): real
  {
    match v
    case Health => inp.health
    case Deaths => inp.deaths
    case CompletionTime => inp.completionTime
  }

  /**
    Degree to which the crisp input satisfies one clause: the membership of
    the input's value in the clause's set.
  */
  function Degree(c: Clause, inp: Reading): (d: real)
    ensures 0.0 <= d <= 1.0
    ensures Value(inp, c.v) == c.term.mf.b ==> d == 1.0
    ensures Ordered(c.term.mf) ==>
      (d > 0.0 <==> (c.term.mf.a < Value(inp, c.v) < c.term.mf.c || Value(inp, c.v) == c.term.mf.b))
  {
    Membership(c.term.mf, Value(inp, c.v))
  }

  /** The clauses an antecedent joins. */
  function Leaves(a: Condition): set<Clause>
  {
    match a
    case Is(c) => {c}
    case And(l, r) => Leaves(l) + Leaves(r)
  }

  /**
    Firing strength of an antecedent: the minimum of the degrees of its
    clauses, that is, no greater than any of them and equal to one of them.
  */
  function Strength(a: Condition, inp: Reading): (s: real)
    ensures 0.0 <= s <= 1.0
  {
    match a
    case Is(c) => Degree(c, inp)
    case And(l, r) => Min(Strength(l, inp), Strength(r, inp))
  }

  lemma {:induction false} StrengthIsLeastDegree(a: Condition, inp: Reading)
    ensures forall c :: c in Leaves(a) ==> Strength(a, inp) <= Degree(c, inp)
    ensures exists c :: c in Leaves(a) && Strength(a, inp) == Degree(c, inp)
  {
    match a
    case Is(c) =>
      assert c in Leaves(a);
    case And(l, r) =>
      StrengthIsLeastDegree(l, inp);
      StrengthIsLeastDegree(r, inp);
      if Strength(l, inp) <= Strength(r, inp) {
        var c :| c in Leaves(l) && Strength(l, inp) == Degree(c, inp);
        assert c in Leaves(a);
      } else {
        var c :| c in Leaves(r) && Strength(r, inp) == Degree(c, inp);
        assert c in Leaves(a);
      }
  }

  /** An antecedent with a clause on input v. */
  function Mentions(a: Condition, v: InputVar): bool
  {
    match a
    case Is(c) => c.v == v
    case And(l, r) => Mentions(l, v) || Mentions(r, v)
  }

  /** Input v lies outside every set of its variable. */
  predicate Silent(sys: ControlSystem, v: InputVar, inp: Reading)
  {
    forall t :: t in In(sys, v).terms ==> Membership(t.mf, Value(inp, v)) == 0.0
  }

  /** A rule with a clause on an input that lies outside all of its sets cannot fire. */
  lemma SilentInputSilencesRule(sys: ControlSystem, r: Rule, v: InputVar, inp: Reading)
    requires WellFormed(sys) && r in sys.rules && Mentions(r.antecedent, v) && Silent(sys, v, inp)
    ensures Strength(r.antecedent, inp) == 0.0
  {
    SilentInputSilences(sys, r.antecedent, v, inp);
  }

  /** When every rule mentions one of two inputs and both are silent, no rule fires. */
  lemma SilentInputsFireNothing(sys: ControlSystem, v: InputVar, w: InputVar, inp: Reading)
    requires WellFormed(sys) && Silent(sys, v, inp) && Silent(sys, w, inp)
    requires forall r :: r in sys.rules ==> Mentions(r.antecedent, v) || Mentions(r.antecedent, w)
    ensures !AnyFires(sys, inp)
  {
    forall r | r in sys.rules ensures Strength(r.antecedent, inp) == 0.0 {
      if Mentions(r.antecedent, v) {
        SilentInputSilencesRule(sys, r, v, inp);
      } else {
        SilentInputSilencesRule(sys, r, w, inp);
      }
    }
  }

  lemma {:induction false} SilentInputSilences(sys: ControlSystem, a: Condition, v: InputVar, inp: Reading)
    requires ClausesDeclared(sys, a) && Mentions(a, v) && Silent(sys, v, inp)
    ensures Strength(a, inp) == 0.0
  {
    match a
    case Is(c) =>
      assert c in Leaves(a);
    case And(l, r) =>
      if Mentions(l, v) {
        SilentInputSilences(sys, l, v, inp);
      } else {
        SilentInputSilences(sys, r, v, inp);
      }
  }

  /** A rule that names some set of output o. */
  predicate Concludes(r: Rule, o: OutputVar)
  {
    exists c :: c in r.consequent && c.o == o
  }

  /** Some rule that names a set of output o fires with positive strength. */
  predicate Fires(sys: ControlSystem, o: OutputVar, inp: Reading)
  {
    exists r :: r in sys.rules && Concludes(r, o) && Strength(r.antecedent, inp) > 0.0
  }

  /** Some rule fires with positive strength. */
  predicate AnyFires(sys: ControlSystem, inp: Reading)
  {
    exists r :: r in sys.rules && Strength(r.antecedent, inp) > 0.0
  }

  /**
    Activation of one output set: the maximum firing strength over the rules
    that name it in their consequent, 0 when none does.
  */
  function Activation(rules: seq<Rule>, c: Conclusion, inp: Reading): (s: real)
    ensures 0.0 <= s <= 1.0
    ensures forall r :: r in rules && c in r.consequent ==> Strength(r.antecedent, inp) <= s
    ensures s == 0.0 || exists r :: r in rules && c in r.consequent && s == Strength(r.antecedent, inp)
  {
    if rules == [] then 0.0
    else
      var rest := Activation(rules[1..], c, inp);
      assert forall r :: r in rules[1..] ==> r in rules;
      if c in rules[0].consequent then Max(Strength(rules[0].antecedent, inp), rest) else rest
  }

  // ---------------------------------------------------------------------------
  // Implication, aggregation and defuzzification
  // ---------------------------------------------------------------------------

  /** Membership of x in set t of output o, clipped at the set's activation. */
  function Clipped(rules: seq<Rule>, o: OutputVar, t: Term, inp: Reading, x: real): (m: real)
    ensures 0.0 <= m <= 1.0
    ensures m <= Membership(t.mf, x) && m <= Activation(rules, Conclusion(o, t), inp)
    ensures m == Membership(t.mf, x) || m == Activation(rules, Conclusion(o, t), inp)
  {
    Min(Membership(t.mf, x), Activation(rules, Conclusion(o, t), inp))
  }

  /**
    The aggregate output curve at x: the maximum over the sets of the output
    of their clipped memberships, 0 when there is no set.
  */
  function Aggregate(rules: seq<Rule>, o: OutputVar, terms: seq<Term>, inp: Reading, x: real): (m: real)
    ensures 0.0 <= m <= 1.0
    ensures forall t :: t in terms ==> Clipped(rules, o, t, inp, x) <= m
    ensures m == 0.0 || exists t :: t in terms && m == Clipped(rules, o, t, inp, x)
  {
    if terms == [] then 0.0
    else
      var rest := Aggregate(rules, o, terms[1..], inp, x);
      assert forall t :: t in terms[1..] ==> t in terms;
      Max(Clipped(rules, o, terms[0], inp, x), rest)
  }

  /** The aggregate curve of output o sampled at every point of its universe. */
  function Curve(sys: ControlSystem, o: OutputVar, inp: Reading): (mu: seq<real>)
  {
    var v := Out(sys, o);
    seq(v.universe.n, i => Aggregate(sys.rules, o, v.terms, inp, Point(v.universe, i)))
  }

  predicate NonNegative(mu: seq<real>) { forall i :: 0 <= i < |mu| ==> mu[i] >= 0.0 }

  /** Sum of the samples. */
  function Mass(mu: seq<real>): (m: real)
  {
    if mu == [] then 0.0 else Mass(mu[..|mu| - 1]) + mu[|mu| - 1]
  }

  /** Sum of each sample times its point. */
  function Moment(u: Grid, mu: seq<real>): (m: real)
  {
    if mu == [] then 0.0 else Moment(u, mu[..|mu| - 1]) + Point(u, |mu| - 1) * mu[|mu| - 1]
  }

  lemma {:induction false} MassZeroIff(mu: seq<real>)
    requires NonNegative(mu)
    ensures Mass(mu) >= 0.0
    ensures Mass(mu) == 0.0 <==> forall i :: 0 <= i < |mu| ==> mu[i] == 0.0
  {
    if mu != [] {
      var p := mu[..|mu| - 1];
      assert forall i :: 0 <= i < |p| ==> p[i] == mu[i];
      MassZeroIff(p);
    }
  }

  /** The moment lies between the lowest and the highest point times the mass. */
  lemma {:induction false} MomentBounds(u: Grid, mu: seq<real>)
    requires NonNegative(mu) && u.step >= 0.0 && |mu| > 0
    ensures u.lo * Mass(mu) <= Moment(u, mu) <= Point(u, |mu| - 1) * Mass(mu)
  {
    var k := |mu| - 1;
    var p := mu[..k];
    var x := Point(u, k);
    assert forall i :: 0 <= i < |p| ==> p[i] == mu[i];
    ProductNonNegative(k as real, u.step);
    ProductNonNegative(x - u.lo, mu[k]);
    if k > 0 {
      MomentBounds(u, p);
      MassZeroIff(p);
      ProductNonNegative(x - Point(u, k - 1), Mass(p));
    }
  }

  lemma ProductNonNegative(a: real, b: real)
    requires a >= 0.0 && b >= 0.0
    ensures a * b >= 0.0
  {
  }

  lemma DivisionBounds(p: real, q: real, lo: real, hi: real)
    requires q > 0.0 && lo * q <= p <= hi * q
    ensures lo <= p / q <= hi
  {
    var r := p / q;
    assert r * q == p;
    assert (r - lo) * q >= 0.0;
    assert (hi - r) * q >= 0.0;
  }

  /**
    Centre of gravity of a sampled curve, or None when the curve is zero
    everywhere. For a non-negative curve the centroid exists exactly when
    some sample is positive, and then lies within the sampled points.
  */
  function Centroid(u: Grid, mu: seq<real>): (r: Option<real>)
    ensures NonNegative(mu) ==> (r.None? <==> forall i :: 0 <= i < |mu| ==> mu[i] == 0.0)
    ensures NonNegative(mu) && u.step >= 0.0 && r.Some? ==> u.lo <= r.value <= Point(u, |mu| - 1)
  {
    CentroidFacts(u, mu);
    if Mass(mu) == 0.0 then None else Some(Moment(u, mu) / Mass(mu))
  }

  lemma CentroidFacts(u: Grid, mu: seq<real>)
    ensures NonNegative(mu) ==> (Mass(mu) == 0.0 <==> forall i :: 0 <= i < |mu| ==> mu[i] == 0.0)
    ensures NonNegative(mu) && u.step >= 0.0 && Mass(mu) != 0.0 ==>
      u.lo <= Moment(u, mu) / Mass(mu) <= Point(u, |mu| - 1)
  {
    if NonNegative(mu) {
      MassZeroIff(mu);
      if u.step >= 0.0 && Mass(mu) != 0.0 {
        MomentBounds(u, mu);
        DivisionBounds(Moment(u, mu), Mass(mu), u.lo, Point(u, |mu| - 1));
      }
    }
  }

  /** A numpy float coming out of the library: finite or not. */
  datatype Crisp = Finite(value: real) | NonFinite

  datatype Error =
    | NoRuleFired(o: OutputVar)
    | MissingInput(v: InputVar)
    | MissingOutput(o: OutputVar)

  /**
    The crisp value of one output, or NoRuleFired when its aggregate curve is
    zero everywhere. A value always lies within its output's universe.
  */
  function Defuzzify(sys: ControlSystem, o: OutputVar, inp: Reading): (r: Result<real, Error>)
    ensures r.Failure? ==> r.error == NoRuleFired(o)
    ensures ValidUniverse(Out(sys, o).universe) && r.Success? ==>
      Out(sys, o).universe.lo <= r.value <= Top(Out(sys, o).universe)
  {
    CurveNonNegative(sys, o, inp);
    FromCurve(Out(sys, o).universe, Curve(sys, o, inp), o)
  }

  /** The crisp value of a sampled curve of output o, or NoRuleFired when it is zero everywhere. */
  function FromCurve(u: Grid, mu: seq<real>, o: OutputVar): (r: Result<real, Error>)
    requires NonNegative(mu) && |mu| == u.n
    ensures r.Failure? ==> r.error == NoRuleFired(o)
    ensures ValidUniverse(u) && r.Success? ==> u.lo <= r.value <= Top(u)
  {
    match Centroid(u, mu)
    case None => Failure(NoRuleFired(o))
    case Some(x) => Success(x)
  }

  /** The aggregate curve has one non-negative sample per universe point. */
  lemma CurveNonNegative(sys: ControlSystem, o: OutputVar, inp: Reading)
    ensures |Curve(sys, o, inp)| == Out(sys, o).universe.n
    ensures NonNegative(Curve(sys, o, inp))
  {
  }

  /**
    An output has a crisp value exactly when some rule naming one of its sets
    fires with positive strength.
  */
  lemma DefinedIffFires(sys: ControlSystem, o: OutputVar, inp: Reading)
    requires WellFormed(sys) && PeaksOnGrid(Out(sys, o))
    ensures Defuzzify(sys, o, inp).Success? <==> Fires(sys, o, inp)
  {
    if Fires(sys, o, inp) {
      FiringGivesValue(sys, o, inp);
    } else {
      SilenceGivesNoValue(sys, o, inp);
    }
  }

  lemma FiringGivesValue(sys: ControlSystem, o: OutputVar, inp: Reading)
    requires WellFormed(sys) && PeaksOnGrid(Out(sys, o)) && Fires(sys, o, inp)
    ensures Defuzzify(sys, o, inp).Success?
  {
    var v := Out(sys, o);
    var r :| r in sys.rules && Concludes(r, o) && Strength(r.antecedent, inp) > 0.0;
    var c :| c in r.consequent && c.o == o;
    var t := c.term;
    assert c == Conclusion(o, t);
    assert ConclusionsDeclared(sys, r);
    assert t in v.terms;
    var s := Activation(sys.rules, c, inp);
    assert s > 0.0;
    var i :| 0 <= i < v.universe.n && Point(v.universe, i) == t.mf.b;
    var x := Point(v.universe, i);
    assert Clipped(sys.rules, o, t, inp, x) == s;
    PositiveSampleGivesValue(sys, o, inp, i);
  }

  lemma PositiveSampleGivesValue(sys: ControlSystem, o: OutputVar, inp: Reading, i: nat)
    requires i < Out(sys, o).universe.n
    requires Aggregate(sys.rules, o, Out(sys, o).terms, inp, Point(Out(sys, o).universe, i)) > 0.0
    ensures Defuzzify(sys, o, inp).Success?
  {
    var mu := Curve(sys, o, inp);
    assert NonNegative(mu);
    assert mu[i] > 0.0;
  }

  lemma SilenceGivesNoValue(sys: ControlSystem, o: OutputVar, inp: Reading)
    requires !Fires(sys, o, inp)
    ensures Defuzzify(sys, o, inp).Failure?
  {
    var v := Out(sys, o);
    var mu := Curve(sys, o, inp);
    assert NonNegative(mu);
    forall t | t in v.terms
      ensures Activation(sys.rules, Conclusion(o, t), inp) == 0.0
    {
      var s := Activation(sys.rules, Conclusion(o, t), inp);
      assert forall r :: r in sys.rules && Conclusion(o, t) in r.consequent ==> Concludes(r, o);
    }
    forall i | 0 <= i < |mu| ensures mu[i] == 0.0 {
      var x := Point(v.universe, i);
      assert mu[i] == Aggregate(sys.rules, o, v.terms, inp, x);
    }
  }

  /**
    In a system whose every rule names a set of output o, that output is
    defined exactly when some rule fires at all.
  */
  lemma DefinedIffAnyFires(sys: ControlSystem, o: OutputVar, inp: Reading)
    requires WellFormed(sys) && PeaksOnGrid(Out(sys, o))
    requires forall r :: r in sys.rules ==> Concludes(r, o)
    ensures Defuzzify(sys, o, inp).Success? <==> AnyFires(sys, inp)
  {
    DefinedIffFires(sys, o, inp);
  }

  /** Saturation of x into [lo, hi] (np.clip on a scalar). */
  function Clip(x: real, lo: real, hi: real): (r: real)
    requires lo <= hi
    ensures lo <= r <= hi
    ensures lo <= x <= hi ==> r == x
    ensures x < lo ==> r == lo
    ensures hi < x ==> r == hi
  {
    if x < lo then lo else if hi < x then hi else x
  }

  /** Every input universe is a non-empty interval. */
  predicate InputBounds(sys: ControlSystem)
  {
    forall v: InputVar :: In(sys, v).lo <= In(sys, v).hi
  }

  /**
    A reading with each value saturated into its input's universe, as the
    library does when an input is assigned: values already inside are kept.
  */
  function Bounded(sys: ControlSystem, inp: Reading): (b: Reading)
    requires InputBounds(sys)
    ensures forall v: InputVar :: In(sys, v).lo <= Value(b, v) <= In(sys, v).hi
    ensures forall v: InputVar :: In(sys, v).lo <= Value(inp, v) <= In(sys, v).hi ==> Value(b, v) == Value(inp, v)
    ensures forall v: InputVar :: Value(inp, v) < In(sys, v).lo ==> Value(b, v) == In(sys, v).lo
    ensures forall v: InputVar :: In(sys, v).hi < Value(inp, v) ==> Value(b, v) == In(sys, v).hi
  {
    assert In(sys, Health).lo <= In(sys, Health).hi;
    assert In(sys, Deaths).lo <= In(sys, Deaths).hi;
    assert In(sys, CompletionTime).lo <= In(sys, CompletionTime).hi;
    Reading(Clip(inp.health, sys.health.lo, sys.health.hi),
            Clip(inp.deaths, sys.deaths.lo, sys.deaths.hi),
            Clip(inp.completionTime, sys.completionTime.lo, sys.completionTime.hi))
  }

  /**
    One inference run over an input dictionary (compute()): every input must
    be set, and every output must have a crisp value, or the run fails.
  */
  function Simulate(sys: ControlSystem, input: map<InputVar, real>): (r: Result<map<OutputVar, Crisp>, Error>)
    ensures r.Success? <==>
      && Health in input && Deaths in input && CompletionTime in input
      && Defuzzify(sys, EnemyDamage, Reading(input[Health], input[Deaths], input[CompletionTime])).Success?
      && Defuzzify(sys, EnemyHealth, Reading(input[Health], input[Deaths], input[CompletionTime])).Success?
    ensures r.Success? ==> r.value.Keys == {EnemyDamage, EnemyHealth}
    ensures r.Success? ==> forall o :: o in r.value ==>
      r.value[o] == Finite(Defuzzify(sys, o, Reading(input[Health], input[Deaths], input[CompletionTime])).value)
  {
    if Health !in input then Failure(MissingInput(Health))
    else if Deaths !in input then Failure(MissingInput(Deaths))
    else if CompletionTime !in input then Failure(MissingInput(CompletionTime))
    else
      var inp := Reading(input[Health], input[Deaths], input[CompletionTime]);
      match (Defuzzify(sys, EnemyDamage, inp), Defuzzify(sys, EnemyHealth, inp))
      case (Failure(e), _) => Failure(e)
      case (_, Failure(e)) => Failure(e)
      case (Success(d), Success(h)) => Success(map[EnemyDamage := Finite(d), EnemyHealth := Finite(h)])
  }

  /** The input dictionary holding all three readings. */
  function Inputs(inp: Reading): (input: map<InputVar, real>)
    ensures input.Keys == {Health, Deaths, CompletionTime}
    ensures Reading(input[Health], input[Deaths], input[CompletionTime]) == inp
  {
    map[Health := inp.health, Deaths := inp.deaths, CompletionTime := inp.completionTime]
  }

  /** A well-formed system in which every rule names a set of each output. */
  predicate Uniform(sys: ControlSystem)
  {
    && WellFormed(sys)
    && PeaksOnGrid(sys.enemyDamage) && PeaksOnGrid(sys.enemyHealth)
    && forall r :: r in sys.rules ==> Concludes(r, EnemyDamage) && Concludes(r, EnemyHealth)
  }

  /**
    In a uniform system a run on a complete dictionary succeeds exactly when
    some rule fires, and then reports both centroids.
  */
  lemma UniformRun(sys: ControlSystem, inp: Reading)
    requires Uniform(sys)
    ensures Simulate(sys, Inputs(inp)).Success? <==> AnyFires(sys, inp)
    ensures var run := Simulate(sys, Inputs(inp));
      run.Success? ==>
        && EnemyDamage in run.value && run.value[EnemyDamage] == Finite(Defuzzify(sys, EnemyDamage, inp).value)
        && EnemyHealth in run.value && run.value[EnemyHealth] == Finite(Defuzzify(sys, EnemyHealth, inp).value)
  {
    DefinedIffAnyFires(sys, EnemyDamage, inp);
    DefinedIffAnyFires(sys, EnemyHealth, inp);
  }

  /**
    A run of a well-formed system on a complete dictionary: it fails on the
    first output no rule reaches (damage before health), and otherwise
    reports both centroids.
  */
  lemma RunOnAllInputs(sys: ControlSystem, inp: Reading)
    requires WellFormed(sys) && PeaksOnGrid(sys.enemyDamage) && PeaksOnGrid(sys.enemyHealth)
    ensures Simulate(sys, Inputs(inp)).Success? <==> Fires(sys, EnemyDamage, inp) && Fires(sys, EnemyHealth, inp)
    ensures !Fires(sys, EnemyDamage, inp) ==> Simulate(sys, Inputs(inp)) == Failure(NoRuleFired(EnemyDamage))
    ensures Fires(sys, EnemyDamage, inp) && !Fires(sys, EnemyHealth, inp) ==>
      Simulate(sys, Inputs(inp)) == Failure(NoRuleFired(EnemyHealth))
    ensures var run := Simulate(sys, Inputs(inp));
      run.Success? ==>
        && EnemyDamage in run.value && run.value[EnemyDamage] == Finite(Defuzzify(sys, EnemyDamage, inp).value)
        && EnemyHealth in run.value && run.value[EnemyHealth] == Finite(Defuzzify(sys, EnemyHealth, inp).value)
  {
    DefinedIffFires(sys, EnemyDamage, inp);
    DefinedIffFires(sys, EnemyHealth, inp);
  }
}
