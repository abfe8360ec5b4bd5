# ResearchDDA dynamic difficulty, modelled in Dafny

ResearchDDA is a first-person shooter that changes how hard its enemies are
while it is played (dynamic difficulty adjustment). A fuzzy controller maps how
the player did to two multipliers, one for enemy damage and one for enemy
health. The inputs are the health at the end of a level or at a death, the
number of deaths, and the elapsed time. This project models that controller
and the game state around it, and proves properties of the model:

- `fuzzy.dfy` (module `Fuzzy`) is one Mamdani inference engine over reals.
  - Membership is triangular (`trimf`).
  - A rule fires with the minimum of its clause degrees (`&`).
  - Each output set is activated to the maximum over the rules that name it.
  - The aggregate curve takes, at each sample point, the largest set clipped
    to its activation.
  - The centroid is `Σ x·μ(x) / Σ μ(x)`. A zero `Σ μ` is an explicit
    "no rule fired" error.
  - A run over an input dictionary (`Simulate`) fails on a missing input or an
    output no rule reaches.
- `simulation.dfy` (module `Simulation`) models the simulation object the
  controllers keep at module level. Callers write its input dictionary through
  `SetInput`, which saturates each value into the input's universe (the
  library's default clipping on assignment). `Compute` fills its output
  dictionary.
- `controller.dfy` (module `Controller`) is the current controller
  (code/hooks/fuzzy_controller.py).
  - It has three inputs, fifteen rules, and multipliers sampled on
    0.4, 0.41, …, 1.6.
  - The entry point saturates the inputs into their universes.
  - It returns (1.0, 1.0) on any failure, and 1.0 for a missing or non-finite
    output.
- `controller_early.dfy` (module `EarlyController`) is the earlier revision
  (code/fuzzy_controller.py).
  - It has nine rules, five of which name only one output, and multipliers on
    0.5 … 1.5.
  - Its entry point writes the raw inputs, which the simulation saturates on
    assignment. It reads the outputs by direct lookup, so a failed run is an
    error.
- `event_timer.dfy` (module `Timing`) is the stopwatch (code/EventTimer.py).
  It holds an optional start tick and an optional end tick.
- `player.dfy` (module `PlayerState`) covers the player state of
  code/player.py, including the attributes kept between lives and levels
  (`PlayerAttribs`):
  - weapon switching, shooting and item pickup;
  - the reset on death;
  - the door that ends a level, and the other doors.
- `level_handler.dfy` (module `Levels`) covers the level list and the level
  index that advances cyclically (code/level_handler.py).

Both controllers use the one engine, instantiated with their own tables.

Consequences of the current table, proved below:

- A perfect run (health 100, no deaths) fires no rule at any completion time.
  - Health 100 is outside every health set, since "optimal" is [60, 85, 100].
  - Zero deaths is outside every deaths set, since "few" is [0, 1, 5].
  - Every rule has a health or a deaths clause.
  - The table's own comment on rule 2 says a player doing very well should
    make enemies harder (code/hooks/fuzzy_controller.py:89), and its test
    cases include a perfect run (code/hooks/fuzzy_controller.py:304). The
    code instead returns (1.0, 1.0) there, and the model follows the code.
- At health 0, which every death reports, only rules 6, 7 and 14 can fire.
- In the earlier table, at health 20 with no deaths and time 0, only rule 7
  fires. It names enemy damage alone, so the run fails for enemy health.

## Model

| member | source | states |
|---|---|---|
| Fuzzy.Membership | code/hooks/fuzzy_controller.py:22-77 | a triangular set's degree lies in [0, 1], is 1 at the peak, and (with ordered breakpoints) is positive exactly strictly between the feet or at the peak |
| Fuzzy.MembershipRises | code/hooks/fuzzy_controller.py:22-40 | the degree does not decrease from the left foot to the peak |
| Fuzzy.MembershipFalls | code/hooks/fuzzy_controller.py:22-40 | the degree does not increase from the peak to the right foot |
| Fuzzy.Degree | code/hooks/fuzzy_controller.py:22-40 | a clause's degree lies in [0, 1], is 1 when the input sits at the set's peak, and is positive exactly inside the set's support |
| Fuzzy.Strength | code/hooks/fuzzy_controller.py:84-171 | a rule's firing strength lies in [0, 1] |
| Fuzzy.StrengthIsLeastDegree | code/hooks/fuzzy_controller.py:138-153 | the firing strength of an `&` antecedent is at most every clause degree and equal to one of them, that is, their minimum |
| Fuzzy.SilentInputSilencesRule | code/hooks/fuzzy_controller.py:22-29 | a rule with a clause on an input that lies outside every set of that input has strength 0 |
| Fuzzy.SilentInputsFireNothing | code/hooks/fuzzy_controller.py:84-171 | if two inputs lie outside all their sets and every rule mentions one of them, no rule fires |
| Fuzzy.Activation | code/hooks/fuzzy_controller.py:177-198 | an output set's activation is at least the strength of every rule naming it, and equals one of those strengths or 0 |
| Fuzzy.Clipped | code/hooks/fuzzy_controller.py:177-198 | a set's membership clipped at its activation lies in [0, 1], is at most both, and equals one of them (their minimum) |
| Fuzzy.Aggregate | code/hooks/fuzzy_controller.py:177-198 | the aggregate degree at a point is in [0, 1], at least every clipped set there, and equal to one of them or 0 |
| Fuzzy.CurveNonNegative | code/hooks/fuzzy_controller.py:15-16 | the sampled aggregate curve (`Curve`) has one non-negative sample per point of the output universe |
| Fuzzy.MassZeroIff | code/hooks/fuzzy_controller.py:177-198 | the sum of the samples (`Mass`) of a non-negative curve is non-negative and is zero exactly when every sample is zero |
| Fuzzy.MomentBounds | code/hooks/fuzzy_controller.py:15-16 | the first moment `Σ x·μ(x)` (`Moment`) lies between the lowest and highest grid point times the mass |
| Fuzzy.Centroid | code/hooks/fuzzy_controller.py:15-16 | the centroid is missing exactly when the curve is zero everywhere, and otherwise lies between the first and last grid point |
| Fuzzy.FromCurve | code/hooks/fuzzy_controller.py:15-16 | the crisp value of a non-negative sampled curve is "no rule fired" or a value within the universe |
| Fuzzy.Defuzzify | code/hooks/fuzzy_controller.py:15-16 | an output either has no value because no rule fired, or has a value inside its universe |
| Fuzzy.DefinedIffFires | code/hooks/fuzzy_controller.py:177-198 | an output has a value if and only if some rule naming one of its sets fires |
| Fuzzy.DefinedIffAnyFires | code/hooks/fuzzy_controller.py:84-171 | when every rule names output o, o has a value if and only if any rule fires |
| Fuzzy.Clip | code/hooks/fuzzy_controller.py:219-221 | np.clip saturates into [lo, hi], keeping values already inside, giving lo below and hi above |
| Fuzzy.Bounded | code/fuzzy_controller.py:108-110 | every input of a reading is saturated into its universe: values inside are kept, values below become the lower bound and values above the upper bound |
| Fuzzy.Simulate | code/hooks/fuzzy_controller.py:224 | a run succeeds if and only if all three inputs are set and both outputs have values; it then maps exactly both outputs to their finite centroids |
| Fuzzy.Inputs | code/hooks/fuzzy_controller.py:219-221 | the input dictionary has exactly the three inputs and gives back the reading it was built from |
| Fuzzy.RunOnAllInputs | code/fuzzy_controller.py:108-113 | on a complete dictionary a run fails with "no rule fired" for damage when no damage rule fires, for health when only health is unreached, and otherwise reports both centroids |
| Fuzzy.UniformRun | code/hooks/fuzzy_controller.py:177-224 | in a table whose every rule names both outputs, a run on a complete dictionary succeeds exactly when some rule fires and then reports both centroids |
| Simulation.ControlSystemSimulation.constructor | code/hooks/fuzzy_controller.py:198 | a new simulation holds the given system with empty input and output dictionaries |
| Simulation.ControlSystemSimulation.SetInput | code/fuzzy_controller.py:108-110 | assigning an input stores its value saturated into the input's universe and changes no other entry and no output |
| Simulation.ControlSystemSimulation.Compute | code/hooks/fuzzy_controller.py:224 | the inputs are kept; on success the output dictionary becomes the run's result, on failure the error is returned |
| Controller.SystemWellFormed | code/hooks/fuzzy_controller.py:7-77 | every clause of the fifteen rules is a set of its input, every conclusion a set of its output, and every output peak is a grid point |
| Controller.RulesDeclared | code/hooks/fuzzy_controller.py:84-171 | each rule's clauses and conclusions are declared sets of their variables |
| Controller.PeaksOnMultiplierGrid | code/hooks/fuzzy_controller.py:15-16 | every output set peaks on a point of 0.4, 0.41, …, 1.6 |
| Controller.SetsOrdered | code/hooks/fuzzy_controller.py:22-77 | every input and output set has ordered breakpoints |
| Controller.AllRulesNameBothOutputs | code/hooks/fuzzy_controller.py:84-171 | every one of the fifteen rules names a set of enemy damage and a set of enemy health |
| Controller.SystemUniform | code/hooks/fuzzy_controller.py:84-198 | the current table is well formed and every rule names both outputs |
| Controller.ClippedReading | code/hooks/fuzzy_controller.py:219-221 | the three inputs after np.clip lie in [0, 100], [0, 10] and [0, 600], are kept when already inside, become 0 below and 100, 10 or 600 above, and are left unchanged by the library's own saturation |
| Controller.Fallback | code/hooks/fuzzy_controller.py:228-257 | any failure gives (1.0, 1.0); on success each output is kept when present and finite and otherwise replaced by 1.0, independently of the other |
| Controller.AdjustDifficulty | code/hooks/fuzzy_controller.py:201-257 | both multipliers lie in [0.4, 1.6]; they are the two centroids of the saturated inputs when some rule fires, and (1.0, 1.0) when none does |
| Controller.CheckDdaAdjustDifficulty | code/hooks/fuzzy_controller.py:201-257 | writes the three saturated inputs into the simulation; its output dictionary becomes the run's result when the run succeeds and is kept otherwise; returns exactly what AdjustDifficulty states |
| Controller.FallbackOutcome | code/hooks/fuzzy_controller.py:224-257 | in a table whose every rule names both outputs, the wrapper returns the two centroids when a rule fires and (1.0, 1.0) otherwise |
| Controller.OutcomeWhenSilent | code/hooks/fuzzy_controller.py:245-257 | when no rule fires, the run's failure is turned into (1.0, 1.0) |
| Controller.OutcomeWhenFiring | code/hooks/fuzzy_controller.py:224-243 | when a rule fires, both outputs have values and the wrapper returns them |
| Controller.MultiplierInRange | code/hooks/fuzzy_controller.py:15-16 | a defined multiplier lies in [0.4, 1.6] |
| Controller.OutcomeInRange | code/hooks/fuzzy_controller.py:15-16 | whatever the run, the wrapper's multipliers lie in [0.4, 1.6] |
| Controller.ClippingIsInvisible | code/hooks/fuzzy_controller.py:219-221 | an out-of-range input gives the same multipliers as its saturated value |
| Controller.FullHealthOutsideEverySet | code/hooks/fuzzy_controller.py:22-24 | health 100 has degree 0 in every health set |
| Controller.ZeroHealthOutsideEverySet | code/hooks/fuzzy_controller.py:22-24 | health 0 has degree 0 in every health set |
| Controller.NoDeathsOutsideEverySet | code/hooks/fuzzy_controller.py:27-29 | zero deaths has degree 0 in every deaths set |
| Controller.HealthFreeRules | code/hooks/fuzzy_controller.py:84-171 | rules 6, 7 and 14 are the only rules without a health clause, and each of them has a deaths clause |
| Controller.EveryRuleMentionsHealthOrDeaths | code/hooks/fuzzy_controller.py:84-171 | every rule has a health clause or a deaths clause |
| Controller.FullHealthNoDeathsFiresNothing | code/hooks/fuzzy_controller.py:22-29 | at health 100 with no deaths no rule fires |
| Controller.PerfectRunFiresNothing | code/hooks/fuzzy_controller.py:22-29 | for health of 100 or more and no deaths, no rule fires at any completion time and the multipliers are (1.0, 1.0) |
| Controller.AtZeroHealthOnlyHealthFreeRulesFire | code/hooks/fuzzy_controller.py:22-24 | at health 0 or below only rules 6, 7 and 14 can have positive strength |
| Controller.ThreeClauseRulesTakeMinimum | code/hooks/fuzzy_controller.py:138-153 | rules 10 to 12 fire with the least of their three clause degrees |
| Controller.ThreeClauseMinimum | code/hooks/fuzzy_controller.py:138-153 | a health, deaths and time antecedent fires with the least of its three degrees |
| EarlyController.SystemWellFormed | code/fuzzy_controller.py:7-88 | the nine rules use only declared sets and every output peak is a grid point |
| EarlyController.RulesDeclared | code/fuzzy_controller.py:51-85 | each rule's clauses and conclusions are declared sets of their variables |
| EarlyController.PeaksOnMultiplierGrid | code/fuzzy_controller.py:15-16 | every output set peaks on a point of 0.5, 0.51, …, 1.5 |
| EarlyController.Stored | code/fuzzy_controller.py:108-110 | the reading the simulation holds for the raw inputs lies in [0, 100], [0, 10] and [0, 600], and equals the raw inputs when they are inside |
| EarlyController.Lookup | code/fuzzy_controller.py:115 | a failed run passes its error on; a missing output is a MissingOutput error (damage checked first); otherwise both stored values are returned unchanged |
| EarlyController.AdjustDifficulty | code/fuzzy_controller.py:92-115 | on the inputs as stored, the result succeeds if and only if some rule reaches each output, and the pair is then the two centroids on those inputs, finite and in [0.5, 1.5]; otherwise it is the "no rule fired" error of the first unreached output |
| EarlyController.RunFacts | code/fuzzy_controller.py:108-115 | the run behind AdjustDifficulty succeeds if and only if both outputs are reached, and then holds both outputs with values in [0.5, 1.5] |
| EarlyController.SaturationIsInvisible | code/fuzzy_controller.py:108-110 | an out-of-range input gives the same result as the bound of its universe |
| EarlyController.CheckDdaAdjustDifficulty | code/fuzzy_controller.py:92-115 | writes the three raw inputs into the simulation (which saturates them); its output dictionary becomes the run's result when the run succeeds and is kept otherwise; returns exactly AdjustDifficulty's result, so the two centroids on success |
| EarlyController.SingleClauseRuleStrength | code/fuzzy_controller.py:64-65 | rule 4 fires exactly to the degree that deaths are moderate |
| EarlyController.ShouldersReachOne | code/fuzzy_controller.py:20-35 | the shoulder sets have degree 1 at the ends of their universes |
| EarlyController.DamageDecreaseRules | code/fuzzy_controller.py:52-69 | rules 1 and 5 are the only rules naming damage "decrease" |
| EarlyController.SharedSetTakesMaximum | code/fuzzy_controller.py:52-69 | damage "decrease" is activated to the larger of the strengths of rules 1 and 5 |
| EarlyController.OnlyDamageRuleFires | code/fuzzy_controller.py:60-81 | at health 20, no deaths and time 0 damage is reached but health is not, so the call fails for enemy health |
| EarlyController.Rule7Fires | code/fuzzy_controller.py:75-77 | at health 20, no deaths and time 0 rule 7 fires, reaching damage |
| EarlyController.OthersSilent | code/fuzzy_controller.py:51-85 | at health 20, no deaths and time 0 no rule naming enemy health fires |
| Timing.EventTimer.constructor | code/EventTimer.py:4-6 | a fresh timer is not running and reads 0 at every tick |
| Timing.EventTimer.IsRunning | code/EventTimer.py:25-26 | running means started and not stopped since |
| Timing.EventTimer.Duration | code/EventTimer.py:16-22 | the reading is 0 before any start, (now − start)/1000 while running, and (end − start)/1000 once stopped |
| Timing.EventTimer.Start | code/EventTimer.py:8-10 | the start becomes the current tick and the end is cleared, so the timer runs and reads 0 |
| Timing.EventTimer.Stop | code/EventTimer.py:12-14 | a timer never started is unchanged; any other gets the current tick as end (overwriting an earlier one) and stops, and a running one keeps the reading it had at that tick |
| Timing.StoppedReadingIsFixed | code/EventTimer.py:21-22 | a timer that is not running reads the same at every tick |
| PlayerState.NewMultipliers | code/player.py:111-118 | the capped controller's multipliers when DDA is on, (1.0, 1.0) when it is off |
| PlayerState.Arsenal.constructor | code/player.py:16 | the initial weapons dictionary owns the knife only |
| PlayerState.GameStats.constructor | code/hook_objects.py:7 | stand-in for the `GameStats()` built here (its class is not part of this model): the statistics start with no deaths and health 0, a starting value the model chooses |
| PlayerState.GameStats.IncrementDeath | code/player.py:96 | one more death, health unchanged |
| PlayerState.GameStats.SetHealth | code/player.py:97-99 | the stored health is set, deaths unchanged |
| PlayerState.WeaponView.constructor | code/player.py:163 | stand-in for the weapon object the player updates here (it is built outside the modelled files): the view shows the weapon it is given |
| PlayerState.Door.constructor | code/player.py:224-228 | stand-in for the door objects read here (they are built outside the modelled files): a door knows whether it is a key door and starts closed and not moving, a starting state the model chooses |
| PlayerState.PlayerAttribs.constructor | code/player.py:13-20 | initial health and ammo, a new weapons dictionary owning the knife only, knife held, level 0, multipliers 1.0 |
| PlayerState.PlayerAttribs.Update | code/player.py:22-26 | copies health, ammo, the weapons dictionary (shared) and the held weapon; level and multipliers are untouched |
| PlayerState.Player.constructor | code/player.py:30-57 | a player starts from the engine's attributes and shares their weapons dictionary, with no key and no shot in progress |
| PlayerState.Player.SwitchWeapon | code/player.py:161-163 | the held (and shown) weapon becomes w if and only if w is owned; nothing else changes |
| PlayerState.Player.DoShot | code/player.py:165-181 | a knife attack never changes ammo; a firearm shot uses ammo only with ammo left, no shot in progress and at least one shot's worth, and ammo never goes below 0; otherwise nothing changes |
| PlayerState.Player.PickUpItem | code/player.py:186-215 | no item on the tile changes nothing, the shown weapon included; otherwise the tile's item (only) is removed, a med kit or ammo adds up to its cap (never lowering a value within it, never exceeding the cap), a new pistol or rifle is owned, held and shown, a known one changes nothing, and a key is taken |
| PlayerState.Player.CheckHealth | code/player.py:93-145 | at health 0 or below: one more death, health 0 in the statistics, initial health and ammo for the next life, new multipliers computed at health 0, weapons and level kept, and a new game; otherwise nothing changes |
| PlayerState.Player.InteractWithDoor | code/player.py:217-321 | no door on the faced tile changes nothing; a key door with the key toggles, stores new multipliers, and ends the game exactly when the level counter reaches the number of levels and otherwise starts a new game; any other door starts moving and its new multipliers are stored in the player and the attributes; the total timer is untouched unless the game ends |
| PlayerState.Player.CompleteLevel | code/player.py:226-284 | the key door toggles; health, ammo and weapons are saved with new multipliers; the counter advances and either equals the number of levels (game over, both timers stopped) or stays below it (new game, level timer restarted at 0, total timer untouched) |
| PlayerState.Player.OpenDoor | code/player.py:285-321 | new multipliers from the current health are stored in both the attributes and the player, state is saved, the door starts moving, and the level counter is kept |
| PlayerState.Max0 | code/player.py:178-179 | max(0, x) is x when x is non-negative and 0 otherwise |
| Levels.World.constructor | code/level_handler.py:18-24 | stand-in for the game fields written here (the game object is built outside the modelled files): starts with the given layout, empty maps and NPC containers, no spawn requests and the player at (0, 0), a starting state the model chooses |
| Levels.LevelHandler.constructor | code/level_handler.py:6-12 | two levels, with the current level at 0 |
| Levels.LevelHandler.LoadLevel | code/level_handler.py:14-24 | the map takes the current level's layout, the world map and both NPC containers are cleared, exactly the level's enemy count is requested, and the player is placed at the level's start |
| Levels.LevelHandler.NextLevel | code/level_handler.py:26-28 | the index moves to (index + 1) mod the number of levels and stays in range, and that level is loaded: its layout, an emptied world map, emptied NPC containers, its spawn request and its start position |
| Levels.LevelHandler.RestartLevel | code/level_handler.py:30-31 | the index is unchanged and the current level is loaded again: its layout, an emptied world map, emptied NPC containers, its spawn request and its start position |
| Levels.NextIndex | code/level_handler.py:27 | the successor index stays in range: the next index, or 0 after the last |

## Left out

- Fuzzy.Centroid: the library computes the area centroid of the piecewise-linear aggregate curve. The model uses the discrete sum `Σ x·μ / Σ μ` over the sample points, so crisp values can differ slightly. Both lie in the universe, and both are missing exactly when the curve is zero.
- Fuzzy.Degree: the library interpolates each input set sampled on the integer universe. The model evaluates the triangle at the input itself. These agree inside the universe, because every input breakpoint is an integer.
- Grid points are exact decimals. The floating-point values of `np.arange(0.4, 1.61, 0.01)` and `np.arange(0.5, 1.51, 0.01)` are not modelled.
- Simulation.ControlSystemSimulation.Compute:
  - A failed run leaves the output dictionary as it was. The library may already have written an earlier output.
  - On a double failure the model reports enemy damage first.
- The engine yields only finite values. Non-finite numpy floats appear only as the abstract `NonFinite` case the wrapper guards against.
- check_DDA_adjust_difficulty_capped is not among the modelled files, so it is an opaque function parameter of the player methods.
- These files are not part of this model, so their parts are stand-ins:
  - hooks/game_stats.py: the statistics are two counters with increment and set;
  - settings.py: its constants are a `Settings` parameter;
  - map.py: the two layouts appear only by name.
- The weapon, door and game objects are built outside the modelled files. PlayerState.WeaponView, PlayerState.Door and Levels.World are stand-ins for them, and their constructors' starting values are the model's choice.
- Sound, logging (hooks/logger.py, hook_objects.py), `print` warnings and the `__main__` demos are left out.
- Ray casting, the random miss test in `check_hit_on_npc`, mouse and keyboard control, `move`, `is_collide`, `update_tile_position` and the mouse-wheel weapon cycle are left out. They are engine and input code.
- `pg.time.wait`, `pg.quit` and `sys.exit` are replaced by the `quit` flag, and `new_game` by the `newGame` flag.
- PlayerState.Player.InteractWithDoor:
  - The faced tile is computed from the float camera position, so it is a parameter.
  - Every clock read within one call sees the same tick `now`. The source waits 300 ms between stopping the level timer and reading the total timer.
  - Its contract states the dispatch and the main effects of each branch. The full effects are stated on CompleteLevel and OpenDoor.
- The player's item and door maps are fields of the player. Their sharing with the level map object is not modelled.
- The player's two timers are `hooks.event_timer.EventTimer` objects (code/hook_objects.py:9-10). That file is not part of this model, so they are modelled by Timing.EventTimer on the assumption that it behaves like code/EventTimer.py.
- The key is a boolean. The source's `None` and `1` are the two values a key can hold.
- Items have only the five kinds the pickup code handles.
- Levels.LevelHandler.LoadLevel:
  - Rebuilding the world map from the layout (`get_map`) is not modelled.
  - Spawning the NPCs (`spawn_npc_custom`) is foreign code. The load records the requested count instead.
