/**
  The control-system simulation object both controllers keep at module
  level: a fixed rule system, an input dictionary the caller writes before
  each run, and an output dictionary that compute() fills.
*/
module Simulation {
  import opened Wrappers
  import opened Fuzzy

  class ControlSystemSimulation {
    const system: ControlSystem
    var input: map<InputVar, real>
    var output: map<OutputVar, Crisp>

    constructor (system: ControlSystem)
      ensures this.system == system && input == map[] && output == map[]
    {
      this.system := system;
      input := map[];
      output := map[];
    }

    /**
      `sim.input[v] = x`: the value is saturated into the input's universe
      (the library's default clip_to_bounds) before it is stored.
    */
    method SetInput(v: InputVar, x: real)
      requires InputBounds(system)
      modifies this
      ensures input == old(input)[v := Clip(x, In(system, v).lo, In(system, v).hi)]
      ensures output == old(output)
    {
      input := input[v := Clip(x, In(system, v).lo, In(system, v).hi)];
    }

    /**
      Runs the inference on the current inputs. On success the output
      dictionary holds the crisp value of every output; on failure the error
      is returned (the library raises it) and the outputs are left as they were.
    */
    method Compute() returns (failure: Option<Error>)
      modifies this
      ensures input == old(input)
      ensures failure.None? <==> Simulate(system, input).Success?
      ensures failure.None? ==> output == Simulate(system, input).value
      ensures failure.Some? ==> failure.value == Simulate(system, input).error && output == old(output)
    {
      var run := Simulate(system, input);
      if run.Success? {
        output := run.value;
        failure := None;
      } else {
        failure := Some(run.error);
      }
    }
  }
}
