/** The taxi fuel component of the GASP-based mission
    (aviary/mission/gasp_based/phases/taxi_component.py): fuel burnt while
    taxiing and the mass left for takeoff, with their partial derivatives.
    Arithmetic is on reals; floating-point rounding is not modelled. */
module Taxi {

  // Variable names of the component.
  const FuelFlowRateNegativeTotal := "fuel_flow_rate_negative_total"
  const GrossMass := "mission:summary:gross_mass"
  const TaxiFuelConsumed := "taxi_fuel_consumed"
  const Mass := "mass"

  /** The inputs in declaration order: the order in which `inputs.values()` yields them. */
  const InputNames: seq<string> := [FuelFlowRateNegativeTotal, GrossMass]

  /** Fuel burnt while taxiing: the fuel-flow input counts consumption as a
      negative rate, so the fuel is minus the rate times the duration, and a
      consuming engine (non-positive rate) over a non-negative duration burns a
      non-negative amount. */
  function TaxiFuel(fuelFlow: real, duration: real): (fuel: real)
    ensures fuelFlow <= 0.0 && duration >= 0.0 ==> fuel >= 0.0
    ensures fuelFlow == 0.0 || duration == 0.0 ==> fuel == 0.0
  {
    -fuelFlow * duration
  }

  /** Mass after taxi: the gross mass less the taxi fuel. It never exceeds the
      gross mass while fuel is being consumed. */
  function MassAfterTaxi(grossMass: real, fuelFlow: real, duration: real): (mass: real)
    ensures mass + TaxiFuel(fuelFlow, duration) == grossMass
    ensures fuelFlow <= 0.0 && duration >= 0.0 ==> mass <= grossMass
  {
    grossMass - TaxiFuel(fuelFlow, duration)
  }

  /** The partials declared in `setup`; only the one of mass with respect to
      gross mass has a value there, the constant 1. */
  const DeclaredPartials: set<(string, string)> :=
    {(TaxiFuelConsumed, FuelFlowRateNegativeTotal), (Mass, FuelFlowRateNegativeTotal), (Mass, GrossMass)}

  /** The Jacobian as `setup` leaves it: the constant partial only. */
  function SetupJacobian(): map<(string, string), real> {
    map[(Mass, GrossMass) := 1.0]
  }

  /** The fuel is linear in the flow rate, with slope `-duration`: the value
      `compute_partials` stores for it. */
  lemma FuelSlope(fuelFlow: real, h: real, duration: real)
    ensures TaxiFuel(fuelFlow + h, duration) - TaxiFuel(fuelFlow, duration) == -duration * h
  {
    calc {
      TaxiFuel(fuelFlow + h, duration) - TaxiFuel(fuelFlow, duration);
      -(fuelFlow + h) * duration + fuelFlow * duration;
      { assert (fuelFlow + h) * duration == fuelFlow * duration + h * duration; }
      -duration * h;
    }
  }

  /** The mass is linear in the flow rate with slope `duration`, and in the gross
      mass with slope 1; the fuel does not depend on the gross mass at all,
      which is why no partial of fuel with respect to gross mass is declared. */
  lemma MassSlopes(grossMass: real, fuelFlow: real, h: real, duration: real)
    ensures MassAfterTaxi(grossMass, fuelFlow + h, duration) - MassAfterTaxi(grossMass, fuelFlow, duration) == duration * h
    ensures MassAfterTaxi(grossMass + h, fuelFlow, duration) - MassAfterTaxi(grossMass, fuelFlow, duration) == 1.0 * h
  {
    FuelSlope(fuelFlow, h, duration);
  }

  /** An output vector of the component, written entry by entry. */
  class Outputs {
    var values: map<string, real>

    constructor (values: map<string, real>)
      ensures this.values == values
    {
      this.values := values;
    }
  }

  /** The partial-derivative store of the component, written entry by entry. */
  class Jacobian {
    var entries: map<(string, string), real>

    constructor (entries: map<(string, string), real>)
      ensures this.entries == entries
    {
      this.entries := entries;
    }
  }

  /** `TaxiFuelComponent`: its one option is the taxi duration, a
      `(value, units)` pair in seconds, of which only the value is used. */
  class TaxiFuelComponent {
    const duration: (real, string)

    constructor (duration: (real, string))
      ensures this.duration == duration
    {
      this.duration := duration;
    }

    /** `compute`: `inputs` holds the input values in declaration order (fuel
        flow, then gross mass). The fuel output is written first and read back
        to compute the mass; every other output entry is kept. */
    method Compute(inputs: seq<real>, outputs: Outputs)
      requires |inputs| == |InputNames|
      modifies outputs
      ensures outputs.values == old(outputs.values)
        [TaxiFuelConsumed := TaxiFuel(inputs[0], duration.0)]
        [Mass := MassAfterTaxi(inputs[1], inputs[0], duration.0)]
    {
      var fuelFlow, takeoffMass := inputs[0], inputs[1];
      var dtTaxi := duration.0;
      outputs.values := outputs.values[TaxiFuelConsumed := -fuelFlow * dtTaxi];
      outputs.values := outputs.values[Mass := takeoffMass - outputs.values[TaxiFuelConsumed]];
    }

    /** `compute_partials`: the two flow-rate partials are written, every other
        entry (the constant partial among them) is kept. */
    method ComputePartials(inputs: seq<real>, jacobian: Jacobian)
      requires |inputs| == |InputNames|
      modifies jacobian
      ensures jacobian.entries == old(jacobian.entries)
        [(TaxiFuelConsumed, FuelFlowRateNegativeTotal) := -duration.0]
        [(Mass, FuelFlowRateNegativeTotal) := duration.0]
    {
      var dtTaxi := duration.0;
      jacobian.entries := jacobian.entries[(TaxiFuelConsumed, FuelFlowRateNegativeTotal) := -dtTaxi];
      jacobian.entries := jacobian.entries[(Mass, FuelFlowRateNegativeTotal) := dtTaxi];
    }
  }

  /** The Jacobian after `setup` and `compute_partials`. */
  function Partials(duration: real): map<(string, string), real> {
    SetupJacobian()
      [(TaxiFuelConsumed, FuelFlowRateNegativeTotal) := -duration]
      [(Mass, FuelFlowRateNegativeTotal) := duration]
  }

  /** The Jacobian holds exactly the declared partials, and each entry times a
      step in its input is the change of its output under that step: the
      derivatives are those of the compute formulas. */
  lemma PartialsAreDerivatives(duration: real, grossMass: real, fuelFlow: real, h: real)
    ensures Partials(duration).Keys == DeclaredPartials
    ensures Partials(duration)[(TaxiFuelConsumed, FuelFlowRateNegativeTotal)] * h
      == TaxiFuel(fuelFlow + h, duration) - TaxiFuel(fuelFlow, duration)
    ensures Partials(duration)[(Mass, FuelFlowRateNegativeTotal)] * h
      == MassAfterTaxi(grossMass, fuelFlow + h, duration) - MassAfterTaxi(grossMass, fuelFlow, duration)
    ensures Partials(duration)[(Mass, GrossMass)] * h
      == MassAfterTaxi(grossMass + h, fuelFlow, duration) - MassAfterTaxi(grossMass, fuelFlow, duration)
  {
    FuelSlope(fuelFlow, h, duration);
    MassSlopes(grossMass, fuelFlow, h, duration);
  }

  /** Running `compute_partials` on the Jacobian left by `setup` gives `Partials`. */
  method SetupAndComputePartials(component: TaxiFuelComponent, inputs: seq<real>) returns (jacobian: Jacobian)
    requires |inputs| == |InputNames|
    ensures jacobian.entries == Partials(component.duration.0)
  {
    jacobian := new Jacobian(SetupJacobian());
    component.ComputePartials(inputs, jacobian);
  }
}
