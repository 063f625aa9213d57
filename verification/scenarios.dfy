/** Flight sequences driven the way the integrator and the mission sequencer
    drive a fresh rocket. The environment advances the burn clock by writing
    the field directly, as the mission clock does. */
module FlightScenarios {
  import opened RocketMath
  import opened ForRocket

  /** Two configured increments [a, b]: the deployed total after the first
      four deployments is a, a+b, a+b, a+b while the counter reaches 4. */
  method TwoStageParachute(a: real, b: real) returns (totals: seq<real>, count: nat)
    ensures totals == [a, a + b, a + b, a + b]
    ensures count == 4
  {
    var rocket := new Rocket();
    rocket.SetCdSParachutePair(a, b);
    rocket.OpenParachute();
    var first := rocket.CdSParachute;
    rocket.OpenParachute();
    var second := rocket.CdSParachute;
    rocket.OpenParachute();
    var third := rocket.CdSParachute;
    rocket.OpenParachute();
    var fourth := rocket.CdSParachute;
    totals := [first, second, third, fourth];
    count := rocket.countOpenParachute;
  }

  /** Constant powered and burnout axial-drag tables 0.3 and 0.5: the
      coefficient is 0.3 before cutoff and 0.5 after it, at the same Mach number. */
  method AxialDragSwitchesAtCutoff(machNumber: real, burnTime: real) returns (powered: real, coasting: real)
    ensures powered == 0.3
    ensures coasting == 0.5
  {
    var rocket := new Rocket();
    rocket.SetCAWithBurnout(m => 0.3, m => 0.5);
    rocket.IgnitionEngine(0.0, 0.0);
    rocket.burnClock := rocket.burnClock.(countupTime := burnTime);
    powered := rocket.GetCA(machNumber);
    rocket.CutoffEngine();
    coasting := rocket.GetCA(machNumber);
  }

  /** The centre of gravity and the inertia tensor resolved at the last
      burning instant are returned again after cutoff, whatever the clock
      says later; the tensor stays diagonal. */
  method MassPropertiesFreezeAtCutoff(cg: real -> real, xx: real -> real, yy: real -> real, zz: real -> real,
                                      burnTime: real, laterTime: real)
    returns (cgBurning: real, cgAfter: real, tensorBurning: Matrix3, tensorAfter: Matrix3)
    ensures cgBurning == cg(burnTime) && cgAfter == cgBurning
    ensures tensorBurning == Diagonal(xx(burnTime), yy(burnTime), zz(burnTime))
    ensures tensorAfter == tensorBurning && IsDiagonal(tensorAfter)
  {
    var rocket := new Rocket();
    rocket.SetLengthCG(cg);
    rocket.SetInertiaTensor(xx, yy, zz);
    rocket.IgnitionEngine(0.0, burnTime);
    cgBurning := rocket.GetLengthCG();
    tensorBurning := rocket.GetInertiaTensor();
    rocket.CutoffEngine();
    rocket.burnClock := rocket.burnClock.(countupTime := laterTime);
    cgAfter := rocket.GetLengthCG();
    tensorAfter := rocket.GetInertiaTensor();
  }

  /** A damping derivative resolved twice at the same Mach number gives the
      same non-positive value. */
  method DampingIsRepeatable(raw: real -> real, machNumber: real) returns (first: real, second: real)
    ensures first == second && first <= 0.0
    ensures Abs(first) == Abs(raw(machNumber))
  {
    var rocket := new Rocket();
    rocket.SetClp(raw);
    first := rocket.GetClp(machNumber);
    second := rocket.GetClp(machNumber);
  }

  /** Jettisoning the fairing and then separating the upper stage keeps the
      inert mass positive and matches the clamp applied twice. */
  method StagingKeepsInertMassPositive(inert: real, fairing: real, upperStage: real) returns (final: real)
    ensures final > 0.0
    ensures final == InertAfter(inert, [fairing, upperStage])
  {
    var rocket := new Rocket();
    rocket.mass := rocket.mass.(inert := inert);
    rocket.JettsonFairing(fairing);
    rocket.SeparateUpperStage(upperStage);
    final := rocket.mass.inert;
    assert [fairing][..0] == [];
    assert InertAfter(inert, [fairing]) == ClampInert(inert, fairing);
    assert [fairing, upperStage][..1] == [fairing];
  }
}
