/** The rocket state-and-parameter model: interpolation sources, the cached
    values the getters resolve from them, mass and geometry, the attitude
    state slots, the parachute configuration, and the sequence-of-events
    handlers that change them. Every method names in its `modifies` clause
    exactly the fields it writes, so every other field is unchanged. */
module ForRocket {
  import opened RocketMath

  class Rocket {
    // Geometry and structure.
    var lengthThrust: real
    var diameter: real
    var area: real
    var length: real
    var inertiaTensor: Matrix3
    var cantAngleFin: real

    var dynamicPressure: real

    // Attitude state slots, written by the integrator.
    var quaternionDot: Vector4
    var angularVelocity: Vector3
    var angularAcceleration: Vector3
    var angleOfAttack: real
    var sideslipAngle: real

    // Interpolation sources: each an opaque lookup of time or Mach number.
    var lengthCGSrc: real -> real
    var lengthCPSrc: real -> real
    var CASrc: real -> real
    var CABurnoutSrc: real -> real
    var CNaSrc: real -> real
    var CldSrc: real -> real
    var ClpSrc: real -> real
    var CmqSrc: real -> real
    var CnrSrc: real -> real
    var inertiaMomentXXSrc: real -> real
    var inertiaMomentYYSrc: real -> real
    var inertiaMomentZZSrc: real -> real
    var azimuthProgramSrc: real -> real
    var elevationProgramSrc: real -> real
    var rollProgramSrc: real -> real

    // Values last resolved by the getters.
    var lengthCG: real
    var lengthCP: real
    var CA: real
    var CNa: real
    var Cld: real
    var Clp: real
    var Cmq: real
    var Cnr: real

    // Collaborator state and staging state.
    var engine: Engine
    var burnClock: SequenceClock
    var mass: Mass
    var CdSParachuteSrc: seq<real>
    var CdSParachute: real
    var countOpenParachute: nat

    /** Object invariant: the off-diagonal terms of the inertia tensor are zero. */
    ghost predicate Valid()
      reads this
    {
      IsDiagonal(inertiaTensor)
    }

    function ParachuteState(): Parachute
      reads this
    {
      Parachute(CdSParachute, countOpenParachute)
    }

    /** Geometry, the tensor and the attitude slots start at zero, as do the
        parachute configuration and the mass. Sources, caches, the engine and
        the clock are left unconstrained. */
    constructor ()
      ensures Valid()
      ensures lengthThrust == 0.0 && diameter == 0.0 && area == 0.0 && length == 0.0
      ensures inertiaTensor == ZeroMatrix3 && cantAngleFin == 0.0 && dynamicPressure == 0.0
      ensures quaternionDot == Zero4 && angularVelocity == Zero3 && angularAcceleration == Zero3
      ensures angleOfAttack == 0.0 && sideslipAngle == 0.0
      ensures CdSParachuteSrc == [] && ParachuteState() == Parachute(0.0, 0)
      ensures mass == Mass(0.0, 0.0)
    {
      lengthThrust := 0.0;
      diameter := 0.0;
      area := 0.0;
      length := 0.0;
      inertiaTensor := ZeroMatrix3;
      cantAngleFin := 0.0;
      dynamicPressure := 0.0;
      quaternionDot := Zero4;
      angularVelocity := Zero3;
      angularAcceleration := Zero3;
      angleOfAttack := 0.0;
      sideslipAngle := 0.0;
      CdSParachuteSrc := [];
      CdSParachute := 0.0;
      countOpenParachute := 0;
      mass := Mass(0.0, 0.0);
    }

    // Parameter setters.

    method SetLengthCG(src: real -> real)
      modifies this`lengthCGSrc
      ensures lengthCGSrc == src
    {
      lengthCGSrc := src;
    }

    method SetLengthCP(src: real -> real)
      modifies this`lengthCPSrc
      ensures lengthCPSrc == src
    {
      lengthCPSrc := src;
    }

    /** Sets the powered axial-drag source only; the burnout source keeps its value. */
    method SetCA(src: real -> real)
      modifies this`CASrc
      ensures CASrc == src
    {
      CASrc := src;
    }

    method SetCAWithBurnout(src: real -> real, burnoutSrc: real -> real)
      modifies this`CASrc, this`CABurnoutSrc
      ensures CASrc == src && CABurnoutSrc == burnoutSrc
    {
      CASrc := src;
      CABurnoutSrc := burnoutSrc;
    }

    method SetCNa(src: real -> real)
      modifies this`CNaSrc
      ensures CNaSrc == src
    {
      CNaSrc := src;
    }

    method SetCld(src: real -> real)
      modifies this`CldSrc
      ensures CldSrc == src
    {
      CldSrc := src;
    }

    method SetClp(src: real -> real)
      modifies this`ClpSrc
      ensures ClpSrc == src
    {
      ClpSrc := src;
    }

    method SetCmq(src: real -> real)
      modifies this`CmqSrc
      ensures CmqSrc == src
    {
      CmqSrc := src;
    }

    method SetCnr(src: real -> real)
      modifies this`CnrSrc
      ensures CnrSrc == src
    {
      CnrSrc := src;
    }

    /** Sets the three principal-moment sources; the cached tensor is untouched. */
    method SetInertiaTensor(xx: real -> real, yy: real -> real, zz: real -> real)
      modifies this`inertiaMomentXXSrc, this`inertiaMomentYYSrc, this`inertiaMomentZZSrc
      ensures inertiaMomentXXSrc == xx && inertiaMomentYYSrc == yy && inertiaMomentZZSrc == zz
    {
      inertiaMomentXXSrc := xx;
      inertiaMomentYYSrc := yy;
      inertiaMomentZZSrc := zz;
    }

    method SetAttitudeProgram(azimuth: real -> real, elevation: real -> real, roll: real -> real)
      modifies this`azimuthProgramSrc, this`elevationProgramSrc, this`rollProgramSrc
      ensures azimuthProgramSrc == azimuth && elevationProgramSrc == elevation && rollProgramSrc == roll
    {
      azimuthProgramSrc := azimuth;
      elevationProgramSrc := elevation;
      rollProgramSrc := roll;
    }

    /** Appends one drag-area increment; earlier increments keep their order. */
    method SetCdSParachute(first: real)
      modifies this`CdSParachuteSrc
      ensures CdSParachuteSrc == old(CdSParachuteSrc) + [first]
    {
      CdSParachuteSrc := CdSParachuteSrc + [first];
    }

    /** Appends two drag-area increments, first before second. */
    method SetCdSParachutePair(first: real, second: real)
      modifies this`CdSParachuteSrc
      ensures CdSParachuteSrc == old(CdSParachuteSrc) + [first, second]
    {
      CdSParachuteSrc := CdSParachuteSrc + [first];
      CdSParachuteSrc := CdSParachuteSrc + [second];
    }

    // Parameter getters.

    /** Re-evaluated at the burn clock while burning; otherwise the frozen cached value. */
    method GetLengthCG() returns (r: real)
      modifies this`lengthCG
      ensures r == lengthCG
      ensures engine.burning ==> r == lengthCGSrc(burnClock.countupTime)
      ensures !engine.burning ==> lengthCG == old(lengthCG)
    {
      if engine.burning {
        lengthCG := lengthCGSrc(burnClock.countupTime);
      }
      r := lengthCG;
    }

    method GetLengthCP(machNumber: real) returns (r: real)
      modifies this`lengthCP
      ensures r == lengthCP == lengthCPSrc(machNumber)
    {
      lengthCP := lengthCPSrc(machNumber);
      r := lengthCP;
    }

    /** Reads the powered table while burning and the burnout table otherwise. */
    method GetCA(machNumber: real) returns (r: real)
      modifies this`CA
      ensures r == CA
      ensures engine.burning ==> r == CASrc(machNumber)
      ensures !engine.burning ==> r == CABurnoutSrc(machNumber)
    {
      if engine.burning {
        CA := CASrc(machNumber);
      } else {
        CA := CABurnoutSrc(machNumber);
      }
      r := CA;
    }

    method GetCNa(machNumber: real) returns (r: real)
      modifies this`CNa
      ensures r == CNa == CNaSrc(machNumber)
    {
      CNa := CNaSrc(machNumber);
      r := CNa;
    }

    method GetCld(machNumber: real) returns (r: real)
      modifies this`Cld
      ensures r == Cld == CldSrc(machNumber)
    {
      Cld := CldSrc(machNumber);
      r := Cld;
    }

    /** Roll damping: never positive, with the magnitude of the raw value. */
    method GetClp(machNumber: real) returns (r: real)
      modifies this`Clp
      ensures r == Clp == NonPositive(ClpSrc(machNumber))
      ensures r <= 0.0
    {
      Clp := ClpSrc(machNumber);
      if Clp > 0.0 {
        Clp := Clp * -1.0;
      }
      r := Clp;
    }

    /** Pitch damping: never positive, with the magnitude of the raw value. */
    method GetCmq(machNumber: real) returns (r: real)
      modifies this`Cmq
      ensures r == Cmq == NonPositive(CmqSrc(machNumber))
      ensures r <= 0.0
    {
      Cmq := CmqSrc(machNumber);
      if Cmq > 0.0 {
        Cmq := Cmq * -1.0;
      }
      r := Cmq;
    }

    /** Yaw damping: never positive, with the magnitude of the raw value. */
    method GetCnr(machNumber: real) returns (r: real)
      modifies this`Cnr
      ensures r == Cnr == NonPositive(CnrSrc(machNumber))
      ensures r <= 0.0
    {
      Cnr := CnrSrc(machNumber);
      if Cnr > 0.0 {
        Cnr := Cnr * -1.0;
      }
      r := Cnr;
    }

    /** The propulsion model first updates the engine (an arbitrary new
        engine state here); not burning afterwards gives the zero vector. */
    method GetThrust(airPressure: real) returns (thrust: Vector3)
      modifies this`engine
      ensures !engine.burning ==> thrust == Zero3
      ensures engine.burning ==> thrust == Scale(engine.thrust, GimbalFactors(engine.gimbalAngleY, engine.gimbalAngleZ))
    {
      EngineUpdate(burnClock.countupTime, airPressure, mass.propellant);
      if engine.burning {
        var factors := GimbalFactors(engine.gimbalAngleY, engine.gimbalAngleZ);
        thrust := Scale(engine.thrust, factors);
      } else {
        thrust := Zero3;
      }
    }

    /** The propulsion model's update, whose internals are not part of this
        model: any new burning flag, thrust and gimbal angles. */
    method EngineUpdate(countupTime: real, airPressure: real, propellant: real)
      modifies this`engine
    {
      engine := *;
    }

    /** While burning, a fresh diagonal tensor from the three moment sources at
        the burn clock is cached and returned; otherwise the cache is returned
        unchanged. Either way the tensor stays diagonal. */
    method GetInertiaTensor() returns (tensor: Matrix3)
      requires Valid()
      modifies this`inertiaTensor
      ensures Valid()
      ensures tensor == inertiaTensor
      ensures engine.burning ==> tensor == Diagonal(inertiaMomentXXSrc(burnClock.countupTime),
                                                     inertiaMomentYYSrc(burnClock.countupTime),
                                                     inertiaMomentZZSrc(burnClock.countupTime))
      ensures !engine.burning ==> tensor == old(inertiaTensor)
    {
      if engine.burning {
        var t := burnClock.countupTime;
        inertiaTensor := Diagonal(inertiaMomentXXSrc(t), inertiaMomentYYSrc(t), inertiaMomentZZSrc(t));
      }
      tensor := inertiaTensor;
    }

    /** The commanded attitude at the burn clock; it writes nothing. */
    method GetAttitude() returns (attitude: Vector3)
      ensures attitude.x == azimuthProgramSrc(burnClock.countupTime)
      ensures attitude.y == elevationProgramSrc(burnClock.countupTime)
      ensures attitude.z == rollProgramSrc(burnClock.countupTime)
    {
      var t := burnClock.countupTime;
      attitude := Vector3(azimuthProgramSrc(t), elevationProgramSrc(t), rollProgramSrc(t));
    }

    // Sequence-of-events handlers.

    /** Restarts the burn clock at the given epoch and count-up time and starts combustion. */
    method IgnitionEngine(utcInit: real, countupTimeInit: real)
      modifies this`burnClock, this`engine
      ensures burnClock == SequenceClock(utcInit, countupTimeInit)
      ensures engine == old(engine).(burning := true)
    {
      burnClock := SequenceClock(utcInit, countupTimeInit);
      engine := engine.(burning := true);
    }

    /** Stops combustion; the getters then freeze the centre of gravity and the tensor. */
    method CutoffEngine()
      modifies this`engine
      ensures engine == old(engine).(burning := false)
    {
      engine := engine.(burning := false);
    }

    /** Zeroes the roll-axis components of the angular velocity and acceleration. */
    method DeSpin()
      modifies this`angularVelocity, this`angularAcceleration
      ensures angularAcceleration == old(angularAcceleration).(x := 0.0)
      ensures angularVelocity == old(angularVelocity).(x := 0.0)
    {
      angularAcceleration := angularAcceleration.(x := 0.0);
      angularVelocity := angularVelocity.(x := 0.0);
    }

    /** Removes the fairing mass from the inert mass, resetting to 1.0 when nothing positive is left. */
    method JettsonFairing(massFairing: real)
      modifies this`mass
      ensures mass == old(mass).(inert := ClampInert(old(mass.inert), massFairing))
      ensures mass.inert > 0.0
    {
      mass := mass.(inert := mass.inert - massFairing);
      if mass.inert <= 0.0 {
        mass := mass.(inert := 1.0);
      }
    }

    /** Removes the upper-stage mass from the inert mass, with the same reset. */
    method SeparateUpperStage(massUpperStage: real)
      modifies this`mass
      ensures mass == old(mass).(inert := ClampInert(old(mass.inert), massUpperStage))
      ensures mass.inert > 0.0
    {
      mass := mass.(inert := mass.inert - massUpperStage);
      if mass.inert <= 0.0 {
        mass := mass.(inert := 1.0);
      }
    }

    /** Adds the next drag-area increment while one is left; the counter always advances. */
    method OpenParachute()
      modifies this`CdSParachute, this`countOpenParachute
      ensures ParachuteState() == OpenOnce(CdSParachuteSrc, old(ParachuteState()))
      ensures countOpenParachute == old(countOpenParachute) + 1
    {
      if countOpenParachute < |CdSParachuteSrc| {
        CdSParachute := CdSParachute + CdSParachuteSrc[countOpenParachute];
      }
      countOpenParachute := countOpenParachute + 1;
    }
  }
}
