/**
 * The `running_parameters` record every rule of the simulation reads. The
 * datatype's fields are declared in the record's own order, so the positional
 * constructor `RunningParameters(...)` is the brace-initialiser of the program.
 */
module Parameters {

  datatype RunningParameters = RunningParameters(
    boidsNumber: int,
    s: real,                // separation weight
    a: real,                // alignment weight
    c: real,                // cohesion weight
    ds: real,               // distance under which separation acts
    d: real,                // neighbourhood radius
    leftBound: real,
    rightBound: real,
    upperBound: real,
    bottomBound: real,
    maximumVelocity: real,
    minimumVelocity: real
  )

  /** The record as default-initialised, `running_parameters{}`. */
  const Defaults: RunningParameters :=
    RunningParameters(120, 0.5, 0.6, 0.02, 1.0, 9.0, 0.0, 176.0, 99.0, 0.0, 80.0, 20.0)

  /** The world is a non-empty rectangle. */
  predicate WorldIsRectangle(p: RunningParameters) {
    p.leftBound < p.rightBound && p.bottomBound < p.upperBound
  }

  /** The speed band is non-empty and wide enough for halving and doubling to land inside it. */
  predicate SpeedBandIsWide(p: RunningParameters) {
    0.0 <= p.minimumVelocity <= p.maximumVelocity && p.maximumVelocity >= 2.0 * p.minimumVelocity
  }

  /** The default weights and radii. */
  lemma DefaultWeights()
    ensures Defaults.boidsNumber == 120
    ensures Defaults.s == 0.5 && Defaults.a == 0.6 && Defaults.c == 0.02
    ensures Defaults.ds == 1.0 && Defaults.d == 9.0
    ensures Defaults.ds < Defaults.d
  {
  }

  /** The default world is `[0, 176] x [0, 99]`, a proper rectangle. */
  lemma DefaultWorld()
    ensures Defaults.leftBound == 0.0 && Defaults.rightBound == 176.0
    ensures Defaults.bottomBound == 0.0 && Defaults.upperBound == 99.0
    ensures WorldIsRectangle(Defaults)
  {
  }

  /** The default speed band is `[20, 80]`, wide enough for `limit_speed`. */
  lemma DefaultSpeedBand()
    ensures Defaults.minimumVelocity == 20.0 && Defaults.maximumVelocity == 80.0
    ensures SpeedBandIsWide(Defaults)
  {
  }

  /** The positional initialisers of the program's tests name the fields in declaration order. */
  lemma PositionalOrder()
    ensures var p := RunningParameters(0, 0.0, 0.0, 0.0, 0.0, 0.0, 0.0, 10.0, 10.0, 0.0, 0.0, 0.0);
      p.rightBound == 10.0 && p.upperBound == 10.0 && p.leftBound == 0.0 && p.bottomBound == 0.0
    ensures var p := RunningParameters(0, 0.0, 0.0, 0.0, 0.0, 0.0, 0.0, 0.0, 0.0, 0.0, 5.0, 1.0);
      p.maximumVelocity == 5.0 && p.minimumVelocity == 1.0 && SpeedBandIsWide(p)
    ensures var p := RunningParameters(5, 1.0, 1.0, 1.0, 5.0, 1.0, 0.0, 10.0, 10.0, 0.0, 10.0, 2.0);
      p.boidsNumber == 5 && p.ds == 5.0 && p.d == 1.0 && WorldIsRectangle(p) && SpeedBandIsWide(p)
  {
  }
}
