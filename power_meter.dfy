/** The power economy: how many devices draw power, and the per-second drain
    tick that ends in the power-out transition. Power is a real number of
    percent; one usage unit drains a fifth of a percent per tick. */
module PowerMeter {
  import opened Types

  const FullPower: real := 100.0
  const DrainPerUnit: real := 0.2

  function Bit(b: bool): int
  {
    if b then 1 else 0
  }

  /** The five device flags that draw power. */
  function Devices(camerasOpen: bool, doors: Sides, lights: Sides): seq<bool>
  {
    [camerasOpen, doors.left, doors.right, lights.left, lights.right]
  }

  /** The baseline draw plus one unit per device in use: monitor, left door,
      right door, left light, right light. */
  function UsageOf(camerasOpen: bool, doors: Sides, lights: Sides): (u: int)
    ensures u == 1 + CountTrue(Devices(camerasOpen, doors, lights))
  {
    var d5 := Devices(camerasOpen, doors, lights);
    var d4 := [doors.left, doors.right, lights.left, lights.right];
    var d3 := [doors.right, lights.left, lights.right];
    var d2 := [lights.left, lights.right];
    var d1 := [lights.right];
    assert d5[1..] == d4 && d4[1..] == d3 && d3[1..] == d2 && d2[1..] == d1 && d1[1..] == [];
    assert CountTrue(d1) == Bit(lights.right);
    assert CountTrue(d2) == Bit(lights.left) + CountTrue(d1);
    assert CountTrue(d3) == Bit(doors.right) + CountTrue(d2);
    assert CountTrue(d4) == Bit(doors.left) + CountTrue(d3);
    assert CountTrue(d5) == Bit(camerasOpen) + CountTrue(d4);
    1 + Bit(camerasOpen) + Bit(doors.left) + Bit(doors.right) + Bit(lights.left) + Bit(lights.right)
  }

  /** The number of set flags. */
  function CountTrue(s: seq<bool>): (n: nat)
    ensures n <= |s|
    ensures n == 0 <==> forall k :: 0 <= k < |s| ==> !s[k]
    ensures n == |s| <==> forall k :: 0 <= k < |s| ==> s[k]
  {
    if s == [] then 0
    else
      var rest := CountTrue(s[1..]);
      assert forall k :: 1 <= k < |s| ==> s[k] == s[1..][k - 1];
      Bit(s[0]) + rest
  }

  /** Usage is one more than the number of devices in use, so it lies in
      1..6; it is 1 iff nothing is in use and 6 iff everything is. */
  lemma UsageCountsDevices(camerasOpen: bool, doors: Sides, lights: Sides)
    ensures var u := UsageOf(camerasOpen, doors, lights);
            var d := Devices(camerasOpen, doors, lights);
      && u == 1 + CountTrue(d)
      && 1 <= u <= 6
      && (u == 1 <==> !camerasOpen && doors == AllOff && lights == AllOff)
      && (u == 6 <==> camerasOpen && doors == Sides(true, true) && lights == Sides(true, true))
  {
  }

  /** The documented usage range 1..5 is not what the count gives: with every
      device in use the usage is 6. */
  lemma UsageExceedsDocumentedRange()
    ensures UsageOf(true, Sides(true, true), Sides(true, true)) == 6
    ensures !DocumentedUsage(UsageOf(true, Sides(true, true), Sides(true, true)))
  {
  }

  /** The outcome of one power tick: a drained level, or the depletion that
      starts the power-out sequence. */
  datatype PowerTickResult = Drained(level: real) | Depleted

  /** One power tick at level p with the given usage. */
  function PowerTick(p: real, usage: int): (r: PowerTickResult)
    ensures r.Depleted? <==> p <= 0.0
    ensures r.Drained? && usage >= 1 ==> r.level < p
    ensures r.Drained? && usage <= 6 ==> r.level >= p - 1.2
  {
    if p <= 0.0 then Depleted
    else Drained(p - (usage as real) * DrainPerUnit)
  }

  /** A drained level can fall below zero, by less than 1.2, for one tick;
      the next tick then depletes. */
  lemma DrainMayUndershoot()
    ensures PowerTick(0.2, 6) == Drained(-1.0)
    ensures PowerTick(-1.0, 1) == Depleted
    ensures !DocumentedPower(-1.0)
  {
  }

  /** Whether power ticks with these successive usages, run from level p,
      reach depletion (ticks stop once they do). */
  function Depletes(p: real, usages: seq<int>): bool
    decreases |usages|
  {
    if usages == [] then false
    else
      match PowerTick(p, usages[0])
      case Depleted => true
      case Drained(q) => Depletes(q, usages[1..])
  }

  /** Every tick drains at least one fifth of a percent, so a level p is
      depleted within 5p + 1 ticks whatever the player keeps switched on. */
  lemma {:induction false} DepletesWithin(p: real, usages: seq<int>)
    requires |usages| >= 1
    requires forall k :: 0 <= k < |usages| ==> usages[k] >= 1
    requires p <= DrainPerUnit * ((|usages| - 1) as real)
    ensures Depletes(p, usages)
    decreases |usages|
  {
    if p > 0.0 {
      var q := PowerTick(p, usages[0]).level;
      assert |usages| >= 2;
      assert forall k :: 0 <= k < |usages[1..]| ==> usages[1..][k] == usages[k + 1];
      DepletesWithin(q, usages[1..]);
    }
  }

  /** Every tick drains at most 1.2, so a level above 1.2 n survives n ticks. */
  lemma {:induction false} SurvivesFor(p: real, usages: seq<int>)
    requires forall k :: 0 <= k < |usages| ==> usages[k] <= 6
    requires p > 1.2 * (|usages| as real)
    ensures !Depletes(p, usages)
    decreases |usages|
  {
    if usages != [] {
      var q := PowerTick(p, usages[0]).level;
      assert forall k :: 0 <= k < |usages[1..]| ==> usages[1..][k] == usages[k + 1];
      SurvivesFor(q, usages[1..]);
    }
  }

  /** From full power a night has at least 83 and at most 500 drain ticks
      before the power goes out. */
  lemma FullPowerLifetime(usages: seq<int>)
    requires forall k :: 0 <= k < |usages| ==> 1 <= usages[k] <= 6
    ensures |usages| <= 83 ==> !Depletes(FullPower, usages)
    ensures |usages| >= 501 ==> Depletes(FullPower, usages)
  {
    if |usages| <= 83 {
      SurvivesFor(FullPower, usages);
    }
    if |usages| >= 501 {
      DepletesWithin(FullPower, usages);
    }
  }
}
