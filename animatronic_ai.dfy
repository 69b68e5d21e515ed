/** The per-agent path follower run on every AI tick: a roll gate, then either
    the door-patience logic (when the agent is at its door sentinel) or one
    step forward along the agent's fixed path. */
module AnimatronicAI {
  import opened Types

  /** An agent waiting at an open door attacks once its wait counter exceeds
      this many ticks. */
  const Patience: int := 2

  /** Rolls are drawn uniformly from [0, RollRange). */
  const RollRange: real := 20.0

  const BonniePath: seq<Location> :=
    [Zone(Cam1A), Zone(Cam1B), Zone(Cam5), Zone(Cam2A), Zone(Cam2B), DoorLeft]

  const ChicaPath: seq<Location> :=
    [Zone(Cam1A), Zone(Cam1B), Zone(Cam7), Zone(Cam6), Zone(Cam4A), Zone(Cam4B), DoorRight]

  /** No location occurs twice on the path. */
  predicate Distinct(path: seq<Location>)
  {
    forall i, j :: 0 <= i < j < |path| ==> path[i] != path[j]
  }

  /** The path's terminal entry is its door sentinel. */
  function Door(path: seq<Location>): Location
    requires |path| > 0
  {
    path[|path| - 1]
  }

  /** Both corridor paths start on the show stage, end at their own door and
      visit no location twice. */
  lemma PathShapes()
    ensures |BonniePath| == 6 && Distinct(BonniePath)
    ensures BonniePath[0] == Zone(Cam1A) && Door(BonniePath) == DoorLeft
    ensures |ChicaPath| == 7 && Distinct(ChicaPath)
    ensures ChicaPath[0] == Zone(Cam1A) && Door(ChicaPath) == DoorRight
  {
  }

  /** The position of the first occurrence of `loc` on the path, or -1 when it
      does not occur. */
  function IndexOf(path: seq<Location>, loc: Location): (i: int)
    ensures -1 <= i < |path|
    ensures i == -1 <==> loc !in path
    ensures i >= 0 ==> path[i] == loc && loc !in path[..i]
  {
    if |path| == 0 then -1
    else if path[0] == loc then 0
    else
      var j := IndexOf(path[1..], loc);
      assert j >= 0 ==> path[..j + 1] == [path[0]] + path[1..][..j];
      if j == -1 then -1 else j + 1
  }

  /** On a path without repeats the first occurrence is the only one. */
  lemma IndexOfDistinct(path: seq<Location>, i: int)
    requires Distinct(path) && 0 <= i < |path|
    ensures IndexOf(path, path[i]) == i
  {
    var k := IndexOf(path, path[i]);
    assert k >= 0 && path[k] == path[i];
    assert k <= i;
  }

  /** The agent after one tick, and whether it attacked on that tick. */
  datatype StepResult = StepResult(anim: AnimatronicState, jumpscare: bool)

  /** What an agent does on a tick once its roll has passed. */
  function Act(a: AnimatronicState, path: seq<Location>, doorClosed: bool): (r: StepResult)
    requires |path| > 0
    ensures r.anim.id == a.id && r.anim.aiLevel == a.aiLevel && r.anim.subState == a.subState
    ensures r.anim.location in path
    ensures r.jumpscare <==>
              a.location == Door(path) && !doorClosed && OrZero(a.timeAtDoor) + 1 > Patience
  {
    if a.location == Door(path) then
      if doorClosed then
        StepResult(a.(location := path[0], timeAtDoor := Some(0)), false)
      else
        var waited := OrZero(a.timeAtDoor) + 1;
        StepResult(a.(timeAtDoor := Some(waited)), waited > Patience)
    else
      var i := IndexOf(path, a.location);
      if i == -1 then
        StepResult(a.(location := path[0]), false)
      else if i + 1 < |path| then
        StepResult(a.(location := path[i + 1], timeAtDoor := Some(0)), false)
      else
        StepResult(a, false)
  }

  /** One AI tick for one agent: the roll gate, then `Act`. The tick never
      changes who the agent is or its level, keeps an agent on its path, and
      attacks only when the roll passes at an open door after the wait has
      run out. */
  function Step(a: AnimatronicState, path: seq<Location>, doorClosed: bool, roll: real): (r: StepResult)
    requires |path| > 0
    ensures r.anim.id == a.id && r.anim.aiLevel == a.aiLevel && r.anim.subState == a.subState
    ensures a.location in path ==> r.anim.location in path
    ensures r.jumpscare <==>
              && roll < a.aiLevel as real
              && a.location == Door(path) && !doorClosed && OrZero(a.timeAtDoor) + 1 > Patience
  {
    if roll >= a.aiLevel as real then StepResult(a, false)
    else Act(a, path, doorClosed)
  }

  // ---------------------------------------------------------------------------
  // The roll gate

  /** A roll at or above the level leaves the agent exactly as it was; a roll
      below it acts. */
  lemma RollGate(a: AnimatronicState, path: seq<Location>, doorClosed: bool, roll: real)
    requires |path| > 0
    ensures roll >= a.aiLevel as real ==> Step(a, path, doorClosed, roll) == StepResult(a, false)
    ensures roll < a.aiLevel as real ==> Step(a, path, doorClosed, roll) == Act(a, path, doorClosed)
  {
  }

  /** Level 0 never acts, and level 20 or more acts on every roll in [0, 20). */
  lemma RollGateExtremes(a: AnimatronicState, path: seq<Location>, doorClosed: bool, roll: real)
    requires |path| > 0
    requires 0.0 <= roll < RollRange
    ensures a.aiLevel <= 0 ==> Step(a, path, doorClosed, roll) == StepResult(a, false)
    ensures a.aiLevel >= 20 ==> Step(a, path, doorClosed, roll) == Act(a, path, doorClosed)
  {
  }

  // ---------------------------------------------------------------------------
  // The three cases of an action

  /** At the door with the door closed the agent is sent back to the start of
      its path with its wait counter cleared, and never attacks. */
  lemma ActAtClosedDoor(a: AnimatronicState, path: seq<Location>)
    requires |path| > 0 && a.location == Door(path)
    ensures Act(a, path, true) == StepResult(a.(location := path[0], timeAtDoor := Some(0)), false)
  {
  }

  /** At the door with the door open the agent stays, its wait counter goes up
      by exactly one, and it attacks iff the new count exceeds the patience. */
  lemma ActAtOpenDoor(a: AnimatronicState, path: seq<Location>)
    requires |path| > 0 && a.location == Door(path)
    ensures var r := Act(a, path, false);
      && r.anim.location == a.location
      && r.anim.timeAtDoor == Some(OrZero(a.timeAtDoor) + 1)
      && r.anim == a.(timeAtDoor := r.anim.timeAtDoor)
      && (r.jumpscare <==> OrZero(r.anim.timeAtDoor) > 2)
  {
  }

  /** Away from the door, an agent at index i of a path without repeats moves
      to index i + 1 and clears its wait counter. */
  lemma ActAdvances(a: AnimatronicState, path: seq<Location>, doorClosed: bool, i: int)
    requires Distinct(path) && 0 <= i < |path| - 1 && a.location == path[i]
    ensures Act(a, path, doorClosed) ==
            StepResult(a.(location := path[i + 1], timeAtDoor := Some(0)), false)
  {
    IndexOfDistinct(path, i);
    assert path[i] != Door(path);
  }

  /** An agent found off its path is put back at the path's start and keeps
      its wait counter. */
  lemma ActRecovers(a: AnimatronicState, path: seq<Location>, doorClosed: bool)
    requires |path| > 0 && a.location !in path
    ensures Act(a, path, doorClosed) == StepResult(a.(location := path[0]), false)
  {
  }

  /** An absent wait counter behaves exactly as a counter of 0: two agents that
      differ only in that respect act alike. */
  lemma AbsentCounterReadsAsZero(a: AnimatronicState, path: seq<Location>, doorClosed: bool)
    requires |path| > 0 && a.timeAtDoor == None
    ensures var r0 := Act(a, path, doorClosed);
            var r1 := Act(a.(timeAtDoor := Some(0)), path, doorClosed);
      && r0.jumpscare == r1.jumpscare
      && r0.anim.location == r1.anim.location
      && OrZero(r0.anim.timeAtDoor) == OrZero(r1.anim.timeAtDoor)
  {
  }

  // ---------------------------------------------------------------------------
  // Runs of successful ticks

  /** The agent after n successful ticks with the door held in one position. */
  function ActN(a: AnimatronicState, path: seq<Location>, doorClosed: bool, n: nat): AnimatronicState
    requires |path| > 0
  {
    if n == 0 then a else Act(ActN(a, path, doorClosed, n - 1), path, doorClosed).anim
  }

  /** The agent after one tick per roll, each roll going through the gate. */
  function StepRun(a: AnimatronicState, path: seq<Location>, doorClosed: bool, rolls: seq<real>): AnimatronicState
    requires |path| > 0
  {
    if rolls == [] then a
    else Step(StepRun(a, path, doorClosed, rolls[..|rolls| - 1]), path, doorClosed, rolls[|rolls| - 1]).anim
  }

  /** When every roll passes, a run of ticks is a run of actions (the level
      never changes, so every roll keeps passing). */
  lemma {:induction false} PassingRollsAct(a: AnimatronicState, path: seq<Location>, doorClosed: bool, rolls: seq<real>)
    requires |path| > 0
    requires forall k :: 0 <= k < |rolls| ==> rolls[k] < a.aiLevel as real
    ensures StepRun(a, path, doorClosed, rolls) == ActN(a, path, doorClosed, |rolls|)
    ensures StepRun(a, path, doorClosed, rolls).aiLevel == a.aiLevel
  {
    if rolls != [] {
      var front := rolls[..|rolls| - 1];
      PassingRollsAct(a, path, doorClosed, front);
      RollGate(StepRun(a, path, doorClosed, front), path, doorClosed, rolls[|rolls| - 1]);
    }
  }

  /** Starting at the path's start, the agent reaches index k after k ticks,
      whatever the door does, until it arrives at the door. */
  lemma {:induction false} WalkToDoor(a: AnimatronicState, path: seq<Location>, doorClosed: bool, k: nat)
    requires Distinct(path) && |path| >= 2 && a.location == path[0]
    requires 1 <= k <= |path| - 1
    ensures ActN(a, path, doorClosed, k) == a.(location := path[k], timeAtDoor := Some(0))
  {
    if k == 1 {
      ActAdvances(a, path, doorClosed, 0);
    } else {
      WalkToDoor(a, path, doorClosed, k - 1);
      ActAdvances(ActN(a, path, doorClosed, k - 1), path, doorClosed, k - 1);
    }
  }

  /** Once at the door with the door open, every further tick is one more tick
      of waiting. */
  lemma {:induction false} WaitAtOpenDoor(a: AnimatronicState, path: seq<Location>, k: nat)
    requires Distinct(path) && |path| >= 2 && a.location == path[0]
    requires k >= |path| - 1
    ensures ActN(a, path, false, k) ==
            a.(location := Door(path), timeAtDoor := Some(k - (|path| - 1)))
  {
    if k == |path| - 1 {
      WalkToDoor(a, path, false, k);
    } else {
      WaitAtOpenDoor(a, path, k - 1);
    }
  }

  /** With the door open throughout, the m-th successful tick from the path's
      start is an attack iff m is at least |path| + 2: |path| - 1 moves, then
      two harmless waits, then the attack. */
  lemma FirstAttack(a: AnimatronicState, path: seq<Location>, m: nat)
    requires Distinct(path) && |path| >= 2 && a.location == path[0]
    requires m >= 1
    ensures Act(ActN(a, path, false, m - 1), path, false).jumpscare <==> m >= |path| + 2
  {
    if m - 1 == 0 {
      assert path[0] != Door(path);
    } else if m - 1 < |path| - 1 {
      WalkToDoor(a, path, false, m - 1);
      assert path[m - 1] != Door(path);
    } else {
      WaitAtOpenDoor(a, path, m - 1);
    }
  }

  /** Bonnie, started on the show stage with the left door open, attacks on
      her 8th successful tick (5 moves and 3 waits) and not before. */
  lemma BonnieAttacksOnEighthTick(a: AnimatronicState, m: nat)
    requires a.location == Zone(Cam1A) && m >= 1
    ensures Act(ActN(a, BonniePath, false, m - 1), BonniePath, false).jumpscare <==> m >= 8
  {
    PathShapes();
    FirstAttack(a, BonniePath, m);
  }

  /** Chica, started on the show stage with the right door open, attacks on
      her 9th successful tick (6 moves and 3 waits) and not before. */
  lemma ChicaAttacksOnNinthTick(a: AnimatronicState, m: nat)
    requires a.location == Zone(Cam1A) && m >= 1
    ensures Act(ActN(a, ChicaPath, false, m - 1), ChicaPath, false).jumpscare <==> m >= 9
  {
    PathShapes();
    FirstAttack(a, ChicaPath, m);
  }

  /** Closing the door once the agent has arrived sends it back on its next
      successful tick: an arrival never turns into an attack. */
  lemma ClosingTheDoorRepels(a: AnimatronicState, path: seq<Location>)
    requires Distinct(path) && |path| >= 2 && a.location == path[0]
    ensures var atDoor := ActN(a, path, false, |path| - 1);
      && atDoor.location == Door(path)
      && Act(atDoor, path, true) == StepResult(atDoor.(location := path[0], timeAtDoor := Some(0)), false)
  {
    WalkToDoor(a, path, false, |path| - 1);
    ActAtClosedDoor(ActN(a, path, false, |path| - 1), path);
  }
}
