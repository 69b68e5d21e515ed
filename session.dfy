/** The game session: the one authoritative record of game state and world
    state, changed by the three periodic ticks (clock, power, AI), by the
    power-out script and by the player's inputs. Each tick and each input is
    one atomic method; the timers that fire them are not modelled. */
module Session {
  import opened Types
  import AI = AnimatronicAI
  import PowerMeter
  import Clock
  import OfficeView
  import CameraSystem

  /** What the blacked-out office shows: darkness, or Freddy at the door. */
  datatype PowerOutStage = Dark | FreddyVisible

  /** The next pending step of the power-out script; each step, when it
      fires, schedules the next one. Nothing ever cancels them. */
  datatype OutageTimer = NoTimer | RevealPending | BlackoutPending | AttackPending

  /** A snapshot of every field of the session. */
  datatype World = World(
    gameState: GameState,
    time: int,
    power: real,
    doorToggleCount: int,
    camerasOpen: bool,
    currentCamera: CameraId,
    doors: Sides,             // true: closed
    lights: Sides,            // true: on
    jumpscareAttacker: AnimatronicId,
    powerOutStage: PowerOutStage,
    animatronics: Animatronics,
    outageTimer: OutageTimer)

  /** The animatronics before the first session. */
  const MenuAnimatronics: Animatronics := Animatronics(
    AnimatronicState(Bonnie, Zone(Cam1A), 5, None, Some(0)),
    AnimatronicState(Chica, Zone(Cam1A), 5, None, Some(0)),
    AnimatronicState(Freddy, Zone(Cam1A), 3, None, None),
    AnimatronicState(Foxy, Zone(Cam1C), 2, Some(0), None))

  /** The animatronics at the start of every session: the corridor agents
      harder, the other two dormant. */
  const SessionAnimatronics: Animatronics := Animatronics(
    AnimatronicState(Bonnie, Zone(Cam1A), 12, None, Some(0)),
    AnimatronicState(Chica, Zone(Cam1A), 12, None, Some(0)),
    AnimatronicState(Freddy, Zone(Cam1A), 0, None, None),
    AnimatronicState(Foxy, Zone(Cam1C), 0, Some(0), None))

  /** Each record under its own identity, each corridor agent on its own
      path, Freddy and Foxy where they started, every level in 0..20. */
  predicate WellFormedAnimatronics(a: Animatronics)
  {
    && a.KeyedById()
    && a.bonnie.location in AI.BonniePath
    && a.chica.location in AI.ChicaPath
    && a.freddy.location == Zone(Cam1A)
    && a.foxy.location == Zone(Cam1C)
    && DocumentedAiLevel(a.bonnie.aiLevel)
    && DocumentedAiLevel(a.chica.aiLevel)
    && DocumentedAiLevel(a.freddy.aiLevel)
    && DocumentedAiLevel(a.foxy.aiLevel)
  }

  /** What holds of every world a session can be in. In such a world every
      level is in 0..20, and during the blackout no button and no monitor
      responds and the monitor shows nothing. */
  predicate Invariant(w: World): (ok: bool)
    ensures ok ==> forall id: AnimatronicId :: DocumentedAiLevel(w.animatronics.Get(id).aiLevel)
    ensures ok && w.gameState == PowerOut ==>
      && !OfficeView.InteractionAllowed(w.power)
      && !OfficeView.MonitorCanOpen(w.power)
      && CameraSystem.Render(w.camerasOpen, w.currentCamera, w.animatronics) == CameraSystem.NoView
  {
    && DocumentedTime(w.time)
    && (w.gameState == Intro || w.gameState == Playing ==> w.time < Clock.WinHour)
    && -1.2 < w.power <= PowerMeter.FullPower
    && w.gameState != GameOver
    && (w.gameState == PowerOut <==> w.outageTimer != NoTimer)
    && (w.gameState == PowerOut ==>
          w.power == 0.0 && !w.camerasOpen && w.doors == AllOff && w.lights == AllOff)
    && (w.powerOutStage == FreddyVisible <==> w.outageTimer == BlackoutPending)
    && w.doorToggleCount >= 0
    && WellFormedAnimatronics(w.animatronics)
  }

  /** Both initial records are well formed: every level assigned is within
      the documented 0..20. */
  lemma InitialAnimatronicsWellFormed()
    ensures WellFormedAnimatronics(MenuAnimatronics)
    ensures WellFormedAnimatronics(SessionAnimatronics)
  {
    assert MenuAnimatronics.KeyedById() by {
      forall id: AnimatronicId ensures MenuAnimatronics.Get(id).id == id {
        match id
        case Bonnie =>
        case Chica =>
        case Freddy =>
        case Foxy =>
      }
    }
    assert SessionAnimatronics.KeyedById() by {
      forall id: AnimatronicId ensures SessionAnimatronics.Get(id).id == id {
        match id
        case Bonnie =>
        case Chica =>
        case Freddy =>
        case Foxy =>
      }
    }
  }

  /** Flip one side's flag. */
  function Flip(s: Sides, side: Side): (r: Sides)
    ensures r.Get(side) == !s.Get(side)
    ensures r.Get(Other(side)) == s.Get(Other(side))
  {
    match side
    case Left => s.(left := !s.left)
    case Right => s.(right := !s.right)
  }

  /** Flipping the same side twice restores the flags. */
  lemma FlipTwice(s: Sides, side: Side)
    ensures Flip(Flip(s, side), side) == s
  {
  }

  class GameSession {
    var gameState: GameState
    var time: int
    var power: real
    var doorToggleCount: int
    var camerasOpen: bool
    var currentCamera: CameraId
    var doors: Sides
    var lights: Sides
    var jumpscareAttacker: AnimatronicId
    var powerOutStage: PowerOutStage
    var animatronics: Animatronics
    var outageTimer: OutageTimer

    function Snapshot(): World
      reads this
    {
      World(gameState, time, power, doorToggleCount, camerasOpen, currentCamera,
            doors, lights, jumpscareAttacker, powerOutStage, animatronics, outageTimer)
    }

    ghost predicate Valid()
      reads this
    {
      Invariant(Snapshot())
    }

    /** The state before any session: the menu, midnight, full power, every
        control off. */
    constructor ()
      ensures Valid()
      ensures Snapshot() == World(Menu, 0, PowerMeter.FullPower, 0, false, Cam1A, AllOff, AllOff,
                                  Bonnie, Dark, MenuAnimatronics, NoTimer)
    {
      gameState := Menu;
      time := 0;
      power := PowerMeter.FullPower;
      doorToggleCount := 0;
      camerasOpen := false;
      currentCamera := Cam1A;
      doors := AllOff;
      lights := AllOff;
      jumpscareAttacker := Bonnie;
      powerOutStage := Dark;
      animatronics := MenuAnimatronics;
      outageTimer := NoTimer;
      InitialAnimatronicsWellFormed();
    }

    /** The menu's start button: a full reset of the world, then the intro.
        No power-out step can still be pending at this point. */
    method StartGame()
      requires Valid()
      modifies this
      ensures Valid()
      ensures old(gameState) == Menu ==>
        Snapshot() == old(Snapshot()).(gameState := Intro, time := 0, power := PowerMeter.FullPower,
                                       doors := AllOff, lights := AllOff, camerasOpen := false,
                                       doorToggleCount := 0, animatronics := SessionAnimatronics)
      ensures old(gameState) == Menu ==> outageTimer == NoTimer && powerOutStage == Dark
      ensures old(gameState) != Menu ==> Snapshot() == old(Snapshot())
    {
      if gameState == Menu {
        gameState := Intro;
        time := 0;
        power := PowerMeter.FullPower;
        doors := AllOff;
        lights := AllOff;
        camerasOpen := false;
        doorToggleCount := 0;
        animatronics := SessionAnimatronics;
        InitialAnimatronicsWellFormed();
      }
    }

    /** The intro ends, by its timeout or by a click: the night begins. */
    method BeginNight()
      requires Valid()
      modifies this
      ensures Valid()
      ensures old(gameState) == Intro ==> Snapshot() == old(Snapshot()).(gameState := Playing)
      ensures old(gameState) != Intro ==> Snapshot() == old(Snapshot())
    {
      if gameState == Intro {
        gameState := Playing;
      }
    }

    /** The button on the jumpscare, win and game-over screens. */
    method ReturnToMenu()
      requires Valid()
      modifies this
      ensures Valid()
      ensures old(gameState) in {Jumpscare, Win, GameOver} ==> Snapshot() == old(Snapshot()).(gameState := Menu)
      ensures old(gameState) !in {Jumpscare, Win, GameOver} ==> Snapshot() == old(Snapshot())
    {
      if gameState == Jumpscare || gameState == Win || gameState == GameOver {
        gameState := Menu;
      }
    }

    /** The hour tick: one hour later; the tick that reaches 6 AM wins. */
    method TickClock()
      requires Valid()
      modifies this
      ensures Valid()
      ensures old(gameState) == Playing ==>
        var c := Clock.ClockTick(old(time));
        Snapshot() == old(Snapshot()).(time := c.hour, gameState := if c.win then Win else Playing)
      ensures old(gameState) == Playing ==>
        time == old(time) + 1 && time <= Clock.WinHour && (gameState == Win <==> time == Clock.WinHour)
      ensures old(gameState) != Playing ==> Snapshot() == old(Snapshot())
    {
      if gameState == Playing {
        var c := Clock.ClockTick(time);
        if c.win {
          gameState := Win;
        }
        time := c.hour;
      }
    }

    /** The number of devices drawing power, counted one flag at a time. */
    method CalculateUsage() returns (usage: int)
      ensures usage == 1 + PowerMeter.CountTrue(PowerMeter.Devices(camerasOpen, doors, lights))
      ensures 1 <= usage <= 6
    {
      usage := 1;
      if camerasOpen { usage := usage + 1; }
      if doors.left { usage := usage + 1; }
      if doors.right { usage := usage + 1; }
      if lights.left { usage := usage + 1; }
      if lights.right { usage := usage + 1; }
      PowerMeter.UsageCountsDevices(camerasOpen, doors, lights);
    }

    /** The power tick. With power left it drains usage times a fifth of a
        percent, possibly below zero; the first tick that finds none left
        clamps it to zero, forces the monitor down, the doors open and the
        lights off, and starts the power-out script in the dark. */
    method TickPower()
      requires Valid()
      modifies this
      ensures Valid()
      ensures old(gameState) == Playing && old(power) > 0.0 ==>
        var usage := PowerMeter.UsageOf(old(camerasOpen), old(doors), old(lights));
        && Snapshot() == old(Snapshot()).(power := old(power) - (usage as real) * PowerMeter.DrainPerUnit)
        && old(power) - 1.2 <= power < old(power)
      ensures old(gameState) == Playing && old(power) <= 0.0 ==>
        Snapshot() == old(Snapshot()).(power := 0.0, gameState := PowerOut, powerOutStage := Dark,
                                       camerasOpen := false, doors := AllOff, lights := AllOff,
                                       outageTimer := RevealPending)
      ensures old(gameState) != Playing ==> Snapshot() == old(Snapshot())
    {
      if gameState == Playing {
        var usage := CalculateUsage();
        PowerMeter.UsageCountsDevices(camerasOpen, doors, lights);
        match PowerMeter.PowerTick(power, usage)
        case Depleted =>
          gameState := PowerOut;
          powerOutStage := Dark;
          camerasOpen := false;
          doors := AllOff;
          lights := AllOff;
          outageTimer := RevealPending;
          power := 0.0;
        case Drained(p) =>
          power := p;
      }
    }

    /** The AI tick: Bonnie steps against the left door, then Chica against
        the right, each with her own roll; Freddy and Foxy stay put. An attack
        by either ends the night, and when both attack in one tick the later
        one, Chica, is the recorded attacker. */
    method TickAI(rollBonnie: real, rollChica: real)
      requires Valid()
      modifies this
      ensures Valid()
      ensures old(gameState) == Playing ==>
        var b := AI.Step(old(animatronics.bonnie), AI.BonniePath, old(doors.left), rollBonnie);
        var c := AI.Step(old(animatronics.chica), AI.ChicaPath, old(doors.right), rollChica);
        Snapshot() == old(Snapshot()).(
          animatronics := old(animatronics).(bonnie := b.anim, chica := c.anim),
          gameState := if b.jumpscare || c.jumpscare then Jumpscare else Playing,
          jumpscareAttacker :=
            if c.jumpscare then Chica else if b.jumpscare then Bonnie else old(jumpscareAttacker))
      ensures old(gameState) != Playing ==> Snapshot() == old(Snapshot())
    {
      if gameState == Playing {
        assert animatronics.Get(Bonnie).id == Bonnie && animatronics.Get(Chica).id == Chica;
        assert animatronics.Get(Freddy).id == Freddy && animatronics.Get(Foxy).id == Foxy;
        var b := AI.Step(animatronics.bonnie, AI.BonniePath, doors.left, rollBonnie);
        if b.jumpscare {
          jumpscareAttacker := Bonnie;
          gameState := Jumpscare;
        }
        var c := AI.Step(animatronics.chica, AI.ChicaPath, doors.right, rollChica);
        if c.jumpscare {
          jumpscareAttacker := Chica;
          gameState := Jumpscare;
        }
        animatronics := animatronics.(bonnie := b.anim, chica := c.anim);
      }
    }

    /** The pending step of the power-out script fires: Freddy appears, then
        the office goes dark again, then Freddy attacks. */
    method AdvancePowerOutStage()
      requires Valid()
      modifies this
      ensures Valid()
      ensures old(outageTimer) == NoTimer ==> Snapshot() == old(Snapshot())
      ensures old(outageTimer) == RevealPending ==>
        Snapshot() == old(Snapshot()).(powerOutStage := FreddyVisible, outageTimer := BlackoutPending)
      ensures old(outageTimer) == BlackoutPending ==>
        Snapshot() == old(Snapshot()).(powerOutStage := Dark, outageTimer := AttackPending)
      ensures old(outageTimer) == AttackPending ==>
        Snapshot() == old(Snapshot()).(jumpscareAttacker := Freddy, gameState := Jumpscare, outageTimer := NoTimer)
    {
      match outageTimer
      case NoTimer =>
      case RevealPending =>
        powerOutStage := FreddyVisible;
        outageTimer := BlackoutPending;
      case BlackoutPending =>
        powerOutStage := Dark;
        outageTimer := AttackPending;
      case AttackPending =>
        jumpscareAttacker := Freddy;
        gameState := Jumpscare;
        outageTimer := NoTimer;
    }

    /** A door button: while there is power it flips that door and counts
        the toggle; otherwise nothing changes. */
    method ToggleDoor(side: Side) returns (accepted: bool)
      requires Valid()
      modifies this
      ensures Valid()
      ensures accepted <==> old(gameState) == Playing && OfficeView.InteractionAllowed(old(power))
      ensures accepted ==>
        Snapshot() == old(Snapshot()).(doors := Flip(old(doors), side), doorToggleCount := old(doorToggleCount) + 1)
      ensures !accepted ==> Snapshot() == old(Snapshot())
    {
      accepted := gameState == Playing && OfficeView.InteractionAllowed(power);
      if accepted {
        doors := Flip(doors, side);
        doorToggleCount := doorToggleCount + 1;
      }
    }

    /** A light button: while there is power it flips that light, and the
        window-scare cue plays when it switches on with the side's agent at
        the door; otherwise nothing changes. */
    method ToggleLight(side: Side) returns (accepted: bool, windowScare: bool)
      requires Valid()
      modifies this
      ensures Valid()
      ensures accepted <==> old(gameState) == Playing && OfficeView.InteractionAllowed(old(power))
      ensures accepted ==> Snapshot() == old(Snapshot()).(lights := Flip(old(lights), side))
      ensures !accepted ==> Snapshot() == old(Snapshot())
      ensures windowScare <==> accepted && OfficeView.WindowScare(old(lights), side, old(animatronics))
    {
      accepted := gameState == Playing && OfficeView.InteractionAllowed(power);
      windowScare := false;
      if accepted {
        windowScare := OfficeView.WindowScare(lights, side, animatronics);
        lights := Flip(lights, side);
      }
    }

    /** Hovering the monitor strip raises the monitor, only while there is
        power. */
    method OpenMonitor() returns (raised: bool)
      requires Valid()
      modifies this
      ensures Valid()
      ensures raised <==> old(gameState) == Playing && OfficeView.MonitorCanOpen(old(power))
      ensures raised ==> Snapshot() == old(Snapshot()).(camerasOpen := true)
      ensures !raised ==> Snapshot() == old(Snapshot())
    {
      raised := gameState == Playing && OfficeView.MonitorCanOpen(power);
      if raised {
        camerasOpen := true;
      }
    }

    /** The monitor's close button; not gated by power. */
    method CloseMonitor()
      requires Valid()
      modifies this
      ensures Valid()
      ensures old(gameState) == Playing ==> Snapshot() == old(Snapshot()).(camerasOpen := false)
      ensures old(gameState) != Playing ==> Snapshot() == old(Snapshot())
    {
      if gameState == Playing {
        camerasOpen := false;
      }
    }

    /** A map button: selects a camera while the monitor is up. */
    method SelectCamera(cam: CameraId)
      requires Valid()
      modifies this
      ensures Valid()
      ensures old(gameState) == Playing && old(camerasOpen) ==> Snapshot() == old(Snapshot()).(currentCamera := cam)
      ensures !(old(gameState) == Playing && old(camerasOpen)) ==> Snapshot() == old(Snapshot())
    {
      if gameState == Playing && camerasOpen {
        currentCamera := cam;
      }
    }
  }

  /** During the blackout no tick and no button changes anything: the ticks
      run only while playing and every control is gated by power. */
  method BlackoutIgnoresInputs(s: GameSession, rollBonnie: real, rollChica: real, side: Side, cam: CameraId)
    requires s.Valid() && s.gameState == PowerOut
    modifies s
    ensures s.Snapshot() == old(s.Snapshot())
  {
    s.TickClock();
    s.TickPower();
    s.TickAI(rollBonnie, rollChica);
    var door := s.ToggleDoor(side);
    var light, scare := s.ToggleLight(side);
    var raised := s.OpenMonitor();
    s.CloseMonitor();
    s.SelectCamera(cam);
  }

  /** A tick that finds the power gone runs the whole power-out script: dark,
      Freddy, dark, then Freddy's attack. In each of the three stages no tick
      and no button changes anything. */
  method PowerOutScript(s: GameSession, rollBonnie: real, rollChica: real, side: Side, cam: CameraId)
    requires s.Valid() && s.gameState == Playing && s.power <= 0.0
    modifies s
    ensures s.Valid() && s.gameState == Jumpscare && s.jumpscareAttacker == Freddy
    ensures s.power == 0.0 && s.doors == AllOff && s.lights == AllOff && !s.camerasOpen
  {
    s.TickPower();
    assert s.gameState == PowerOut && s.powerOutStage == Dark;
    BlackoutIgnoresInputs(s, rollBonnie, rollChica, side, cam);
    s.AdvancePowerOutStage();
    assert s.gameState == PowerOut && s.powerOutStage == FreddyVisible;
    BlackoutIgnoresInputs(s, rollBonnie, rollChica, side, cam);
    s.AdvancePowerOutStage();
    assert s.gameState == PowerOut && s.powerOutStage == Dark;
    BlackoutIgnoresInputs(s, rollBonnie, rollChica, side, cam);
    s.AdvancePowerOutStage();
  }

  /** From the menu, a night in which only the clock ticks is won on the
      sixth tick, at 6 AM, and not before. */
  method ClockOnlyNight(s: GameSession)
    requires s.Valid() && s.gameState == Menu
    modifies s
    ensures s.Valid() && s.gameState == Win && s.time == Clock.WinHour
  {
    s.StartGame();
    s.BeginNight();
    var hour := 0;
    while hour < Clock.WinHour
      invariant s.Valid()
      invariant 0 <= hour <= Clock.WinHour && s.time == hour
      invariant s.gameState == (if hour < Clock.WinHour then Playing else Win)
      decreases Clock.WinHour - hour
    {
      s.TickClock();
      hour := hour + 1;
    }
  }
}
