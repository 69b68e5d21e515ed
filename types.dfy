/** The game's shared declarations: the screen state machine's states, camera
    zones, animatronic identities and records, and the documented ranges of the
    world snapshot. */
module Types {

  datatype Option<T> = None | Some(value: T)

  /** An optional counter reads as 0 when it is absent (JavaScript's `x || 0`). */
  function OrZero(o: Option<int>): int
  {
    match o
    case None => 0
    case Some(v) => v
  }

  /** The session's top-level state; exactly one is active at a time. */
  datatype GameState = Menu | Intro | Playing | Jumpscare | Win | GameOver | PowerOut

  /** Every game state, each once. */
  function AllGameStates(): (r: seq<GameState>)
    ensures |r| == 7
    ensures forall i, j :: 0 <= i < j < |r| ==> r[i] != r[j]
  {
    [Menu, Intro, Playing, Jumpscare, Win, GameOver, PowerOut]
  }

  /** The seven listed states are all there are. */
  lemma GameStatesExhaustive(g: GameState)
    ensures g in AllGameStates()
  {
    var r := AllGameStates();
    match g
    case Menu => assert r[0] == g;
    case Intro => assert r[1] == g;
    case Playing => assert r[2] == g;
    case Jumpscare => assert r[3] == g;
    case Win => assert r[4] == g;
    case GameOver => assert r[5] == g;
    case PowerOut => assert r[6] == g;
  }

  /** The eleven camera zones of the building. */
  datatype CameraId =
    | Cam1A  // show stage
    | Cam1B  // dining area
    | Cam1C  // pirate cove
    | Cam2A  // west hall
    | Cam2B  // west hall corner
    | Cam3   // supply closet
    | Cam4A  // east hall
    | Cam4B  // east hall corner
    | Cam5   // backstage
    | Cam6   // kitchen (audio only)
    | Cam7   // restrooms

  function AllCameras(): (r: seq<CameraId>)
    ensures |r| == 11
    ensures forall i, j :: 0 <= i < j < |r| ==> r[i] != r[j]
  {
    [Cam1A, Cam1B, Cam1C, Cam2A, Cam2B, Cam3, Cam4A, Cam4B, Cam5, Cam6, Cam7]
  }

  lemma CamerasExhaustive(c: CameraId)
    ensures c in AllCameras()
  {
    var r := AllCameras();
    match c
    case Cam1A => assert r[0] == c;
    case Cam1B => assert r[1] == c;
    case Cam1C => assert r[2] == c;
    case Cam2A => assert r[3] == c;
    case Cam2B => assert r[4] == c;
    case Cam3 => assert r[5] == c;
    case Cam4A => assert r[6] == c;
    case Cam4B => assert r[7] == c;
    case Cam5 => assert r[8] == c;
    case Cam6 => assert r[9] == c;
    case Cam7 => assert r[10] == c;
  }

  /** Where an animatronic can be: a camera zone, the office, or one of the two
      door sentinels. */
  datatype Location = Zone(cam: CameraId) | Office | DoorLeft | DoorRight

  /** The eleven zones followed by the three sentinels. */
  function AllLocations(): (r: seq<Location>)
    ensures |r| == 14
    ensures forall i, j :: 0 <= i < j < |r| ==> r[i] != r[j]
  {
    var zones := seq(11, i requires 0 <= i < 11 => Zone(AllCameras()[i]));
    var r := zones + [Office, DoorLeft, DoorRight];
    assert forall i :: 0 <= i < 11 ==> r[i] == Zone(AllCameras()[i]) && r[i].Zone?;
    assert forall i :: 11 <= i < 14 ==> !r[i].Zone?;
    r
  }

  lemma LocationsExhaustive(l: Location)
    ensures l in AllLocations()
  {
    var r := AllLocations();
    match l
    case Zone(c) =>
      CamerasExhaustive(c);
      var k :| 0 <= k < 11 && AllCameras()[k] == c;
      assert r[k] == l;
    case Office => assert r[11] == l;
    case DoorLeft => assert r[12] == l;
    case DoorRight => assert r[13] == l;
  }

  datatype AnimatronicId = Freddy | Bonnie | Chica | Foxy

  /** One animatronic. `aiLevel` is documented as 0 to 20; `subState` and
      `timeAtDoor` are optional in the record. */
  datatype AnimatronicState = AnimatronicState(
    id: AnimatronicId,
    location: Location,
    aiLevel: int,
    subState: Option<int>,
    timeAtDoor: Option<int>)

  predicate DocumentedAiLevel(level: int)
  {
    0 <= level <= 20
  }

  /** The record keyed by animatronic identity. */
  datatype Animatronics = Animatronics(
    bonnie: AnimatronicState,
    chica: AnimatronicState,
    freddy: AnimatronicState,
    foxy: AnimatronicState)
  {
    function Get(id: AnimatronicId): AnimatronicState
    {
      match id
      case Bonnie => bonnie
      case Chica => chica
      case Freddy => freddy
      case Foxy => foxy
    }

    /** The entries in the record's insertion order (the order its values are
        enumerated in). */
    function Values(): (r: seq<AnimatronicState>)
      ensures |r| == 4
      ensures forall id: AnimatronicId :: Get(id) in r
    {
      [bonnie, chica, freddy, foxy]
    }

    /** Every entry is stored under its own identity. */
    predicate KeyedById()
    {
      forall id: AnimatronicId :: Get(id).id == id
    }
  }

  datatype Side = Left | Right

  /** A left/right pair of flags (doors closed, lights on). */
  datatype Sides = Sides(left: bool, right: bool)
  {
    function Get(side: Side): bool
    {
      match side
      case Left => left
      case Right => right
    }
  }

  const AllOff: Sides := Sides(false, false)

  function Other(side: Side): (o: Side)
    ensures o != side
  {
    match side
    case Left => Right
    case Right => Left
  }

  /** Documented ranges of the world snapshot: time 0 to 6, power 100 down to
      0, usage 1 to 5. */
  predicate DocumentedTime(t: int)
  {
    0 <= t <= 6
  }

  predicate DocumentedPower(p: real)
  {
    0.0 <= p <= 100.0
  }

  predicate DocumentedUsage(u: int)
  {
    1 <= u <= 5
  }
}
