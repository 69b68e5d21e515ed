/** The camera monitor's decisions: which picture a camera shows given where
    the animatronics are, and which animatronics the roster overlay lists.
    Pictures are named by tags rather than by their addresses. */
module CameraSystem {
  import opened Types

  /** The five show-stage pictures. */
  datatype StageImage = AllThree | NoBonnie | NoChica | FreddyOnly | StageEmpty

  /** The dining-area pictures; `DiningSplit` blends Chica's and Bonnie's. */
  datatype DiningImage = DiningSplit | DiningBonnie | DiningChica | DiningEmpty

  datatype CameraView =
    | NoView                              // the monitor is down: nothing is rendered
    | StageView(stage: StageImage)
    | DiningView(dining: DiningImage)
    | WestCornerView(lowerHalf: bool)     // the half of the split picture shown
    | EastCornerView(showsChica: bool)
    | FeedView(cam: CameraId)             // the camera's own picture
    | AudioOnlyView

  /** Whether the camera's entry in the picture table is non-empty. */
  function HasFeedImage(cam: CameraId): bool
  {
    match cam
    case Cam1A => true
    case Cam1B => true
    case Cam1C => true
    case Cam2A => true
    case Cam2B => true
    case Cam3 => true
    case Cam4A => true
    case Cam4B => true
    case Cam5 => true
    case Cam6 => false
    case Cam7 => true
  }

  /** The kitchen is the only camera without a picture. */
  lemma OnlyKitchenIsAudioOnly(cam: CameraId)
    ensures !HasFeedImage(cam) <==> cam == Cam6
  {
  }

  function StageImageFor(freddyHere: bool, bonnieHere: bool, chicaHere: bool): StageImage
  {
    if freddyHere then
      if bonnieHere && chicaHere then AllThree
      else if !bonnieHere && chicaHere then NoBonnie
      else if bonnieHere && !chicaHere then NoChica
      else FreddyOnly
    else StageEmpty
  }

  function DiningImageFor(bonnieHere: bool, chicaHere: bool): DiningImage
  {
    if bonnieHere && chicaHere then DiningSplit
    else if bonnieHere then DiningBonnie
    else if chicaHere then DiningChica
    else DiningEmpty
  }

  function At(a: AnimatronicState, cam: CameraId): bool
  {
    a.location == Zone(cam)
  }

  /** What the monitor shows for the selected camera. With the monitor up,
      the stage, the dining area and the two hall corners have their own
      occupant-dependent views, the kitchen is audio only, and every other
      camera shows its own picture. */
  function Render(active: bool, cam: CameraId, anims: Animatronics): (v: CameraView)
    ensures v == NoView <==> !active
    ensures active ==>
      && (v.StageView? <==> cam == Cam1A)
      && (v.DiningView? <==> cam == Cam1B)
      && (v.WestCornerView? <==> cam == Cam2B)
      && (v.EastCornerView? <==> cam == Cam4B)
      && (v.AudioOnlyView? <==> cam == Cam6)
    ensures v.FeedView? ==> v.cam == cam && HasFeedImage(cam)
  {
    if !active then NoView
    else if cam == Cam1A then
      StageView(StageImageFor(At(anims.freddy, Cam1A), At(anims.bonnie, Cam1A), At(anims.chica, Cam1A)))
    else if cam == Cam1B then
      DiningView(DiningImageFor(At(anims.bonnie, Cam1B), At(anims.chica, Cam1B)))
    else if cam == Cam2B then WestCornerView(At(anims.bonnie, Cam2B))
    else if cam == Cam4B then EastCornerView(At(anims.chica, Cam4B))
    else if HasFeedImage(cam) then FeedView(cam)
    else AudioOnlyView
  }

  /** With the monitor down nothing is rendered; with it up something always
      is. */
  lemma RendersIffActive(active: bool, cam: CameraId, anims: Animatronics)
    ensures Render(active, cam, anims) == NoView <==> !active
  {
  }

  /** Without Freddy on the stage the stage camera shows the empty stage,
      whoever else is there. */
  lemma StageEmptyWithoutFreddy(anims: Animatronics)
    requires anims.freddy.location != Zone(Cam1A)
    ensures Render(true, Cam1A, anims) == StageView(StageEmpty)
  {
  }

  /** With Freddy on the stage the four Bonnie/Chica combinations give four
      different pictures, none of them the empty stage. */
  lemma StagePicturesDistinguishPresence(b1: bool, c1: bool, b2: bool, c2: bool)
    ensures StageImageFor(true, b1, c1) != StageEmpty
    ensures StageImageFor(true, b1, c1) == StageImageFor(true, b2, c2) <==> b1 == b2 && c1 == c2
    ensures StageImageFor(true, b1, c1) == AllThree <==> b1 && c1
    ensures StageImageFor(true, b1, c1) == FreddyOnly <==> !b1 && !c1
    ensures StageImageFor(true, b1, c1) == NoBonnie <==> !b1 && c1
    ensures StageImageFor(true, b1, c1) == NoChica <==> b1 && !c1
  {
  }

  /** With Freddy on the stage, the stage camera's picture names exactly who
      of Bonnie and Chica is missing. */
  lemma StageShowsWhoIsThere(anims: Animatronics)
    requires anims.freddy.location == Zone(Cam1A)
    ensures var v := Render(true, Cam1A, anims);
            var b := At(anims.bonnie, Cam1A);
            var c := At(anims.chica, Cam1A);
      && v.StageView?
      && (v.stage == AllThree <==> b && c)
      && (v.stage == NoBonnie <==> !b && c)
      && (v.stage == NoChica <==> b && !c)
      && (v.stage == FreddyOnly <==> !b && !c)
  {
  }

  /** The dining-area picture shows each of Bonnie and Chica iff she is there. */
  lemma DiningShowsWhoIsThere(anims: Animatronics)
    ensures var d := Render(true, Cam1B, anims).dining;
      && (d == DiningSplit || d == DiningBonnie <==> At(anims.bonnie, Cam1B))
      && (d == DiningSplit || d == DiningChica <==> At(anims.chica, Cam1B))
  {
  }

  /** The west-hall corner shows the lower half iff Bonnie is there; the
      east-hall corner shows Chica iff she is there, and ignores Freddy. */
  lemma CornerCameras(anims: Animatronics, freddyElsewhere: Location)
    ensures Render(true, Cam2B, anims) == WestCornerView(anims.bonnie.location == Zone(Cam2B))
    ensures Render(true, Cam4B, anims) == EastCornerView(anims.chica.location == Zone(Cam4B))
    ensures Render(true, Cam4B, anims.(freddy := anims.freddy.(location := freddyElsewhere))) ==
            Render(true, Cam4B, anims)
  {
  }

  /** Every other camera shows its own picture regardless of who is where,
      except the kitchen, which is audio only. */
  lemma PlainCameras(cam: CameraId, anims: Animatronics)
    requires cam !in {Cam1A, Cam1B, Cam2B, Cam4B}
    ensures cam != Cam6 ==> Render(true, cam, anims) == FeedView(cam)
    ensures cam == Cam6 ==> Render(true, cam, anims) == AudioOnlyView
  {
  }

  /** The identities of the listed records standing at this camera, in order. */
  function StandingAt(list: seq<AnimatronicState>, cam: CameraId): (r: seq<AnimatronicId>)
    ensures |r| <= |list|
  {
    if list == [] then []
    else (if At(list[0], cam) then [list[0].id] else []) + StandingAt(list[1..], cam)
  }

  /** The roster overlay: who is at the selected camera, in record order. */
  function Roster(anims: Animatronics, cam: CameraId): (r: seq<AnimatronicId>)
    ensures |r| <= 4
  {
    StandingAt(anims.Values(), cam)
  }

  lemma {:induction false} StandingAtMembers(list: seq<AnimatronicState>, cam: CameraId, x: AnimatronicId)
    ensures x in StandingAt(list, cam) <==> exists k :: 0 <= k < |list| && list[k].id == x && At(list[k], cam)
  {
    if list != [] {
      StandingAtMembers(list[1..], cam, x);
      if x in StandingAt(list[1..], cam) {
        var k :| 0 <= k < |list[1..]| && list[1..][k].id == x && At(list[1..][k], cam);
        assert list[k + 1] == list[1..][k];
      }
      if exists k :: 0 <= k < |list| && list[k].id == x && At(list[k], cam) {
        var k :| 0 <= k < |list| && list[k].id == x && At(list[k], cam);
        if k > 0 {
          assert list[1..][k - 1] == list[k];
        }
      }
    }
  }

  /** With every record stored under its own identity, the roster lists
      exactly the animatronics whose location is the selected camera. */
  lemma RosterIsExactlyThoseAtCamera(anims: Animatronics, cam: CameraId, x: AnimatronicId)
    requires anims.KeyedById()
    ensures x in Roster(anims, cam) <==> anims.Get(x).location == Zone(cam)
  {
    var list := anims.Values();
    StandingAtMembers(list, cam, x);
    if anims.Get(x).location == Zone(cam) {
      var k := match x case Bonnie => 0 case Chica => 1 case Freddy => 2 case Foxy => 3;
      assert list[k] == anims.Get(x);
    }
    if x in Roster(anims, cam) {
      var k :| 0 <= k < 4 && list[k].id == x && At(list[k], cam);
      assert anims.Get(Bonnie).id == Bonnie && anims.Get(Chica).id == Chica;
      assert anims.Get(Freddy).id == Freddy && anims.Get(Foxy).id == Foxy;
      assert list[k] == anims.Get(x);
    }
  }
}
