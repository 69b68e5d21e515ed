/** The office screen's decisions: the power gate on the door and light
    buttons, the window-scare cue, which background is drawn and how bright,
    whether a door is drawn shut, and whether the monitor may open. Images are
    named by tags rather than by their addresses. */
module OfficeView {
  import opened Types

  /** The gate every door and light button goes through: the action runs iff
      power is above zero; otherwise only an error cue plays. */
  function InteractionAllowed(power: real): bool
  {
    power > 0.0
  }

  /** The monitor strip opens the cameras only while there is power. */
  function MonitorCanOpen(power: real): bool
  {
    power > 0.0
  }

  /** A light shows (and its button is lit) iff it is on and there is power. */
  function LightActive(light: bool, power: real): bool
  {
    light && power > 0.0
  }

  /** A door is drawn down (and its button lit) iff it is closed and there is
      power. */
  function DoorDrawnClosed(door: bool, power: real): bool
  {
    door && power > 0.0
  }

  /** The corridor agent that comes to each side's door, and that door. */
  function StalkerOf(side: Side): AnimatronicId
  {
    match side
    case Left => Bonnie
    case Right => Chica
  }

  function DoorOf(side: Side): Location
  {
    match side
    case Left => DoorLeft
    case Right => DoorRight
  }

  function BonnieAtDoor(anims: Animatronics): bool
  {
    anims.bonnie.location == DoorLeft
  }

  function ChicaAtDoor(anims: Animatronics): bool
  {
    anims.chica.location == DoorRight
  }

  /** Whether toggling this side's light plays the window-scare cue, given
      the lights before the toggle: iff the light was off and the side's own
      agent stands at the side's own door. Switching a light off never plays
      it. */
  function WindowScare(lights: Sides, side: Side, anims: Animatronics): (scare: bool)
    ensures scare <==> !lights.Get(side) && anims.Get(StalkerOf(side)).location == DoorOf(side)
    ensures lights.Get(side) ==> !scare
  {
    var isTurningOn := !lights.Get(side);
    isTurningOn && ((side == Left && BonnieAtDoor(anims)) || (side == Right && ChicaAtDoor(anims)))
  }

  datatype OfficeImage = Normal | LeftLight | RightLight | BonnieDoor | ChicaDoor

  datatype Background =
    | SplitView(leftImage: OfficeImage, rightImage: OfficeImage)
    | SingleView(image: OfficeImage)

  /** Brightness 0.6 and 1.0. */
  datatype Brightness = Dim | Bright

  function LeftImage(anims: Animatronics): OfficeImage
  {
    if BonnieAtDoor(anims) then BonnieDoor else LeftLight
  }

  function RightImage(anims: Animatronics): OfficeImage
  {
    if ChicaAtDoor(anims) then ChicaDoor else RightLight
  }

  /** The room is bright iff some light is on while there is power. */
  function BrightnessOf(lights: Sides, power: real): (b: Brightness)
    ensures b == Bright <==> power > 0.0 && (lights.left || lights.right)
  {
    if LightActive(lights.left, power) || LightActive(lights.right, power) then Bright else Dim
  }

  /** Whether the background draws this picture anywhere. */
  function Shows(bg: Background, image: OfficeImage): bool
  {
    match bg
    case SplitView(l, r) => l == image || r == image
    case SingleView(i) => i == image
  }

  /** The background drawn. An agent is seen at a door iff that side's light
      shows and the agent stands at that door; the normal office is drawn iff
      no light shows. */
  function BackgroundOf(lights: Sides, power: real, anims: Animatronics): (bg: Background)
    ensures Shows(bg, BonnieDoor) <==> LightActive(lights.left, power) && anims.bonnie.location == DoorLeft
    ensures Shows(bg, ChicaDoor) <==> LightActive(lights.right, power) && anims.chica.location == DoorRight
    ensures Shows(bg, Normal) <==> !LightActive(lights.left, power) && !LightActive(lights.right, power)
  {
    var leftActive := LightActive(lights.left, power);
    var rightActive := LightActive(lights.right, power);
    if leftActive && rightActive then SplitView(LeftImage(anims), RightImage(anims))
    else if leftActive && !rightActive then SingleView(LeftImage(anims))
    else if !leftActive && rightActive then SingleView(RightImage(anims))
    else SingleView(Normal)
  }

  /** Both lit sides give the split view, one lit side gives that side's
      image, none gives the normal office; a side's image shows its agent iff
      the agent stands at that side's door. */
  lemma BackgroundCases(lights: Sides, power: real, anims: Animatronics)
    ensures var l := LightActive(lights.left, power);
            var r := LightActive(lights.right, power);
            var bg := BackgroundOf(lights, power, anims);
      && (bg.SplitView? <==> l && r)
      && (l && !r ==> bg == SingleView(LeftImage(anims)))
      && (!l && r ==> bg == SingleView(RightImage(anims)))
      && (!l && !r ==> bg == SingleView(Normal))
    ensures LeftImage(anims) == BonnieDoor <==> anims.bonnie.location == DoorLeft
    ensures RightImage(anims) == ChicaDoor <==> anims.chica.location == DoorRight
  {
  }

  /** The two decisions agree: the room is dim exactly when the normal office
      is drawn. */
  lemma DimIffNormal(lights: Sides, power: real, anims: Animatronics)
    ensures BrightnessOf(lights, power) == Dim <==> BackgroundOf(lights, power, anims) == SingleView(Normal)
  {
  }

  /** With power every button and the monitor respond, a light shows iff it
      is on, and a door is drawn down iff it is closed. */
  lemma PoweredOffice(doors: Sides, lights: Sides, power: real, side: Side)
    requires power > 0.0
    ensures InteractionAllowed(power) && MonitorCanOpen(power)
    ensures LightActive(lights.Get(side), power) <==> lights.Get(side)
    ensures DoorDrawnClosed(doors.Get(side), power) <==> doors.Get(side)
  {
  }

  /** Without power the office is drawn dark and normal with both doors up,
      whatever the flags say, and no control can be used. */
  lemma PowerlessOffice(doors: Sides, lights: Sides, power: real, anims: Animatronics)
    requires power <= 0.0
    ensures BackgroundOf(lights, power, anims) == SingleView(Normal)
    ensures BrightnessOf(lights, power) == Dim
    ensures !DoorDrawnClosed(doors.left, power) && !DoorDrawnClosed(doors.right, power)
    ensures !InteractionAllowed(power) && !MonitorCanOpen(power)
  {
  }
}
