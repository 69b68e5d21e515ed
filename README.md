# Five nights at your moma — a verified model of the night simulation

"Five nights at your moma" is a browser survival game. The player sits in a
security office from midnight to 6 AM. Two animatronics, Bonnie and Chica,
walk along fixed corridor paths toward the office's left and right doors. The
player watches them on a camera monitor and closes the doors in time. Every
device in use drains a shared power budget. When the power runs out, a
scripted sequence ends in Freddy's attack.

This project models the core of that simulation in Dafny:

- the game's shared types (`types.dfy`, module `Types`);
- the per-agent AI step, with its roll gate, door patience and path following
  (`animatronic_ai.dfy`, module `AnimatronicAI`);
- the device usage count and the power drain tick (`power_meter.dfy`, module
  `PowerMeter`);
- the hour clock (`clock.dfy`, module `Clock`);
- the office screen's decisions: the power gate on every button, the
  window-scare cue, the background and brightness, the doors drawn shut and
  the monitor gate (`office_view.dfy`, module `OfficeView`);
- the camera monitor's picture table and roster overlay (`camera_system.dfy`,
  module `CameraSystem`);
- the session itself (`session.dfy`, module `Session`).

The session is a class, `GameSession`, whose fields are the game's state
variables. Its methods are the three periodic ticks (clock, power, AI), the
three steps of the power-out script, and the player's inputs. Each method is
one atomic update. Every method keeps the invariant `Session.Invariant`, and
states its whole new state as the old snapshot with the changed fields
replaced.

The AI's random draw is a parameter: `roll` stands for the uniform draw from
[0, 20). Timers are not modelled as time. Each tick or timeout that fires is a
method call, made in whatever order a caller chooses.

Power is a real number. Floating-point rounding of the repeated 0.2 steps is
not modelled.

Where the code and its own documentation disagree, the model follows the code:

- Usage can reach 6 (monitor, both doors and both lights), not the documented
  maximum of 5 (`PowerMeter.UsageExceedsDocumentedRange`).
- Power can fall below zero, by less than 1.2, for one tick. The next tick
  then clamps it to 0 (`PowerMeter.DrainMayUndershoot`). The documented range
  is 100 down to 0.

Two further facts about the code:

- Nothing cancels the power-out script's pending steps. In the model, where
  every tick runs only while playing, the invariant shows that no step is
  pending when `StartGame` runs, so no step can fire into a new session
  (`Session.GameSession.StartGame`). In the program this rests on timing; see
  the line on tick guards under "Left out".
- Bonnie needs five moves and Chica six to reach her door. The first attack
  comes on the 8th successful tick for Bonnie and the 9th for Chica
  (`AnimatronicAI.BonnieAttacksOnEighthTick`,
  `AnimatronicAI.ChicaAttacksOnNinthTick`).

## Model

| member | source | states |
|---|---|---|
| Types.AllGameStates | fivenightsatyourmoma/types.ts:1-9 | seven game states, pairwise distinct |
| Types.GameStatesExhaustive | fivenightsatyourmoma/types.ts:1-9 | every game state is one of the seven listed |
| Types.AllCameras | fivenightsatyourmoma/types.ts:11-23 | eleven camera zones, pairwise distinct |
| Types.CamerasExhaustive | fivenightsatyourmoma/types.ts:11-23 | every camera is one of the eleven |
| Types.AllLocations | fivenightsatyourmoma/types.ts:34 | a location is one of 14 distinct values: the eleven zones, the office, and the two door sentinels |
| Types.LocationsExhaustive | fivenightsatyourmoma/types.ts:34 | every location is one of the fourteen |
| Types.Animatronics.Values | fivenightsatyourmoma/types.ts:54 | the keyed record enumerates four entries, and every entry appears among them |
| AnimatronicAI.PathShapes | fivenightsatyourmoma/App.tsx:14-15 | Bonnie's path has 6 entries and Chica's 7; both start on the show stage, end at their own door, and repeat no location |
| AnimatronicAI.IndexOf | fivenightsatyourmoma/App.tsx:146 | the first position of a location on the path, or -1 exactly when it is absent |
| AnimatronicAI.IndexOfDistinct | fivenightsatyourmoma/App.tsx:146 | on a path without repeats, the position found is the entry's own index |
| AnimatronicAI.Act | fivenightsatyourmoma/App.tsx:124-160 | an action keeps the agent's identity and level and leaves it on its path; it attacks exactly when the agent is at its open door and its incremented wait exceeds 2 |
| AnimatronicAI.Step | fivenightsatyourmoma/App.tsx:111-161 | one tick keeps the agent's identity and level, keeps an agent on its path, and attacks iff the roll is below the level and the agent is at its open door with its incremented wait above 2 |
| AnimatronicAI.RollGate | fivenightsatyourmoma/App.tsx:119-122 | a roll at or above the AI level leaves the agent unchanged; a roll below it acts |
| AnimatronicAI.RollGateExtremes | fivenightsatyourmoma/App.tsx:120 | for rolls in [0, 20), level 0 never acts and level 20 always acts |
| AnimatronicAI.ActAtClosedDoor | fivenightsatyourmoma/App.tsx:126-130 | at a closed door the agent returns to its path's start with its wait cleared, and never attacks |
| AnimatronicAI.ActAtOpenDoor | fivenightsatyourmoma/App.tsx:131-141 | at an open door the agent stays, its wait grows by exactly one, nothing else changes, and it attacks iff the new wait exceeds 2 |
| AnimatronicAI.ActAdvances | fivenightsatyourmoma/App.tsx:153-158 | away from the door the agent moves one entry forward and clears its wait |
| AnimatronicAI.ActRecovers | fivenightsatyourmoma/App.tsx:146-151 | an agent off its path goes back to the path's start, keeping its wait counter |
| AnimatronicAI.AbsentCounterReadsAsZero | fivenightsatyourmoma/App.tsx:134 | an absent wait counter acts exactly like a counter of 0 |
| AnimatronicAI.PassingRollsAct | fivenightsatyourmoma/App.tsx:119-122 | ticks whose rolls all pass are plain actions, and the level never changes |
| AnimatronicAI.WalkToDoor | fivenightsatyourmoma/App.tsx:145-158 | from the path's start, after k ticks the agent is at entry k with its wait cleared, until it reaches the door |
| AnimatronicAI.WaitAtOpenDoor | fivenightsatyourmoma/App.tsx:131-134 | once at an open door, each later tick adds one to the wait |
| AnimatronicAI.FirstAttack | fivenightsatyourmoma/App.tsx:124-160 | with the door open throughout, the m-th successful tick attacks iff m is at least the path length plus 2 |
| AnimatronicAI.BonnieAttacksOnEighthTick | fivenightsatyourmoma/App.tsx:14 | Bonnie attacks on her 8th successful tick from the stage and not before |
| AnimatronicAI.ChicaAttacksOnNinthTick | fivenightsatyourmoma/App.tsx:15 | Chica attacks on her 9th successful tick from the stage and not before |
| AnimatronicAI.ClosingTheDoorRepels | fivenightsatyourmoma/App.tsx:126-130 | an agent that has just arrived is sent back, without attacking, if the door is then closed |
| PowerMeter.CountTrue | fivenightsatyourmoma/App.tsx:91-99 | the number of devices in use is between 0 and 5; it is 0 iff none is in use and 5 iff all are |
| PowerMeter.UsageOf | fivenightsatyourmoma/App.tsx:91-99 | usage is one plus the number of devices in use, counted independently by `CountTrue` |
| PowerMeter.UsageCountsDevices | fivenightsatyourmoma/App.tsx:91-99 | usage is one plus the number of devices in use, lies in 1..6, is 1 iff everything is off, and is 6 iff everything is on |
| PowerMeter.UsageExceedsDocumentedRange | fivenightsatyourmoma/types.ts:43 | with every device in use, usage is 6, outside the documented 1..5 |
| PowerMeter.PowerTick | fivenightsatyourmoma/App.tsx:233-270 | a tick depletes iff power is at or below zero; otherwise power falls by more than 0 and at most 1.2 |
| PowerMeter.DrainMayUndershoot | fivenightsatyourmoma/App.tsx:268-270 | a drain can leave power at -1.0, outside the documented range, and the next tick depletes |
| PowerMeter.DepletesWithin | fivenightsatyourmoma/App.tsx:232-272 | any usage pattern depletes a level p within 5p + 1 ticks |
| PowerMeter.SurvivesFor | fivenightsatyourmoma/App.tsx:232-272 | any usage pattern leaves a level above 1.2 n undepleted for n ticks |
| PowerMeter.FullPowerLifetime | fivenightsatyourmoma/App.tsx:194 | from full power the outage cannot start within 83 ticks and must start within 501 |
| Clock.ClockTick | fivenightsatyourmoma/App.tsx:221-228 | a tick adds one hour and wins exactly when the new hour is 6 |
| Clock.RunFromMidnight | fivenightsatyourmoma/App.tsx:218-229 | from midnight the hour never exceeds 6, and the win fires exactly on the sixth tick |
| OfficeView.PoweredOffice | fivenightsatyourmoma/components/OfficeView.tsx:40-46 | with power above zero, `InteractionAllowed` and `MonitorCanOpen` accept, `LightActive` holds iff the light is on, and `DoorDrawnClosed` holds iff the door is closed (lines 40-46, 150-192) |
| OfficeView.WindowScare | fivenightsatyourmoma/components/OfficeView.tsx:55-71 | the cue plays iff the light was off and that side's agent stands at that side's door; turning a light off never plays it |
| OfficeView.BrightnessOf | fivenightsatyourmoma/components/OfficeView.tsx:76-90 | the office is bright iff there is power and some light is on |
| OfficeView.BackgroundOf | fivenightsatyourmoma/components/OfficeView.tsx:76-143 | Bonnie's door picture is drawn iff the left light shows and she is at the left door; Chica's likewise on the right; the normal office is drawn iff no light shows |
| OfficeView.BackgroundCases | fivenightsatyourmoma/components/OfficeView.tsx:79-94 | both lit sides give the split view, one lit side gives that side's image, and none gives the normal office; each side's image shows its agent iff the agent is at that door |
| OfficeView.DimIffNormal | fivenightsatyourmoma/components/OfficeView.tsx:85-94 | the office is dim exactly when the normal office image is drawn |
| OfficeView.PowerlessOffice | fivenightsatyourmoma/components/OfficeView.tsx:40-46 | without power the office is dark and normal, both doors are drawn up, and no button or monitor responds |
| CameraSystem.OnlyKitchenIsAudioOnly | fivenightsatyourmoma/constants.ts:57-69 | the kitchen is the only camera without a picture |
| CameraSystem.Render | fivenightsatyourmoma/components/CameraSystem.tsx:32-188 | nothing is rendered iff the monitor is down; when up, the stage, dining, west-corner, east-corner and audio-only views appear exactly for 1A, 1B, 2B, 4B and 6, and any other camera shows its own picture |
| CameraSystem.RendersIffActive | fivenightsatyourmoma/components/CameraSystem.tsx:32 | nothing is rendered iff the monitor is down |
| CameraSystem.StageEmptyWithoutFreddy | fivenightsatyourmoma/components/CameraSystem.tsx:51-75 | without Freddy on stage the stage camera shows the empty stage |
| CameraSystem.StagePicturesDistinguishPresence | fivenightsatyourmoma/components/CameraSystem.tsx:58-71 | with Freddy on stage the four Bonnie/Chica combinations give four distinct pictures, none of them empty: both present gives all three, Chica alone gives the no-Bonnie picture, Bonnie alone the no-Chica picture, neither gives Freddy alone |
| CameraSystem.StageShowsWhoIsThere | fivenightsatyourmoma/components/CameraSystem.tsx:51-75 | with Freddy on stage the rendered stage view is all three iff both are there, no-Bonnie iff only Chica is, no-Chica iff only Bonnie is, and Freddy alone iff neither is |
| CameraSystem.DiningShowsWhoIsThere | fivenightsatyourmoma/components/CameraSystem.tsx:92-126 | the dining picture shows Bonnie iff she is there, and Chica iff she is there |
| CameraSystem.CornerCameras | fivenightsatyourmoma/components/CameraSystem.tsx:130-160 | the west corner shows its lower half iff Bonnie is there; the east corner shows Chica iff she is there and ignores Freddy |
| CameraSystem.PlainCameras | fivenightsatyourmoma/components/CameraSystem.tsx:164-187 | every other camera shows its own picture regardless of occupants, except the kitchen, which is audio only |
| CameraSystem.StandingAt | fivenightsatyourmoma/components/CameraSystem.tsx:213-216 | the filtered list is no longer than the records it filters |
| CameraSystem.Roster | fivenightsatyourmoma/components/CameraSystem.tsx:213-216 | the overlay lists at most four names; `RosterIsExactlyThoseAtCamera` states which |
| CameraSystem.StandingAtMembers | fivenightsatyourmoma/components/CameraSystem.tsx:213-216 | an identity is listed iff some record with that identity stands at the camera |
| CameraSystem.RosterIsExactlyThoseAtCamera | fivenightsatyourmoma/components/CameraSystem.tsx:213-216 | the roster lists an animatronic iff its location is the selected camera |
| Session.Invariant | fivenightsatyourmoma/App.tsx:232-264 | in every reachable world each level is in 0..20, and during the blackout no button or monitor responds and the monitor renders nothing |
| Session.InitialAnimatronicsWellFormed | fivenightsatyourmoma/App.tsx:51-56 | both initial records are keyed by identity, start on their paths, and use levels within 0..20 |
| Session.Flip | fivenightsatyourmoma/App.tsx:344 | toggling negates the named side and leaves the other side unchanged |
| Session.FlipTwice | fivenightsatyourmoma/App.tsx:344 | toggling the same side twice restores it |
| Session.GameSession.constructor | fivenightsatyourmoma/App.tsx:28-56 | the menu, midnight, full power, every control off, and the pre-session levels |
| Session.GameSession.StartGame | fivenightsatyourmoma/App.tsx:187-206 | from the menu, a full reset into the intro with session levels 12/12/0/0, and no outage step pending; otherwise nothing changes |
| Session.GameSession.BeginNight | fivenightsatyourmoma/App.tsx:77-79 | the intro becomes the night; nothing else changes |
| Session.GameSession.ReturnToMenu | fivenightsatyourmoma/App.tsx:384-400 | the jumpscare, win and game-over screens return to the menu; nothing else changes |
| Session.GameSession.TickClock | fivenightsatyourmoma/App.tsx:218-229 | while playing, one hour later, never past 6, winning exactly at 6 |
| Session.GameSession.CalculateUsage | fivenightsatyourmoma/App.tsx:91-99 | returns one plus the number of devices in use, within 1..6 |
| Session.GameSession.TickPower | fivenightsatyourmoma/App.tsx:232-272 | while playing, power drains by usage times 0.2; once it is at or below zero it is set to 0, the controls are forced off, and the outage script starts in the dark |
| Session.GameSession.TickAI | fivenightsatyourmoma/App.tsx:163-185 | while playing, Bonnie steps against the left door and then Chica against the right; any attack ends the night, with Chica recorded when both attack |
| Session.GameSession.AdvancePowerOutStage | fivenightsatyourmoma/App.tsx:245-264 | the outage script: Freddy appears, the office goes dark again, then Freddy attacks |
| Session.GameSession.ToggleDoor | fivenightsatyourmoma/components/OfficeView.tsx:40-53 | accepted iff playing with power; accepted toggles flip that door and count one |
| Session.GameSession.ToggleLight | fivenightsatyourmoma/components/OfficeView.tsx:55-73 | accepted iff playing with power; flips that light; the cue plays iff the window-scare condition holds |
| Session.GameSession.OpenMonitor | fivenightsatyourmoma/components/OfficeView.tsx:190-197 | the monitor opens iff playing with power |
| Session.GameSession.CloseMonitor | fivenightsatyourmoma/App.tsx:290-293 | while playing, the monitor closes, whatever the power |
| Session.GameSession.SelectCamera | fivenightsatyourmoma/components/CameraSystem.tsx:37-46 | with the monitor up, the chosen camera becomes the selected one |
| Session.BlackoutIgnoresInputs | fivenightsatyourmoma/App.tsx:218 | during the blackout, every tick and every button leaves the whole state unchanged (see the line on tick guards under "Left out") |
| Session.PowerOutScript | fivenightsatyourmoma/App.tsx:234-266 | a tick that finds no power leads through dark, Freddy and dark to Freddy's attack, with the controls off at the end; the stages in between are checked by assertions in its body, and each stage calls `BlackoutIgnoresInputs` |
| Session.ClockOnlyNight | fivenightsatyourmoma/App.tsx:187-229 | from the menu, six clock ticks win the night at 6 AM |

## Left out

- Timers and their periods (one-hour clock, one-second power tick, AI tick period, the 7-second intro and the 7 s / 15 s / 2 s outage delays) are left out. Each firing is a method call; ordering between them is up to the caller.
- The interval re-registration on every state change is left out. Each tick reads the current state, as the re-registered closures do.
- Session.GameSession.TickClock, Session.GameSession.TickPower and Session.GameSession.TickAI: each tick's `Playing` guard stands for the interval cleared by the effect cleanup (App.tsx:277-281). The interval bodies themselves never test the game state, and the cleanup runs only after the next render. A tick already due between a state change and that cleanup is not modelled. An example: the power tick that starts the outage, followed at once by an AI attack, leaves the outage steps pending after the jumpscare. The same window lets a late AI attack follow the win.
- Randomness is left out: each AI roll is a parameter standing for the draw from [0, 20).
- Floating-point rounding of power is left out: power is a real number.
- Audio, images, image addresses, CSS, the office pan offset, the static effect, the intro zoom flag and the asset-loading screen are presentation and are left out. The pictures chosen are modelled by tags.
- The HUD display and the debug menu's forced actions (drain to zero, force win, force an agent to a door) are left out. They are diagnostic shortcuts, not gameplay.
- Freddy and Foxy have levels and positions but no behaviour in the source. They are modelled as records that never move.
- The `subState` field is carried but never read.
- Office pictures are tags named after the constants the code selects. The `LeftLight` and `Normal` tags are one and the same picture in the asset table. So "the normal office is drawn" is a statement about which constant is chosen, not about what appears on screen.
- The camera monitor's "NO SIGNAL" text and the stage camera's safety fallback are not modelled. Every branch of the picture table yields a picture, so neither can show.
- The game-over screen is modelled only by `ReturnToMenu`. Nothing in the source enters that state, and the invariant records this.
- `Session.GameSession.TickAI` does not model two separately queued state updates: the attack and the agents' moves are one atomic step.
