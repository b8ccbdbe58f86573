# The Old Gold Mine: decision core in Dafny

This project models the sequential decision logic of *The Old Gold Mine*, a
MonoGame first-person game, and proves properties of it:

- **Application state machine** (`Game`, main_game.dfy): the game is in one of
  MainMenu, Running, Paused or GameOver. Four guarded transitions
  (`StartGame`, `PauseGame`, `ResumeGame`, `ToMainMenu`) change it and show or
  hide the mouse pointer. The per-frame `Update` dispatches on the state. The
  class `OldGoldMineGame` holds the state and the pointer flag. The value-level
  functions `Apply`, `Frame`, `Run` and `RunFrames` specify it. Proved: the
  transition table, idempotence of each transition, the rule "pointer shown
  exactly when not running" kept by every transition and every frame, and
  GameOver unreachable from the initialised game.
- **Interactive button** (`Buttons`, button.dfy): a hit rectangle, an
  optional label, four textures and an enabled flag. The state is recomputed
  each frame from the pointer snapshot. Proved: the priority order of the
  update rule; `IsClicked` agreeing with the Pressed state on the same
  snapshot; the texture slot always valid; the centring round trip of the
  `Position` setter.
- **Look/move controller** (`Players`, player.dfy): look angles clamped to
  ±45° vertically and ±30° horizontally. The camera is turned by the residual
  of each clamped step. The hit sphere follows the camera. Proved: the
  angles stay in range; the rotations over any sequence of look steps add up
  to the final angle minus the initial one; once saturated, the angle and
  the camera stay put.
- **HUD** (`Hud`, hud.dfy): four text labels, each refreshed by its own
  update. The frame-rate label turns red below 60. Proved: the threshold
  rule, that each update touches only its own label, that updates of
  different labels commute, and that each update is idempotent.

Supporting modules: `Xna` (xna.dfy) holds MonoGame's `Point`, `Rectangle`
(half-open `Contains`, `Center` with integer division), vectors and colours,
and C#'s truncating division and float-to-int conversion, both within `int`
range. `SpriteTexts`
(sprite_text.dfy) holds the state of a text label. `Cameras` (camera.dfy)
abstracts the camera to a position, six direction vectors and the total
rotation applied to it.

Modelling choices:
- Floats are exact reals. The input manager is a per-frame snapshot passed as
  parameters (`PointerInput` for buttons, `FrameInput` for the game loop).
- .NET `ToString` formatting is symbolic: a formatted text is kept as the
  value and its format string.
- The static `player` of the game is a constant field of the game object.

Behaviour of the code worth knowing:
- The `(position, size)` button constructors put the rectangle's top-left
  corner at `position + size / 2`, although their doc comments
  (Button.cs:70, 120) call `position` the button's centre. For a whole-pixel
  position and an even size the area is centred at `position + size`, and for
  a non-negative position and a width of two pixels or more the documented
  centre lies outside the area.
- The frame-rate label starts LightGreen. Updates make it LimeGreen or Red.
- The label-building button constructors ignore their `textColor` argument,
  which their doc comments (Button.cs:97, 124) describe as the label's colour.
- In a running frame where the pause key is pressed, the game pauses and the
  same frame still moves and turns the player.
- The look angles track the camera's rotation only while `RotateUpDown` and
  `RotateLeftRight` are not used. These two turn the camera and leave the
  angles alone.

## Model

| member | source | states |
|---|---|---|
| `Game.Apply` | oldgoldmine-game/MainGame.cs:311-350 | a transition either leaves the screen unchanged or leads to a non-GameOver state with the pointer shown exactly when not running; it keeps the pointer rule |
| `Game.ApplyFollowsTable` | oldgoldmine-game/MainGame.cs:311-350 | for all 16 (state, transition) pairs the result is the table's cell; a no-op cell leaves the pointer alone and a firing cell sets it to "not running" |
| `Game.TransitionIsIdempotent` | oldgoldmine-game/MainGame.cs:322-330 | calling any transition (pause included) twice equals calling it once |
| `Game.RunKeepsInvariant` | oldgoldmine-game/MainGame.cs:311-350 | any sequence of transitions from a consistent, non-GameOver screen keeps the pointer rule and never reaches GameOver |
| `Game.Frame` | oldgoldmine-game/MainGame.cs:157-248 | an inactive window changes nothing; Running with the pause key goes to Paused with the pointer shown; GameOver does nothing; the pointer rule is kept and GameOver never entered |
| `Game.PauseKeyReadOnlyWhenRunning` | oldgoldmine-game/MainGame.cs:164-175 | outside Running the pause key has no effect on the frame's outcome |
| `Game.FramesKeepInvariant` | oldgoldmine-game/MainGame.cs:157-248 | any sequence of frames keeps the pointer rule and never reaches GameOver |
| `Game.GameOverUnreachable` | oldgoldmine-game/MainGame.cs:15-21 | from the initialised game (MainMenu, pointer shown) no sequence of frames reaches GameOver, and the pointer is shown exactly when not running |
| `Game.OldGoldMineGame.constructor` | oldgoldmine-game/MainGame.cs:27-28 | a new game has the default state MainMenu, the pointer hidden, and a fresh player without camera |
| `Game.OldGoldMineGame.Initialize` | oldgoldmine-game/MainGame.cs:80-121 | the player gets a fresh camera at (0, 0, -15) and a unit hit sphere there; the state is MainMenu with the pointer shown |
| `Game.OldGoldMineGame.StartGame` | oldgoldmine-game/MainGame.cs:311-320 | the new state and pointer are `Apply` of the old ones with StartGame |
| `Game.OldGoldMineGame.PauseGame` | oldgoldmine-game/MainGame.cs:322-330 | the new state and pointer are `Apply` of the old ones with PauseGame |
| `Game.OldGoldMineGame.ResumeGame` | oldgoldmine-game/MainGame.cs:332-340 | the new state and pointer are `Apply` of the old ones with ResumeGame |
| `Game.OldGoldMineGame.ToMainMenu` | oldgoldmine-game/MainGame.cs:342-350 | the new state and pointer are `Apply` of the old ones with ToMainMenu |
| `Game.OldGoldMineGame.ApplyMenuCall` | oldgoldmine-game/MainGame.cs:166-170 | a menu's update invokes at most one transition, with its guarded effect |
| `Game.OldGoldMineGame.MovePlayer` | oldgoldmine-game/MainGame.cs:177-208 | the camera moves by move speed times the sum of the camera directions whose keys are held |
| `Game.OldGoldMineGame.TurnPlayer` | oldgoldmine-game/MainGame.cs:210-228 | the look angles end where the clamped up/down and left/right steps lead, and the camera keeps its offset from them |
| `Game.OldGoldMineGame.Update` | oldgoldmine-game/MainGame.cs:157-248 | the screen follows `Frame`; outside an active running frame the player and camera are unchanged; in one the angles, camera rotation and position follow the held keys and the hit sphere is on the camera |
| `Players.Clamp` | oldgoldmine-game/Gameplay/Player.cs:51-52 | the result lies in [min, max], equals the value when inside, and the nearer bound when outside |
| `Players.Look` | oldgoldmine-game/Gameplay/Player.cs:49-56 | one look step ends within [-limit, limit], adds the delta when that stays inside, and stays at a limit when pushed further past it |
| `Players.TotalRotationTelescopes` | oldgoldmine-game/Gameplay/Player.cs:51-55 | over any sequence of look steps the camera turns by exactly the final angle minus the initial angle |
| `Players.AngleStaysInRange` | oldgoldmine-game/Gameplay/Player.cs:10-11 | from an angle in range, every sequence of look steps stays within [-limit, limit] |
| `Players.SaturatedStaysPut` | oldgoldmine-game/Gameplay/Player.cs:51-55 | at +limit with non-negative steps (or -limit with non-positive ones) the angle does not move and every applied rotation is 0 |
| `Players.RepeatedLookSaturates` | oldgoldmine-game/Gameplay/Player.cs:49-56 | repeating a step of at least twice the limit ends at the limit, with total camera rotation exactly limit minus the initial angle |
| `Players.Player.constructor` | oldgoldmine-game/Gameplay/Player.cs:13-19 | both look angles start at 0, there is no camera, the hit sphere is the default one |
| `Players.Player.Initialize` | oldgoldmine-game/Gameplay/Player.cs:24-29 | the camera is attached and the hit sphere has radius 1 at the camera position |
| `Players.Player.InitializeWithBox` | oldgoldmine-game/Gameplay/Player.cs:31-35 | only the camera is attached; box and hit sphere are untouched |
| `Players.Player.RotateUpDown` | oldgoldmine-game/Gameplay/Player.cs:39-42 | the camera pitches by the full amount, unclamped; the look angles are not in its frame |
| `Players.Player.RotateLeftRight` | oldgoldmine-game/Gameplay/Player.cs:44-47 | the camera yaws by the full amount, unclamped; the look angles are not in its frame |
| `Players.Player.LookUpDown` | oldgoldmine-game/Gameplay/Player.cs:49-56 | the vertical angle becomes the clamped target and stays in [-45, 45]; the camera pitches by new minus old angle; nothing else moves |
| `Players.Player.LookLeftRight` | oldgoldmine-game/Gameplay/Player.cs:58-65 | the horizontal angle becomes the clamped target and stays in [-30, 30]; the camera yaws by new minus old angle |
| `Players.Player.Move` | oldgoldmine-game/Gameplay/Player.cs:67-70 | the camera position moves by speed times direction; angles and rotation are untouched |
| `Players.Player.Update` | oldgoldmine-game/Gameplay/Player.cs:72-76 | the hit sphere's centre becomes the camera position, its radius is kept |
| `Buttons.ButtonState.Index` | oldgoldmine-game/UI/Button.cs:9-24 | the texture slot of every state is below 4 |
| `Buttons.TextureSlotsDistinct` | oldgoldmine-game/UI/Button.cs:59-64 | different states use different texture slots |
| `Buttons.NextState` | oldgoldmine-game/UI/Button.cs:148-161 | Disabled exactly when not enabled; Pressed exactly when clicked; Highlighted exactly when enabled, pointed at and not clicked; Normal exactly when enabled and not pointed at |
| `Buttons.AreaFromPositionSize` | oldgoldmine-game/UI/Button.cs:81 | the area's top-left is the truncation of position plus half the size, its size the truncated size; for a non-negative position and a width (or height) of at least two, the position documented as the centre is outside the area |
| `Buttons.PositionSizeAreaIsNotCentred` | oldgoldmine-game/UI/Button.cs:67-81 | for every whole-pixel non-negative position and even whole-pixel size, the area built is centred at position + size instead of at the documented centre |
| `Buttons.Button.Position` | oldgoldmine-game/UI/Button.cs:37 | the centre of the area, as an integer point; it lies inside the area whenever the area has positive width and height |
| `Buttons.CentredAt` | oldgoldmine-game/UI/Button.cs:35-39 | re-centring keeps the size and puts the centre exactly at the given point |
| `Buttons.Button.FromArea` | oldgoldmine-game/UI/Button.cs:53-65 | enabled, state Normal, the given area and label, the four textures in slot order |
| `Buttons.Button.FromPositionSize` | oldgoldmine-game/UI/Button.cs:77-89 | enabled, state Normal, the area `AreaFromPositionSize` builds, the four textures in slot order |
| `Buttons.Button.FromAreaWithLabel` | oldgoldmine-game/UI/Button.cs:102-115 | enabled, state Normal, the given area, a fresh label anchored MiddleCenter at its centre |
| `Buttons.Button.FromPositionSizeWithLabel` | oldgoldmine-game/UI/Button.cs:129-142 | enabled, state Normal, the built area, a fresh label anchored MiddleCenter at its centre |
| `Buttons.Button.SetPosition` | oldgoldmine-game/UI/Button.cs:35-39 | after setting position p, the size is unchanged and the position getter returns p; only the area changes |
| `Buttons.Button.Update` | oldgoldmine-game/UI/Button.cs:148-161 | the state becomes `NextState` of the enabled flag, area and snapshot; nothing else changes |
| `Buttons.Button.IsClicked` | oldgoldmine-game/UI/Button.cs:167-171 | true exactly when enabled, clicked and pointed at; that is exactly when the update gives Pressed; never when disabled; changes nothing |
| `Buttons.Button.Draw` | oldgoldmine-game/UI/Button.cs:174-181 | draws the texture in the current state's slot over the area, tinted burly-wood, then the label; changes nothing |
| `Hud.FramerateColor` | oldgoldmine-game/Gameplay/HUD.cs:41 | red exactly when the frame rate is below 60, lime green exactly when it is 60 or more |
| `Hud.ApplyUpdate` | oldgoldmine-game/Gameplay/HUD.cs:33-52 | a refresh leaves the other three labels as they were; it keeps its own label's position and anchor; only the frame-rate refresh changes a colour, to `FramerateColor` |
| `Hud.UpdatesOfDifferentLabelsCommute` | oldgoldmine-game/Gameplay/HUD.cs:33-52 | refreshes of different labels give the same HUD in either order |
| `Hud.UpdateIsIdempotent` | oldgoldmine-game/Gameplay/HUD.cs:33-52 | repeating a refresh with the same argument changes nothing further |
| `Hud.HUD.constructor` | oldgoldmine-game/Gameplay/HUD.cs:10-13 | the four labels are absent before initialisation |
| `Hud.HUD.Initialize` | oldgoldmine-game/Gameplay/HUD.cs:16-30 | four fresh distinct labels: timer TopCenter at (width/2, 5), frame rate TopRight at (width-10, 5), score TopLeft at (15, 5), speed TopLeft at (15, 50), with their initial texts and colours |
| `Hud.HUD.UpdateTimer` | oldgoldmine-game/Gameplay/HUD.cs:33-36 | the HUD becomes `ApplyUpdate` with the timer refresh; only the timer label's text may change |
| `Hud.HUD.UpdateFramerate` | oldgoldmine-game/Gameplay/HUD.cs:38-42 | the HUD becomes `ApplyUpdate` with the frame-rate refresh; only that label's text and colour may change |
| `Hud.HUD.UpdateScore` | oldgoldmine-game/Gameplay/HUD.cs:44-47 | the HUD becomes `ApplyUpdate` with the score refresh; only the score label's text may change |
| `Hud.HUD.UpdateSpeed` | oldgoldmine-game/Gameplay/HUD.cs:49-52 | the HUD becomes `ApplyUpdate` with the speed refresh; only the speed label's text may change |
| `Hud.HUD.Draw` | oldgoldmine-game/Gameplay/HUD.cs:55-65 | draws timer, frame rate, score and speed in that order, and modifies nothing |

## Left out

- Rendering: the sprite-batch and graphics-device calls in every `Draw`,
  `LoadContent`, and the 3D objects built in `Initialize`. These are side
  effects through MonoGame. The button and HUD `Draw` methods return what they
  would draw.
- `OldGoldMineGame.Draw`, including its frame-rate computation by division of
  the elapsed time. That computation is floating point and unguarded against
  a zero interval.
- The camera's internals. Its view matrices and its own `Update` are not
  part of this model. After a rotation its direction vectors are left
  unspecified; a move keeps them. The per-frame movement reads them again
  after every move, so its result relies on that.
- Hardware input polling (`InputManager.UpdateFrameInput`, `Keyboard.GetState`).
  It becomes snapshot parameters.
- .NET number and timer formatting, and the fonts. `Engine.Timer` is not part
  of this model; a timer here is only an elapsed time handed to the formatter.
- The SpriteText class is not part of this model beyond its state. Its
  anchor-offset drawing is not modelled. Its default colour, used when the
  button builds a label without a colour, is the placeholder `SpriteDefault`.
- The `Collectible` update, `base.Update`, the static score, and the menu
  classes' internals. Menus are not part of this model.
- `Game.OldGoldMineGame.Update`: a menu's update is modelled as invoking at
  most one transition per frame.
- Float rounding and the `Vector2` conversions of the button's `Position`
  property. The getter and setter work on integer points. The `(position,
  size)` constructors keep their real arithmetic and the truncation of
  `ToPoint`.
- C#'s 32-bit `int`: `Point` and `Rectangle` coordinates, the window width,
  the score and the `(int)` casts in `ToPoint` are unbounded here.
  `Contains` does not wrap when it adds `X + Width`, and an out-of-range
  float-to-int cast keeps truncating instead of giving an unspecified value.
  The containment facts about the button's area hold for the program only
  while its coordinates fit in `int`.
- The window settings in the game's constructor (back-buffer size, time step,
  title).
