/** The application state machine (OldGoldMineGame): one active screen out of
    main menu, running, paused and game over, changed only by four guarded
    transitions, each of which also shows or hides the mouse pointer; and the
    per-frame update that dispatches on the active screen. */
module Game {
  import opened Xna
  import opened Cameras
  import opened Players

  datatype Option<T> = None | Some(value: T)

  datatype GameState = MainMenu | Running | Paused | GameOver

  datatype Transition = StartGame | PauseGame | ResumeGame | ToMainMenu

  /** The part of the game the transitions change: the active state and
      whether the mouse pointer is shown. */
  datatype Screen = Screen(state: GameState, mouseVisible: bool)

  /** The pointer is shown on every screen but the running game. */
  predicate MouseConsistent(s: Screen)
  {
    s.mouseVisible <==> s.state != Running
  }

  /** The screen after initialisation. */
  const Initial: Screen := Screen(MainMenu, true)

  /** The transition table written out cell by cell: the state each
      transition leads to from each state. */
  function TargetState(state: GameState, t: Transition): GameState
  {
    match (state, t)
    case (MainMenu, StartGame) => Running
    case (Running, StartGame) => Running
    case (Paused, StartGame) => Paused
    case (GameOver, StartGame) => GameOver
    case (MainMenu, PauseGame) => MainMenu
    case (Running, PauseGame) => Paused
    case (Paused, PauseGame) => Paused
    case (GameOver, PauseGame) => GameOver
    case (MainMenu, ResumeGame) => MainMenu
    case (Running, ResumeGame) => Running
    case (Paused, ResumeGame) => Running
    case (GameOver, ResumeGame) => GameOver
    case (MainMenu, ToMainMenu) => MainMenu
    case (Running, ToMainMenu) => MainMenu
    case (Paused, ToMainMenu) => MainMenu
    case (GameOver, ToMainMenu) => MainMenu
  }

  /** One guarded transition. A transition whose guard fails changes nothing;
      one that fires never leads to GameOver and leaves the pointer shown
      exactly when the game is not running. */
  function Apply(s: Screen, t: Transition): (r: Screen)
    ensures r.state == GameOver ==> r == s
    ensures r != s ==> MouseConsistent(r)
    ensures MouseConsistent(s) ==> MouseConsistent(r)
  {
    match t
    case StartGame => if s.state == MainMenu then Screen(Running, false) else s
    case PauseGame => if s.state == Running then Screen(Paused, true) else s
    case ResumeGame => if s.state == Paused then Screen(Running, false) else s
    case ToMainMenu => if s.state != MainMenu then Screen(MainMenu, true) else s
  }

  /** The guarded transitions agree with the table for all sixteen pairs of
      state and transition, including the ones that change nothing. */
  lemma ApplyFollowsTable(s: Screen, t: Transition)
    ensures Apply(s, t).state == TargetState(s.state, t)
    ensures TargetState(s.state, t) == s.state ==> Apply(s, t) == s
    ensures TargetState(s.state, t) != s.state ==>
              Apply(s, t).mouseVisible == (TargetState(s.state, t) != Running)
  {
  }

  /** Doing a transition twice is the same as doing it once. */
  lemma TransitionIsIdempotent(s: Screen, t: Transition)
    ensures Apply(Apply(s, t), t) == Apply(s, t)
  {
  }

  /** A sequence of transitions, in order. */
  function Run(s: Screen, ts: seq<Transition>): Screen
    decreases |ts|
  {
    if ts == [] then s else Run(Apply(s, ts[0]), ts[1..])
  }

  /** Every sequence of transitions from a consistent screen other than
      GameOver keeps the pointer rule and never reaches GameOver. */
  lemma {:induction false} RunKeepsInvariant(s: Screen, ts: seq<Transition>)
    requires MouseConsistent(s) && s.state != GameOver
    ensures MouseConsistent(Run(s, ts)) && Run(s, ts).state != GameOver
    decreases |ts|
  {
    if ts != [] {
      RunKeepsInvariant(Apply(s, ts[0]), ts[1..]);
    }
  }

  /** What one call to `Update` sees besides the input snapshot: whether the
      window is active and which transition, if any, the active menu's
      buttons invoke. */
  datatype FrameEvent = FrameEvent(isActive: bool, pauseKeyPressed: bool, menuCall: Option<Transition>)

  function MenuCall(s: Screen, call: Option<Transition>): Screen
  {
    match call
    case None => s
    case Some(t) => Apply(s, t)
  }

  /** The screen after one frame's update. An inactive window changes
      nothing; the main menu and the pause menu may invoke a transition; the
      running game reads the pause key and pauses on it; game over does
      nothing. */
  function Frame(s: Screen, e: FrameEvent): (r: Screen)
    ensures !e.isActive ==> r == s
    ensures e.isActive && s.state == Running ==>
              r == (if e.pauseKeyPressed then Screen(Paused, true) else s)
    ensures s.state == GameOver ==> r == s
    ensures MouseConsistent(s) ==> MouseConsistent(r)
    ensures s.state != GameOver ==> r.state != GameOver
  {
    if !e.isActive then s
    else
      match s.state
      case MainMenu => MenuCall(s, e.menuCall)
      case Running => if e.pauseKeyPressed then Apply(s, PauseGame) else s
      case Paused => MenuCall(s, e.menuCall)
      case GameOver => s
  }

  /** The pause key only matters while the game is running. */
  lemma PauseKeyReadOnlyWhenRunning(s: Screen, e: FrameEvent)
    requires s.state != Running
    ensures Frame(s, e.(pauseKeyPressed := true)) == Frame(s, e.(pauseKeyPressed := false))
  {
  }

  /** A sequence of frames, in order. */
  function RunFrames(s: Screen, es: seq<FrameEvent>): Screen
    decreases |es|
  {
    if es == [] then s else RunFrames(Frame(s, es[0]), es[1..])
  }

  /** Frames keep the pointer rule and never lead to GameOver. */
  lemma {:induction false} FramesKeepInvariant(s: Screen, es: seq<FrameEvent>)
    requires MouseConsistent(s) && s.state != GameOver
    ensures MouseConsistent(RunFrames(s, es)) && RunFrames(s, es).state != GameOver
    decreases |es|
  {
    if es != [] {
      FramesKeepInvariant(Frame(s, es[0]), es[1..]);
    }
  }

  /** From the initialised game, no sequence of frames reaches GameOver, and
      the pointer is always shown exactly when the game is not running. */
  lemma GameOverUnreachable(es: seq<FrameEvent>)
    ensures RunFrames(Initial, es).state != GameOver
    ensures RunFrames(Initial, es).mouseVisible <==> RunFrames(Initial, es).state != Running
  {
    FramesKeepInvariant(Initial, es);
  }

  /** The keys the running game polls. */
  datatype Key = W | S | A | D | Space | LeftControl | Up | Down | Left | Right

  /** The per-frame input snapshot: the pause key, the keys held down, and
      the seconds elapsed since the last frame. */
  datatype FrameInput = FrameInput(pauseKeyPressed: bool, keysDown: set<Key>, elapsedSeconds: real)

  /** Ten units per second. */
  function MoveSpeed(input: FrameInput): real { 10.0 * input.elapsedSeconds }

  /** Sixty degrees per second. */
  function RotationSpeed(input: FrameInput): real { 60.0 * input.elapsedSeconds }

  /** The sum of the camera directions whose keys are held: W forward, S
      back, A left, D right, space up, left control down. */
  function Displacement(b: Basis, keys: set<Key>): Vector3
  {
    var d0 := Origin;
    var d1 := if W in keys then d0.Plus(b.forward) else d0;
    var d2 := if S in keys then d1.Plus(b.back) else d1;
    var d3 := if A in keys then d2.Plus(b.left) else d2;
    var d4 := if D in keys then d3.Plus(b.right) else d3;
    var d5 := if Space in keys then d4.Plus(b.up) else d4;
    if LeftControl in keys then d5.Plus(b.down) else d5
  }

  /** The vertical look steps of a frame: up first, then down. */
  function VerticalSteps(keys: set<Key>, rotationSpeed: real): seq<real>
  {
    (if Up in keys then [rotationSpeed] else []) + (if Down in keys then [-rotationSpeed] else [])
  }

  /** The horizontal look steps of a frame: left first, then right. */
  function HorizontalSteps(keys: set<Key>, rotationSpeed: real): seq<real>
  {
    (if Left in keys then [-rotationSpeed] else []) + (if Right in keys then [rotationSpeed] else [])
  }

  class OldGoldMineGame {
    var gameState: GameState
    var isMouseVisible: bool
    const player: Player

    function Current(): Screen
      reads this
    {
      Screen(gameState, isMouseVisible)
    }

    ghost predicate Valid()
      reads this, player
    {
      player.Valid()
    }

    /** A new game: the state and the pointer flag have their defaults (main
        menu, pointer hidden) and the player has no camera yet. */
    constructor ()
      ensures Current() == Screen(MainMenu, false)
      ensures fresh(player) && player.camera == null && player.Bounded()
    {
      gameState := MainMenu;
      isMouseVisible := false;
      player := new Player();
    }

    /** Gives the player a camera at (0, 0, -15) looking at the origin, then
        opens the main menu with the pointer shown. */
    method Initialize(aspectRatio: real)
      requires player.Bounded()
      modifies this`gameState, this`isMouseVisible, player`camera, player`hitbox
      ensures Valid() && fresh(player.camera)
      ensures player.camera.position == Vector3(0.0, 0.0, -15.0)
      ensures player.hitbox == BoundingSphere(player.camera.position, 1.0)
      ensures Current() == Initial && MouseConsistent(Current())
    {
      var camera := new GameCamera.Initialize(Vector3(0.0, 0.0, -15.0), Origin, aspectRatio);
      player.Initialize(camera);
      gameState := MainMenu;
      isMouseVisible := true;
    }

    method StartGame()
      modifies this`gameState, this`isMouseVisible
      ensures Current() == Apply(old(Current()), Transition.StartGame)
    {
      if gameState == MainMenu {
        gameState := Running;
        isMouseVisible := false;
      }
    }

    method PauseGame()
      modifies this`gameState, this`isMouseVisible
      ensures Current() == Apply(old(Current()), Transition.PauseGame)
    {
      if gameState == Running {
        gameState := Paused;
        isMouseVisible := true;
      }
    }

    method ResumeGame()
      modifies this`gameState, this`isMouseVisible
      ensures Current() == Apply(old(Current()), Transition.ResumeGame)
    {
      if gameState == Paused {
        gameState := Running;
        isMouseVisible := false;
      }
    }

    method ToMainMenu()
      modifies this`gameState, this`isMouseVisible
      ensures Current() == Apply(old(Current()), Transition.ToMainMenu)
    {
      if gameState != MainMenu {
        gameState := MainMenu;
        isMouseVisible := true;
      }
    }

    /** What a menu's update does to the game: call at most one transition. */
    method ApplyMenuCall(call: Option<Transition>)
      modifies this`gameState, this`isMouseVisible
      ensures Current() == MenuCall(old(Current()), call)
    {
      match call
      case None =>
      case Some(t) =>
        match t
        case StartGame => StartGame();
        case PauseGame => PauseGame();
        case ResumeGame => ResumeGame();
        case ToMainMenu => ToMainMenu();
    }

    /** The movement keys of a running frame, each moving the player along
        the camera's own direction. */
    method MovePlayer(keys: set<Key>, moveSpeed: real)
      requires player.camera != null
      modifies player.camera`position
      ensures player.camera.position
           == old(player.camera.position).Plus(Displacement(player.camera.basis, keys).Scale(moveSpeed))
    {
      var camera := player.camera;
      var b := camera.basis;
      ghost var start := camera.position;
      ghost var d := Origin;
      assert camera.position == start.Plus(d.Scale(moveSpeed));
      if W in keys { MoveAccumulates(start, d, b.forward, moveSpeed); player.Move(moveSpeed, b.forward); d := d.Plus(b.forward); }
      if S in keys { MoveAccumulates(start, d, b.back, moveSpeed); player.Move(moveSpeed, b.back); d := d.Plus(b.back); }
      if A in keys { MoveAccumulates(start, d, b.left, moveSpeed); player.Move(moveSpeed, b.left); d := d.Plus(b.left); }
      if D in keys { MoveAccumulates(start, d, b.right, moveSpeed); player.Move(moveSpeed, b.right); d := d.Plus(b.right); }
      if Space in keys { MoveAccumulates(start, d, b.up, moveSpeed); player.Move(moveSpeed, b.up); d := d.Plus(b.up); }
      if LeftControl in keys { MoveAccumulates(start, d, b.down, moveSpeed); player.Move(moveSpeed, b.down); d := d.Plus(b.down); }
    }

    /** The look keys of a running frame: up, down, left, right, in that order. */
    method TurnPlayer(keys: set<Key>, rotationSpeed: real)
      requires player.Valid()
      modifies player`verticalLookAngle, player`horizontalLookAngle,
               player.camera`verticalRotation, player.camera`horizontalRotation, player.camera`basis
      ensures player.Valid()
      ensures player.verticalLookAngle
           == AngleAfter(old(player.verticalLookAngle), VerticalSteps(keys, rotationSpeed), MaxVerticalAngle)
      ensures player.horizontalLookAngle
           == AngleAfter(old(player.horizontalLookAngle), HorizontalSteps(keys, rotationSpeed), MaxHorizontalAngle)
      ensures player.camera.verticalRotation - player.verticalLookAngle
           == old(player.camera.verticalRotation) - old(player.verticalLookAngle)
      ensures player.camera.horizontalRotation - player.horizontalLookAngle
           == old(player.camera.horizontalRotation) - old(player.horizontalLookAngle)
    {
      ghost var v0, h0 := player.verticalLookAngle, player.horizontalLookAngle;
      if Up in keys { player.LookUpDown(rotationSpeed); }
      if Down in keys { player.LookUpDown(-rotationSpeed); }
      if Left in keys { player.LookLeftRight(-rotationSpeed); }
      if Right in keys { player.LookLeftRight(rotationSpeed); }
      StepsInOrder(v0, Up in keys, rotationSpeed, Down in keys, -rotationSpeed, MaxVerticalAngle);
      StepsInOrder(h0, Left in keys, -rotationSpeed, Right in keys, rotationSpeed, MaxHorizontalAngle);
    }

    /** One frame. Nothing happens while the window is inactive. In the main
        menu and the pause menu the menu may invoke a transition. While
        running, the pause key pauses the game (the rest of the frame still
        moves and turns the player), then the held keys move and turn the
        player and the hit sphere follows the camera. */
    method Update(isActive: bool, input: FrameInput, menuCall: Option<Transition>)
      requires Valid()
      modifies this`gameState, this`isMouseVisible,
               player`verticalLookAngle, player`horizontalLookAngle, player`hitbox,
               player.camera
      ensures Valid() && player.camera == old(player.camera)
      ensures Current() == Frame(old(Current()), FrameEvent(isActive, input.pauseKeyPressed, menuCall))
      ensures !(isActive && old(gameState) == Running) ==> unchanged(player, player.camera)
      ensures isActive && old(gameState) == Running ==>
        && player.verticalLookAngle
           == AngleAfter(old(player.verticalLookAngle), VerticalSteps(input.keysDown, RotationSpeed(input)), MaxVerticalAngle)
        && player.horizontalLookAngle
           == AngleAfter(old(player.horizontalLookAngle), HorizontalSteps(input.keysDown, RotationSpeed(input)), MaxHorizontalAngle)
        && player.camera.verticalRotation - player.verticalLookAngle
           == old(player.camera.verticalRotation) - old(player.verticalLookAngle)
        && player.camera.horizontalRotation - player.horizontalLookAngle
           == old(player.camera.horizontalRotation) - old(player.horizontalLookAngle)
        && player.camera.position
           == old(player.camera.position).Plus(Displacement(old(player.camera.basis), input.keysDown).Scale(MoveSpeed(input)))
        && player.hitbox == BoundingSphere(player.camera.position, old(player.hitbox).radius)
    {
      if !isActive {
        return;
      }
      match gameState
      case MainMenu =>
        ApplyMenuCall(menuCall);
      case Running =>
        if input.pauseKeyPressed {
          PauseGame();
        }
        MovePlayer(input.keysDown, MoveSpeed(input));
        TurnPlayer(input.keysDown, RotationSpeed(input));
        player.Update();
      case Paused =>
        ApplyMenuCall(menuCall);
      case GameOver =>
    }
  }

  /** Moving by `speed` times one more direction adds it to the displacement so far. */
  lemma MoveAccumulates(start: Vector3, d: Vector3, v: Vector3, speed: real)
    ensures start.Plus(d.Scale(speed)).Plus(v.Scale(speed)) == start.Plus(d.Plus(v).Scale(speed))
  {
    assert speed * (d.x + v.x) == speed * d.x + speed * v.x;
    assert speed * (d.y + v.y) == speed * d.y + speed * v.y;
    assert speed * (d.z + v.z) == speed * d.z + speed * v.z;
  }

  /** Two optional look steps in a row land where `AngleAfter` says. */
  lemma StepsInOrder(angle: real, first: bool, d1: real, second: bool, d2: real, limit: real)
    requires 0.0 <= limit
    ensures var s := (if first then [d1] else []) + (if second then [d2] else []);
            var mid := if first then Look(angle, d1, limit) else angle;
            AngleAfter(angle, s, limit) == (if second then Look(mid, d2, limit) else mid)
  {
    var s := (if first then [d1] else []) + (if second then [d2] else []);
    if first && second {
      assert s == [d1, d2];
      var mid := Look(angle, d1, limit);
      assert AngleAfter(angle, s, limit) == AngleAfter(mid, [d2], limit);
      assert [d2][1..] == [];
      assert AngleAfter(mid, [d2], limit) == AngleAfter(Look(mid, d2, limit), [], limit);
    } else if first {
      assert s == [d1];
      assert s[1..] == [];
    } else if second {
      assert s == [d2];
      assert s[1..] == [];
    }
  }
}
