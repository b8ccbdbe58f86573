/** The in-game status readout (HUD): four labels, for the elapsed time, the
    frame rate, the score and the speed, each refreshed by its own update, and
    a colour rule on the frame rate. */
module Hud {
  import opened Xna
  import opened SpriteTexts

  /** Below this frame rate the readout turns red. */
  const FramerateThreshold: real := 60.0

  /** The frame-rate label's colour: red strictly below 60, lime green from 60 up. */
  function FramerateColor(framerate: real): (c: Color)
    ensures c == Red <==> framerate < FramerateThreshold
    ensures c == LimeGreen <==> framerate >= FramerateThreshold
  {
    if framerate < FramerateThreshold then Red else LimeGreen
  }

  /** The readout's four labels as values. */
  datatype HudView = HudView(timer: LabelView, framerate: LabelView, score: LabelView, speed: LabelView)

  datatype Slot = TimerSlot | FramerateSlot | ScoreSlot | SpeedSlot

  /** One refresh of one label. */
  datatype HudUpdate =
    | SetTimer(timer: Timer)
    | SetFramerate(framerate: real)
    | SetScore(score: int)
    | SetSpeed(speed: real)
  {
    /** The label the refresh writes to. */
    function Target(): Slot
    {
      match this
      case SetTimer(_) => TimerSlot
      case SetFramerate(_) => FramerateSlot
      case SetScore(_) => ScoreSlot
      case SetSpeed(_) => SpeedSlot
    }
  }

  function LabelAt(v: HudView, slot: Slot): LabelView
  {
    match slot
    case TimerSlot => v.timer
    case FramerateSlot => v.framerate
    case ScoreSlot => v.score
    case SpeedSlot => v.speed
  }

  /** The readout after one refresh. */
  function ApplyUpdate(v: HudView, u: HudUpdate): (r: HudView)
    ensures forall slot :: slot != u.Target() ==> LabelAt(r, slot) == LabelAt(v, slot)
    ensures LabelAt(r, u.Target()).position == LabelAt(v, u.Target()).position
    ensures LabelAt(r, u.Target()).anchor == LabelAt(v, u.Target()).anchor
    ensures !u.SetFramerate? ==> LabelAt(r, u.Target()).color == LabelAt(v, u.Target()).color
    ensures u.SetFramerate? ==> r.framerate.color == FramerateColor(u.framerate)
  {
    match u
    case SetTimer(t) => v.(timer := v.timer.(text := Formatted(TimerValue(t), "")))
    case SetFramerate(f) =>
      v.(framerate := v.framerate.(text := Formatted(RealValue(f), "0.# FPS"), color := FramerateColor(f)))
    case SetScore(n) => v.(score := v.score.(text := Formatted(IntValue(n), "Score: 0.#")))
    case SetSpeed(s) => v.(speed := v.speed.(text := Formatted(RealValue(s), "Speed: 0.# Km/h")))
  }

  /** Refreshes of different labels can be done in either order. */
  lemma UpdatesOfDifferentLabelsCommute(v: HudView, u1: HudUpdate, u2: HudUpdate)
    requires u1.Target() != u2.Target()
    ensures ApplyUpdate(ApplyUpdate(v, u1), u2) == ApplyUpdate(ApplyUpdate(v, u2), u1)
  {
  }

  /** Repeating a refresh with the same argument changes nothing more. */
  lemma UpdateIsIdempotent(v: HudView, u: HudUpdate)
    ensures ApplyUpdate(ApplyUpdate(v, u), u) == ApplyUpdate(v, u)
  {
  }

  class HUD {
    var timerText: SpriteText?
    var framerateText: SpriteText?
    var scoreText: SpriteText?
    var speedText: SpriteText?

    /** The four labels exist and are four different objects. */
    ghost predicate Valid()
      reads this
    {
      timerText != null && framerateText != null && scoreText != null && speedText != null &&
      timerText != framerateText && timerText != scoreText && timerText != speedText &&
      framerateText != scoreText && framerateText != speedText && scoreText != speedText
    }

    function View(): HudView
      reads this, timerText, framerateText, scoreText, speedText
      requires Valid()
    {
      HudView(timerText.View(), framerateText.View(), scoreText.View(), speedText.View())
    }

    constructor ()
      ensures timerText == null && framerateText == null && scoreText == null && speedText == null
    {
      timerText, framerateText, scoreText, speedText := null, null, null, null;
    }

    /** Creates the four labels for a window `windowWidth` pixels wide: the
        timer centred at the top, the frame rate at the top right, score and
        speed at the left, one above the other. */
    method Initialize(windowWidth: int)
      modifies this
      ensures Valid()
      ensures fresh(timerText) && fresh(framerateText) && fresh(scoreText) && fresh(speedText)
      ensures View() == HudView(
        LabelView(Literal("00:00:00"), White, Vector2(HalfTrunc(windowWidth) as real, 5.0), TopCenter),
        LabelView(Literal("0 FPS"), LightGreen, Vector2((windowWidth - 10) as real, 5.0), TopRight),
        LabelView(Literal("Score: 0"), White, Vector2(15.0, 5.0), TopLeft),
        LabelView(Literal("Speed: 20 Km/h"), White, Vector2(15.0, 50.0), TopLeft))
    {
      timerText := new SpriteText(Literal("00:00:00"), White,
        Vector2(HalfTrunc(windowWidth) as real, 5.0), TopCenter);
      framerateText := new SpriteText(Literal("0 FPS"), LightGreen,
        Vector2((windowWidth - 10) as real, 5.0), TopRight);
      scoreText := new SpriteText(Literal("Score: 0"), White, Vector2(15.0, 5.0), TopLeft);
      speedText := new SpriteText(Literal("Speed: 20 Km/h"), White, Vector2(15.0, 50.0), TopLeft);
    }

    method UpdateTimer(timer: Timer)
      requires Valid()
      modifies timerText`text
      ensures Valid() && View() == ApplyUpdate(old(View()), SetTimer(timer))
    {
      timerText.text := Formatted(TimerValue(timer), "");
    }

    method UpdateFramerate(framerate: real)
      requires Valid()
      modifies framerateText`text, framerateText`color
      ensures Valid() && View() == ApplyUpdate(old(View()), SetFramerate(framerate))
    {
      framerateText.text := Formatted(RealValue(framerate), "0.# FPS");
      framerateText.color := FramerateColor(framerate);
    }

    method UpdateScore(score: int)
      requires Valid()
      modifies scoreText`text
      ensures Valid() && View() == ApplyUpdate(old(View()), SetScore(score))
    {
      scoreText.text := Formatted(IntValue(score), "Score: 0.#");
    }

    method UpdateSpeed(speed: real)
      requires Valid()
      modifies speedText`text
      ensures Valid() && View() == ApplyUpdate(old(View()), SetSpeed(speed))
    {
      speedText.text := Formatted(RealValue(speed), "Speed: 0.# Km/h");
    }

    /** The labels a draw renders, in order; drawing changes nothing. */
    method Draw() returns (drawn: seq<LabelView>)
      requires Valid()
      ensures drawn == [View().timer, View().framerate, View().score, View().speed]
    {
      drawn := [timerText.View(), framerateText.View(), scoreText.View(), speedText.View()];
    }
  }
}
