/** The state of an anchored text label (the game's SpriteText): what it shows,
    in which colour, and where it is anchored. Its drawing and text measuring
    are outside this model. */
module SpriteTexts {
  import opened Xna

  /** `Engine.Timer`, whose definition is not part of this model. */
  datatype Timer = Timer(elapsed: real)

  /** A value handed to .NET's `ToString`. */
  datatype Shown = TimerValue(timer: Timer) | RealValue(r: real) | IntValue(i: int)

  /** A label's text. .NET formatting is not modelled: a formatted string is
      kept as the value together with the format string it was given (the
      empty format standing for a plain `ToString()`), and nothing in the
      model depends on how it would be rendered. */
  datatype Text = Literal(s: string) | Formatted(value: Shown, format: string)

  datatype TextAnchor = TopLeft | TopCenter | TopRight | MiddleCenter

  /** A label's state as a value, as a draw call sees it. */
  datatype LabelView = LabelView(text: Text, color: Color, position: Vector2, anchor: TextAnchor)

  class SpriteText {
    var text: Text
    var color: Color
    var position: Vector2
    var anchor: TextAnchor

    constructor (text: Text, color: Color, position: Vector2, anchor: TextAnchor)
      ensures View() == LabelView(text, color, position, anchor)
    {
      this.text := text;
      this.color := color;
      this.position := position;
      this.anchor := anchor;
    }

    /** A label built without a colour. */
    constructor Uncoloured(text: Text, position: Vector2, anchor: TextAnchor)
      ensures View() == LabelView(text, SpriteDefault, position, anchor)
    {
      this.text := text;
      this.color := SpriteDefault;
      this.position := position;
      this.anchor := anchor;
    }

    function View(): LabelView
      reads this
    {
      LabelView(text, color, position, anchor)
    }
  }
}
