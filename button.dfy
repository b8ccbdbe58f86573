/** The interactive menu button: a hit rectangle, an optional label, one
    texture per visual state, an enabled flag, and a state recomputed each
    frame from the pointer snapshot. */
module Buttons {
  import opened Xna
  import opened SpriteTexts

  /** The visual state; its ordinal picks the texture slot. */
  datatype ButtonState = Normal | Highlighted | Pressed | Disabled
  {
    /** `(int)buttonState`: 0 Normal, 1 Highlighted, 2 Pressed, 3 Disabled. */
    function Index(): (i: nat)
      ensures i < 4
    {
      match this
      case Normal => 0
      case Highlighted => 1
      case Pressed => 2
      case Disabled => 3
    }
  }

  /** Different states draw from different texture slots. */
  lemma TextureSlotsDistinct(a: ButtonState, b: ButtonState)
    ensures a.Index() == b.Index() <==> a == b
  {
  }

  /** The per-frame pointer facts a button reads: where the mouse is and
      whether a single left click happened this frame. */
  datatype PointerInput = PointerInput(mousePosition: Point, singleLeftClick: bool)

  /** Whether a button with this flag and area was clicked this frame. */
  predicate ClickedBy(enabled: bool, area: Rectangle, input: PointerInput)
  {
    enabled && input.singleLeftClick && area.Contains(input.mousePosition)
  }

  /** The state a frame's update gives: disabled first, then pressed or
      highlighted under the pointer, normal elsewhere. Pressed is reached
      exactly when the button counts as clicked. */
  function NextState(enabled: bool, area: Rectangle, input: PointerInput): (s: ButtonState)
    ensures s == Disabled <==> !enabled
    ensures s == Pressed <==> ClickedBy(enabled, area, input)
    ensures s == Highlighted <==> enabled && area.Contains(input.mousePosition) && !input.singleLeftClick
    ensures s == Normal <==> enabled && !area.Contains(input.mousePosition)
  {
    if !enabled then Disabled
    else if area.Contains(input.mousePosition) then
      (if ClickedBy(enabled, area, input) then Pressed else Highlighted)
    else Normal
  }

  /** The rectangle the `(position, size)` constructors build: its top-left
      corner is put at `position + size / 2`, truncated, although the
      position is documented as the button's centre. For a non-negative
      position and a width of at least two pixels, that documented centre
      is not even inside the area. */
  function AreaFromPositionSize(position: Vector2, size: Vector2): (r: Rectangle)
    ensures r.Location() == position.Plus(size.Halved()).ToPoint()
    ensures r.Size() == size.ToPoint()
    ensures position.x >= 0.0 && size.x >= 2.0 ==> !r.Contains(position.ToPoint())
    ensures position.y >= 0.0 && size.y >= 2.0 ==> !r.Contains(position.ToPoint())
  {
    var corner := position.Plus(size.Halved()).ToPoint();
    var dims := size.ToPoint();
    Rectangle(corner.x, corner.y, dims.x, dims.y)
  }

  /** For a whole-pixel position (px, py) and an even whole-pixel size
      (2 hx, 2 hy), the area built is centred at `position + size`: off the
      documented centre by the full size, not by nothing. */
  lemma PositionSizeAreaIsNotCentred(px: nat, py: nat, hx: nat, hy: nat)
    ensures AreaFromPositionSize(Vector2(px as real, py as real), Vector2((2 * hx) as real, (2 * hy) as real)).Center()
            == Point(px + 2 * hx, py + 2 * hy)
  {
    var r := AreaFromPositionSize(Vector2(px as real, py as real), Vector2((2 * hx) as real, (2 * hy) as real));
    assert r.x == px + hx && r.y == py + hy;
    assert r.width == 2 * hx && r.height == 2 * hy;
  }

  /** Where moving the button's centre to `p` puts its area: `p - size / 2`. */
  function CentredAt(area: Rectangle, p: Point): (r: Rectangle)
    ensures r.Size() == area.Size()
    ensures r.Center() == p
  {
    area.WithLocation(p.Minus(area.Size().Halved()))
  }

  class Button {
    var enabled: bool
    var buttonState: ButtonState
    var buttonArea: Rectangle
    const buttonText: SpriteText?
    /** Slots 0 to 3: Normal, Highlighted, Pressed, Disabled. */
    const buttonTextures: array<Texture2D>

    ghost predicate Valid()
      reads this
    {
      buttonTextures.Length == 4
    }

    constructor FromArea(buttonArea: Rectangle, text: SpriteText?,
                         buttonNormal: Texture2D, buttonHighlighted: Texture2D,
                         buttonPressed: Texture2D, buttonDisabled: Texture2D)
      ensures Valid() && fresh(buttonTextures)
      ensures enabled && buttonState == Normal
      ensures this.buttonArea == buttonArea && buttonText == text
      ensures buttonTextures[..] == [buttonNormal, buttonHighlighted, buttonPressed, buttonDisabled]
    {
      enabled := true;
      buttonState := Normal;
      this.buttonArea := buttonArea;
      buttonText := text;
      buttonTextures := new Texture2D[4] [buttonNormal, buttonHighlighted, buttonPressed, buttonDisabled];
    }

    constructor FromPositionSize(position: Vector2, size: Vector2, text: SpriteText?,
                                 buttonNormal: Texture2D, buttonHighlighted: Texture2D,
                                 buttonPressed: Texture2D, buttonDisabled: Texture2D)
      ensures Valid() && fresh(buttonTextures)
      ensures enabled && buttonState == Normal
      ensures buttonArea == AreaFromPositionSize(position, size) && buttonText == text
      ensures buttonTextures[..] == [buttonNormal, buttonHighlighted, buttonPressed, buttonDisabled]
    {
      enabled := true;
      buttonState := Normal;
      buttonArea := AreaFromPositionSize(position, size);
      buttonText := text;
      buttonTextures := new Texture2D[4] [buttonNormal, buttonHighlighted, buttonPressed, buttonDisabled];
    }

    /** Builds its own label, centred on the area. The `textColor` argument
        is accepted and not used. */
    constructor FromAreaWithLabel(buttonArea: Rectangle, text: string, textColor: Color,
                                  buttonNormal: Texture2D, buttonHighlighted: Texture2D,
                                  buttonPressed: Texture2D, buttonDisabled: Texture2D)
      ensures Valid() && fresh(buttonTextures) && buttonText != null && fresh(buttonText)
      ensures enabled && buttonState == Normal
      ensures this.buttonArea == buttonArea
      ensures buttonText.View() == LabelView(Literal(text), SpriteDefault, buttonArea.Center().ToVector2(), MiddleCenter)
      ensures buttonTextures[..] == [buttonNormal, buttonHighlighted, buttonPressed, buttonDisabled]
    {
      enabled := true;
      buttonState := Normal;
      this.buttonArea := buttonArea;
      buttonText := new SpriteText.Uncoloured(Literal(text), buttonArea.Center().ToVector2(), MiddleCenter);
      buttonTextures := new Texture2D[4] [buttonNormal, buttonHighlighted, buttonPressed, buttonDisabled];
    }

    /** As `FromPositionSize`, with its own label centred on the area built;
        `textColor` is not used. */
    constructor FromPositionSizeWithLabel(position: Vector2, size: Vector2, text: string, textColor: Color,
                                          buttonNormal: Texture2D, buttonHighlighted: Texture2D,
                                          buttonPressed: Texture2D, buttonDisabled: Texture2D)
      ensures Valid() && fresh(buttonTextures) && buttonText != null && fresh(buttonText)
      ensures enabled && buttonState == Normal
      ensures buttonArea == AreaFromPositionSize(position, size)
      ensures buttonText.View() == LabelView(Literal(text), SpriteDefault, buttonArea.Center().ToVector2(), MiddleCenter)
      ensures buttonTextures[..] == [buttonNormal, buttonHighlighted, buttonPressed, buttonDisabled]
    {
      enabled := true;
      buttonState := Normal;
      var area := AreaFromPositionSize(position, size);
      buttonArea := area;
      buttonText := new SpriteText.Uncoloured(Literal(text), area.Center().ToVector2(), MiddleCenter);
      buttonTextures := new Texture2D[4] [buttonNormal, buttonHighlighted, buttonPressed, buttonDisabled];
    }

    /** The `Position` getter: the centre of the area, in whole pixels. It
        lies inside the area whenever the area is non-empty. */
    function Position(): (c: Point)
      reads this
      ensures buttonArea.width > 0 && buttonArea.height > 0 ==> buttonArea.Contains(c)
    {
      buttonArea.Center()
    }

    /** The `Position` setter: re-centres the area on `p`, keeping its size.
        The label is not moved. */
    method SetPosition(p: Point)
      modifies this`buttonArea
      ensures buttonArea == CentredAt(old(buttonArea), p)
      ensures Position() == p && buttonArea.Size() == old(buttonArea).Size()
    {
      buttonArea := buttonArea.WithLocation(p.Minus(buttonArea.Size().Halved()));
    }

    /** Recomputes the state from this frame's pointer input. */
    method Update(input: PointerInput)
      modifies this`buttonState
      ensures buttonState == NextState(enabled, buttonArea, input)
    {
      if !enabled {
        buttonState := Disabled;
      } else if buttonArea.Contains(input.mousePosition) {
        var clicked := IsClicked(input);
        if clicked {
          buttonState := Pressed;
        } else {
          buttonState := Highlighted;
        }
      } else {
        buttonState := Normal;
      }
    }

    /** Whether the button was clicked this frame; reads the button and
        changes nothing. After an update on the same input it holds exactly
        when the state is Pressed, and never while the button is disabled. */
    method IsClicked(input: PointerInput) returns (clicked: bool)
      ensures clicked == ClickedBy(enabled, buttonArea, input)
      ensures clicked <==> NextState(enabled, buttonArea, input) == Pressed
      ensures !enabled ==> !clicked
    {
      clicked := enabled && input.singleLeftClick && buttonArea.Contains(input.mousePosition);
    }

    /** What a draw issues: the texture of the current state's slot over the
        area, tinted burly-wood, then the label if there is one. Nothing changes. */
    method Draw() returns (texture: Texture2D, area: Rectangle, tint: Color, caption: SpriteText?)
      requires Valid()
      ensures texture == buttonTextures[buttonState.Index()]
      ensures area == buttonArea && tint == BurlyWood && caption == buttonText
    {
      texture := buttonTextures[buttonState.Index()];
      area := buttonArea;
      tint := BurlyWood;
      caption := buttonText;
    }
  }
}
