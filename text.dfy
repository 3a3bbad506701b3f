/** Model of the text overlay helper (src/text/mod.rs): a text instance with colour,
  * position, scale and alignment, the rectangle it is drawn into, and `TextSettings`,
  * a set of optional overrides that can be loaded onto an instance or captured from one.
  *
  * The font, the rendered surface and the texture are not modelled: drawing takes the
  * rendered surface's size as a parameter and returns the target rectangle. Integer
  * arithmetic follows a build with overflow checks, so an overflow is the error `Overflow`.
  */
module Text {
  import opened Wrappers

  const I32_MIN: int := -0x8000_0000
  const I32_MAX: int := 0x7FFF_FFFF
  const U32_MAX: int := 0xFFFF_FFFF

  type I32 = n: int | I32_MIN <= n <= I32_MAX

  type U32 = n: int | 0 <= n <= U32_MAX

  /** `sdl2::pixels::Color`; its channels are copied, never inspected. */
  datatype Rgba = Rgba(r: bv8, g: bv8, b: bv8, a: bv8)

  /** `Color::WHITE`. */
  const WHITE: Rgba := Rgba(255, 255, 255, 255)

  datatype TextAlignment =
    | Centered
    | BottomLeft
    | BottomRight
    | TopLeft
    | TopRight
    | MidLeft
    | MidRight
    | MidTop
    | ModBottom

  // ---------------------------------------------------------------------------
  // Offsets
  // ---------------------------------------------------------------------------

  /** `u as i32`: the same 32 bits read as two's complement. */
  function AsI32(u: U32): (i: I32)
    ensures i % 0x1_0000_0000 == u
    ensures u <= I32_MAX ==> i == u
  {
    if u <= I32_MAX then u else u - 0x1_0000_0000
  }

  /** `i / 2` on i32, which rounds toward zero. */
  function Half(i: I32): (h: I32)
    ensures i >= 0 ==> 0 <= i - 2 * h <= 1
    ensures i < 0 ==> -1 <= i - 2 * h <= 0
  {
    var n: int := i;
    if n >= 0 then n / 2 else -((-n) / 2)
  }

  /** `get_offset`: the offset of the text from its position, by alignment. */
  function Offset(alignment: TextAlignment, size: (U32, U32)): (r: (I32, I32))
    ensures size.0 <= I32_MAX && size.1 <= I32_MAX ==> 0 <= r.0 <= size.0 && 0 <= r.1 <= size.1
  {
    var w, h := AsI32(size.0), AsI32(size.1);
    match alignment
    case Centered => (Half(w), Half(h))
    case BottomLeft => (0, 0)
    case BottomRight => (w, 0)
    case TopLeft => (0, h)
    case TopRight => (w, h)
    case MidLeft => (0, Half(h))
    case MidRight => (w, Half(h))
    case MidTop => (Half(w), h)
    case ModBottom => (Half(w), 0)
  }

  /** Where along one axis an alignment anchors the text. */
  datatype Anchor = Start | Middle | End

  function Horizontal(a: TextAlignment): Anchor
  {
    match a
    case BottomLeft | TopLeft | MidLeft => Start
    case Centered | MidTop | ModBottom => Middle
    case BottomRight | TopRight | MidRight => End
  }

  function Vertical(a: TextAlignment): Anchor
  {
    match a
    case BottomLeft | BottomRight | ModBottom => Start
    case Centered | MidLeft | MidRight => Middle
    case TopLeft | TopRight | MidTop => End
  }

  /** The alignment with the given anchors on the two axes. */
  function AlignmentOf(h: Anchor, v: Anchor): TextAlignment
  {
    match (h, v)
    case (Start, Start) => BottomLeft
    case (Middle, Start) => ModBottom
    case (End, Start) => BottomRight
    case (Start, Middle) => MidLeft
    case (Middle, Middle) => Centered
    case (End, Middle) => MidRight
    case (Start, End) => TopLeft
    case (Middle, End) => MidTop
    case (End, End) => TopRight
  }

  /** The nine alignments are exactly the nine pairs of anchors. */
  lemma AnchorsRoundTrip(a: TextAlignment, h: Anchor, v: Anchor)
    ensures AlignmentOf(Horizontal(a), Vertical(a)) == a
    ensures Horizontal(AlignmentOf(h, v)) == h && Vertical(AlignmentOf(h, v)) == v
  {
  }

  /** The offset along one axis of extent `extent` for an anchor. */
  function Place(anchor: Anchor, extent: I32): I32
  {
    match anchor
    case Start => 0
    case Middle => Half(extent)
    case End => extent
  }

  /** The offset table is the product of a horizontal and a vertical rule. */
  lemma OffsetByAxes(alignment: TextAlignment, size: (U32, U32))
    ensures Offset(alignment, size)
         == (Place(Horizontal(alignment), AsI32(size.0)), Place(Vertical(alignment), AsI32(size.1)))
  {
  }

  // ---------------------------------------------------------------------------
  // The target rectangle
  // ---------------------------------------------------------------------------

  /** The arguments of `Rect::new`. */
  datatype Rect = Rect(x: I32, y: I32, w: U32, h: U32)

  datatype DrawError =
    | NotInitialized   // `init` was not called: no texture creator
    | Overflow         // an i32 or u32 operation overflows, which panics

  predicate InI32(n: int)
  {
    I32_MIN <= n <= I32_MAX
  }

  /** A size multiplied by a scale, axis by axis. */
  function Scale(size: (int, int), scale: (U32, U32)): (int, int)
  {
    (size.0 * scale.0, size.1 * scale.1)
  }

  predicate FitsU32(size: (int, int))
  {
    0 <= size.0 <= U32_MAX && 0 <= size.1 <= U32_MAX
  }

  /** The rectangle a rendered surface of size `surface` is copied into: the surface size
    * scaled once gives the offset, the offset is added to the position, and the surface
    * size scaled twice gives the width and height. Every overflow is an error. */
  function TargetRect(position: (I32, I32), scale: (U32, U32), alignment: TextAlignment, surface: (U32, U32))
    : (r: Result<Rect, DrawError>)
    ensures r.Err? ==> r.error == Overflow
    ensures r.Ok? ==> FitsU32(Scale(surface, scale)) && (r.value.w, r.value.h) == Scale(Scale(surface, scale), scale)
    ensures r.Ok? ==>
      r.value.x == position.0 + Offset(alignment, Scale(surface, scale)).0 &&
      r.value.y == position.1 + Offset(alignment, Scale(surface, scale)).1
    ensures FitsU32(Scale(surface, scale)) && FitsU32(Scale(Scale(surface, scale), scale))
            && InI32(position.0 + Offset(alignment, Scale(surface, scale)).0)
            && InI32(position.1 + Offset(alignment, Scale(surface, scale)).1)
            ==> r.Ok?
  {
    var text := Scale(surface, scale);
    if !FitsU32(text) then Err(Overflow)
    else
      var offset := Offset(alignment, text);
      var x, y := position.0 + offset.0, position.1 + offset.1;
      var target := Scale(text, scale);
      if !InI32(x) || !InI32(y) || !FitsU32(target) then Err(Overflow)
      else Ok(Rect(x, y, target.0, target.1))
  }

  /** With scale 1 and an aligned position that fits in i32, the rectangle is the surface at the aligned position. */
  lemma UnitScaleRect(position: (I32, I32), alignment: TextAlignment, surface: (U32, U32))
    requires InI32(position.0 + Offset(alignment, surface).0) && InI32(position.1 + Offset(alignment, surface).1)
    ensures TargetRect(position, (1, 1), alignment, surface)
         == Ok(Rect(position.0 + Offset(alignment, surface).0, position.1 + Offset(alignment, surface).1,
                    surface.0, surface.1))
  {
  }

  // ---------------------------------------------------------------------------
  // Settings
  // ---------------------------------------------------------------------------

  /** The four fields of a `TextInstance` that settings can override. */
  datatype Appearance = Appearance(color: Rgba, position: (I32, I32), size: (U32, U32), alignment: TextAlignment)

  /** `TextSettings`: an optional override per field. */
  datatype Settings = Settings(
    color: Option<Rgba>,
    position: Option<(I32, I32)>,
    size: Option<(U32, U32)>,
    alignment: Option<TextAlignment>)

  /** `TextSettings::new()`: no overrides. */
  const NO_SETTINGS: Settings := Settings(None, None, None, None)

  function Override<T>(setting: Option<T>, current: T): T
  {
    match setting
    case Some(v) => v
    case None => current
  }

  /** `load_to_instance`: exactly the fields whose setting is present change, each to the
    * setting's value. */
  function Apply(s: Settings, a: Appearance): (r: Appearance)
    ensures if s.color.Some? then r.color == s.color.value else r.color == a.color
    ensures if s.position.Some? then r.position == s.position.value else r.position == a.position
    ensures if s.size.Some? then r.size == s.size.value else r.size == a.size
    ensures if s.alignment.Some? then r.alignment == s.alignment.value else r.alignment == a.alignment
  {
    Appearance(Override(s.color, a.color), Override(s.position, a.position),
               Override(s.size, a.size), Override(s.alignment, a.alignment))
  }

  /** `load_from_instance`: settings that override every field, so that loading them onto
    * any appearance gives back the captured one. */
  function Capture(a: Appearance): (r: Settings)
    ensures forall b :: Apply(r, b) == a
  {
    Settings(Some(a.color), Some(a.position), Some(a.size), Some(a.alignment))
  }

  /** Settings with no overrides change nothing. */
  lemma ApplyNothing(a: Appearance)
    ensures Apply(NO_SETTINGS, a) == a
  {
  }

  /** Loading the same settings twice is loading them once. */
  lemma ApplyIdempotent(s: Settings, a: Appearance)
    ensures Apply(s, Apply(s, a)) == Apply(s, a)
  {
  }

  // ---------------------------------------------------------------------------
  // The objects
  // ---------------------------------------------------------------------------

  /** `TextInstance`, without its font; `hasTextureCreator` stands for `texture_creator.is_some()`. */
  class TextInstance {
    var color: Rgba
    var hasTextureCreator: bool
    var canvasSize: (U32, U32)
    var position: (I32, I32)
    var size: (U32, U32)
    var alignment: TextAlignment

    function Look(): Appearance
      reads this
    {
      Appearance(color, position, size, alignment)
    }

    /** `TextInstance::new`: white, at the origin, scale 1, centred, not initialised. */
    constructor ()
      ensures color == WHITE && !hasTextureCreator && canvasSize == (0, 0)
      ensures position == (0, 0) && size == (1, 1) && alignment == Centered
    {
      color := WHITE;
      hasTextureCreator := false;
      canvasSize := (0, 0);
      position := (0, 0);
      size := (1, 1);
      alignment := Centered;
    }

    /** `init`: takes the canvas's texture creator and its window size. */
    method Init(windowSize: (U32, U32))
      modifies this
      ensures hasTextureCreator && canvasSize == windowSize
      ensures Look() == old(Look())
    {
      hasTextureCreator := true;
      canvasSize := windowSize;
    }

    /** `draw_to_canvas` for a rendered surface of size `surface`: an error before `init`,
      * otherwise the rectangle the texture is copied into. */
    method DrawToCanvas(surface: (U32, U32)) returns (r: Result<Rect, DrawError>)
      ensures !hasTextureCreator ==> r == Err(NotInitialized)
      ensures hasTextureCreator ==> r == TargetRect(position, size, alignment, surface)
    {
      if !hasTextureCreator {
        return Err(NotInitialized);
      }
      r := TargetRect(position, size, alignment, surface);
    }

    method SetPosition(position: (I32, I32))
      modifies this
      ensures Look() == old(Look()).(position := position)
      ensures hasTextureCreator == old(hasTextureCreator) && canvasSize == old(canvasSize)
    {
      this.position := position;
    }

    method SetSize(size: (U32, U32))
      modifies this
      ensures Look() == old(Look()).(size := size)
      ensures hasTextureCreator == old(hasTextureCreator) && canvasSize == old(canvasSize)
    {
      this.size := size;
    }

    /** `set_scale(s)`: the same scale on both axes. */
    method SetScale(scale: U32)
      modifies this
      ensures size == (scale, scale)
      ensures Look() == old(Look()).(size := (scale, scale))
      ensures hasTextureCreator == old(hasTextureCreator) && canvasSize == old(canvasSize)
    {
      size := (scale, scale);
    }

    method SetColor(color: Rgba)
      modifies this
      ensures Look() == old(Look()).(color := color)
      ensures hasTextureCreator == old(hasTextureCreator) && canvasSize == old(canvasSize)
    {
      this.color := color;
    }

    method SetAlignment(alignment: TextAlignment)
      modifies this
      ensures Look() == old(Look()).(alignment := alignment)
      ensures hasTextureCreator == old(hasTextureCreator) && canvasSize == old(canvasSize)
    {
      this.alignment := alignment;
    }

    function Color(): Rgba
      reads this
    {
      color
    }

    function Position(): (I32, I32)
      reads this
    {
      position
    }

    function Size(): (U32, U32)
      reads this
    {
      size
    }

    function Alignment(): TextAlignment
      reads this
    {
      alignment
    }
  }

  /** `TextSettings`. */
  class TextSettings {
    var color: Option<Rgba>
    var position: Option<(I32, I32)>
    var size: Option<(U32, U32)>
    var alignment: Option<TextAlignment>

    function Value(): Settings
      reads this
    {
      Settings(color, position, size, alignment)
    }

    /** `TextSettings::new()`. */
    constructor ()
      ensures Value() == NO_SETTINGS
    {
      color, position, size, alignment := None, None, None, None;
    }

    method SetColor(color: Option<Rgba>)
      modifies this
      ensures Value() == old(Value()).(color := color)
    {
      this.color := color;
    }

    method SetSize(size: Option<(U32, U32)>)
      modifies this
      ensures Value() == old(Value()).(size := size)
    {
      this.size := size;
    }

    /** `set_scale(s)`: the size setting becomes `(s, s)`. */
    method SetScale(scale: U32)
      modifies this
      ensures Value() == old(Value()).(size := Some((scale, scale)))
    {
      size := Some((scale, scale));
    }

    method SetPosition(position: Option<(I32, I32)>)
      modifies this
      ensures Value() == old(Value()).(position := position)
    {
      this.position := position;
    }

    method SetAlignment(alignment: Option<TextAlignment>)
      modifies this
      ensures Value() == old(Value()).(alignment := alignment)
    {
      this.alignment := alignment;
    }

    /** `load_to_instance`: overwrite the instance's fields whose setting is present. */
    method LoadToInstance(instance: TextInstance)
      modifies instance
      ensures instance.Look() == Apply(Value(), old(instance.Look()))
      ensures instance.hasTextureCreator == old(instance.hasTextureCreator)
      ensures instance.canvasSize == old(instance.canvasSize)
    {
      if color.Some? {
        instance.color := color.value;
      }
      if size.Some? {
        instance.size := size.value;
      }
      if position.Some? {
        instance.position := position.value;
      }
      if alignment.Some? {
        instance.alignment := alignment.value;
      }
    }

    /** `load_from_instance`: settings holding every field of the instance. */
    static method LoadFromInstance(instance: TextInstance) returns (s: TextSettings)
      ensures fresh(s)
      ensures s.Value() == Capture(instance.Look())
    {
      s := new TextSettings();
      s.color := Some(instance.Color());
      s.position := Some(instance.Position());
      s.size := Some(instance.Size());
      s.alignment := Some(instance.Alignment());
    }
  }

  /** Loading the settings captured from an instance back onto it leaves it unchanged. */
  method RoundTrip(instance: TextInstance)
    modifies instance
    ensures instance.Look() == old(instance.Look())
    ensures instance.hasTextureCreator == old(instance.hasTextureCreator)
    ensures instance.canvasSize == old(instance.canvasSize)
  {
    var s := TextSettings.LoadFromInstance(instance);
    s.LoadToInstance(instance);
  }
}
