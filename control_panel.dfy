/**
 * The slider panel: the affine maps between a parameter's range and a normalized
 * [0,1] position, the clamped drag-to-value computation, the slider handle's position,
 * and the drag session (`dragKey`, `dragStartX`, `dragStartValue`) that the pointer
 * handlers update.
 */
module ControlPanel {
  import opened Optional
  import opened SceneTypes

  /** The configuration fields a slider controls. */
  datatype Param = Width | Height | Depth

  /** A browser viewport width in pixels; a displayed window is never zero pixels wide. */
  type ViewportWidth = w: real | w > 0.0 witness 1.0

  /** The drag sensitivity factor of the pointer-move handler. */
  const Sensitivity: real := 2.0

  /** Lower end of each slider's range. */
  function SliderMin(p: Param): real
  {
    match p
    case Width => 0.5
    case Height => 0.5
    case Depth => 0.05
  }

  /** Upper end of each slider's range. */
  function SliderMax(p: Param): real
  {
    match p
    case Width => 3.5
    case Height => 3.0
    case Depth => 0.45
  }

  /** The numeric field of a configuration that a slider controls. */
  function Field(c: WindowConfig, p: Param): real
  {
    match p
    case Width => c.width
    case Height => c.height
    case Depth => c.depth
  }

  /** Every numeric field lies within its slider's range. */
  predicate WithinSliderDomains(c: WindowConfig)
  {
    && SliderMin(Width) <= c.width <= SliderMax(Width)
    && SliderMin(Height) <= c.height <= SliderMax(Height)
    && SliderMin(Depth) <= c.depth <= SliderMax(Depth)
  }

  // ---------------------------------------------------------------------------
  // The pure maps
  // ---------------------------------------------------------------------------

  /** `Math.max(0, Math.min(1, x))`: the nearest point of [0,1]. */
  function Clamp01(x: real): (r: real)
    ensures 0.0 <= r <= 1.0
    ensures 0.0 <= x <= 1.0 ==> r == x
    ensures x < 0.0 ==> r == 0.0
    ensures x > 1.0 ==> r == 1.0
  {
    var upper := if 1.0 < x then 1.0 else x;
    if 0.0 < upper then upper else 0.0
  }

  /** The normalized change for a horizontal pointer displacement of `deltaX` pixels. */
  function DeltaValue(deltaX: real, innerWidth: ViewportWidth): (d: real)
    ensures d * innerWidth == 4.0 * deltaX
    ensures d >= 0.0 <==> deltaX >= 0.0
  {
    (deltaX / innerWidth) * 2.0 * Sensitivity
  }

  /** The pointer-move handler's map from a normalized position to a field value. */
  function Forward(p: Param, n: real): (v: real)
    ensures n == 0.0 ==> v == SliderMin(p)
    ensures n == 1.0 ==> v == SliderMax(p)
    ensures 0.0 <= n <= 1.0 ==> SliderMin(p) <= v <= SliderMax(p)
  {
    match p
    case Width => 0.5 + n * 3.0
    case Height => 0.5 + n * 2.5
    case Depth => 0.05 + n * 0.4
  }

  /**
   * The pointer-down handler's map from a field value to a normalized start position,
   * as the code writes it: depth divides by 0.4, and width AND height divide by 3.
   */
  function StartValue(p: Param, v: real): (n: real)
    ensures p != Height ==> Forward(p, n) == v
    ensures p == Height ==> Forward(p, n) == 0.5 + (v - 0.5) * 2.5 / 3.0
  {
    if p == Depth then (v - 0.05) / 0.4 else (v - 0.5) / 3.0
  }

  /** The inverse map the handler evidently intends: divide by the slider's own span. */
  function IntendedStartValue(p: Param, v: real): (n: real)
    ensures Forward(p, n) == v
    ensures SliderMin(p) <= v <= SliderMax(p) ==> 0.0 <= n <= 1.0
  {
    (v - SliderMin(p)) / (SliderMax(p) - SliderMin(p))
  }

  /** The field value a drag yields for pointer position `clientX`. */
  function MappedValue(p: Param, startX: real, startValue: real, clientX: real, innerWidth: ViewportWidth): (v: real)
    ensures SliderMin(p) <= v <= SliderMax(p)
  {
    Forward(p, Clamp01(startValue + DeltaValue(clientX - startX, innerWidth)))
  }

  // ---------------------------------------------------------------------------
  // The slider widget
  // ---------------------------------------------------------------------------

  /** The slider's `normalizedValue`: where `value` sits between `min` and `max`. */
  function NormalizedValue(value: real, min: real, max: real): (n: real)
    requires min < max
    ensures min + n * (max - min) == value
  {
    (value - min) / (max - min)
  }

  /** Horizontal offset of the slider handle along its track for normalized position `n`. */
  function HandleOffset(n: real): (x: real)
    ensures n == 0.5 ==> x == 0.0
    ensures 0.0 <= n <= 1.0 ==> -0.7 <= x <= 0.7
  {
    (n - 0.5) * 1.4
  }

  /** A value within the slider's range puts the handle on the track, within 0.7 of its centre. */
  lemma HandleStaysOnTrack(value: real, min: real, max: real)
    requires min < max
    requires min <= value <= max
    ensures 0.0 <= NormalizedValue(value, min, max) <= 1.0
    ensures -0.7 <= HandleOffset(NormalizedValue(value, min, max)) <= 0.7
  {
    QuotientWithinUnit(value - min, max - min);
  }

  /** For `0 <= a <= b` with `b` positive, the quotient `a / b` lies in [0,1]. */
  lemma QuotientWithinUnit(a: real, b: real)
    requires b > 0.0
    requires 0.0 <= a <= b
    ensures 0.0 <= a / b <= 1.0
  {
  }

  /**
   * The corrected inverse map is exactly the slider's own normalized value; the map as
   * written agrees with it for width and depth and disagrees for every height above 0.5.
   */
  lemma StartValueVersusSlider(p: Param, v: real)
    ensures IntendedStartValue(p, v) == NormalizedValue(v, SliderMin(p), SliderMax(p))
    ensures p != Height ==> StartValue(p, v) == IntendedStartValue(p, v)
    ensures p == Height ==> (StartValue(p, v) == IntendedStartValue(p, v) <==> v == 0.5)
  {
  }

  // ---------------------------------------------------------------------------
  // The drag session and the pointer handlers as functions of the state
  // ---------------------------------------------------------------------------

  /** The three session cells of the panel; `None` stands for `null`. */
  datatype DragSession = DragSession(dragKey: Option<Param>, dragStartX: Option<real>, dragStartValue: Option<real>)

  /** All three cells cleared. */
  const NoSession: DragSession := DragSession(None, None, None)

  /** The pointer-move handler's guard: every session cell is set. */
  predicate CanMove(s: DragSession)
  {
    s.dragKey.Some? && s.dragStartX.Some? && s.dragStartValue.Some?
  }

  /** The session recorded by a pointer-down on slider `p` showing `value` at pixel `clientX`. */
  function PointerDownSession(p: Param, value: real, clientX: real): (s: DragSession)
    ensures CanMove(s) && s.dragKey == Some(p) && s.dragStartX == Some(clientX)
    ensures s.dragStartValue == Some(StartValue(p, value))
  {
    DragSession(Some(p), Some(clientX), Some(StartValue(p, value)))
  }

  /**
   * The configuration a pointer-move emits, or `None` when it emits nothing. The dragged
   * field takes the mapped value, which lies in its slider's range; the other two
   * numeric fields and the material are copied unchanged.
   */
  function PointerMoveResult(s: DragSession, config: WindowConfig, clientX: real, innerWidth: ViewportWidth): (r: Option<WindowConfig>)
    ensures r.None? <==> !CanMove(s)
    ensures r.Some? ==> r.value.material == config.material
    ensures r.Some? ==> forall q: Param :: q != s.dragKey.value ==> Field(r.value, q) == Field(config, q)
    ensures r.Some? ==> Field(r.value, s.dragKey.value) == MappedValue(s.dragKey.value, s.dragStartX.value, s.dragStartValue.value, clientX, innerWidth)
    ensures r.Some? ==> SliderMin(s.dragKey.value) <= Field(r.value, s.dragKey.value) <= SliderMax(s.dragKey.value)
    ensures r.Some? && WithinSliderDomains(config) ==> WithinSliderDomains(r.value)
  {
    if !CanMove(s) then None
    else
      var v := MappedValue(s.dragKey.value, s.dragStartX.value, s.dragStartValue.value, clientX, innerWidth);
      match s.dragKey.value
      case Width => Some(config.(width := v))
      case Height => Some(config.(height := v))
      case Depth => Some(config.(depth := v))
  }

  // ---------------------------------------------------------------------------
  // Properties of the drag mapping
  // ---------------------------------------------------------------------------

  /** Dragging further right never lowers the value (the start state held fixed). */
  lemma MappedValueMonotone(p: Param, startX: real, startValue: real, x1: real, x2: real, innerWidth: ViewportWidth)
    requires x1 <= x2
    ensures MappedValue(p, startX, startValue, x1, innerWidth) <= MappedValue(p, startX, startValue, x2, innerWidth)
  {
    var d1, d2 := (x1 - startX) / innerWidth, (x2 - startX) / innerWidth;
    assert d2 - d1 == (x2 - x1) / innerWidth;
    assert DeltaValue(x1 - startX, innerWidth) <= DeltaValue(x2 - startX, innerWidth);
  }

  /**
   * Once the pointer is `(1 - startValue)/4` viewport widths right of the origin the
   * value sits at the slider's maximum; `startValue/4` widths left, at its minimum.
   */
  lemma MappedValueSaturates(p: Param, startX: real, startValue: real, clientX: real, innerWidth: ViewportWidth)
    ensures clientX - startX >= (1.0 - startValue) * innerWidth / 4.0 ==>
              MappedValue(p, startX, startValue, clientX, innerWidth) == SliderMax(p)
    ensures clientX - startX <= -startValue * innerWidth / 4.0 ==>
              MappedValue(p, startX, startValue, clientX, innerWidth) == SliderMin(p)
  {
    var d := DeltaValue(clientX - startX, innerWidth);
    if clientX - startX >= (1.0 - startValue) * innerWidth / 4.0 {
      var t := 1.0 - startValue;
      QuotientMonotone(t * innerWidth / 4.0, clientX - startX, innerWidth);
      QuarterWidthQuotient(t, innerWidth);
      assert Clamp01(startValue + d) == 1.0;
    }
    if clientX - startX <= -startValue * innerWidth / 4.0 {
      var t := -startValue;
      QuotientMonotone(clientX - startX, t * innerWidth / 4.0, innerWidth);
      QuarterWidthQuotient(t, innerWidth);
      assert Clamp01(startValue + d) == 0.0;
    }
  }

  /** A quarter of `t` viewport widths, divided by the viewport width, is `t / 4`. */
  lemma QuarterWidthQuotient(t: real, w: real)
    requires w > 0.0
    ensures (t * w / 4.0) / w == t / 4.0
  {
  }

  /** Dividing by a positive number keeps `<=`. */
  lemma QuotientMonotone(x: real, y: real, w: real)
    requires w > 0.0
    requires x <= y
    ensures x / w <= y / w
  {
    assert y / w - x / w == (y - x) / w;
  }

  /**
   * Pointer-down on width or depth showing an in-range value, then a move with zero
   * displacement, gives back exactly that value.
   */
  lemma ZeroDisplacementRoundTrip(p: Param, v: real, clientX: real, innerWidth: ViewportWidth)
    requires p != Height
    requires SliderMin(p) <= v <= SliderMax(p)
    ensures MappedValue(p, clientX, StartValue(p, v), clientX, innerWidth) == v
  {
  }

  /**
   * For height the same round trip drifts: the value comes back as
   * `0.5 + (v - 0.5) * 2.5 / 3`, which differs from `v` whenever `v > 0.5`.
   */
  lemma HeightZeroDisplacementDrift(v: real, clientX: real, innerWidth: ViewportWidth)
    requires SliderMin(Height) <= v <= SliderMax(Height)
    ensures MappedValue(Height, clientX, StartValue(Height, v), clientX, innerWidth) == 0.5 + (v - 0.5) * 2.5 / 3.0
    ensures MappedValue(Height, clientX, StartValue(Height, v), clientX, innerWidth) == v <==> v == 0.5
  {
  }

  /** The initial height 1.5 comes back as 4/3 after a zero-displacement drag. */
  lemma HeightDriftAtInitialHeight(clientX: real, innerWidth: ViewportWidth)
    ensures MappedValue(Height, clientX, StartValue(Height, 1.5), clientX, innerWidth) == 4.0 / 3.0
  {
  }

  /** With the corrected inverse map every slider, height included, round-trips. */
  lemma IntendedZeroDisplacementRoundTrip(p: Param, v: real, clientX: real, innerWidth: ViewportWidth)
    requires SliderMin(p) <= v <= SliderMax(p)
    ensures MappedValue(p, clientX, IntendedStartValue(p, v), clientX, innerWidth) == v
  {
  }

  // ---------------------------------------------------------------------------
  // The panel object: session cells updated in place by the pointer handlers
  // ---------------------------------------------------------------------------

  class Panel {
    /** The coordinator whose `windowConfig` and `isDragging` the panel receives as props. */
    const scene: SceneState
    var dragKey: Option<Param>
    var dragStartX: Option<real>
    var dragStartValue: Option<real>

    /** The panel's session cells as one value. */
    function Session(): DragSession
      reads this
    {
      DragSession(dragKey, dragStartX, dragStartValue)
    }

    /** The panel mounts with all session cells null. */
    constructor (scene: SceneState)
      ensures this.scene == scene
      ensures Session() == NoSession
    {
      this.scene := scene;
      dragKey, dragStartX, dragStartValue := None, None, None;
    }

    /**
     * Pointer-move: does nothing unless every session cell is set; otherwise turns the
     * displacement into a clamped normalized value, maps it onto the dragged field of a
     * copy of the configuration and hands the copy to the setter.
     */
    method HandlePointerMove(clientX: real, innerWidth: ViewportWidth)
      modifies scene`windowConfig
      ensures scene.windowConfig == PointerMoveResult(Session(), old(scene.windowConfig), clientX, innerWidth).GetOr(old(scene.windowConfig))
      ensures scene.isDragging == old(scene.isDragging)
    {
      if dragKey.None? || dragStartX.None? || dragStartValue.None? {
        return;
      }
      var deltaX := clientX - dragStartX.value;
      var deltaValue := (deltaX / innerWidth) * 2.0 * Sensitivity;
      var newValue := dragStartValue.value + deltaValue;
      newValue := Clamp01(newValue);
      var newConfig := scene.windowConfig;
      match dragKey.value {
        case Width =>
          newConfig := newConfig.(width := 0.5 + newValue * 3.0);
        case Height =>
          newConfig := newConfig.(height := 0.5 + newValue * 2.5);
        case Depth =>
          newConfig := newConfig.(depth := 0.05 + newValue * 0.4);
      }
      scene.SetWindowConfig(newConfig);
    }

    /**
     * Pointer-down on slider `paramKey` showing `value`: records the key, raises the
     * shared drag flag, records the origin pixel and the inverse-mapped start value.
     * Whatever session was there before is overwritten entirely.
     */
    method HandlePointerDown(paramKey: Param, value: real, clientX: real)
      modifies this`dragKey, this`dragStartX, this`dragStartValue, scene`isDragging
      ensures Session() == PointerDownSession(paramKey, value, clientX)
      ensures scene.isDragging && !scene.CameraEnabled()
      ensures scene.windowConfig == old(scene.windowConfig)
    {
      dragKey := Some(paramKey);
      scene.SetIsDragging(true);
      dragStartX := Some(clientX);
      var startValue;
      if paramKey == Depth {
        startValue := (value - 0.05) / 0.4;
      } else {
        startValue := (value - 0.5) / 3.0;
      }
      dragStartValue := Some(startValue);
    }

    /** Pointer-up: clears every session cell and lowers the shared drag flag. */
    method HandlePointerUp()
      modifies this`dragKey, this`dragStartX, this`dragStartValue, scene`isDragging
      ensures Session() == NoSession
      ensures !scene.isDragging && scene.CameraEnabled()
      ensures scene.windowConfig == old(scene.windowConfig)
    {
      dragKey := None;
      scene.SetIsDragging(false);
      dragStartX := None;
      dragStartValue := None;
    }

    /** The document-level move listener: ignores the event when no key is being dragged. */
    method HandlePointerMoveGlobal(clientX: real, innerWidth: ViewportWidth)
      modifies scene`windowConfig
      ensures scene.windowConfig == PointerMoveResult(Session(), old(scene.windowConfig), clientX, innerWidth).GetOr(old(scene.windowConfig))
      ensures scene.isDragging == old(scene.isDragging)
    {
      if dragKey.None? {
        return;
      }
      HandlePointerMove(clientX, innerWidth);
    }

    /** The document-level up listener: ends the drag only when a key is being dragged. */
    method HandlePointerUpGlobal()
      modifies this`dragKey, this`dragStartX, this`dragStartValue, scene`isDragging
      ensures old(dragKey).Some? ==> Session() == NoSession && !scene.isDragging
      ensures old(dragKey).None? ==> Session() == old(Session()) && scene.isDragging == old(scene.isDragging)
      ensures scene.windowConfig == old(scene.windowConfig)
    {
      if dragKey.Some? {
        HandlePointerUp();
      }
    }
  }
}
