# Window configurator: configuration state and slider drag interaction

This project models the logic of a browser-based 3D window configurator. The user
drags three sliders to set a window's width, height and depth, and clicks one of
three buttons to pick its material. The rendering is out of scope. The model covers
what the pointer handlers and the scene coordinator do to the state:

- `SceneTypes` (`src/components/Scene.tsx`): the `WindowConfig` record, its three
  materials, the initial value, and the coordinator's two state cells
  (`windowConfig`, `isDragging`). The cells live in the class `SceneState`, whose
  setters replace a cell wholesale. The orbit camera is enabled exactly when
  `isDragging` is false.
- `ControlPanel` (`src/components/ControlPanel.tsx`): the pure part is functions.
  They cover the clamp to [0,1], the displacement-to-delta map
  (`deltaX / innerWidth * 2 * sensitivity`), the per-slider forward maps, the
  pointer-down inverse map as written, and the slider handle's normalized position.
  The imperative part is the class `Panel`. It holds the session cells `dragKey`,
  `dragStartX` and `dragStartValue`, updated in place by `HandlePointerDown`,
  `HandlePointerMove` and `HandlePointerUp`, and by the two document-level guards.
  Each method is proved against a specification function
  (`PointerDownSession`, `PointerMoveResult`).
- `MaterialPanel` (`src/components/MaterialPanel.tsx`): the click that replaces only
  `material`, the "selected" highlight, and the capitalised button label.
- `SceneEvents` (`src/components/Scene.tsx` wiring): each user event is one atomic
  `Step` over the scene cells and the session. `Dispatch` delivers an event to the
  live objects and is proved to agree with `Step`. The lemmas prove that every
  sequence of events from mount keeps each field within its slider's range, keeps
  the session cells all set or all null, and keeps the camera locked exactly while
  a drag is in progress.

Numbers are `real`. The viewport width `window.innerWidth` is a parameter of the move
handlers. Its type `ViewportWidth` is the positive reals.

The height slider shows a range of 0.5 to 3
(`src/components/ControlPanel.tsx:220-221`), and its handle sits at
`(value - min) / (max - min)` (line 123). The move handler maps a normalized position
onto that range with a factor of 2.5 (line 50). The pointer-down handler, however,
inverts height with a divisor of 3 (line 71). So grabbing the height slider and not
moving changes the height (see Findings).

## Model

| member | source | states |
|---|---|---|
| `SceneTypes.OrbitControlsEnabled` | src/components/Scene.tsx:80 | The camera rule enabled = !isDragging; CameraEnabledExactlyWhenIdle and ReachableStatesValid prove it is enabled exactly when no drag session exists |
| `SceneTypes.SceneState.constructor` | src/components/Scene.tsx:18-24 | On mount the configuration is width 2, height 1.5, depth 0.15, metal; nothing is being dragged and the camera is enabled |
| `SceneTypes.SceneState.SetWindowConfig` | src/components/Scene.tsx:18 | The configuration setter replaces the whole record and leaves the drag flag alone |
| `SceneTypes.SceneState.SetIsDragging` | src/components/Scene.tsx:24 | The drag-flag setter sets the flag, leaves the configuration alone, and the camera is enabled exactly when the new flag is false |
| `ControlPanel.Clamp01` | src/components/ControlPanel.tsx:43 | The clamp lands in [0,1], is the identity on [0,1], and sends everything below to 0 and above to 1 |
| `ControlPanel.DeltaValue` | src/components/ControlPanel.tsx:39-41 | A displacement of a quarter of the viewport width changes the normalized value by 1 (delta times width is 4 times the pixel displacement), and the delta has the displacement's sign; monotonicity and saturation are in MappedValueMonotone and MappedValueSaturates |
| `ControlPanel.StartValue` | src/components/ControlPanel.tsx:67-72 | The inverse map as written is undone exactly by the forward map for width and depth; for height the forward map gives back 0.5 + (v - 0.5) * 2.5 / 3 instead (see also StartValueVersusSlider, ZeroDisplacementRoundTrip, HeightZeroDisplacementDrift) |
| `ControlPanel.NormalizedValue` | src/components/ControlPanel.tsx:123 | The slider's normalizedValue is the position that the slider's own affine map min + n * (max - min) sends to the value; HandleStaysOnTrack bounds it |
| `ControlPanel.HandleOffset` | src/components/ControlPanel.tsx:149 | The handle sits at the track centre for n = 0.5 and within 0.7 of it for n in [0,1] |
| `ControlPanel.Forward` | src/components/ControlPanel.tsx:45-54 | Each forward map sends 0 to its slider's minimum and 1 to its maximum, and [0,1] into [min,max] |
| `ControlPanel.MappedValue` | src/components/ControlPanel.tsx:39-53 | For any pointer position the dragged value lies within its slider's range |
| `ControlPanel.IntendedStartValue` | src/components/ControlPanel.tsx:67-72 | The corrected inverse map is a right inverse of the forward map for all three sliders, and sends in-range values into [0,1] |
| `ControlPanel.HandleStaysOnTrack` | src/components/ControlPanel.tsx:123-149 | For a value in [min,max] the slider's normalizedValue is in [0,1], so the handle offset is in [-0.7,0.7] |
| `ControlPanel.StartValueVersusSlider` | src/components/ControlPanel.tsx:67-72 | The inverse map as written equals the slider's normalizedValue for width and depth; for height it equals it only at 0.5 |
| `ControlPanel.PointerDownSession` | src/components/ControlPanel.tsx:59-74 | Pointer-down records the key, the origin pixel and the inverse-mapped start value, so every session cell is set |
| `ControlPanel.PointerMoveResult` | src/components/ControlPanel.tsx:36-57 | A move emits nothing exactly when a session cell is null; otherwise the dragged field gets the mapped, in-range value, the other fields and the material are copied, and in-range configurations stay in range |
| `ControlPanel.MappedValueMonotone` | src/components/ControlPanel.tsx:39-53 | With the start state fixed, moving the pointer right never lowers the value |
| `ControlPanel.MappedValueSaturates` | src/components/ControlPanel.tsx:39-53 | Once the displacement reaches (1 - start)/4 viewport widths the value is the maximum; at -start/4 widths it is the minimum |
| `ControlPanel.ZeroDisplacementRoundTrip` | src/components/ControlPanel.tsx:36-74 | For width and depth, pointer-down then a move by zero pixels gives back the in-range value exactly |
| `ControlPanel.HeightZeroDisplacementDrift` | src/components/ControlPanel.tsx:50-71 | For height the same gesture yields 0.5 + (v - 0.5) * 2.5 / 3, which equals v only when v is 0.5 |
| `ControlPanel.HeightDriftAtInitialHeight` | src/components/ControlPanel.tsx:71 | Height 1.5 comes back as 4/3 |
| `ControlPanel.IntendedZeroDisplacementRoundTrip` | src/components/ControlPanel.tsx:45-54 | With the corrected inverse map every slider, height included, round-trips |
| `ControlPanel.Panel.constructor` | src/components/ControlPanel.tsx:22-24 | The panel mounts with all three session cells null |
| `ControlPanel.Panel.HandlePointerMove` | src/components/ControlPanel.tsx:36-57 | The new configuration is exactly what PointerMoveResult emits, or the old one when it emits nothing; the drag flag is untouched |
| `ControlPanel.Panel.HandlePointerDown` | src/components/ControlPanel.tsx:59-74 | The session becomes PointerDownSession, whatever it was before; the drag flag is raised, the camera locked, the configuration untouched |
| `ControlPanel.Panel.HandlePointerUp` | src/components/ControlPanel.tsx:76-81 | Every session cell is cleared, the drag flag is lowered and the camera re-enabled |
| `ControlPanel.Panel.HandlePointerMoveGlobal` | src/components/ControlPanel.tsx:83-89 | With no key being dragged the configuration is unchanged; otherwise it acts as the move handler |
| `ControlPanel.Panel.HandlePointerUpGlobal` | src/components/ControlPanel.tsx:91-95 | Ends the drag when a key is being dragged; while idle it changes nothing |
| `MaterialPanel.HandleMaterialClick` | src/components/MaterialPanel.tsx:33-35 | The new record has the chosen material and the same width, height and depth |
| `MaterialPanel.SelectionIdempotent` | src/components/MaterialPanel.tsx:33-35 | Selecting a material twice gives the same configuration as selecting it once |
| `MaterialPanel.ReselectingIsNoChange` | src/components/MaterialPanel.tsx:33-35 | Selecting the material already shown yields the same configuration |
| `MaterialPanel.Click` | src/components/MaterialPanel.tsx:10-35 | A click hands the setter the new record and never touches the drag flag it was also handed |
| `MaterialPanel.IsSelected` | src/components/MaterialPanel.tsx:41 | A button is selected when the configuration has its material; ExactlyOneButtonSelected and ClickSelects state its properties |
| `MaterialPanel.ExactlyOneButtonSelected` | src/components/MaterialPanel.tsx:41-99 | Every material has a button, and in any configuration exactly one button is selected |
| `MaterialPanel.ClickSelects` | src/components/MaterialPanel.tsx:33-41 | After clicking a material, a button is selected exactly when it is that material's button |
| `MaterialPanel.ToUpper` | src/components/MaterialPanel.tsx:66 | Lower-case ASCII letters become their upper-case letter; every other character is left as is |
| `MaterialPanel.Capitalize` | src/components/MaterialPanel.tsx:66 | The label has the tag's length, its first character upper-cased and the rest unchanged |
| `MaterialPanel.ButtonLabels` | src/components/MaterialPanel.tsx:66 | The labels are "Metal", "Wood" and "Brick", and no two buttons share a label |
| `SceneEvents.Step` | src/components/Scene.tsx:59-70 | One event delivered to the panel that receives it, both panels writing through the same setters, moves and ups behind the guards of src/components/ControlPanel.tsx:83-95; StepPreservesInv, WhoChangesWhat and IdleIgnoresPointer state its properties, and Dispatch ties the live handlers to it |
| `SceneEvents.InitialStateValid` | src/components/Scene.tsx:18-24 | The initial state satisfies the invariant: every field is within its slider's range, the material is metal, and nothing is dragged, so the camera is enabled |
| `SceneEvents.StepPreservesInv` | src/components/Scene.tsx:59-70 | Every event delivered to either panel keeps the fields in range, the session cells all set or all null, and the drag flag raised exactly while they are set |
| `SceneEvents.RunPreservesInv` | src/components/Scene.tsx:59-70 | Any sequence of events keeps that invariant |
| `SceneEvents.CameraEnabledExactlyWhenIdle` | src/components/Scene.tsx:80 | Where the invariant holds, the camera is enabled exactly when no drag session exists |
| `SceneEvents.ReachableStatesValid` | src/components/Scene.tsx:18-80 | After any events from mount every field is in range and the camera is enabled exactly when no key is being dragged |
| `SceneEvents.WhoChangesWhat` | src/components/Scene.tsx:59-70 | Only moves and clicks change the configuration, only clicks change the material, and only pointer-down and pointer-up change the drag flag or the session |
| `SceneEvents.IdleIgnoresPointer` | src/components/ControlPanel.tsx:83-95 | With no key being dragged, pointer-up and pointer-move change nothing |
| `SceneEvents.NewDragForgetsEarlierSession` | src/components/ControlPanel.tsx:59-74 | A new drag's session depends only on the slider, the pointer and the configuration, so no earlier origin carries over |
| `SceneEvents.ZeroDisplacementDragKeepsConfig` | src/components/ControlPanel.tsx:36-95 | Grabbing width or depth, moving zero pixels and releasing leaves the configuration as it was |
| `SceneEvents.ZeroDisplacementHeightDragFromMount` | src/components/ControlPanel.tsx:36-95 | The same gesture on height from mount turns height 1.5 into 4/3 and changes nothing else |
| `SceneEvents.Dispatch` | src/components/ControlPanel.tsx:97-133 | Delivering an event to the live panel and coordinator changes their cells exactly as Step does |

## Left out

- The per-frame animations (floating panels, glass opacity pulse, wall scale) are left out. They are visual only, driven by the render clock.
- Registering and removing the document listeners and setting the body cursor are left out because they are DOM I/O. Their effect is modelled instead: moves and ups reach the handlers, and the handlers' own guards ignore them while idle.
- Panel unmount is left out. The scene never unmounts the panel. The effect cleanup (`src/components/ControlPanel.tsx:107-111`) only removes the listeners and resets the cursor; it does not clear the session or `isDragging`.
- Hover state (`hoveredSlider`, `hoveredButton`), colours and the `toFixed(2)` value text are left out. They are presentation only.
- The Three.js scene, the window and wall geometry, lighting and `src/App.tsx` are left out. They hold no state logic.
- React's asynchronous `setState` and stale closures are left out. Each handler is modelled as one atomic update of the cells it sets.
- IEEE-754 rounding is left out because numbers are `real`. The exact round-trips hold in that idealisation.
- A zero-pixel viewport is left out. `innerWidth` is a positive real; in the browser a zero width would give infinities or NaN.
- The pointer-down handler's key type also admits `"material"`. No slider passes it, so `Param` has only width, height and depth.
- ToUpper: models upper-casing for the ASCII letters a–z only, weaker than JavaScript's full Unicode `toUpperCase`. The material tags are ASCII.

## Findings

| source | as written | input that shows it | evidently intended | confidence | as-written member | corrected member |
|---|---|---|---|---|---|---|
| src/components/ControlPanel.tsx:71 | The pointer-down inverse map divides height by 3, but the height forward map at line 50 multiplies by 2.5 | Height 1.5, pointer-down then a move of zero pixels: height becomes 4/3 | Divide by the height slider's span 2.5, so the value round-trips | high, not executed | `ControlPanel.HeightZeroDisplacementDrift` | `ControlPanel.IntendedStartValue` |

The corrected map `IntendedStartValue` equals the slider's own `normalizedValue`.
`IntendedZeroDisplacementRoundTrip` proves that it round-trips for all three sliders.
The `Panel` handlers and `SceneEvents` keep the map as the code writes it, so the
model reproduces what users actually see.
