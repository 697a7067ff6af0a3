/** The conventional optional value, standing for the source's `T | null` session fields. */
module Optional {

  datatype Option<+T> = None | Some(value: T) {

    /** The wrapped value, or `default` when there is none. */
    function GetOr(default: T): T
    {
      match this
      case Some(v) => v
      case None => default
    }
  }
}

/**
 * The configuration record shared by the whole scene, its initial value, and the
 * scene coordinator's two state cells (`windowConfig`, `isDragging`), which the panels
 * replace wholesale through the setters they are handed.
 */
module SceneTypes {

  /** The three finishes a window can have; the record admits no other. */
  datatype Material = Metal | Wood | Brick

  /** Window dimensions in scene units plus the finish. A value: replaced, never mutated. */
  datatype WindowConfig = WindowConfig(width: real, height: real, depth: real, material: Material)

  /** The configuration the scene starts with. */
  const InitialConfig: WindowConfig := WindowConfig(2.0, 1.5, 0.15, Metal)

  /** The orbit camera reacts to the pointer only while no slider is being dragged. */
  function OrbitControlsEnabled(isDragging: bool): bool
  {
    !isDragging
  }

  /** The coordinator: the two state cells the scene owns and passes to both panels. */
  class SceneState {
    var windowConfig: WindowConfig
    var isDragging: bool

    /** The scene mounts with the initial configuration and no drag in progress. */
    constructor ()
      ensures windowConfig == InitialConfig
      ensures !isDragging
      ensures CameraEnabled()
    {
      windowConfig := InitialConfig;
      isDragging := false;
    }

    /** Whether the orbit camera currently accepts pointer input. */
    function CameraEnabled(): bool
      reads this
    {
      OrbitControlsEnabled(isDragging)
    }

    /** The configuration setter both panels receive: a whole-record replacement. */
    method SetWindowConfig(next: WindowConfig)
      modifies this`windowConfig
      ensures windowConfig == next
      ensures isDragging == old(isDragging)
    {
      windowConfig := next;
    }

    /** The drag-flag setter both panels receive. */
    method SetIsDragging(drag: bool)
      modifies this`isDragging
      ensures isDragging == drag
      ensures windowConfig == old(windowConfig)
      ensures CameraEnabled() == !drag
    {
      isDragging := drag;
    }
  }
}
