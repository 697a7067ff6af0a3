/**
 * The material panel: one button per material, a click that replaces only the
 * configuration's material, the "selected" highlight, and the button label.
 */
module MaterialPanel {
  import opened SceneTypes

  /** The configuration a click on the button for `material` hands to the setter. */
  function HandleMaterialClick(config: WindowConfig, material: Material): (r: WindowConfig)
    ensures r.material == material
    ensures r.width == config.width && r.height == config.height && r.depth == config.depth
  {
    config.(material := material)
  }

  /** Selecting a material twice gives the same configuration as selecting it once. */
  lemma SelectionIdempotent(config: WindowConfig, material: Material)
    ensures HandleMaterialClick(HandleMaterialClick(config, material), material) == HandleMaterialClick(config, material)
  {
  }

  /** Selecting the material already shown changes nothing. */
  lemma ReselectingIsNoChange(config: WindowConfig)
    ensures HandleMaterialClick(config, config.material) == config
  {
  }

  /**
   * A click, as wired to the coordinator: the setter receives the new record; the drag
   * flag the panel is also handed is left alone.
   */
  method Click(scene: SceneState, material: Material)
    modifies scene`windowConfig
    ensures scene.windowConfig == HandleMaterialClick(old(scene.windowConfig), material)
    ensures scene.isDragging == old(scene.isDragging)
  {
    scene.SetWindowConfig(HandleMaterialClick(scene.windowConfig, material));
  }

  /** The buttons the panel shows, top to bottom. */
  const Buttons: seq<Material> := [Metal, Wood, Brick]

  /** A button is highlighted as selected when the configuration has its material. */
  predicate IsSelected(config: WindowConfig, material: Material)
  {
    config.material == material
  }

  /** How many of `buttons` are highlighted as selected. */
  function SelectedCount(config: WindowConfig, buttons: seq<Material>): nat
  {
    if buttons == [] then 0
    else (if IsSelected(config, buttons[0]) then 1 else 0) + SelectedCount(config, buttons[1..])
  }

  /** A material occurring once in `buttons` makes exactly one of them selected. */
  lemma {:induction false} SelectedCountOne(config: WindowConfig, buttons: seq<Material>)
    requires multiset(buttons)[config.material] == 1
    ensures SelectedCount(config, buttons) == 1
  {
    if buttons[0] == config.material {
      assert buttons == [buttons[0]] + buttons[1..];
      SelectedCountZero(config, buttons[1..]);
    } else {
      assert buttons == [buttons[0]] + buttons[1..];
      SelectedCountOne(config, buttons[1..]);
    }
  }

  /** No button is selected when none of them shows the configuration's material. */
  lemma {:induction false} SelectedCountZero(config: WindowConfig, buttons: seq<Material>)
    requires config.material !in buttons
    ensures SelectedCount(config, buttons) == 0
  {
    if buttons != [] {
      SelectedCountZero(config, buttons[1..]);
    }
  }

  /** Every material has a button, and whatever the configuration, exactly one is selected. */
  lemma ExactlyOneButtonSelected(config: WindowConfig)
    ensures forall m: Material :: m in Buttons
    ensures SelectedCount(config, Buttons) == 1
  {
    assert Buttons[0] == Metal && Buttons[1] == Wood && Buttons[2] == Brick;
    forall m: Material ensures m in Buttons && multiset(Buttons)[m] == 1 {
      assert multiset(Buttons) == multiset{Metal} + multiset{Wood} + multiset{Brick};
      match m
      case Metal =>
      case Wood =>
      case Brick =>
    }
    SelectedCountOne(config, Buttons);
  }

  /** After a click on `material`, its button and only its button is selected. */
  lemma ClickSelects(config: WindowConfig, material: Material, button: Material)
    ensures IsSelected(HandleMaterialClick(config, material), button) <==> button == material
  {
  }

  // ---------------------------------------------------------------------------
  // Button labels
  // ---------------------------------------------------------------------------

  /** The material's string tag. */
  function MaterialName(m: Material): string
  {
    match m
    case Metal => "metal"
    case Wood => "wood"
    case Brick => "brick"
  }

  /** Upper-casing of one character, for the ASCII letters the tags use. */
  function ToUpper(c: char): (u: char)
    ensures 'a' <= c <= 'z' ==> 'A' <= u <= 'Z' && u as int - c as int == 'A' as int - 'a' as int
    ensures !('a' <= c <= 'z') ==> u == c
  {
    if 'a' <= c <= 'z' then (c as int - 'a' as int + 'A' as int) as char else c
  }

  /** First character upper-cased, the rest unchanged; the empty string stays empty. */
  function Capitalize(s: string): (r: string)
    ensures |r| == |s|
    ensures s != [] ==> r[0] == ToUpper(s[0]) && r[1..] == s[1..]
  {
    if s == [] then [] else [ToUpper(s[0])] + s[1..]
  }

  /** The text shown on a material's button. */
  function ButtonLabel(m: Material): string
  {
    Capitalize(MaterialName(m))
  }

  /** The three labels, and no two buttons share one. */
  lemma ButtonLabels()
    ensures ButtonLabel(Metal) == "Metal"
    ensures ButtonLabel(Wood) == "Wood"
    ensures ButtonLabel(Brick) == "Brick"
    ensures forall m1: Material, m2: Material :: ButtonLabel(m1) == ButtonLabel(m2) ==> m1 == m2
  {
  }
}
