/** `clean_filename` of the unified asset renamer, which decides by the folder a file sits in: the
    first folder keyword that occurs picks the branch, and a branch whose pattern is missing from the
    name leaves the name alone. Every rewritten name ends in `.png`, whatever the original
    extension was. */
module RenameAllAssetsUnified {
  import opened Common
  import opened FileNames

  const BridgeDirections: map<string, string> :=
    map["↕️ Vertical" := "vertical",
      "↔️ Horizontal" := "horizontal",
      "➡️ Right (Short)" := "right_short",
      "➡️ Right" := "right",
      "⬇️ Bottom (Short)" := "bottom_short",
      "⬇️ Bottom" := "bottom",
      "⬆️ Top (Short)" := "top_short",
      "⬆️ Top" := "top",
      "⬅️ Left (Short)" := "left_short",
      "⬅️ Left" := "left"]

  const PondDirections: map<string, string> :=
    map["🔄 Center" := "center",
      "↖️Top Left" := "top_left",
      "↙️ Bottom Left" := "bottom_left",
      "↘️ Bottom Right" := "bottom_right",
      "➡️ Right" := "right",
      "↗️ Top Right" := "top_right",
      "⬇️ Bottom" := "bottom",
      "⬆️ Top" := "top",
      "⬅️ Left" := "left"]

  const BorderDirections: map<string, string> :=
    map["↖️Top Left" := "top_left",
      "↙️ Bottom Left" := "bottom_left",
      "↘️ Bottom Right" := "bottom_right",
      "➡️ Right" := "right",
      "↗️ Top Right" := "top_right",
      "⬇️ Bottom" := "bottom",
      "⬆️ Top" := "top",
      "⬅️ Left" := "left"]

  function Through(table: map<string, string>, d: string): string
  {
    if d in table then table[d] else Snake(d)
  }

  /** `.strip().lower()` and `.strip().lower().replace(' ', '_')` of a capture. */
  function LowerValue(v: string): string
  {
    Lower(Strip(v))
  }

  function SnakeValue(v: string): string
  {
    Snake(Strip(v))
  }

  /** The folder keywords in the order the branches test them. */
  datatype Folder =
    | Fishes | Lotus | Flowers | Rocks | BloomOption | BloomColor | Bridge | VeggieSingle | VeggieOption
    | Pond | WaterColor | PondBorders | Other

  function FolderOf(folderPath: string): (f: Folder)
    ensures f == Other <==>
              !Contains(folderPath, "fishes") && !Contains(folderPath, "lotus") && !Contains(folderPath, "flowers")
              && !Contains(folderPath, "rocks") && !Contains(folderPath, "bloom/option")
              && !Contains(folderPath, "bloom/color") && !Contains(folderPath, "bridge")
              && !Contains(folderPath, "veggie/single") && !Contains(folderPath, "veggie/veggie_option")
              && !Contains(folderPath, "pond/pond") && !Contains(folderPath, "pond/water_color")
              && !Contains(folderPath, "pond/pond_borders")
  {
    PondBordersInPond(folderPath);
    if Contains(folderPath, "fishes") then Fishes
    else if Contains(folderPath, "lotus") then Lotus
    else if Contains(folderPath, "flowers") then Flowers
    else if Contains(folderPath, "rocks") then Rocks
    else if Contains(folderPath, "bloom/option") then BloomOption
    else if Contains(folderPath, "bloom/color") then BloomColor
    else if Contains(folderPath, "bridge") then Bridge
    else if Contains(folderPath, "veggie/single") then VeggieSingle
    else if Contains(folderPath, "veggie/veggie_option") then VeggieOption
    else if Contains(folderPath, "pond/pond") then Pond
    else if Contains(folderPath, "pond/water_color") then WaterColor
    else if Contains(folderPath, "pond/pond_borders") then PondBorders
    else Other
  }

  /** "pond/pond" is written at the start of "pond/pond_borders", so any folder holding the second
      also holds the first. */
  lemma PondBordersInPond(folderPath: string)
    ensures Contains(folderPath, "pond/pond_borders") ==> Contains(folderPath, "pond/pond")
  {
    if Contains(folderPath, "pond/pond_borders") {
      ContainsInfix(folderPath, "pond/pond_borders", 0, 9);
      assert "pond/pond_borders"[0..9] == "pond/pond";
    }
  }

  /** So the border branch is never taken. */
  lemma PondBordersUnreachable(folderPath: string)
    ensures FolderOf(folderPath) != PondBorders
  {
    PondBordersInPond(folderPath);
  }

  /** `<stem>.png`. */
  function Png(stem: string): (r: string)
    ensures EndsWith(r, ".png") && r[..|r| - 4] == stem
  {
    assert (stem + ".png")[|stem|..] == ".png";
    stem + ".png"
  }

  /** The rocks folder: three names by substring, in this order, and otherwise no rename. */
  function RocksName(name: string, filename: string): (r: string)
    ensures Contains(name, "🪨 Rocks") ==> r == "rocks.png"
    ensures !Contains(name, "🪨 Rocks") && Contains(name, "🧱 Circle Bricks") ==> r == "circle_bricks.png"
    ensures !Contains(name, "🪨 Rocks") && !Contains(name, "🧱 Circle Bricks") && Contains(name, "🧱 Bricks") ==> r == "bricks.png"
    ensures !Contains(name, "🪨 Rocks") && !Contains(name, "🧱 Circle Bricks") && !Contains(name, "🧱 Bricks") ==> r == filename
    ensures r == filename || EndsWith(r, ".png")
  {
    if Contains(name, "🪨 Rocks") then Png("rocks")
    else if Contains(name, "🧱 Circle Bricks") then Png("circle_bricks")
    else if Contains(name, "🧱 Bricks") then Png("bricks")
    else filename
  }

  /** `<color>_<level>_bloom.png`. */
  function BloomOptionName(name: string, filename: string): (r: string)
    ensures Capture(name, "Bloom Level").None? || Capture(name, "Color").None? ==> r == filename
    ensures Capture(name, "Bloom Level").Some? && Capture(name, "Color").Some? ==>
              r == LowerValue(Capture(name, "Color").value) + "_" + LowerValue(Capture(name, "Bloom Level").value) + "_bloom.png"
    ensures r == filename || EndsWith(r, ".png")
  {
    var level := Capture(name, "Bloom Level");
    var color := Capture(name, "Color");
    if level.Some? && color.Some? then Png(LowerValue(color.value) + "_" + LowerValue(level.value) + "_bloom")
    else filename
  }

  /** `<color>_<size>.png`. */
  function BloomColorName(name: string, filename: string): (r: string)
    ensures Capture(name, "Size").None? || Capture(name, "Color").None? ==> r == filename
    ensures Capture(name, "Size").Some? && Capture(name, "Color").Some? ==>
              r == LowerValue(Capture(name, "Color").value) + "_" + SnakeValue(Capture(name, "Size").value) + ".png"
    ensures r == filename || EndsWith(r, ".png")
  {
    var size := Capture(name, "Size");
    var color := Capture(name, "Color");
    if size.Some? && color.Some? then Png(LowerValue(color.value) + "_" + SnakeValue(size.value))
    else filename
  }

  /** `<prefix><direction>.png`, the direction through `table`: the bridge and the pond branches. */
  function DirectionName(name: string, filename: string, prefix: string, table: map<string, string>): (r: string)
    ensures Capture(name, "Direction").None? ==> r == filename
    ensures Capture(name, "Direction").Some? ==>
              r == prefix + Through(table, Strip(Capture(name, "Direction").value)) + ".png"
    ensures r == filename || EndsWith(r, ".png")
  {
    var direction := Capture(name, "Direction");
    if direction.Some? then Png(prefix + Through(table, Strip(direction.value))) else filename
  }

  /** `<value><suffix>.png` from a single capture: the vegetable and water-colour branches. */
  function ValueName(name: string, filename: string, key: string, prefix: string, suffix: string): (r: string)
    ensures Capture(name, key).None? ==> r == filename
    ensures Capture(name, key).Some? ==> r == prefix + SnakeValue(Capture(name, key).value) + suffix + ".png"
    ensures r == filename || EndsWith(r, ".png")
  {
    var v := Capture(name, key);
    if v.Some? then Png(prefix + SnakeValue(v.value) + suffix) else filename
  }

  /** The border branch as written: `pond_border_<color>_<direction>.png`, from three captures
      (the border option is also captured and stripped of plant emoji, but not used). */
  function BorderName(name: string, filename: string): (r: string)
    ensures Capture(name, "Border Option").None? || Capture(name, "Color").None? || Capture(name, "Direction").None? ==>
              r == filename
    ensures Capture(name, "Border Option").Some? && Capture(name, "Color").Some? && Capture(name, "Direction").Some? ==>
              r == "pond_border_" + LowerValue(Capture(name, "Color").value) + "_"
                   + Through(BorderDirections, Strip(Capture(name, "Direction").value)) + ".png"
    ensures r == filename || EndsWith(r, ".png")
  {
    var border := Capture(name, "Border Option");
    var color := Capture(name, "Color");
    var direction := Capture(name, "Direction");
    if border.Some? && color.Some? && direction.Some? then
      Png("pond_border_" + LowerValue(color.value) + "_" + Through(BorderDirections, Strip(direction.value)))
    else filename
  }

  /** The branch of a folder, testing "pond/pond_borders" before "pond/pond" so that the border
      branch can be reached. */
  function FolderOfCorrected(folderPath: string): (f: Folder)
    ensures Contains(folderPath, "pond/pond_borders") && FolderOf(folderPath) == Pond ==> f == PondBorders
    ensures !(Contains(folderPath, "pond/pond_borders") && FolderOf(folderPath) == Pond) ==> f == FolderOf(folderPath)
  {
    if Contains(folderPath, "pond/pond_borders") && FolderOf(folderPath) == Pond then PondBorders
    else FolderOf(folderPath)
  }

  /** The rename once the branch is chosen: every branch returns the name as it is or a `.png` name. */
  function CleanFilenameIn(filename: string, folder: Folder): (r: string)
    ensures r == filename || EndsWith(r, ".png")
  {
    var name := Splitext(filename).0;
    match folder
      case Fishes => filename
      case Lotus => filename
      case Flowers => filename
      case Rocks => RocksName(name, filename)
      case BloomOption => BloomOptionName(name, filename)
      case BloomColor => BloomColorName(name, filename)
      case Bridge => DirectionName(name, filename, "bridge_", BridgeDirections)
      case VeggieSingle => ValueName(name, filename, "Type", "", "")
      case VeggieOption => ValueName(name, filename, "Type", "", "_option")
      case Pond => DirectionName(name, filename, "pond_", PondDirections)
      case WaterColor => ValueName(name, filename, "Color Water", "water_", "")
      case PondBorders => BorderName(name, filename)
      case Other => filename
  }

  /** `clean_filename` as written. */
  function CleanFilename(filename: string, folderPath: string): (r: string)
    ensures r == filename || EndsWith(r, ".png")
    ensures FolderOf(folderPath) == Other ==> r == filename
  {
    CleanFilenameIn(filename, FolderOf(folderPath))
  }

  /** `clean_filename` with the border folder tested before the pond folder. */
  function CleanFilenameCorrected(filename: string, folderPath: string): (r: string)
    ensures r == filename || EndsWith(r, ".png")
    ensures !Contains(folderPath, "pond/pond_borders") ==> r == CleanFilename(filename, folderPath)
  {
    CleanFilenameIn(filename, FolderOfCorrected(folderPath))
  }

  /** Fish, lotus and flower files keep their names. */
  lemma AlreadyCleanFolders(filename: string, folderPath: string)
    requires Contains(folderPath, "fishes") || Contains(folderPath, "lotus") || Contains(folderPath, "flowers")
    ensures CleanFilename(filename, folderPath) == filename
  {
  }

  /** A border file whose folder holds none of the earlier keywords is named like a pond file,
      `pond_<direction>.png`, never `pond_border_...`. */
  lemma BorderFilesNamedAsPond(filename: string, folderPath: string)
    requires Contains(folderPath, "pond/pond_borders")
    requires !Contains(folderPath, "fishes") && !Contains(folderPath, "lotus") && !Contains(folderPath, "flowers")
             && !Contains(folderPath, "rocks") && !Contains(folderPath, "bloom/option")
             && !Contains(folderPath, "bloom/color") && !Contains(folderPath, "bridge")
             && !Contains(folderPath, "veggie/single") && !Contains(folderPath, "veggie/veggie_option")
    ensures var name := Splitext(filename).0;
            && FolderOf(folderPath) == Pond
            && (Capture(name, "Direction").Some? ==>
                  CleanFilename(filename, folderPath) == "pond_" + Through(PondDirections, Strip(Capture(name, "Direction").value)) + ".png")
  {
    PondBordersInPond(folderPath);
  }

  /** Corrected, a border file reaches the border branch and is named
      `pond_border_<color>_<direction>.png` when its three values are present. */
  lemma BorderFilesNamedAsBorders(filename: string, folderPath: string)
    requires Contains(folderPath, "pond/pond_borders")
    requires !Contains(folderPath, "fishes") && !Contains(folderPath, "lotus") && !Contains(folderPath, "flowers")
             && !Contains(folderPath, "rocks") && !Contains(folderPath, "bloom/option")
             && !Contains(folderPath, "bloom/color") && !Contains(folderPath, "bridge")
             && !Contains(folderPath, "veggie/single") && !Contains(folderPath, "veggie/veggie_option")
    ensures var name := Splitext(filename).0;
            && FolderOfCorrected(folderPath) == PondBorders
            && (Capture(name, "Border Option").Some? && Capture(name, "Color").Some? && Capture(name, "Direction").Some? ==>
                  CleanFilenameCorrected(filename, folderPath)
                  == "pond_border_" + LowerValue(Capture(name, "Color").value) + "_"
                     + Through(BorderDirections, Strip(Capture(name, "Direction").value)) + ".png")
  {
    PondBordersInPond(folderPath);
  }
}
