/** `clean_filename` of the asset renamer: flower files (`Color=` and `Bloom Type=`) become
    `<color>_<bloom>`, fence files (`Color=`, `Direction=`, `Size=`) become `<direction>_<size>`,
    other coloured files become `<color>`, always with the original extension; a name without
    `Color=` is left alone. */
module RenameAllAssets {
  import opened Common
  import opened FileNames

  /** The colour table of the flower and plain-colour branches. */
  const ColorNames: map<string, string> :=
    map["Yellow" := "yellow",
      "Purple" := "purple",
      "Pink" := "pink",
      "White" := "white",
      "Peach" := "peach",
      "Blue" := "blue"]

  function CleanColor(c: string): string
  {
    if c in ColorNames then ColorNames[c] else Snake(c)
  }

  function CleanBloom(b: string): string
  {
    if b == "Small Paddles" then "small_paddles" else if b == "Big Paddles" then "big_paddles" else Snake(b)
  }

  function CleanSize(size: string): string
  {
    if size == "Regular" then "regular" else if size == "Small" then "small" else Lower(size)
  }

  /** Every table entry is what the fallback gives anyway: colours and bloom types are always just
      lower-cased with spaces turned into `_`, and sizes lower-cased. */
  lemma TablesAgreeWithFallback(c: string, b: string, size: string)
    ensures CleanColor(c) == Snake(c)
    ensures CleanBloom(b) == Snake(b)
    ensures CleanSize(size) == Lower(size)
  {
    assert Snake("Yellow") == "yellow" && Snake("Purple") == "purple" && Snake("Pink") == "pink";
    assert Snake("White") == "white" && Snake("Peach") == "peach" && Snake("Blue") == "blue";
    assert Snake("Small Paddles") == "small_paddles" && Snake("Big Paddles") == "big_paddles";
    assert Lower("Regular") == "regular" && Lower("Small") == "small";
  }

  /** The three branches, tried in this order. */
  datatype Kind = Flower | Fence | PlainColor | Unchanged

  function KindOf(name: string): (k: Kind)
    ensures k == Unchanged <==> Capture(name, "Color").None?
    ensures k == Flower <==> Capture(name, "Color").Some? && Capture(name, "Bloom Type").Some?
  {
    var color := Capture(name, "Color");
    if color.Some? && Capture(name, "Bloom Type").Some? then Flower
    else if color.Some? && Capture(name, "Direction").Some? && Capture(name, "Size").Some? then Fence
    else if color.Some? then PlainColor
    else Unchanged
  }

  /** The fence branch also cleans the colour, through a table of its own, but leaves it out of the
      name; that value is not modelled. */
  function CleanFilename(filename: string): (r: string)
    ensures EndsWith(r, Splitext(filename).1)
    ensures Capture(Splitext(filename).0, "Color").None? ==> r == filename
  {
    var (name, ext) := Splitext(filename);
    match KindOf(name)
      case Flower =>
        CleanColor(StrippedCapture(name, "Color").value) + "_" + CleanBloom(StrippedCapture(name, "Bloom Type").value) + ext
      case Fence =>
        CleanDirection(StrippedCapture(name, "Direction").value) + "_" + CleanSize(StrippedCapture(name, "Size").value) + ext
      case PlainColor => CleanColor(StrippedCapture(name, "Color").value) + ext
      case Unchanged => filename
  }

  /** The stem of each rewritten name, with the tables replaced by what they agree with. */
  lemma CleanFilenameStem(filename: string)
    ensures var (name, ext) := Splitext(filename);
            var r := CleanFilename(filename);
            var stem := r[..|r| - |ext|];
            && (KindOf(name) == Flower ==>
                  stem == Snake(Strip(Capture(name, "Color").value)) + "_" + Snake(Strip(Capture(name, "Bloom Type").value)))
            && (KindOf(name) == Fence ==>
                  stem == CleanDirection(Strip(Capture(name, "Direction").value)) + "_" + Lower(Strip(Capture(name, "Size").value)))
            && (KindOf(name) == PlainColor ==> stem == Snake(Strip(Capture(name, "Color").value)))
  {
    var (name, ext) := Splitext(filename);
    match KindOf(name)
      case Flower =>
        TablesAgreeWithFallback(Strip(Capture(name, "Color").value), Strip(Capture(name, "Bloom Type").value), "");
      case Fence =>
        TablesAgreeWithFallback("", "", Strip(Capture(name, "Size").value));
      case PlainColor =>
        TablesAgreeWithFallback(Strip(Capture(name, "Color").value), "", "");
      case Unchanged =>
  }
}
