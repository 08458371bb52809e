/** `clean_filename` of the garden renamer: a name carrying both `Direction=` and `Size=` becomes
    `<direction>_<size>` with the original extension; every other name is left alone. */
module RenameGardenFiles {
  import opened Common
  import opened FileNames

  /** The size table; an unlisted size is lower-cased. */
  function CleanSize(size: string): string
  {
    if size == "Regular" then "regular" else if size == "Small" then "small" else Lower(size)
  }

  /** Both table entries are what lower-casing gives anyway, so the size is always lower-cased. */
  lemma CleanSizeIsLower(size: string)
    ensures CleanSize(size) == Lower(size)
  {
    assert Lower("Regular") == "regular";
    assert Lower("Small") == "small";
  }

  function CleanFilename(filename: string): string
  {
    var (name, ext) := Splitext(filename);
    var direction := StrippedCapture(name, "Direction");
    var size := StrippedCapture(name, "Size");
    if direction.Some? && size.Some? then CleanDirection(direction.value) + "_" + CleanSize(size.value) + ext
    else filename
  }

  /** A rename happens only when both values are present; the result keeps the extension and is
      made of the cleaned direction, an underscore and the lower-cased size. */
  lemma CleanFilenameShape(filename: string)
    ensures var (name, ext) := Splitext(filename);
            var r := CleanFilename(filename);
            && EndsWith(r, ext)
            && (Capture(name, "Direction").None? || Capture(name, "Size").None? ==> r == filename)
            && (Capture(name, "Direction").Some? && Capture(name, "Size").Some? ==>
                  r[..|r| - |ext|] == CleanDirection(Strip(Capture(name, "Direction").value)) + "_"
                                      + Lower(Strip(Capture(name, "Size").value)))
  {
    var (name, ext) := Splitext(filename);
    if Capture(name, "Direction").Some? && Capture(name, "Size").Some? {
      CleanSizeIsLower(Strip(Capture(name, "Size").value));
    }
  }
}
