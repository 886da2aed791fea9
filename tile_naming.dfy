/** How a tiled export names each tile's output: a suffix chosen by the
    tiling options' suffix mode, a folder `<tilePath>_<suffix>` per tile, and
    optionally the suffix spliced into the file name.

    Tile corner coordinates are the text `String.valueOf(double)` gives for
    them; that text is taken as given. */
module TileNaming {
  import opened Wrappers
  import opened Strings

  datatype TileSuffixMode = XMinYMin | XMaxYMin | XMinYMax | XMaxYMax | XMinYMinXMaxYMax | RowColumn

  datatype TileNameSuffixMode = NoNameSuffix | SameAsPath

  /** The corners of a tile's extent, as text. */
  datatype Extent = Extent(minX: string, minY: string, maxX: string, maxY: string)

  /** The tiling options the naming reads. */
  datatype TilingOptions = TilingOptions(tilePath: string, tilePathSuffix: TileSuffixMode, tileNameSuffix: TileNameSuffixMode)

  /** The suffix of the tile at (row, column). */
  function TileSuffix(mode: TileSuffixMode, extent: Extent, row: nat, column: nat): (suffix: string)
    ensures mode == XMinYMin ==> suffix == extent.minX + "_" + extent.minY
    ensures mode == XMaxYMin ==> suffix == extent.maxX + "_" + extent.minY
    ensures mode == XMinYMax ==> suffix == extent.minX + "_" + extent.maxY
    ensures mode == XMaxYMax ==> suffix == extent.maxX + "_" + extent.maxY
    ensures mode == RowColumn ==> suffix == NatToString(row) + "_" + NatToString(column)
  {
    match mode
    case XMinYMin => extent.minX + "_" + extent.minY
    case XMaxYMin => extent.maxX + "_" + extent.minY
    case XMinYMax => extent.minX + "_" + extent.maxY
    case XMaxYMax => extent.maxX + "_" + extent.maxY
    case XMinYMinXMaxYMax => extent.minX + "_" + extent.minY + "_" + extent.maxX + "_" + extent.maxY
    case RowColumn => NatToString(row) + "_" + NatToString(column)
  }

  /** The full-extent suffix is the lower-corner suffix and the upper-corner
      suffix joined by '_'. */
  lemma FullExtentSuffix(extent: Extent, row: nat, column: nat)
    ensures TileSuffix(XMinYMinXMaxYMax, extent, row, column)
            == TileSuffix(XMinYMin, extent, row, column) + "_" + TileSuffix(XMaxYMax, extent, row, column)
  {
  }

  /** Under the row/column mode distinct tiles get distinct suffixes, so
      their folders never collide. */
  lemma RowColumnSuffixInjective(e1: Extent, r1: nat, c1: nat, e2: Extent, r2: nat, c2: nat)
    requires TileSuffix(RowColumn, e1, r1, c1) == TileSuffix(RowColumn, e2, r2, c2)
    ensures r1 == r2 && c1 == c2
  {
    var a1, b1 := NatToString(r1), NatToString(c1);
    var a2, b2 := NatToString(r2), NatToString(c2);
    var s := a1 + "_" + b1;
    assert s == a2 + "_" + b2;
    UnderscoreAfterDigits(a1, b1);
    UnderscoreAfterDigits(a2, b2);
    assert a1 == s[..|a1|] == a2;
    assert b1 == s[|a1| + 1..] == b2;
    NatToStringInjective(r1, r2);
    NatToStringInjective(c1, c2);
  }

  /** In digits + "_" + rest, the first '_' follows the digits. */
  lemma UnderscoreAfterDigits(digits: string, rest: string)
    requires forall i :: 0 <= i < |digits| ==> '0' <= digits[i] <= '9'
    ensures IndexOf(digits + "_" + rest, '_') == |digits|
  {
    var s := digits + "_" + rest;
    assert s[|digits|] == '_';
    assert s[..|digits|] == digits;
  }

  /** The folder of a tile, relative to the output file's folder. */
  function TileFolderName(tilePath: string, suffix: string): (name: string)
    ensures |name| == |tilePath| + 1 + |suffix|
    ensures name[..|tilePath|] == tilePath && name[|tilePath|..] == "_" + suffix
  {
    tilePath + "_" + suffix
  }

  /** Where the suffix goes into a file name: before the first '.' when
      that dot is not the first character, else at the end. */
  function SplicePoint(fileName: string): (k: nat)
    ensures k <= |fileName|
    ensures k < |fileName| ==> 0 < k && fileName[k] == '.' && '.' !in fileName[..k]
    ensures k == |fileName| ==> IndexOf(fileName, '.') <= 0
  {
    var index := IndexOf(fileName, '.');
    if index > 0 then index else |fileName|
  }

  /** The file name of a tile under the name-suffix mode. */
  function TileFileName(fileName: string, suffix: string, mode: TileNameSuffixMode): (name: string)
    ensures mode == NoNameSuffix ==> name == fileName
    ensures mode == SameAsPath ==>
              var k := SplicePoint(fileName);
              && |name| == |fileName| + 1 + |suffix|
              && name[..k] == fileName[..k]
              && name[k..k + 1 + |suffix|] == "_" + suffix
              && name[k + 1 + |suffix|..] == fileName[k..]
  {
    if mode == SameAsPath then
      var index := IndexOf(fileName, '.');
      if index > 0 then fileName[..index] + "_" + suffix + fileName[index..] else fileName + "_" + suffix
    else fileName
  }

  /** Cutting the spliced "_<suffix>" out again gives back the file name;
      in particular the extension from the first dot on is kept. */
  lemma {:induction false} TileFileNameStrip(fileName: string, suffix: string)
    ensures var name := TileFileName(fileName, suffix, SameAsPath);
            var k := SplicePoint(fileName);
            name[..k] + name[k + 1 + |suffix|..] == fileName
  {
    var k := SplicePoint(fileName);
    assert fileName == fileName[..k] + fileName[k..];
  }

  /** The folder and file name one pass writes to: the output file's own
      name without tiling, the tile's folder and name with it. */
  function OutputName(useTiling: bool, options: TilingOptions, extent: Extent, row: nat, column: nat,
                      fileName: string): (r: (Option<string>, string))
    ensures !useTiling ==> r == (None, fileName)
    ensures useTiling ==> r.0.Some?
  {
    if useTiling then
      var suffix := TileSuffix(options.tilePathSuffix, extent, row, column);
      (Some(TileFolderName(options.tilePath, suffix)), TileFileName(fileName, suffix, options.tileNameSuffix))
    else (None, fileName)
  }
}
