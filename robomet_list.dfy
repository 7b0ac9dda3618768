/**
 * `RobometListWidget`: the Robomet montage page. A Robomet montage is one
 * directory per slice, `<prefix>_<slice>`, holding one image per tile named
 * `<prefix>_<slice>_<col>_<row>.<ext>` with zero-padded numbers. The widget
 * guesses the extension and the tile grid from a directory listing, lists the
 * files the settings name, and reports which of them are missing.
 *
 * The file system is a parameter: a listing is a sequence of paths and
 * existence is membership in a set of paths. Paths use '/' as separator.
 */
module RobometList {
  import opened QtText

  /** The widget's settings, as read from its fields. The two padding widths are constants of the widget's header. */
  datatype Settings = Settings(
    inputDir: string, prefix: string, ext: string,
    sliceMin: int, sliceMax: int, colStart: int, rowStart: int, colEnd: int, rowEnd: int,
    slicePadding: nat, rowColPadding: nat)

  /** The number of integers in `lo..hi`. */
  function Span(lo: int, hi: int): nat {
    if hi < lo then 0 else hi - lo + 1
  }

  /** A number zero-padded to `width`, as `arg(QString::number(n), width, '0')` writes it. */
  function Padded(n: int, width: nat): string {
    PadLeft(Number(n), width, '0')
  }

  /** The file name of one tile: `[prefix "_"]slice_col_row.ext`. */
  function TileName(s: Settings, slice: int, col: int, row: int): string {
    (if s.prefix == [] then "" else s.prefix + "_") +
    Padded(slice, s.slicePadding) + "_" + Padded(col, s.rowColPadding) + "_" + Padded(row, s.rowColPadding) +
    "." + s.ext
  }

  function TilePath(dir: string, s: Settings, slice: int, col: int, row: int): string {
    dir + "/" + TileName(s, slice, col, row)
  }

  /** The tile paths of one slice directory, by column and row. */
  function TileCell(dir: string, s: Settings, slice: int): (int, int) -> string {
    (col, row) => TilePath(dir, s, slice, col, row)
  }

  /** The cells of one row, columns `startCol..endCol` ascending. */
  function RowCells(cell: (int, int) -> string, row: int, startCol: int, endCol: int): (r: seq<string>)
    ensures |r| == Span(startCol, endCol)
  {
    seq(Span(startCol, endCol), k => cell(startCol + k, row))
  }

  /** One more column: the row grows by that column's cell. */
  lemma RowCellsSnoc(cell: (int, int) -> string, row: int, startCol: int, col: int)
    requires startCol <= col
    ensures RowCells(cell, row, startCol, col) == RowCells(cell, row, startCol, col - 1) + [cell(col, row)]
  {
    var longer, shorter := RowCells(cell, row, startCol, col), RowCells(cell, row, startCol, col - 1) + [cell(col, row)];
    assert |longer| == |shorter|;
    forall k | 0 <= k < |longer|
      ensures longer[k] == shorter[k]
    {
    }
  }

  /** The cells of rows `startRow..endRow`, row after row. */
  function Grid(cell: (int, int) -> string, startCol: int, startRow: int, endCol: int, endRow: int): seq<string>
    decreases Span(startRow, endRow)
  {
    if endRow < startRow then []
    else Grid(cell, startCol, startRow, endCol, endRow - 1) + RowCells(cell, endRow, startCol, endCol)
  }

  lemma MulStep(a: nat, b: nat, c: nat)
    requires a < b
    ensures a * c + c <= b * c
  {
    assert b * c == (a + 1) * c + (b - a - 1) * c;
  }

  lemma MulSucc(a: nat, c: nat)
    ensures (a + 1) * c == a * c + c
  {
  }

  /** A grid has one cell per (row, column) pair. */
  lemma {:induction false} GridLength(cell: (int, int) -> string, startCol: int, startRow: int, endCol: int, endRow: int)
    ensures |Grid(cell, startCol, startRow, endCol, endRow)| == Span(startRow, endRow) * Span(startCol, endCol)
    decreases Span(startRow, endRow)
  {
    if endRow >= startRow {
      GridLength(cell, startCol, startRow, endCol, endRow - 1);
      MulSucc(Span(startRow, endRow - 1), Span(startCol, endCol));
    }
  }

  /** The cell of `row` and `col` sits at `(row - startRow) * columns + (col - startCol)`: row-major order. */
  lemma {:induction false} GridCell(cell: (int, int) -> string, startCol: int, startRow: int, endCol: int, endRow: int,
                                    row: int, col: int)
    requires startRow <= row <= endRow && startCol <= col <= endCol
    ensures var i := (row - startRow) * Span(startCol, endCol) + (col - startCol);
      0 <= i < |Grid(cell, startCol, startRow, endCol, endRow)| && Grid(cell, startCol, startRow, endCol, endRow)[i] == cell(col, row)
    decreases Span(startRow, endRow)
  {
    var cols := Span(startCol, endCol);
    var i := (row - startRow) * cols + (col - startCol);
    var prev := Grid(cell, startCol, startRow, endCol, endRow - 1);
    GridLength(cell, startCol, startRow, endCol, endRow - 1);
    GridLength(cell, startCol, startRow, endCol, endRow);
    assert Grid(cell, startCol, startRow, endCol, endRow) == prev + RowCells(cell, endRow, startCol, endCol);
    if row < endRow {
      GridCell(cell, startCol, startRow, endCol, endRow - 1, row, col);
      MulStep(row - startRow, Span(startRow, endRow) - 1, cols);
    } else {
      assert i == |prev| + (col - startCol);
    }
  }

  /** Some path of the list names no existing file (decided from the last path back). */
  predicate SomeMissing(paths: seq<string>, existing: set<string>)
    decreases |paths|
  {
    paths != [] && (SomeMissing(paths[..|paths| - 1], existing) || paths[|paths| - 1] !in existing)
  }

  /** `SomeMissing` holds exactly when some position of the list holds a path that does not exist. */
  lemma {:induction false} SomeMissingMeans(paths: seq<string>, existing: set<string>)
    ensures SomeMissing(paths, existing) <==> exists i :: 0 <= i < |paths| && paths[i] !in existing
    decreases |paths|
  {
    if paths != [] {
      var init := paths[..|paths| - 1];
      SomeMissingMeans(init, existing);
      if SomeMissing(init, existing) {
        var i :| 0 <= i < |init| && init[i] !in existing;
        assert paths[i] !in existing;
      }
      if exists i :: 0 <= i < |paths| && paths[i] !in existing {
        var i :| 0 <= i < |paths| && paths[i] !in existing;
        if i < |init| {
          assert init[i] !in existing;
        }
      }
    }
  }

  lemma SomeMissingSnoc(paths: seq<string>, p: string, existing: set<string>)
    ensures SomeMissing(paths + [p], existing) <==> SomeMissing(paths, existing) || p !in existing
  {
    assert (paths + [p])[..|paths|] == paths;
  }

  /** A list has a missing path exactly when one of its two parts has. */
  lemma {:induction false} SomeMissingAppend(a: seq<string>, b: seq<string>, existing: set<string>)
    ensures SomeMissing(a + b, existing) <==> SomeMissing(a, existing) || SomeMissing(b, existing)
    decreases |b|
  {
    if b == [] {
      assert a + b == a;
    } else {
      var init := b[..|b| - 1];
      var last := b[|b| - 1];
      SomeMissingAppend(a, init, existing);
      assert a + b == (a + init) + [last];
      SomeMissingSnoc(a + init, last, existing);
      SomeMissingSnoc(init, last, existing);
      assert init + [last] == b;
    }
  }

  /**
   * `generateFileList`: with an empty input path, an empty list and the flag
   * as given; otherwise the paths of the tiles of rows `startRow..endRow` and
   * columns `startCol..endCol` of one slice, and the flag set to whether any
   * of them is missing.
   */
  method GenerateFileList(slice: int, startCol: int, startRow: int, endCol: int, endRow: int, hasMissingFiles: bool,
                          inputPath: string, s: Settings, existing: set<string>)
    returns (fileList: seq<string>, missing: bool)
    ensures inputPath == [] ==> fileList == [] && missing == hasMissingFiles
    ensures inputPath != [] ==>
      fileList == Grid(TileCell(inputPath, s, slice), startCol, startRow, endCol, endRow) &&
      (missing <==> SomeMissing(fileList, existing))
  {
    if inputPath == [] {
      return [], hasMissingFiles;
    }
    ghost var cell := TileCell(inputPath, s, slice);
    var missingFiles := false;
    fileList := [];
    var row := startRow;
    while row <= endRow
      invariant startRow <= row <= (if endRow < startRow then startRow else endRow + 1)
      invariant fileList == Grid(cell, startCol, startRow, endCol, row - 1)
      invariant missingFiles <==> SomeMissing(fileList, existing)
      decreases endRow - row
    {
      ghost var before := fileList;
      fileList, missingFiles := ListRow(fileList, missingFiles, slice, row, startCol, endCol, inputPath, s, existing);
      SomeMissingAppend(before, RowCells(cell, row, startCol, endCol), existing);
      row := row + 1;
    }
    missing := missingFiles;
  }

  /**
   * The column loop of `generateFileList`: the paths of one row's tiles are
   * appended in column order, and a missing one sets the flag.
   */
  method ListRow(fileList: seq<string>, missingFiles: bool, slice: int, row: int, startCol: int, endCol: int,
                 inputPath: string, s: Settings, existing: set<string>)
    returns (listed: seq<string>, missing: bool)
    ensures listed == fileList + RowCells(TileCell(inputPath, s, slice), row, startCol, endCol)
    ensures missing <==> missingFiles || SomeMissing(RowCells(TileCell(inputPath, s, slice), row, startCol, endCol), existing)
  {
    ghost var cell := TileCell(inputPath, s, slice);
    listed, missing := fileList, missingFiles;
    var col := startCol;
    while col <= endCol
      invariant startCol <= col <= (if endCol < startCol then startCol else endCol + 1)
      invariant listed == fileList + RowCells(cell, row, startCol, col - 1)
      invariant missing <==> missingFiles || SomeMissing(RowCells(cell, row, startCol, col - 1), existing)
      decreases endCol - col
    {
      var filePath := TilePath(inputPath, s, slice, col, row);
      if filePath !in existing {
        missing := true;
      }
      assert filePath == cell(col, row);
      RowCellsSnoc(cell, row, startCol, col);
      SnocAssoc(fileList, RowCells(cell, row, startCol, col - 1), filePath);
      SomeMissingSnoc(RowCells(cell, row, startCol, col - 1), filePath, existing);
      listed := listed + [filePath];
      col := col + 1;
    }
  }

  lemma PaddedChars(n: int, width: nat)
    ensures forall i :: 0 <= i < |Padded(n, width)| ==> IsDigit(Padded(n, width)[i]) || Padded(n, width)[i] == '-'
  {
    var d := Digits(if n < 0 then -n else n);
    var p := Padded(n, width);
    forall i | 0 <= i < |p|
      ensures IsDigit(p[i]) || p[i] == '-'
    {
      if i >= |p| - |Number(n)| {
        var j := i - (|p| - |Number(n)|);
        assert p[i] == Number(n)[j];
        if n < 0 {
          assert Number(n) == "-" + d;
          if j > 0 {
            assert Number(n)[j] == d[j - 1];
          }
        }
      }
    }
  }

  /** The tile a listed file names: the integers in the last two `_`-separated tokens of its base name. */
  datatype Tile = Tile(col: int, row: int) | NoTile

  function TileOf(path: string): (t: Tile) {
    TileOfTokens(Split(BaseName(path), '_'))
  }

  function TileOfTokens(tokens: seq<string>): (t: Tile) {
    if |tokens| > 1 then Tile(ToInt(tokens[|tokens| - 2]), ToInt(tokens[|tokens| - 1])) else NoTile
  }

  /** The last two `_`-separated tokens of `head_c_r` are `c` and `r` when neither holds a '_'. */
  lemma LastTwoTokens(head: string, c: string, r: string)
    requires '_' !in c && '_' !in r
    ensures var tokens := Split(head + "_" + c + "_" + r, '_');
      |tokens| > 1 && tokens[|tokens| - 2] == c && tokens[|tokens| - 1] == r
  {
    SplitSnoc(head, '_', c);
    SplitSnoc(head + "_" + c, '_', r);
    assert head + "_" + c + "_" + r == (head + ['_'] + c) + ['_'] + r;
    assert head + "_" + c == head + ['_'] + c;
  }

  /** A zero-padded number holds neither '_' nor '.' nor '/'. */
  lemma PaddedSeparators(n: int, width: nat)
    ensures '_' !in Padded(n, width) && '.' !in Padded(n, width) && '/' !in Padded(n, width)
  {
    PaddedChars(n, width);
  }

  /**
   * The scan reads every generated name back: the column and the row a tile
   * file was named with are the ones `TileOf` finds in it.
   */
  lemma GeneratedNamesReadBack(dir: string, s: Settings, slice: int, col: int, row: int)
    requires 0 <= col <= IntMax && 0 <= row <= IntMax
    requires '/' !in s.prefix && '.' !in s.prefix && '/' !in s.ext
    ensures TileOf(TilePath(dir, s, slice, col, row)) == Tile(col, row)
  {
    var pre := if s.prefix == [] then "" else s.prefix + "_";
    var sl, c, r := Padded(slice, s.slicePadding), Padded(col, s.rowColPadding), Padded(row, s.rowColPadding);
    PaddedSeparators(slice, s.slicePadding);
    PaddedSeparators(col, s.rowColPadding);
    PaddedSeparators(row, s.rowColPadding);
    assert '/' !in pre && '.' !in pre;
    var head := pre + sl;
    assert '/' !in head && '.' !in head;
    var base := head + "_" + c + "_" + r;
    assert '/' !in base && '.' !in base;
    var name := base + "." + s.ext;
    assert '/' !in name;
    assert TileName(s, slice, col, row) == name;
    FileNameOfChild(dir, name);
    BaseNameOfDotted(TilePath(dir, s, slice, col, row), base, s.ext);
    LastTwoTokens(head, c, r);
    PaddedNumberRoundTrip(col, s.rowColPadding);
    PaddedNumberRoundTrip(row, s.rowColPadding);
  }

  /** The name filter `*.ext`: the file name ends with '.' and then `ext`. */
  predicate MatchesExtension(path: string, ext: string) {
    var name := FileName(path);
    |name| > |ext| && name[|name| - |ext| - 1..] == "." + ext
  }

  /** The entries a `*.ext` name filter lets through, in listing order. */
  function WithExtension(files: seq<string>, ext: string): (r: seq<string>)
    ensures forall f :: f in r <==> f in files && MatchesExtension(f, ext)
    ensures |r| <= |files|
  {
    if files == [] then []
    else
      var n := |files| - 1;
      assert files == files[..n] + [files[n]];
      WithExtension(files[..n], ext) + (if MatchesExtension(files[n], ext) then [files[n]] else [])
  }

  /** The tiles the listed names carry, in listing order. */
  function Tiles(files: seq<string>): (tiles: seq<Tile>)
    ensures |tiles| == |files|
  {
    if files == [] then [] else Tiles(files[..|files| - 1]) + [TileOf(files[|files| - 1])]
  }

  /** The largest column among `tiles`, starting from 0. */
  function MaxCol(tiles: seq<Tile>): int {
    if tiles == [] then 0
    else
      var m := MaxCol(tiles[..|tiles| - 1]);
      var t := tiles[|tiles| - 1];
      if t.Tile? && t.col > m then t.col else m
  }

  /** The largest row among `tiles`, starting from 0. */
  function MaxRow(tiles: seq<Tile>): int {
    if tiles == [] then 0
    else
      var m := MaxRow(tiles[..|tiles| - 1]);
      var t := tiles[|tiles| - 1];
      if t.Tile? && t.row > m then t.row else m
  }

  /** The maxima are at least 0, bound every tile, and are 0 or some tile's column (row). */
  lemma {:induction false} MaxBounds(tiles: seq<Tile>)
    ensures MaxCol(tiles) >= 0 && MaxRow(tiles) >= 0
    ensures forall i :: 0 <= i < |tiles| && tiles[i].Tile? ==> tiles[i].col <= MaxCol(tiles) && tiles[i].row <= MaxRow(tiles)
    ensures MaxCol(tiles) == 0 || exists i :: 0 <= i < |tiles| && tiles[i].Tile? && tiles[i].col == MaxCol(tiles)
    ensures MaxRow(tiles) == 0 || exists i :: 0 <= i < |tiles| && tiles[i].Tile? && tiles[i].row == MaxRow(tiles)
  {
    if tiles != [] {
      var init := tiles[..|tiles| - 1];
      MaxBounds(init);
      assert forall i :: 0 <= i < |init| ==> tiles[i] == init[i];
    }
  }

  /**
   * The scan of `findNumberOfRowsAndColumns`: the largest column and row the
   * listed names carry, each starting from 0; names with fewer than two
   * `_`-separated tokens are skipped.
   */
  method MaxColumnAndRow(files: seq<string>) returns (maxCol: int, maxRow: int)
    ensures maxCol == MaxCol(Tiles(files)) && maxRow == MaxRow(Tiles(files))
  {
    maxCol, maxRow := 0, 0;
    for i := 0 to |files|
      invariant maxCol == MaxCol(Tiles(files[..i])) && maxRow == MaxRow(Tiles(files[..i]))
    {
      assert files[..i + 1][..i] == files[..i];
      ghost var tiles := Tiles(files[..i + 1]);
      var tokens := Split(BaseName(files[i]), '_');
      assert tiles[..i] == Tiles(files[..i]) && tiles[i] == TileOfTokens(tokens);
      if |tokens| > 1 {
        var col := ToInt(tokens[|tokens| - 2]);
        var row := ToInt(tokens[|tokens| - 1]);
        assert tiles[i] == Tile(col, row);
        if row > maxRow {
          maxRow := row;
        }
        if col > maxCol {
          maxCol := col;
        }
      }
    }
    assert files[..|files|] == files;
  }

  /** `QString` ordering: lexicographic on the characters, a prefix before its extensions. */
  predicate StrLe(a: string, b: string) {
    a == [] || (b != [] && (a[0] < b[0] || (a[0] == b[0] && StrLe(a[1..], b[1..]))))
  }

  lemma {:induction false} StrLeTotal(a: string, b: string)
    ensures StrLe(a, b) || StrLe(b, a)
  {
    if a != [] && b != [] && a[0] == b[0] {
      StrLeTotal(a[1..], b[1..]);
    }
  }

  lemma {:induction false} StrLeTransitive(a: string, b: string, c: string)
    requires StrLe(a, b) && StrLe(b, c)
    ensures StrLe(a, c)
  {
    if a != [] && a[0] == b[0] && b[0] == c[0] {
      StrLeTransitive(a[1..], b[1..], c[1..]);
    }
  }

  /** Every non-empty set of strings has a least element. */
  lemma {:induction false} LeastKeyExists(keys: set<string>)
    requires keys != {}
    ensures exists m :: m in keys && forall k :: k in keys ==> StrLe(m, k)
    decreases |keys|
  {
    var x :| x in keys;
    var rest := keys - {x};
    if rest == {} {
      assert keys == {x};
      StrLeTotal(x, x);
      assert forall k :: k in keys ==> StrLe(x, k);
    } else {
      LeastKeyExists(rest);
      var m :| m in rest && forall k :: k in rest ==> StrLe(m, k);
      StrLeTotal(m, x);
      if StrLe(m, x) {
        assert forall k :: k in keys ==> k == x || k in rest;
        assert m in keys && forall k :: k in keys ==> StrLe(m, k);
      } else {
        forall k | k in keys
          ensures StrLe(x, k)
        {
          if k == x {
            StrLeTotal(x, x);
          } else {
            StrLeTransitive(x, m, k);
          }
        }
        assert x in keys;
      }
    }
  }

  /** How often each suffix occurs: the `extCount` map after counting `suffixes` one by one. */
  function Counts(suffixes: seq<string>): (m: map<string, nat>)
    ensures forall k :: k in m ==> m[k] > 0
  {
    if suffixes == [] then map[]
    else
      var m := Counts(suffixes[..|suffixes| - 1]);
      var ext := suffixes[|suffixes| - 1];
      m[ext := (if ext in m then m[ext] else 0) + 1]
  }

  /** The counts are the occurrence counts: a suffix is counted iff it occurs, as often as it occurs. */
  lemma {:induction false} CountsAreOccurrences(suffixes: seq<string>)
    ensures forall k :: k in Counts(suffixes) <==> k in suffixes
    ensures forall k :: k in Counts(suffixes) ==> Counts(suffixes)[k] == multiset(suffixes)[k]
  {
    if suffixes != [] {
      var init := suffixes[..|suffixes| - 1];
      CountsAreOccurrences(init);
      assert suffixes == init + [suffixes[|suffixes| - 1]];
    }
  }

  /**
   * The suffix `findFileExtension` settles on: one that occurs most often,
   * and among those the least in `QString` order.
   */
  predicate MostCommon(ext: string, counts: map<string, nat>) {
    ext in counts &&
    (forall k :: k in counts ==> counts[k] <= counts[ext]) &&
    (forall k :: k in counts && counts[k] == counts[ext] ==> StrLe(ext, k))
  }

  /** Only one suffix can be the most common one. */
  lemma MostCommonUnique(a: string, b: string, counts: map<string, nat>)
    requires MostCommon(a, counts) && MostCommon(b, counts)
    ensures a == b
  {
    StrLeAntisymmetric(a, b);
  }

  lemma {:induction false} StrLeAntisymmetric(a: string, b: string)
    requires StrLe(a, b) && StrLe(b, a)
    ensures a == b
  {
    if a != [] {
      StrLeAntisymmetric(a[1..], b[1..]);
      assert a == [a[0]] + a[1..] && b == [b[0]] + b[1..];
    }
  }

  /** The first loop of `findFileExtension`: `extCount[ext] + 1` for each suffix in turn. */
  method CountSuffixes(suffixes: seq<string>) returns (extCount: map<string, nat>)
    ensures extCount == Counts(suffixes)
  {
    extCount := map[];
    for i := 0 to |suffixes|
      invariant extCount == Counts(suffixes[..i])
    {
      var ext := suffixes[i];
      assert suffixes[..i + 1][..i] == suffixes[..i];
      extCount := extCount[ext := (if ext in extCount then extCount[ext] else 0) + 1];
    }
    assert suffixes[..|suffixes|] == suffixes;
  }

  /**
   * The second loop of `findFileExtension`: the keys in ascending order, a key
   * kept only when its count beats the best so far (which starts at 0).
   */
  method MostCommonKey(extCount: map<string, nat>) returns (mostCommonExt: string)
    ensures (forall k :: k in extCount ==> extCount[k] == 0) ==> mostCommonExt == ""
    ensures (exists k :: k in extCount && extCount[k] > 0) ==> MostCommon(mostCommonExt, extCount)
  {
    mostCommonExt := "";
    var largestNumber := 0;
    var remaining := extCount.Keys;
    while remaining != {}
      invariant remaining <= extCount.Keys
      invariant forall v, r :: v in extCount && v !in remaining && r in remaining ==> StrLe(v, r)
      invariant largestNumber == 0 ==>
        mostCommonExt == "" && forall k :: k in extCount && k !in remaining ==> extCount[k] == 0
      invariant largestNumber > 0 ==>
        mostCommonExt in extCount && mostCommonExt !in remaining && extCount[mostCommonExt] == largestNumber &&
        (forall k :: k in extCount && k !in remaining ==> extCount[k] <= largestNumber) &&
        (forall k :: k in extCount && k !in remaining && extCount[k] == largestNumber ==> StrLe(mostCommonExt, k))
      decreases |remaining|
    {
      LeastKeyExists(remaining);
      var key :| key in remaining && forall k :: k in remaining ==> StrLe(key, k);
      if extCount[key] > largestNumber {
        largestNumber := extCount[key];
        mostCommonExt := key;
      }
      remaining := remaining - {key};
    }
  }

  /**
   * `findFileExtension`'s search: the most common complete suffix of the
   * listed files, ties going to the least; no files give "".
   */
  method MostCommonExtension(files: seq<string>) returns (mostCommonExt: string)
    ensures files == [] ==> mostCommonExt == ""
    ensures files != [] ==> MostCommon(mostCommonExt, Counts(Suffixes(files)))
  {
    var extCount := CountSuffixes(Suffixes(files));
    mostCommonExt := MostCommonKey(extCount);
    if files != [] {
      CountsAreOccurrences(Suffixes(files));
      assert Suffixes(files)[0] in extCount;
    }
  }

  /** The complete suffix of every listed file. */
  function Suffixes(files: seq<string>): (r: seq<string>)
    ensures |r| == |files|
  {
    seq(|files|, i requires 0 <= i < |files| => CompleteSuffix(files[i]))
  }

  /** The paths of every slice `sliceMin..last`, slice after slice. */
  function SlicePathsUpTo(s: Settings, last: int): seq<string>
    decreases Span(s.sliceMin, last)
  {
    if last < s.sliceMin then []
    else SlicePathsUpTo(s, last - 1) + SlicePaths(s, last)
  }

  /** The directory of one slice: `<dir of inputDir>/<prefix>_<slice>`. */
  function SliceDir(s: Settings, slice: int): (d: string)
    ensures d != []
  {
    DirPath(s.inputDir) + "/" + s.prefix + "_" + Padded(slice, s.slicePadding)
  }

  function SlicePaths(s: Settings, slice: int): seq<string> {
    Grid(TileCell(SliceDir(s, slice), s, slice), s.colStart, s.rowStart, s.colEnd, s.rowEnd)
  }

  /** The files of all slices, as `generateExampleInputFile` lists them. */
  function AllPaths(s: Settings): seq<string> {
    SlicePathsUpTo(s, s.sliceMax)
  }

  /** How many listed paths exist. */
  function ExistingCount(paths: seq<string>, existing: set<string>): (n: nat)
    ensures n <= |paths|
  {
    if paths == [] then 0
    else ExistingCount(paths[..|paths| - 1], existing) + (if paths[|paths| - 1] in existing then 1 else 0)
  }

  lemma ExistingCountSnoc(paths: seq<string>, p: string, existing: set<string>)
    ensures ExistingCount(paths + [p], existing) == ExistingCount(paths, existing) + (if p in existing then 1 else 0)
  {
    assert (paths + [p])[..|paths|] == paths;
  }

  lemma SnocAssoc<T>(a: seq<T>, b: seq<T>, x: T)
    ensures a + (b + [x]) == (a + b) + [x]
  {
  }

  /** Appending the next element of `next` to `before + next[..i]`. */
  lemma AppendNext<T>(before: seq<T>, next: seq<T>, i: nat)
    requires i < |next|
    ensures before + next[..i + 1] == (before + next[..i]) + [next[i]]
  {
    assert next[..i + 1] == next[..i] + [next[i]];
  }

  /**
   * The item loop of `generateExampleInputFile`: each path of one slice's
   * list is added to the view; an existing file counts as found, a missing
   * one sets the missing-files flag.
   */
  method ShowFileList(items: seq<string>, fileExistsCount: nat, hasMissingFiles: bool, fileList: seq<string>,
                      existing: set<string>)
    returns (shown: seq<string>, found: nat, missing: bool)
    requires fileExistsCount == ExistingCount(items, existing)
    ensures shown == items + fileList
    ensures found == ExistingCount(shown, existing)
    ensures missing <==> hasMissingFiles || SomeMissing(fileList, existing)
  {
    shown, found, missing := items, fileExistsCount, hasMissingFiles;
    for i := 0 to |fileList|
      invariant shown == items + fileList[..i]
      invariant found == ExistingCount(shown, existing)
      invariant missing <==> hasMissingFiles || SomeMissing(fileList[..i], existing)
    {
      var filePath := fileList[i];
      ghost var done := fileList[..i];
      assert fileList[..i + 1] == done + [filePath];
      AppendNext(items, fileList, i);
      ExistingCountSnoc(shown, filePath, existing);
      SomeMissingSnoc(done, filePath, existing);
      if filePath in existing {
        found := found + 1;
      } else {
        missing := true;
      }
      shown := shown + [filePath];
    }
    assert fileList[..|fileList|] == fileList;
  }

  /**
   * The slice loop of `generateExampleInputFile`: every slice's tile list is
   * generated and shown in turn. The flag is passed to each
   * `generateFileList` call, which overwrites it, so it ends as the last
   * slice's answer.
   */
  method ListSlices(s: Settings, existing: set<string>)
    returns (items: seq<string>, fileExistsCount: nat, totalFileCount: nat, hasMissingFiles: bool)
    ensures items == AllPaths(s)
    ensures fileExistsCount == ExistingCount(items, existing) && totalFileCount == |items|
    ensures hasMissingFiles <==> LastSliceMissing(s, existing)
  {
    hasMissingFiles := false;
    items, fileExistsCount, totalFileCount := [], 0, 0;
    var sliceMin, sliceMax := s.sliceMin, s.sliceMax;
    var montageStartCol, montageStartRow, montageEndCol, montageEndRow := s.colStart, s.rowStart, s.colEnd, s.rowEnd;
    var slice := sliceMin;
    while slice <= sliceMax
      invariant sliceMin <= slice <= (if sliceMax < sliceMin then sliceMin else sliceMax + 1)
      invariant items == SlicePathsUpTo(s, slice - 1)
      invariant fileExistsCount == ExistingCount(items, existing) && totalFileCount == |items|
      invariant hasMissingFiles <==> sliceMin < slice && SomeMissing(SlicePaths(s, slice - 1), existing)
      decreases sliceMax - slice
    {
      var inputPath := SliceDir(s, slice);
      var fileList;
      fileList, hasMissingFiles :=
        GenerateFileList(slice, montageStartCol, montageStartRow, montageEndCol, montageEndRow, hasMissingFiles,
                         inputPath, s, existing);
      items, fileExistsCount, hasMissingFiles := ShowFileList(items, fileExistsCount, hasMissingFiles, fileList, existing);
      totalFileCount := totalFileCount + |fileList|;
      slice := slice + 1;
    }
    assert slice - 1 == sliceMax || (sliceMax < sliceMin && SlicePathsUpTo(s, sliceMax) == [] == items);
  }

  /**
   * The listing and the two texts `generateExampleInputFile` shows, with the
   * missing-files flag corrected: the alert is raised exactly when some listed
   * file of any slice is missing, that is, when fewer files were found than
   * listed.
   */
  method ListAndReport(s: Settings, existing: set<string>) returns (view: ListView)
    ensures view == CorrectedView(s, existing)
  {
    var items, fileExistsCount, totalFileCount, lastMissing := ListSlices(s, existing);
    AnySliceMissingIffFewerFound(s, existing);
    var hasMissingFiles := fileExistsCount < totalFileCount;
    view := ListView(items, MissingFilesMessage(hasMissingFiles), CountLabel(fileExistsCount, totalFileCount),
                     ExampleFileName(s));
  }

  /** All listed paths exist exactly when the existing count reaches the total. */
  lemma {:induction false} ExistingCountFull(paths: seq<string>, existing: set<string>)
    ensures ExistingCount(paths, existing) == |paths| <==> !SomeMissing(paths, existing)
  {
    if paths != [] {
      var init := paths[..|paths| - 1];
      ExistingCountFull(init, existing);
      assert paths == init + [paths[|paths| - 1]];
    }
  }

  /** The list holds every slice's grid: slices times rows times columns entries. */
  lemma {:induction false} AllPathsLength(s: Settings, last: int)
    ensures |SlicePathsUpTo(s, last)| == Span(s.sliceMin, last) * (Span(s.rowStart, s.rowEnd) * Span(s.colStart, s.colEnd))
    decreases Span(s.sliceMin, last)
  {
    if last >= s.sliceMin {
      var perSlice := Span(s.rowStart, s.rowEnd) * Span(s.colStart, s.colEnd);
      var before := Span(s.sliceMin, last - 1);
      AllPathsLength(s, last - 1);
      GridLength(TileCell(SliceDir(s, last), s, last), s.colStart, s.rowStart, s.colEnd, s.rowEnd);
      assert |SlicePathsUpTo(s, last)| == before * perSlice + perSlice;
      assert Span(s.sliceMin, last) == before + 1;
      MulSucc(before, perSlice);
    }
  }

  /**
   * What the missing-files flag of `generateExampleInputFile` ends as: each
   * slice's `generateFileList` call overwrites it with that slice's answer,
   * so only the last slice decides.
   */
  predicate LastSliceMissing(s: Settings, existing: set<string>) {
    s.sliceMin <= s.sliceMax && SomeMissing(SlicePaths(s, s.sliceMax), existing)
  }

  const AlertText: string :=
    "Alert: Red Dot File(s) on the list do NOT exist on the filesystem. Please make sure all files exist"
  const AllExistText: string := "All files exist."

  /** The message under the list: the alert when a file is missing, otherwise the all-clear. */
  function MissingFilesMessage(missing: bool): string {
    if missing then AlertText else AllExistText
  }

  /**
   * The example shown above the list: the first slice's tile (0, 0), written
   * row before column and placed in the parent directory, without the slice
   * directory and without '_' after the prefix.
   */
  function ExampleFileName(s: Settings): string {
    DirPath(s.inputDir) + "/" + s.prefix + Padded(s.sliceMin, s.slicePadding) + "_" +
    Padded(0, s.rowColPadding) + "_" + Padded(0, s.rowColPadding) + "." + s.ext
  }

  /** What the widget shows once the list is generated: the paths, the message, the count label and the example name. */
  datatype ListView = ListView(paths: seq<string>, message: string, countText: string, example: string)

  /**
   * The view `generateExampleInputFile` is meant to produce: every slice's
   * paths, the alert exactly when some of them is missing, and the count of
   * existing paths over listed ones.
   */
  function CorrectedView(s: Settings, existing: set<string>): ListView {
    var paths := AllPaths(s);
    ListView(paths, MissingFilesMessage(AnySliceMissing(s, existing)),
             CountLabel(ExistingCount(paths, existing), |paths|), ExampleFileName(s))
  }

  /** The "found/total" label. */
  function CountLabel(found: nat, total: nat): string {
    Number(found) + "/" + Number(total)
  }

  class RobometListWidget {
    var inputDir: string
    var filePrefix: string
    var fileExt: string
    var sliceMin: int
    var sliceMax: int
    var colStart: int
    var rowStart: int
    var colEnd: int
    var rowEnd: int
    const slicePadding: nat
    const rowColPadding: nat
    /** The file list and the three labels under it. */
    var shown: ListView

    constructor (slicePadding: nat, rowColPadding: nat)
      ensures this.slicePadding == slicePadding && this.rowColPadding == rowColPadding
      ensures shown.paths == [] && inputDir == [] && filePrefix == [] && fileExt == []
    {
      this.slicePadding, this.rowColPadding := slicePadding, rowColPadding;
      inputDir, filePrefix, fileExt := [], [], [];
      sliceMin, sliceMax, colStart, rowStart, colEnd, rowEnd := 0, 0, 0, 0, 0, 0;
      shown := ListView([], [], [], []);
    }

    /** The values of the widget's inputs. */
    function CurrentSettings(): Settings
      reads this`inputDir, this`filePrefix, this`fileExt, this`sliceMin, this`sliceMax
      reads this`colStart, this`rowStart, this`colEnd, this`rowEnd
    {
      Settings(inputDir, filePrefix, fileExt, sliceMin, sliceMax, colStart, rowStart, colEnd, rowEnd,
               slicePadding, rowColPadding)
    }

    /** `findFileExtension`: the most common complete suffix among the files of the first slice's directory. */
    method FindFileExtension(firstSliceFiles: seq<string>)
      modifies this`fileExt
      ensures firstSliceFiles == [] ==> fileExt == ""
      ensures firstSliceFiles != [] ==> MostCommon(fileExt, Counts(Suffixes(firstSliceFiles)))
    {
      fileExt := MostCommonExtension(firstSliceFiles);
    }

    /**
     * `findNumberOfRowsAndColumns`: of the first slice directory's files, only
     * those the name filter `*.<fileExt>` lets through are scanned; the grid
     * starts at column and row 0 and ends at the largest column and row their
     * names carry.
     */
    method FindNumberOfRowsAndColumns(firstSliceFiles: seq<string>)
      modifies this`colStart, this`rowStart, this`colEnd, this`rowEnd
      ensures colStart == 0 && rowStart == 0
      ensures var listed := WithExtension(firstSliceFiles, fileExt);
        colEnd == MaxCol(Tiles(listed)) && rowEnd == MaxRow(Tiles(listed))
    {
      var maxCol, maxRow := MaxColumnAndRow(WithExtension(firstSliceFiles, fileExt));
      colStart, rowStart, colEnd, rowEnd := 0, 0, maxCol, maxRow;
    }

    /**
     * `generateExampleInputFile`, with the missing-files flag corrected: the
     * example name, then every slice's tile list in order; the message is the
     * alert exactly when some listed file of any slice is missing, and the
     * label counts existing files over listed ones. (As written, the flag
     * only reflects the last slice: see `ListSlices` and
     * `LastSliceHidesEarlierMissing`.)
     */
    method GenerateExampleInputFile(existing: set<string>)
      modifies this`shown
      ensures shown == CorrectedView(old(CurrentSettings()), existing)
    {
      shown := ListAndReport(CurrentSettings(), existing);
    }

    /**
     * `isComplete`: the slice range is not reversed, the list is not empty and
     * every listed file exists; the search stops at the first missing file.
     */
    method IsComplete(existing: set<string>) returns (complete: bool)
      ensures complete <==> sliceMin <= sliceMax && |shown.paths| > 0 &&
                            forall k :: 0 <= k < |shown.paths| ==> shown.paths[k] in existing
    {
      if sliceMin > sliceMax {
        return false;
      }
      if |shown.paths| <= 0 {
        return false;
      }
      for i := 0 to |shown.paths|
        invariant forall k :: 0 <= k < i ==> shown.paths[k] in existing
      {
        if shown.paths[i] !in existing {
          return false;
        }
      }
      return true;
    }
  }

  /**
   * What the missing-files message should depend on: some listed file of any
   * slice is missing, which is exactly when fewer files were found than listed.
   */
  predicate AnySliceMissing(s: Settings, existing: set<string>) {
    SomeMissing(AllPaths(s), existing)
  }

  lemma AnySliceMissingIffFewerFound(s: Settings, existing: set<string>)
    ensures AnySliceMissing(s, existing) <==> ExistingCount(AllPaths(s), existing) < |AllPaths(s)|
  {
    ExistingCountFull(AllPaths(s), existing);
  }

  /** Every slice's missing file is one of the list's missing files. */
  lemma {:induction false} SliceMissingIsListed(s: Settings, existing: set<string>, last: int, slice: int)
    requires s.sliceMin <= slice <= last && SomeMissing(SlicePaths(s, slice), existing)
    ensures SomeMissing(SlicePathsUpTo(s, last), existing)
    decreases Span(s.sliceMin, last)
  {
    SomeMissingAppend(SlicePathsUpTo(s, last - 1), SlicePaths(s, last), existing);
    if slice < last {
      SliceMissingIsListed(s, existing, last - 1, slice);
    }
  }

  /** With the intended flag, the last slice's missing file still raises the alert. */
  lemma AnySliceMissingCoversLastSlice(s: Settings, existing: set<string>)
    ensures LastSliceMissing(s, existing) ==> AnySliceMissing(s, existing)
  {
    if LastSliceMissing(s, existing) {
      SliceMissingIsListed(s, existing, s.sliceMax, s.sliceMax);
    }
  }

  /** Two slices, 1 and 2, of a single tile (0, 0) each. */
  const TwoSlicesOfOneTile: Settings := Settings("/data/x", "p", "tif", 1, 2, 0, 0, 0, 0, 4, 3)

  /** The one tile of a slice of `TwoSlicesOfOneTile`. */
  function OnlyTile(slice: int): string {
    TilePath(SliceDir(TwoSlicesOfOneTile, slice), TwoSlicesOfOneTile, slice, 0, 0)
  }

  lemma OnlyTileIsTheSlice(slice: int)
    ensures SlicePaths(TwoSlicesOfOneTile, slice) == [OnlyTile(slice)]
  {
    var s := TwoSlicesOfOneTile;
    var cell := TileCell(SliceDir(s, slice), s, slice);
    assert Grid(cell, 0, 0, 0, -1) == [];
    assert RowCells(cell, 0, 0, 0) == [cell(0, 0)];
  }

  /** The part of a tile path of `TwoSlicesOfOneTile` before its slice number. */
  function SliceHead(): string {
    DirPath(TwoSlicesOfOneTile.inputDir) + "/" + TwoSlicesOfOneTile.prefix + "_"
  }

  lemma OnlyTileParts(slice: int)
    ensures OnlyTile(slice) == SliceHead() + Padded(slice, 4) + ("/" + TileName(TwoSlicesOfOneTile, slice, 0, 0))
  {
    var s := TwoSlicesOfOneTile;
    assert SliceDir(s, slice) == SliceHead() + Padded(slice, 4);
  }

  /** Two strings with a common head agree on the part of equal length after it. */
  lemma MiddleOfEqual(head: string, m1: string, t1: string, m2: string, t2: string)
    requires |m1| == |m2| && head + m1 + t1 == head + m2 + t2
    ensures m1 == m2
  {
    assert m1 == (head + m1 + t1)[|head|..|head| + |m1|];
    assert m2 == (head + m2 + t2)[|head|..|head| + |m2|];
  }

  lemma OnlyTilesDiffer()
    ensures OnlyTile(1) != OnlyTile(2)
  {
    PaddedNumberRoundTrip(1, 4);
    PaddedNumberRoundTrip(2, 4);
    assert |Number(1)| == 1 && |Number(2)| == 1;
    OnlyTileParts(1);
    OnlyTileParts(2);
    if OnlyTile(1) == OnlyTile(2) {
      MiddleOfEqual(SliceHead(), Padded(1, 4), "/" + TileName(TwoSlicesOfOneTile, 1, 0, 0),
                    Padded(2, 4), "/" + TileName(TwoSlicesOfOneTile, 2, 0, 0));
    }
  }

  /**
   * The flag as written forgets earlier slices: two slices of one tile each,
   * the first slice's tile missing and the second's present, give "All files
   * exist." although one listed file does not.
   */
  lemma LastSliceHidesEarlierMissing()
    ensures var existing := {OnlyTile(2)};
      !LastSliceMissing(TwoSlicesOfOneTile, existing) && AnySliceMissing(TwoSlicesOfOneTile, existing)
  {
    var s := TwoSlicesOfOneTile;
    var first, second := OnlyTile(1), OnlyTile(2);
    var existing := {second};
    OnlyTileIsTheSlice(1);
    OnlyTileIsTheSlice(2);
    OnlyTilesDiffer();
    assert SlicePathsUpTo(s, 0) == [];
    assert AllPaths(s) == [first] + [second];
    SomeMissingSnoc([], first, existing);
    assert [] + [first] == [first];
    SomeMissingSnoc([first], second, existing);
    SomeMissingSnoc([], second, existing);
    assert [] + [second] == [second];
  }

  /**
   * The corrected view raises the alert exactly when some listed file is
   * missing, which is exactly when the count label's two numbers differ.
   */
  lemma CorrectedViewAlertsIffMissing(s: Settings, existing: set<string>)
    ensures var view := CorrectedView(s, existing);
      (view.message == AlertText <==> AnySliceMissing(s, existing)) &&
      (view.message == AlertText <==> ExistingCount(view.paths, existing) < |view.paths|)
  {
    AnySliceMissingIffFewerFound(s, existing);
    assert |AllExistText| == 16 && |AlertText| > 16;
  }

  /** On the input that fools the flag as written, the corrected view raises the alert. */
  lemma CorrectedViewCatchesEarlierMissing()
    ensures CorrectedView(TwoSlicesOfOneTile, {OnlyTile(2)}).message == AlertText
  {
    LastSliceHidesEarlierMissing();
  }
}
