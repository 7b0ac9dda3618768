/**
 * `ImportDREAM3DMontageDialog`: imports a montage stored in a `.dream3d`
 * file. When the file's structure is loaded, the row and column limits are
 * read off the data container names (`..._r<row>c<col>`); the OK button is
 * enabled only when the fields are filled in and the file is a DREAM3D file.
 *
 * The file structure arrives as a `DataContainerArrayProxy`, whose data
 * containers are given here in the order the map iterates them.
 */
module Dream3dMontageDialog {
  import opened QtText

  datatype CheckState = Unchecked | PartiallyChecked | Checked

  /** The parts of a `DataContainerProxy` the dialog looks at. */
  datatype DataContainerProxy = DataContainerProxy(name: string, flag: CheckState)

  /** The segment of a container name after its last '_'. */
  function RowColString(name: string): string {
    LastPart(name, '_')
  }

  /** The row of a container: the text before the first 'c' of its row-column segment, without its 'r's. */
  function RowOf(name: string): (row: int)
    ensures IsInt32(row)
  {
    ToInt(RemoveAll(Split(RowColString(name), 'c')[0], 'r'))
  }

  /** The column of a container: the text after the last 'c' of its row-column segment. */
  function ColOf(name: string): (col: int)
    ensures IsInt32(col)
  {
    var parts := Split(RowColString(name), 'c');
    ToInt(parts[|parts| - 1])
  }

  /** The name DREAM3D gives the tile at (`row`, `col`) of a montage with the given prefix. */
  function TileContainerName(prefix: string, row: nat, col: nat): string {
    prefix + "_r" + Number(row) + "c" + Number(col)
  }

  /** The row and column written into a container name are the ones read back, whatever the prefix. */
  lemma TileContainerNameReadBack(prefix: string, row: nat, col: nat)
    requires row <= IntMax && col <= IntMax
    ensures RowOf(TileContainerName(prefix, row, col)) == row
    ensures ColOf(TileContainerName(prefix, row, col)) == col
  {
    var r, c := Number(row), Number(col);
    DigitsExclude(r, '_');
    DigitsExclude(r, 'c');
    DigitsExclude(r, 'r');
    DigitsExclude(c, '_');
    DigitsExclude(c, 'c');
    var head := "r" + r;
    assert 'c' !in head && '_' !in head;
    var rc := head + "c" + c;
    assert '_' !in rc;
    assert TileContainerName(prefix, row, col) == prefix + ['_'] + rc;
    SplitSnoc(prefix, '_', rc);
    assert RowColString(TileContainerName(prefix, row, col)) == rc;
    assert rc == head + ['c'] + c;
    SplitSnoc(head, 'c', c);
    SplitWithoutSeparator(head, 'c');
    assert Split(rc, 'c') == [head, c];
    assert head[0] == 'r' && head[1..] == r;
    RemoveAllAbsent(r, 'r');
    assert RemoveAll(head, 'r') == r;
    NumberRoundTrip(row);
    NumberRoundTrip(col);
  }

  /** A container whose row-column segment holds no digit counts as row 0, column 0. */
  lemma UnnumberedContainerIsOrigin(name: string)
    requires forall i :: 0 <= i < |RowColString(name)| ==> !IsDigit(RowColString(name)[i])
    ensures RowOf(name) == 0 && ColOf(name) == 0
  {
    var rc := RowColString(name);
    var parts := Split(rc, 'c');
    var rowText := RemoveAll(parts[0], 'r');
    forall j | 0 <= j < |rowText|
      ensures !IsDigit(rowText[j])
    {
      RemoveAllChars(parts[0], 'r', j);
      var k :| 0 <= k < |parts[0]| && parts[0][k] == rowText[j];
      SplitPartChars(rc, 'c', 0, k);
    }
    ToIntOfNonNumeric(rowText);
    var colText := parts[|parts| - 1];
    forall j | 0 <= j < |colText|
      ensures !IsDigit(colText[j])
    {
      SplitPartChars(rc, 'c', |parts| - 1, j);
    }
    ToIntOfNonNumeric(colText);
  }

  /**
   * A limit `proxyChanged` computes: starting from 0, raised to the number
   * of every container at least as large. `numberOf` is `RowOf` for the row
   * limit and `ColOf` for the column limit.
   */
  function Limit(containers: seq<DataContainerProxy>, numberOf: string -> int): int {
    if containers == [] then 0
    else
      var m := Limit(containers[..|containers| - 1], numberOf);
      var n := numberOf(containers[|containers| - 1].name);
      if n >= m then n else m
  }

  /**
   * The limit is the largest number of any container, or 0 when there is
   * none or every number is negative.
   */
  lemma {:induction false} LimitBounds(containers: seq<DataContainerProxy>, numberOf: string -> int)
    ensures 0 <= Limit(containers, numberOf)
    ensures forall i :: 0 <= i < |containers| ==> numberOf(containers[i].name) <= Limit(containers, numberOf)
    ensures Limit(containers, numberOf) == 0 ||
      exists i :: 0 <= i < |containers| && numberOf(containers[i].name) == Limit(containers, numberOf)
  {
    if containers != [] {
      var init := containers[..|containers| - 1];
      LimitBounds(init, numberOf);
      assert forall i :: 0 <= i < |init| ==> containers[i] == init[i];
      if Limit(containers, numberOf) != 0 && Limit(containers, numberOf) == Limit(init, numberOf) {
        var i :| 0 <= i < |init| && numberOf(init[i].name) == Limit(init, numberOf);
        assert containers[i] == init[i];
      }
    }
  }

  /** Both limits fit a C++ `int`: each is 0 or a number `toInt` produced. */
  lemma LimitsAreInt32(containers: seq<DataContainerProxy>)
    ensures 0 <= Limit(containers, RowOf) <= IntMax && 0 <= Limit(containers, ColOf) <= IntMax
  {
    LimitBounds(containers, RowOf);
    LimitBounds(containers, ColOf);
  }

  /** The check flags play no part in the limits: containers with the same names give the same limits. */
  lemma {:induction false} LimitIgnoresFlags(a: seq<DataContainerProxy>, b: seq<DataContainerProxy>,
                                             numberOf: string -> int)
    requires |a| == |b| && forall i :: 0 <= i < |a| ==> a[i].name == b[i].name
    ensures Limit(a, numberOf) == Limit(b, numberOf)
  {
    if a != [] {
      var n := |a| - 1;
      LimitIgnoresFlags(a[..n], b[..n], numberOf);
      assert a[n].name == b[n].name;
    }
  }

  /**
   * `checkComplete`, as the chain of tests the source runs on its result: an
   * enabled but empty montage name or data file, a complete suffix other
   * than "dream3d", or a proxy still loading each clear it.
   */
  function Complete(montageNameEnabled: bool, montageName: string, dataFileEnabled: bool, dataFile: string,
                    loadingProxy: bool): (result: bool)
  {
    var result := true;
    var result := if montageNameEnabled && montageName == [] then false else result;
    var result := if dataFileEnabled && dataFile == [] then false else result;
    var result := if CompleteSuffix(dataFile) != "dream3d" then false else result;
    if loadingProxy then false else result
  }

  /** The dialog is complete exactly when no test fails. */
  lemma CompleteIff(montageNameEnabled: bool, montageName: string, dataFileEnabled: bool, dataFile: string,
                    loadingProxy: bool)
    ensures Complete(montageNameEnabled, montageName, dataFileEnabled, dataFile, loadingProxy) <==>
      !(montageNameEnabled && montageName == []) && !(dataFileEnabled && dataFile == []) &&
      CompleteSuffix(dataFile) == "dream3d" && !loadingProxy
  {
  }

  /** An empty data file never completes the dialog, even when its field is disabled: it has no suffix. */
  lemma EmptyDataFileIsIncomplete(montageNameEnabled: bool, montageName: string, dataFileEnabled: bool,
                                  loadingProxy: bool)
    ensures !Complete(montageNameEnabled, montageName, dataFileEnabled, "", loadingProxy)
  {
    assert Split("", '/') == [""];
    assert FileName("") == "";
    assert CompleteSuffix("") == "";
  }

  /** A named montage read from `dir/base.dream3d` completes the dialog once the proxy has loaded. */
  lemma Dream3dFileCompletes(montageName: string, dir: string, base: string)
    requires montageName != [] && '/' !in base && '.' !in base
    ensures Complete(true, montageName, true, dir + "/" + base + ".dream3d", false)
  {
    CompleteSuffixOfDotted(dir, base, "dream3d");
    var head := dir + "/" + base;
    assert ".dream3d" == "." + "dream3d";
    assert head + ("." + "dream3d") == head + "." + "dream3d";
  }

  /** The complete suffix is everything after the first dot: a file `base.tar.dream3d` is refused. */
  lemma DoubleSuffixIsIncomplete(montageName: string, dir: string, base: string)
    requires '/' !in base && '.' !in base
    ensures !Complete(true, montageName, true, dir + "/" + base + ".tar.dream3d", false)
  {
    var head, file := dir + "/" + base, dir + "/" + base + ".tar.dream3d";
    CompleteSuffixOfDotted(dir, base, "tar.dream3d");
    assert ".tar.dream3d" == "." + "tar.dream3d";
    assert file == head + "." + "tar.dream3d";
    assert |CompleteSuffix(file)| != |"dream3d"|;
    CompleteIff(true, montageName, true, file, false);
  }

  /** What `getMetadata` reports. */
  datatype Metadata = Metadata(
    montageName: string, displayType: int, rowLimits: (int, int), columnLimits: (int, int),
    filePath: string, dataContainerPrefix: string, attributeMatrixName: string, dataArrayName: string)

  class ImportDream3dMontageDialog {
    var montageName: string
    var montageNameEnabled: bool
    var dataFile: string
    var dataFileEnabled: bool
    var rowStart: string
    var rowEnd: string
    var colStart: string
    var colEnd: string
    var displayTypeIndex: int
    var dataContainerPrefix: string
    var cellAttrMatrixName: string
    var imageArrayName: string
    /** `m_LoadingProxy`: the file structure is still being read. */
    var loadingProxy: bool
    /** Whether the OK ("Import") button is enabled. */
    var okEnabled: bool

    function IsComplete(): bool
      reads this`montageNameEnabled, this`montageName, this`dataFileEnabled, this`dataFile, this`loadingProxy
    {
      Complete(montageNameEnabled, montageName, dataFileEnabled, dataFile, loadingProxy)
    }

    /** `checkComplete`: the OK button is enabled exactly when the dialog is complete. */
    method CheckComplete()
      modifies this`okEnabled
      ensures okEnabled == IsComplete()
    {
      okEnabled := Complete(montageNameEnabled, montageName, dataFileEnabled, dataFile, loadingProxy);
    }

    /**
     * `proxyChanged`: the row-end and column-end fields show the largest row
     * and column the container names carry, then completeness is checked
     * again; `getMetadata` then reads those limits back.
     */
    method ProxyChanged(containers: seq<DataContainerProxy>)
      modifies this`rowEnd, this`colEnd, this`okEnabled
      ensures rowEnd == Number(Limit(containers, RowOf)) && colEnd == Number(Limit(containers, ColOf))
      ensures okEnabled == IsComplete()
      ensures GetMetadata().rowLimits == (ToInt(rowStart), Limit(containers, RowOf))
      ensures GetMetadata().columnLimits == (ToInt(colStart), Limit(containers, ColOf))
    {
      var rowCount := 0;
      var colCount := 0;
      for i := 0 to |containers|
        invariant rowCount == Limit(containers[..i], RowOf) && colCount == Limit(containers[..i], ColOf)
      {
        assert containers[..i + 1][..i] == containers[..i];
        var dcName := containers[i].name;
        var rowNumber := RowOf(dcName);
        if rowNumber >= rowCount {
          rowCount := rowNumber;
        }
        var colNumber := ColOf(dcName);
        if colNumber >= colCount {
          colCount := colNumber;
        }
      }
      assert containers[..|containers|] == containers;
      LimitsAreInt32(containers);
      NumberRoundTrip(rowCount);
      NumberRoundTrip(colCount);
      rowEnd, colEnd := Number(rowCount), Number(colCount);
      CheckComplete();
    }

    /** `getMetadata`: the fields as they are, the limits read as integers (0 where the text is no number). */
    function GetMetadata(): (m: Metadata)
      reads this
      ensures m.rowLimits == (ToInt(rowStart), ToInt(rowEnd)) && m.columnLimits == (ToInt(colStart), ToInt(colEnd))
      ensures IsInt32(m.rowLimits.0) && IsInt32(m.rowLimits.1) && IsInt32(m.columnLimits.0) && IsInt32(m.columnLimits.1)
      ensures m.montageName == montageName && m.filePath == dataFile
    {
      Metadata(montageName, displayTypeIndex, (ToInt(rowStart), ToInt(rowEnd)), (ToInt(colStart), ToInt(colEnd)),
               dataFile, dataContainerPrefix, cellAttrMatrixName, imageArrayName)
    }
  }
}
