/**
 * `EnterDREAM3DDataPage`: the montage wizard page that asks for a montage
 * name, a `.dream3d` file, the grid size, the tile overlap and the names of
 * the data container, attribute matrix and image array. The page is complete
 * when no enabled field is left empty or out of its range and the file's
 * complete suffix is "dream3d"; it always moves on to the HDF5 loading page.
 */
module EnterDream3dDataPage {
  import opened QtText

  /** A `QSpinBox`: its value, its range and whether it is enabled. */
  datatype SpinBox = SpinBox(value: int, minimum: int, maximum: int, enabled: bool)

  /** An enabled spin box whose value lies outside its range. */
  predicate OutOfRange(b: SpinBox) {
    b.enabled && (b.value < b.minimum || b.value > b.maximum)
  }

  /** `v` brought into `[lo, hi]`, as a `QSpinBox` bounds its value into a new range. */
  function Bound(v: int, lo: int, hi: int): (r: int)
    requires lo <= hi
    ensures lo <= r <= hi
    ensures lo <= v <= hi ==> r == v
    ensures v < lo ==> r == lo
    ensures v > hi ==> r == hi
  {
    if v < lo then lo else if v > hi then hi else v
  }

  /** A spin box whose value lies in its range, as a `QSpinBox` always keeps it. */
  predicate InRange(b: SpinBox) {
    b.minimum <= b.value <= b.maximum
  }

  /**
   * `QSpinBox::setMinimum(m)`: the maximum is raised to `m` if it is below
   * it, and the value is bounded into the new range.
   */
  function SetMinimum(b: SpinBox, m: int): (r: SpinBox)
    ensures r.minimum == m && r.maximum == (if b.maximum < m then m else b.maximum)
    ensures r.enabled == b.enabled && InRange(r)
    ensures m <= b.value <= b.maximum ==> r.value == b.value
    ensures b.value < m ==> r.value == m
  {
    var hi := if b.maximum < m then m else b.maximum;
    b.(minimum := m, maximum := hi, value := Bound(b.value, m, hi))
  }

  /**
   * `QSpinBox::setMaximum(m)`: the minimum is lowered to `m` if it is above
   * it, and the value is bounded into the new range.
   */
  function SetMaximum(b: SpinBox, m: int): (r: SpinBox)
    ensures r.maximum == m && r.minimum == (if b.minimum > m then m else b.minimum)
    ensures r.enabled == b.enabled && InRange(r)
    ensures b.minimum <= b.value <= m ==> r.value == b.value
    ensures b.value > m ==> r.value == m
  {
    var lo := if b.minimum > m then m else b.minimum;
    b.(minimum := lo, maximum := m, value := Bound(b.value, lo, m))
  }

  /** `setMinimum(lo)` then `setMaximum(hi)` on a spin box that keeps its value in range: the value ends bounded into `[lo, hi]`. */
  lemma {:induction false} SetRangeBounds(b: SpinBox, lo: int, hi: int)
    requires lo <= hi
    ensures var r := SetMaximum(SetMinimum(b, lo), hi);
      r.minimum == lo && r.maximum == hi && r.enabled == b.enabled && InRange(r) &&
      (b.value < lo ==> r.value == lo) &&
      (InRange(b) ==> r.value == Bound(b.value, lo, hi))
  {
    var r1 := SetMinimum(b, lo);
    if InRange(b) && b.value > hi {
      assert r1.value == b.value || r1.value == lo;
    }
  }

  datatype Page = Page(
    montageName: LineEdit,
    dataFile: LineEdit,
    numOfRows: SpinBox,
    numOfCols: SpinBox,
    dataContainerPrefix: LineEdit,
    cellAttrMatrixName: LineEdit,
    imageArrayName: LineEdit,
    tileOverlap: SpinBox)

  /** The wizard's pages this page can lead to; the wizard's other pages are not told apart. */
  datatype WizardPage = LoadHDF5Data | OtherPage

  /** The line edits that must not be left empty while enabled. */
  function TextFields(p: Page): seq<LineEdit> {
    [p.montageName, p.dataFile, p.dataContainerPrefix, p.cellAttrMatrixName, p.imageArrayName]
  }

  /** The spin boxes whose value must lie in range while enabled. */
  function SpinBoxes(p: Page): seq<SpinBox> {
    [p.numOfRows, p.numOfCols, p.tileOverlap]
  }

  /**
   * `setupGui`: rows and columns range over [1, INT_MAX] and the overlap over
   * [0, 100], each set minimum first; every spin box value is bounded into its
   * new range, so none is left out of range. Enabled states and texts are left
   * as they are.
   */
  function SetupGui(p: Page): (q: Page)
    ensures q.numOfRows.minimum == 1 && q.numOfRows.maximum == IntMax
    ensures q.numOfCols.minimum == 1 && q.numOfCols.maximum == IntMax
    ensures q.tileOverlap.minimum == 0 && q.tileOverlap.maximum == 100
    ensures forall i :: 0 <= i < 3 ==> InRange(SpinBoxes(q)[i]) && !OutOfRange(SpinBoxes(q)[i])
    ensures forall i :: 0 <= i < 3 ==> SpinBoxes(q)[i].enabled == SpinBoxes(p)[i].enabled
    ensures InRange(p.numOfRows) ==> q.numOfRows.value == Bound(p.numOfRows.value, 1, IntMax)
    ensures InRange(p.numOfCols) ==> q.numOfCols.value == Bound(p.numOfCols.value, 1, IntMax)
    ensures InRange(p.tileOverlap) ==> q.tileOverlap.value == Bound(p.tileOverlap.value, 0, 100)
    ensures p.numOfRows.value < 1 ==> q.numOfRows.value == 1
    ensures p.numOfCols.value < 1 ==> q.numOfCols.value == 1
    ensures p.tileOverlap.value < 0 ==> q.tileOverlap.value == 0
    ensures TextFields(q) == TextFields(p)
  {
    SetRangeBounds(p.numOfRows, 1, IntMax);
    SetRangeBounds(p.numOfCols, 1, IntMax);
    SetRangeBounds(p.tileOverlap, 0, 100);
    p.(numOfRows := SetMaximum(SetMinimum(p.numOfRows, 1), IntMax),
       numOfCols := SetMaximum(SetMinimum(p.numOfCols, 1), IntMax),
       tileOverlap := SetMaximum(SetMinimum(p.tileOverlap, 0), 100))
  }

  /**
   * `isComplete`: each test can only clear the result. A complete page has
   * no enabled empty text field, no enabled spin box out of range, and a data
   * file whose complete suffix is "dream3d", whether or not that field is
   * enabled.
   */
  function IsComplete(p: Page): (result: bool)
    ensures result ==> forall i :: 0 <= i < |TextFields(p)| ==> !EnabledEmpty(TextFields(p)[i])
    ensures result ==> forall i :: 0 <= i < |SpinBoxes(p)| ==> !OutOfRange(SpinBoxes(p)[i])
    ensures result ==> CompleteSuffix(p.dataFile.text) == "dream3d"
  {
    var result := true;
    var result := if EnabledEmpty(p.montageName) then false else result;
    var result := if EnabledEmpty(p.dataFile) then false else result;
    var result := if CompleteSuffix(p.dataFile.text) != "dream3d" then false else result;
    var result := if OutOfRange(p.numOfRows) then false else result;
    var result := if OutOfRange(p.numOfCols) then false else result;
    var result := if EnabledEmpty(p.dataContainerPrefix) then false else result;
    var result := if EnabledEmpty(p.cellAttrMatrixName) then false else result;
    var result := if EnabledEmpty(p.imageArrayName) then false else result;
    var result := if OutOfRange(p.tileOverlap) then false else result;
    result
  }

  /** The converse: a page that passes every test is complete. */
  lemma FilledPageIsComplete(p: Page)
    requires forall i :: 0 <= i < |TextFields(p)| ==> !EnabledEmpty(TextFields(p)[i])
    requires forall i :: 0 <= i < |SpinBoxes(p)| ==> !OutOfRange(SpinBoxes(p)[i])
    requires CompleteSuffix(p.dataFile.text) == "dream3d"
    ensures IsComplete(p)
  {
    assert !EnabledEmpty(TextFields(p)[0]) && !EnabledEmpty(TextFields(p)[1]) && !EnabledEmpty(TextFields(p)[2]);
    assert !EnabledEmpty(TextFields(p)[3]) && !EnabledEmpty(TextFields(p)[4]);
    assert !OutOfRange(SpinBoxes(p)[0]) && !OutOfRange(SpinBoxes(p)[1]) && !OutOfRange(SpinBoxes(p)[2]);
  }

  /** Disabling the data file field does not lift the suffix test: an empty path keeps the page incomplete. */
  lemma DisabledEmptyDataFileIsIncomplete(p: Page)
    requires p.dataFile == LineEdit("", false)
    ensures !IsComplete(p)
  {
    assert CompleteSuffix(p.dataFile.text) == "";
  }

  /**
   * Once set up, the spin-box tests of `isComplete` cannot fail: the page is
   * complete exactly when no enabled text field is empty and the data file's
   * complete suffix is "dream3d".
   */
  lemma SetUpPageCompleteIff(p: Page)
    ensures var q := SetupGui(p);
      IsComplete(q) <==>
        (forall i :: 0 <= i < |TextFields(p)| ==> !EnabledEmpty(TextFields(p)[i])) &&
        CompleteSuffix(p.dataFile.text) == "dream3d"
  {
    var q := SetupGui(p);
    if (forall i :: 0 <= i < |TextFields(p)| ==> !EnabledEmpty(TextFields(p)[i])) &&
       CompleteSuffix(p.dataFile.text) == "dream3d" {
      assert TextFields(q) == TextFields(p) && q.dataFile == p.dataFile;
      FilledPageIsComplete(q);
    }
  }

  /** A row count left at 0, the `QSpinBox` default, becomes 1 once set up. */
  lemma DefaultRowCountBecomesOne(p: Page)
    requires p.numOfRows == SpinBox(0, 0, 99, true)
    ensures SetupGui(p).numOfRows.value == 1 && !OutOfRange(SetupGui(p).numOfRows)
  {
  }

  /**
   * A set-up page naming a `.dream3d` file, with every field filled and
   * every value in range, is complete.
   */
  lemma Dream3dPageCompletes(p: Page, dir: string, base: string)
    requires '/' !in base && '.' !in base
    requires p.dataFile.text == dir + "/" + base + ".dream3d"
    requires p.montageName.text != [] && p.dataContainerPrefix.text != []
    requires p.cellAttrMatrixName.text != [] && p.imageArrayName.text != []
    ensures IsComplete(SetupGui(p))
  {
    var q := SetupGui(p);
    CompleteSuffixOfDotted(dir, base, "dream3d");
    assert dir + "/" + base + "." + "dream3d" == p.dataFile.text;
    assert q.dataFile.text != [] by {
      assert |q.dataFile.text| > 0;
    }
    forall i | 0 <= i < |TextFields(q)|
      ensures !EnabledEmpty(TextFields(q)[i])
    {
    }
    FilledPageIsComplete(q);
  }

  /** `nextId`: the page after this one, whatever its fields hold. */
  function NextId(p: Page): WizardPage {
    LoadHDF5Data
  }

  /** `validatePage`: accepts every page; completeness is left to `isComplete`. */
  function ValidatePage(p: Page): bool {
    true
  }

  /** The page always leads to the HDF5 loading page, and its validation never refuses, complete or not. */
  lemma NavigationIgnoresFields(p: Page, q: Page)
    ensures NextId(p) == NextId(q) == LoadHDF5Data
    ensures ValidatePage(p) && ValidatePage(q)
  {
  }
}
