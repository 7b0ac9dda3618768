/**
 * `ImportZeissMontageDialog`: imports a montage described by a Zeiss tile
 * list. The OK button is enabled only when every enabled line edit is filled
 * in, the tile list is complete, and the list holds at least as many tiles as
 * the montage bounds declare; three check boxes switch the color weighting,
 * origin and spacing fields on and off.
 *
 * The tile-list widget is outside the model: whether it is enabled and
 * complete, and how many tiles it holds, are fields set from outside.
 */
module ZeissMontageDialog {
  import opened QtText

  /** `Qt::CheckState`. */
  datatype CheckState = Unchecked | PartiallyChecked | Checked

  /** Some line edit of the list is enabled but empty, which keeps the dialog from completing. */
  predicate AnyBlocking(edits: seq<LineEdit>) {
    edits != [] && (EnabledEmpty(edits[0]) || AnyBlocking(edits[1..]))
  }

  lemma {:induction false} AnyBlockingMeans(edits: seq<LineEdit>)
    ensures AnyBlocking(edits) <==> exists i :: 0 <= i < |edits| && EnabledEmpty(edits[i])
  {
    if edits != [] {
      AnyBlockingMeans(edits[1..]);
      if exists i :: 0 <= i < |edits| && EnabledEmpty(edits[i]) {
        var i :| 0 <= i < |edits| && EnabledEmpty(edits[i]);
        if i > 0 {
          assert edits[1..][i - 1] == edits[i];
        }
      }
      if AnyBlocking(edits[1..]) {
        var i :| 0 <= i < |edits[1..]| && EnabledEmpty(edits[1..][i]);
        assert edits[i + 1] == edits[1..][i];
      }
    }
  }

  /** A C++ `int` result: the value reduced into [IntMin, IntMax] modulo 2^32 (two's complement). */
  function Wrap32(x: int): (r: int)
    ensures IsInt32(r)
    ensures (r - x) % 0x1_0000_0000 == 0
  {
    (x - IntMin) % 0x1_0000_0000 + IntMin
  }

  lemma Wrap32OfInt32(x: int)
    requires IsInt32(x)
    ensures Wrap32(x) == x
  {
  }

  /** The number of tiles the montage bounds declare, counted without overflow. */
  function TileCount(startX: int, startY: int, endX: int, endY: int): int {
    (endX - startX + 1) * (endY - startY + 1)
  }

  /**
   * The same count as `checkComplete` computes it, in 32-bit `int`s: the
   * column count, the row count and their product each wrap.
   */
  function TileCountAsWritten(startX: int, startY: int, endX: int, endY: int): (n: int)
    ensures IsInt32(n)
  {
    var numCols := Wrap32(endX - startX + 1);
    var numRows := Wrap32(endY - startY + 1);
    Wrap32(numCols * numRows)
  }

  /** Where no step leaves the `int` range, the 32-bit count is the true count. */
  lemma TileCountAsWrittenInRange(startX: int, startY: int, endX: int, endY: int)
    requires IsInt32(endX - startX + 1) && IsInt32(endY - startY + 1)
    requires IsInt32(TileCount(startX, startY, endX, endY))
    ensures TileCountAsWritten(startX, startY, endX, endY) == TileCount(startX, startY, endX, endY)
  {
    Wrap32OfInt32(endX - startX + 1);
    Wrap32OfInt32(endY - startY + 1);
    Wrap32OfInt32(TileCount(startX, startY, endX, endY));
  }

  /**
   * A 65536 by 65536 montage declares 2^32 tiles, which the 32-bit product
   * turns into 0: an empty tile list is then not "less than" the declared
   * count and the tile check passes.
   */
  lemma WrappedTileCountAcceptsEmptyList()
    ensures TileCount(0, 0, 65535, 65535) == 0x1_0000_0000
    ensures TileCountAsWritten(0, 0, 65535, 65535) == 0
    ensures !(0 < TileCountAsWritten(0, 0, 65535, 65535))
  {
    assert Wrap32(65536) == 65536;
    assert Wrap32(65536 * 65536) == 0;
  }

  /** A montage whose bounds are in order declares at least one tile, one per (column, row) pair. */
  lemma TileCountOfOrderedBounds(startX: int, startY: int, endX: int, endY: int)
    requires startX <= endX && startY <= endY
    ensures TileCount(startX, startY, endX, endY) >= 1
    ensures TileCount(startX, startY, endX, endY) == (endX - startX + 1) * (endY - startY + 1)
  {
    var cols, rows := endX - startX + 1, endY - startY + 1;
    assert cols * rows >= 1 * rows by {
      assert cols * rows - rows == (cols - 1) * rows;
    }
  }

  /**
   * `checkComplete`'s result: no line edit blocks, an enabled tile list is
   * complete, and the list holds at least the declared number of tiles.
   */
  function Complete(edits: seq<LineEdit>, listEnabled: bool, listComplete: bool, selectedTiles: int,
                    declaredTiles: int): (result: bool)
    ensures result ==> forall i :: 0 <= i < |edits| ==> !EnabledEmpty(edits[i])
    ensures result ==> selectedTiles >= declaredTiles
  {
    AnyBlockingMeans(edits);
    !AnyBlocking(edits) && !(listEnabled && !listComplete) && !(selectedTiles < declaredTiles)
  }

  /** Filling every enabled field, completing an enabled list and selecting enough tiles completes the dialog. */
  lemma FilledDialogIsComplete(edits: seq<LineEdit>, listEnabled: bool, listComplete: bool, selectedTiles: int,
                               declaredTiles: int)
    requires forall i :: 0 <= i < |edits| ==> edits[i].text != [] || !edits[i].enabled
    requires listEnabled ==> listComplete
    requires selectedTiles >= declaredTiles
    ensures Complete(edits, listEnabled, listComplete, selectedTiles, declaredTiles)
  {
    AnyBlockingMeans(edits);
  }

  /**
   * With the tile count kept unbounded, an empty tile list is refused for
   * every montage whose bounds are in order, however large, the 65536 by
   * 65536 one included.
   */
  lemma CorrectedCountRefusesEmptyList(edits: seq<LineEdit>, listEnabled: bool, listComplete: bool,
                                       startX: int, startY: int, endX: int, endY: int)
    requires startX <= endX && startY <= endY
    ensures !Complete(edits, listEnabled, listComplete, 0, TileCount(startX, startY, endX, endY))
  {
    TileCountOfOrderedBounds(startX, startY, endX, endY);
  }

  /** The error label's text when the list holds too few tiles. */
  const TooFewTilesHead: string := "The number of tiles in the tile list ("
  const TooFewTilesMiddle: string := ") is less than the number of tiles declared in the montage ("
  const TooFewTilesTail: string := ").\nPlease update the tile list as well as the 'Montage Start' and 'Montage End' fields."

  function TooFewTilesMessage(selectedTiles: int, declaredTiles: int): string {
    TooFewTilesHead + Number(selectedTiles) + TooFewTilesMiddle + Number(declaredTiles) + TooFewTilesTail
  }

  /** The montage name the dialog starts with. */
  const DefaultMontageName: string := "Untitled Montage"

  /** An integer vector of three components (`IntVec3Type`). */
  datatype IntVec3 = IntVec3(x: int, y: int, z: int)

  class ImportZeissMontageDialog {
    var montageName: LineEdit
    var colorWeightingR: LineEdit
    var colorWeightingG: LineEdit
    var colorWeightingB: LineEdit
    var originX: LineEdit
    var originY: LineEdit
    var originZ: LineEdit
    var spacingX: LineEdit
    var spacingY: LineEdit
    var spacingZ: LineEdit
    var montageStartX: LineEdit
    var montageStartY: LineEdit
    var montageEndX: LineEdit
    var montageEndY: LineEdit
    /** The tile-list widget: enabled, complete, and the number of tiles it holds. */
    var listEnabled: bool
    var listComplete: bool
    var selectedTiles: int
    var okEnabled: bool
    var errVisible: bool
    var errText: string

    /** The line edits `checkComplete` looks at, in its order. */
    function LineEdits(): (edits: seq<LineEdit>)
      reads this`montageName, this`colorWeightingR, this`colorWeightingG, this`colorWeightingB,
               this`originX, this`originY, this`originZ, this`spacingX, this`spacingY, this`spacingZ,
               this`montageStartX, this`montageStartY, this`montageEndX, this`montageEndY
      ensures |edits| == 14
    {
      [montageName, colorWeightingR, colorWeightingG, colorWeightingB, originX, originY, originZ,
       spacingX, spacingY, spacingZ, montageStartX, montageStartY, montageEndX, montageEndY]
    }

    /** The tiles the montage bounds declare, with each bound read by `toInt`. */
    function DeclaredTiles(): int
      reads this`montageStartX, this`montageStartY, this`montageEndX, this`montageEndY
    {
      TileCount(ToInt(montageStartX.text), ToInt(montageStartY.text), ToInt(montageEndX.text), ToInt(montageEndY.text))
    }

    function IsComplete(): bool
      reads this`montageName, this`colorWeightingR, this`colorWeightingG, this`colorWeightingB,
               this`originX, this`originY, this`originZ, this`spacingX, this`spacingY, this`spacingZ,
               this`montageStartX, this`montageStartY, this`montageEndX, this`montageEndY,
            this`listEnabled, this`listComplete, this`selectedTiles
    {
      Complete(LineEdits(), listEnabled, listComplete, selectedTiles, DeclaredTiles())
    }

    /** The error label's text after a check: the too-few-tiles message when the list is short, `previous` otherwise. */
    function ErrorText(previous: string): string
      reads this`montageStartX, this`montageStartY, this`montageEndX, this`montageEndY, this`selectedTiles
    {
      if selectedTiles < DeclaredTiles() then TooFewTilesMessage(selectedTiles, DeclaredTiles()) else previous
    }

    /**
     * `checkComplete`: the OK button is enabled and the error label hidden
     * exactly when the dialog is complete; the label's text changes only
     * when the list holds too few tiles.
     */
    method CheckComplete()
      modifies this`okEnabled, this`errVisible, this`errText
      ensures okEnabled == old(IsComplete()) && errVisible == !old(IsComplete())
      ensures errText == old(ErrorText(errText))
    {
      var result := !AnyBlocking(LineEdits()) && !(listEnabled && !listComplete);
      var montageStartX := ToInt(this.montageStartX.text);
      var montageStartY := ToInt(this.montageStartY.text);
      var montageEndX := ToInt(this.montageEndX.text);
      var montageEndY := ToInt(this.montageEndY.text);
      var numberOfMontageTiles := TileCount(montageStartX, montageStartY, montageEndX, montageEndY);
      assert numberOfMontageTiles == DeclaredTiles();
      assert result && !(selectedTiles < numberOfMontageTiles) <==> IsComplete();
      if selectedTiles < numberOfMontageTiles {
        errText := TooFewTilesMessage(selectedTiles, numberOfMontageTiles);
        result := false;
      }
      okEnabled, errVisible := result, !result;
    }

    /** `setupGui`, as far as the model goes: the montage name starts as "Untitled Montage", then completeness is checked. */
    method SetupGui()
      modifies this`montageName, this`okEnabled, this`errVisible, this`errText
      ensures montageName == LineEdit(DefaultMontageName, old(montageName.enabled))
      ensures okEnabled == IsComplete() && errVisible == !IsComplete()
      ensures errText == old(ErrorText(errText))
    {
      montageName := montageName.(text := DefaultMontageName);
      ghost var complete := IsComplete();
      CheckComplete();
      assert okEnabled == complete;
    }

    /**
     * `convertGrayscale_stateChanged`: the weights are enabled only when the
     * box is checked; unchecking it also restores the default weights.
     */
    method ConvertGrayscaleStateChanged(state: CheckState)
      modifies this`colorWeightingR, this`colorWeightingG, this`colorWeightingB
      ensures colorWeightingR.enabled == colorWeightingG.enabled == colorWeightingB.enabled == (state == Checked)
      ensures state == Unchecked ==>
        colorWeightingR.text == "0.2125" && colorWeightingG.text == "0.7154" && colorWeightingB.text == "0.0721"
      ensures state != Unchecked ==>
        colorWeightingR.text == old(colorWeightingR.text) && colorWeightingG.text == old(colorWeightingG.text) &&
        colorWeightingB.text == old(colorWeightingB.text)
    {
      colorWeightingR := colorWeightingR.(enabled := state == Checked);
      colorWeightingG := colorWeightingG.(enabled := state == Checked);
      colorWeightingB := colorWeightingB.(enabled := state == Checked);
      if state == Unchecked {
        colorWeightingR := colorWeightingR.(text := "0.2125");
        colorWeightingG := colorWeightingG.(text := "0.7154");
        colorWeightingB := colorWeightingB.(text := "0.0721");
      }
    }

    /** `changeOrigin_stateChanged`: as for the weights, with the default origin 0, 0, 0. */
    method ChangeOriginStateChanged(state: CheckState)
      modifies this`originX, this`originY, this`originZ
      ensures originX.enabled == originY.enabled == originZ.enabled == (state == Checked)
      ensures state == Unchecked ==> originX.text == "0" && originY.text == "0" && originZ.text == "0"
      ensures state != Unchecked ==>
        originX.text == old(originX.text) && originY.text == old(originY.text) && originZ.text == old(originZ.text)
    {
      originX := originX.(enabled := state == Checked);
      originY := originY.(enabled := state == Checked);
      originZ := originZ.(enabled := state == Checked);
      if state == Unchecked {
        originX := originX.(text := "0");
        originY := originY.(text := "0");
        originZ := originZ.(text := "0");
      }
    }

    /** `changeSpacing_stateChanged`: as for the weights, with the default spacing 1, 1, 1. */
    method ChangeSpacingStateChanged(state: CheckState)
      modifies this`spacingX, this`spacingY, this`spacingZ
      ensures spacingX.enabled == spacingY.enabled == spacingZ.enabled == (state == Checked)
      ensures state == Unchecked ==> spacingX.text == "1" && spacingY.text == "1" && spacingZ.text == "1"
      ensures state != Unchecked ==>
        spacingX.text == old(spacingX.text) && spacingY.text == old(spacingY.text) && spacingZ.text == old(spacingZ.text)
    {
      spacingX := spacingX.(enabled := state == Checked);
      spacingY := spacingY.(enabled := state == Checked);
      spacingZ := spacingZ.(enabled := state == Checked);
      if state == Unchecked {
        spacingX := spacingX.(text := "1");
        spacingY := spacingY.(text := "1");
        spacingZ := spacingZ.(text := "1");
      }
    }

    /**
     * `getMontageStart`: the start bounds with z fixed at 1. The texts are
     * read as floats and converted to `int`; that conversion is `textToInt`.
     */
    function GetMontageStart(textToInt: string -> int): (v: IntVec3)
      reads this`montageStartX, this`montageStartY
      ensures v.z == 1 && v.x == textToInt(montageStartX.text) && v.y == textToInt(montageStartY.text)
    {
      IntVec3(textToInt(montageStartX.text), textToInt(montageStartY.text), 1)
    }

    /** `getMontageEnd`: the end bounds with z fixed at 1, read as `getMontageStart` reads the start. */
    function GetMontageEnd(textToInt: string -> int): (v: IntVec3)
      reads this`montageEndX, this`montageEndY
      ensures v.z == 1 && v.x == textToInt(montageEndX.text) && v.y == textToInt(montageEndY.text)
    {
      IntVec3(textToInt(montageEndX.text), textToInt(montageEndY.text), 1)
    }
  }

  /**
   * Unchecking a box never leaves the dialog blocked by the fields it
   * switches off: they are disabled and hold their defaults.
   */
  method UncheckedFieldsDoNotBlock(d: ImportZeissMontageDialog)
    modifies d
    ensures !EnabledEmpty(d.colorWeightingR) && !EnabledEmpty(d.originY) && !EnabledEmpty(d.spacingZ)
    ensures d.colorWeightingR.text == "0.2125" && d.originY.text == "0" && d.spacingZ.text == "1"
  {
    d.ConvertGrayscaleStateChanged(Unchecked);
    d.ChangeOriginStateChanged(Unchecked);
    d.ChangeSpacingStateChanged(Unchecked);
  }
}
