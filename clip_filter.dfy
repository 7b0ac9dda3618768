/**
 * `VSClipFilter`: clips its parent's output by a plane or by a box. It keeps
 * the parameters of the last clip applied (so the widgets can be reset to
 * them), creates its VTK clip algorithm on the first `apply`, and forwards its
 * parent's output until then.
 */
module ClipFilter {
  import opened Wrappers
  import opened FilterTypes

  /** An output port of some VTK algorithm; VTK itself is not part of this model. */
  type PortHandle = nat
  /** A VTK data set; likewise opaque. */
  type DataSetHandle = nat

  datatype ClipType = PlaneClip | BoxClip

  const PlaneClipTypeString: string := "Plane"
  const BoxClipTypeString: string := "Box"

  /** `getFilterName`. */
  const FilterName: string := "Clip"

  /**
   * The implicit function given to the clip algorithm. For a box it is the six
   * planes VTK builds from these parameters; only the parameters are kept.
   */
  datatype ClipFunction =
    | PlaneFunction(origin: seq<real>, normal: seq<real>)
    | BoxFunction(origin: seq<real>, scale: seq<real>, rotation: seq<real>)

  /** What the filter sets on its `vtkTableBasedClipDataSet`. */
  datatype ClipAlgorithm = ClipAlgorithm(input: PortHandle, clipFunction: Option<ClipFunction>, insideOut: bool)

  /** The parent filter's outputs at the time of the call. */
  datatype ParentOutputs = ParentOutputs(port: PortHandle, output: DataSetHandle)

  /** An answer of `getOutputPort`/`getOutput`: the clip algorithm's result, the parent's, or null. */
  datatype Output<T> = ClipResult | Forwarded(value: T) | Null

  /** A `double[3]` argument. */
  predicate IsTriple(v: seq<real>) {
    |v| == 3
  }

  /** `getOutputType` and `getRequiredInputType`. */
  const OutputDataType: DataType := UnstructuredGrid
  const RequiredInputType: DataType := AnyDataSet

  /** A clip filter accepts the output of any parent except an invalid one. */
  lemma ClipAcceptsAnyValidInput(parentType: DataType)
    ensures CompatibleInput(parentType, RequiredInputType) <==> parentType != InvalidData
    ensures CompatibleInput(OutputDataType, RequiredInputType)
  {
  }

  class ClipFilter {
    /** The parent filter (set by the constructor), or null. */
    var parent: Option<ParentOutputs>
    /** `m_ClipAlgorithm`: null until the first `apply`. */
    var clipAlgorithm: Option<ClipAlgorithm>
    /** `m_ConnectedInput`. */
    var connectedInput: bool
    var lastClipType: ClipType
    var lastPlaneInverted: bool
    var lastBoxInverted: bool
    const lastPlaneOrigin: array<real>
    const lastPlaneNormal: array<real>
    const lastBoxOrigin: array<real>
    const lastBoxScale: array<real>
    const lastBoxRotation: array<real>
    /** How many times `updatedOutputPort(this)` was emitted. */
    var outputUpdates: nat

    /** The five parameter arrays hold three values each and are distinct. */
    ghost predicate Valid()
      reads this
    {
      lastPlaneOrigin.Length == 3 && lastPlaneNormal.Length == 3 &&
      lastBoxOrigin.Length == 3 && lastBoxScale.Length == 3 && lastBoxRotation.Length == 3 &&
      lastPlaneOrigin != lastPlaneNormal &&
      lastBoxOrigin != lastBoxScale && lastBoxOrigin != lastBoxRotation && lastBoxScale != lastBoxRotation &&
      lastPlaneOrigin !in {lastBoxOrigin, lastBoxScale, lastBoxRotation} &&
      lastPlaneNormal !in {lastBoxOrigin, lastBoxScale, lastBoxRotation}
    }

    /** The box parameters, which a plane clip leaves alone. */
    ghost function BoxState(): (seq<real>, seq<real>, seq<real>, bool)
      reads this, lastBoxOrigin, lastBoxScale, lastBoxRotation
    {
      (lastBoxOrigin[..], lastBoxScale[..], lastBoxRotation[..], lastBoxInverted)
    }

    /** The plane parameters, which a box clip leaves alone. */
    ghost function PlaneState(): (seq<real>, seq<real>, bool)
      reads this, lastPlaneOrigin, lastPlaneNormal
    {
      (lastPlaneOrigin[..], lastPlaneNormal[..], lastPlaneInverted)
    }

    /**
     * The constructor: no algorithm yet; a plane through the origin with
     * normal +x, the unit box at the origin without rotation, nothing inverted.
     */
    constructor (parent: Option<ParentOutputs>)
      ensures Valid() && this.parent == parent && clipAlgorithm.None? && !connectedInput
      ensures lastPlaneOrigin[..] == [0.0, 0.0, 0.0] && lastPlaneNormal[..] == [1.0, 0.0, 0.0]
      ensures lastBoxOrigin[..] == [0.0, 0.0, 0.0] && lastBoxScale[..] == [1.0, 1.0, 1.0]
      ensures lastBoxRotation[..] == [0.0, 0.0, 0.0]
      ensures lastClipType == PlaneClip && !lastPlaneInverted && !lastBoxInverted && outputUpdates == 0
      ensures fresh(lastPlaneOrigin) && fresh(lastPlaneNormal) && fresh(lastBoxOrigin)
      ensures fresh(lastBoxScale) && fresh(lastBoxRotation)
    {
      this.parent := parent;
      clipAlgorithm := None;
      connectedInput := false;
      var planeOrigin := new real[3];
      var planeNormal := new real[3];
      var boxOrigin := new real[3];
      var boxScale := new real[3];
      var boxRotation := new real[3];
      for i := 0 to 3
        invariant forall k :: 0 <= k < i ==> planeOrigin[k] == 0.0 && planeNormal[k] == 0.0
        invariant forall k :: 0 <= k < i ==> boxOrigin[k] == 0.0 && boxScale[k] == 1.0 && boxRotation[k] == 0.0
      {
        planeOrigin[i] := 0.0;
        planeNormal[i] := 0.0;
        boxOrigin[i] := 0.0;
        boxScale[i] := 1.0;
        boxRotation[i] := 0.0;
      }
      planeNormal[0] := 1.0;
      lastPlaneOrigin := planeOrigin;
      lastPlaneNormal := planeNormal;
      lastBoxOrigin := boxOrigin;
      lastBoxScale := boxScale;
      lastBoxRotation := boxRotation;
      lastClipType := PlaneClip;
      lastPlaneInverted := false;
      lastBoxInverted := false;
      outputUpdates := 0;
    }

    /** `createFilter`: a new clip algorithm fed by the parent's output port; the input counts as connected. */
    method CreateFilter()
      requires parent.Some?
      modifies this`clipAlgorithm, this`connectedInput
      ensures clipAlgorithm == Some(ClipAlgorithm(parent.value.port, None, false)) && connectedInput
    {
      clipAlgorithm := Some(ClipAlgorithm(parent.value.port, None, false));
      connectedInput := true;
    }

    /**
     * The plane `apply`: create the algorithm if there is none (the parent is
     * dereferenced then), record a plane clip with these parameters, clip
     * with that plane and report the new output. The box parameters are kept.
     */
    method ApplyPlane(origin: seq<real>, normal: seq<real>, inverted: bool)
      requires Valid() && IsTriple(origin) && IsTriple(normal)
      requires clipAlgorithm.None? ==> parent.Some?
      modifies this`clipAlgorithm, this`connectedInput, this`lastClipType, this`lastPlaneInverted,
               this`outputUpdates, lastPlaneOrigin, lastPlaneNormal
      ensures Valid() && lastClipType == PlaneClip && lastPlaneInverted == inverted
      ensures lastPlaneOrigin[..] == origin && lastPlaneNormal[..] == normal
      ensures BoxState() == old(BoxState())
      ensures var input := if old(clipAlgorithm).Some? then old(clipAlgorithm).value.input else parent.value.port;
        clipAlgorithm == Some(ClipAlgorithm(input, Some(PlaneFunction(origin, normal)), inverted))
      ensures connectedInput == (old(clipAlgorithm).None? || old(connectedInput))
      ensures outputUpdates == old(outputUpdates) + 1
    {
      if clipAlgorithm.None? {
        CreateFilter();
      }
      lastClipType := PlaneClip;
      lastPlaneInverted := inverted;
      for i := 0 to 3
        modifies lastPlaneOrigin, lastPlaneNormal
        invariant forall k :: 0 <= k < i ==> lastPlaneOrigin[k] == origin[k] && lastPlaneNormal[k] == normal[k]
      {
        lastPlaneOrigin[i] := origin[i];
        lastPlaneNormal[i] := normal[i];
      }
      clipAlgorithm := Some(clipAlgorithm.value.(clipFunction := Some(PlaneFunction(origin, normal)), insideOut := inverted));
      outputUpdates := outputUpdates + 1;
    }

    /**
     * The box `apply`: create the algorithm if there is none, record a box
     * clip with these parameters, clip with that box and report the new
     * output. The plane parameters are kept.
     */
    method ApplyBox(origin: seq<real>, scale: seq<real>, rotation: seq<real>, inverted: bool)
      requires Valid() && IsTriple(origin) && IsTriple(scale) && IsTriple(rotation)
      requires clipAlgorithm.None? ==> parent.Some?
      modifies this`clipAlgorithm, this`connectedInput, this`lastClipType, this`lastBoxInverted,
               this`outputUpdates, lastBoxOrigin, lastBoxScale, lastBoxRotation
      ensures Valid() && lastClipType == BoxClip && lastBoxInverted == inverted
      ensures lastBoxOrigin[..] == origin && lastBoxScale[..] == scale && lastBoxRotation[..] == rotation
      ensures PlaneState() == old(PlaneState())
      ensures var input := if old(clipAlgorithm).Some? then old(clipAlgorithm).value.input else parent.value.port;
        clipAlgorithm == Some(ClipAlgorithm(input, Some(BoxFunction(origin, scale, rotation)), inverted))
      ensures connectedInput == (old(clipAlgorithm).None? || old(connectedInput))
      ensures outputUpdates == old(outputUpdates) + 1
    {
      if clipAlgorithm.None? {
        CreateFilter();
      }
      lastClipType := BoxClip;
      lastBoxInverted := inverted;
      for i := 0 to 3
        modifies lastBoxOrigin, lastBoxScale, lastBoxRotation
        invariant forall k :: 0 <= k < i ==>
          lastBoxOrigin[k] == origin[k] && lastBoxScale[k] == scale[k] && lastBoxRotation[k] == rotation[k]
      {
        lastBoxOrigin[i] := origin[i];
        lastBoxScale[i] := scale[i];
        lastBoxRotation[i] := rotation[i];
      }
      clipAlgorithm := Some(clipAlgorithm.value.(clipFunction := Some(BoxFunction(origin, scale, rotation)), insideOut := inverted));
      outputUpdates := outputUpdates + 1;
    }

    /** Which stage answers an output request, given the parent's answer. */
    function OutputFrom<T>(fromParent: Option<T>): (r: Output<T>)
      reads this
    {
      if connectedInput && clipAlgorithm.Some? then ClipResult
      else if fromParent.Some? then Forwarded(fromParent.value)
      else Null
    }

    /** `getOutputPort`. */
    function GetOutputPort(): (r: Output<PortHandle>)
      reads this
      ensures r == ClipResult <==> connectedInput && clipAlgorithm.Some?
      ensures r.Forwarded? <==> !(connectedInput && clipAlgorithm.Some?) && parent.Some?
      ensures r.Forwarded? ==> r.value == parent.value.port
    {
      OutputFrom(if parent.Some? then Some(parent.value.port) else None)
    }

    /** `getOutput`. */
    function GetOutput(): (r: Output<DataSetHandle>)
      reads this
      ensures r == ClipResult <==> connectedInput && clipAlgorithm.Some?
      ensures r.Forwarded? <==> !(connectedInput && clipAlgorithm.Some?) && parent.Some?
      ensures r.Forwarded? ==> r.value == parent.value.output
    {
      OutputFrom(if parent.Some? then Some(parent.value.output) else None)
    }

    /** `getLastClipTypeString`. */
    function GetLastClipTypeString(): (s: string)
      reads this
      ensures s == PlaneClipTypeString <==> lastClipType == PlaneClip
      ensures s == BoxClipTypeString <==> lastClipType == BoxClip
    {
      match lastClipType
      case PlaneClip => PlaneClipTypeString
      case BoxClip => BoxClipTypeString
    }
  }

  /**
   * A new clip filter forwards its parent's outputs (null without a parent);
   * after either `apply` it answers with its own clip result, and the last clip
   * type string names the overload that ran last.
   */
  method ClipLifecycle(parent: Option<ParentOutputs>, origin: seq<real>, normal: seq<real>, scale: seq<real>)
    returns (f: ClipFilter)
    requires parent.Some? && IsTriple(origin) && IsTriple(normal) && IsTriple(scale)
    ensures f.GetLastClipTypeString() == BoxClipTypeString && f.GetOutputPort() == ClipResult
    ensures f.lastPlaneOrigin[..] == origin && f.lastPlaneNormal[..] == normal && !f.lastPlaneInverted
  {
    f := new ClipFilter(parent);
    assert f.GetOutputPort() == Forwarded(parent.value.port) && f.GetOutput() == Forwarded(parent.value.output);
    f.ApplyPlane(origin, normal, false);
    assert f.GetLastClipTypeString() == PlaneClipTypeString && f.GetOutput() == ClipResult;
    f.ApplyBox(origin, scale, [0.0, 0.0, 0.0], true);
  }
}
