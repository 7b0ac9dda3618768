/**
 * The SIMPL/VTK bridge as seen by the import pipeline: data containers go in,
 * wrapped containers (a name and a VTK data set) come out. What wrapping and
 * finishing do inside is not modelled; the pipeline receives their results as
 * a `BridgeBehaviour` value.
 */
module Bridge {
  import opened Wrappers

  /** An opaque VTK data set (a `vtkDataSet` smart pointer). */
  type DataSetHandle = nat

  /** A SIMPL data container as handed to the importer: its name and an opaque payload. */
  datatype DataContainer = DataContainer(name: string, payload: nat)

  /** `SIMPLVtkBridge::WrappedDataContainer`: the container's name and the data set made from it. */
  datatype WrappedDc = WrappedDc(name: string, dataSet: DataSetHandle)

  /**
   * The bridge's behaviour on the containers of a run: the containers whose
   * geometry it can wrap, with what it makes of them (any other container
   * wraps to null), and the data set finishing each wrapped container yields
   * (one it was not given keeps the data set it has).
   */
  datatype BridgeBehaviour = BridgeBehaviour(wrappable: map<DataContainer, WrappedDc>, finished: map<WrappedDc, DataSetHandle>)

  /** `SIMPLVtkBridge::WrapGeometryPtr`: null for a container without a usable geometry. */
  function Wrap(b: BridgeBehaviour, dc: DataContainer): (w: Option<WrappedDc>)
    ensures w.Some? <==> dc in b.wrappable
    ensures w.Some? ==> w.value == b.wrappable[dc]
  {
    if dc in b.wrappable then Some(b.wrappable[dc]) else None
  }

  /** `SIMPLVtkBridge::FinishWrappingDataContainerStruct`: the data set a wrapped container ends up with. */
  function Finish(b: BridgeBehaviour, w: WrappedDc): DataSetHandle {
    if w in b.finished then b.finished[w] else w.dataSet
  }
}
