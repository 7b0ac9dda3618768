/**
 * `VSSIMPLDataContainerFilter`: the visual filter that shows one SIMPL data
 * container. Its state lives in its `FilterTree.FilterRecord` (wrapped
 * container, apply-guard permits, producer output); this module holds the
 * constructor's initial record, the non-reentrant `apply`, the selection that
 * `Create` writes into the file's structure proxy before reading it, the JSON
 * keys written by `writeJson` and read back by `Create`, and the parent rule.
 */
module DataContainerFilter {
  import opened Wrappers
  import opened Bridge
  import opened FilterTree

  /** `GetUuid()`: the class identifier written into saved sessions. */
  const Uuid: string := "{d1c86a47-85b5-55bd-bcdb-0bdb6c5cf020}"

  const NameKey: string := "Data Container Name"
  const ToolTipKey: string := "Tooltip"
  const UuidKey: string := "Uuid"
  const CheckStateKey: string := "CheckState"
  const TransformKey: string := "Transform"

  /**
   * A JSON value as far as a saved filter needs one: a string, a whole
   * number, or the transform object (whose three arrays of floating-point
   * values are not modelled).
   */
  datatype JsonValue = JText(text: string) | JNumber(number: int) | JTransform

  type Json = map<string, JsonValue>

  /** `json[key].toString()`: a missing key, or one whose value is not a string, reads as the empty string. */
  function JsonString(json: Json, key: string): (s: string)
    ensures key in json && json[key].JText? ==> s == json[key].text
    ensures !(key in json && json[key].JText?) ==> s == ""
  {
    if key in json && json[key].JText? then json[key].text else ""
  }

  /** The integer a `Qt::CheckState` is stored as. */
  function CheckStateNumber(c: CheckState): int {
    match c
    case Unchecked => 0
    case PartiallyChecked => 1
    case Checked => 2
  }

  // ---------------------------------------------------------------------------
  // Construction, output and parent rule

  /**
   * The record the constructor builds: text and tool tip are the container's
   * name, the apply guard holds one permit, and `createFilter` points the
   * trivial producer at the container's data set. `setParentFilter` then
   * attaches it (see `FilterStore.NewFilter`).
   */
  function InitialRecord(wrapped: WrappedDc, parent: Option<FilterId>): (r: FilterRecord)
    ensures r.kind == DataContainerFilter && r.rows == [] && r.parent == parent
    ensures r.wrapped == Some(wrapped) && r.applyPermits == 1
    ensures FilterName(r) == r.text == r.toolTip == wrapped.name
    ensures r.output == Some(wrapped.dataSet)
  {
    FilterRecord(DataContainerFilter, wrapped.name, wrapped.name, parent, [], Some(wrapped), 1, Some(wrapped.dataSet))
  }

  /** `getOutput`: the wrapped container's data set, or null when there is no container. */
  function GetOutput(wrapped: Option<WrappedDc>): (out: Option<DataSetHandle>)
    ensures out.None? <==> wrapped.None?
    ensures out.Some? ==> out.value == wrapped.value.dataSet
  {
    match wrapped
    case None => None
    case Some(w) => Some(w.dataSet)
  }

  /** `compatibleWithParent`: only a file-name filter may parent a data-container filter. */
  function CompatibleWithParent(nodes: seq<FilterRecord>, parent: Option<FilterId>): (ok: bool)
    requires parent.Some? ==> parent.value < |nodes|
    ensures parent.None? ==> !ok
    ensures parent.Some? ==> (ok <==> nodes[parent.value].kind == FileNameFilter)
  {
    match parent
    case None => false
    case Some(p) => nodes[p].kind == FileNameFilter
  }

  /** The record once `apply` has finished wrapping its container and rebound the producer to it. */
  function FinishedRecord(r: FilterRecord, bridge: BridgeBehaviour): (r': FilterRecord)
    requires r.wrapped.Some?
    ensures r'.wrapped.Some? && r'.wrapped.value.name == r.wrapped.value.name
    ensures r'.output == GetOutput(r'.wrapped) == Some(Finish(bridge, r.wrapped.value))
    ensures r'.kind == r.kind && r'.rows == r.rows && r'.parent == r.parent && r'.applyPermits == r.applyPermits
    ensures r'.text == r.text && r'.toolTip == r.toolTip
  {
    var w := r.wrapped.value.(dataSet := Finish(bridge, r.wrapped.value));
    r.(wrapped := Some(w), output := Some(w.dataSet))
  }

  /**
   * `apply`: when the guard's permit is free, finish wrapping the container,
   * point the producer at the finished data set, give the permit back and
   * report `dataImported`; when it is taken, do nothing.
   */
  method Apply(store: FilterStore, id: FilterId, bridge: BridgeBehaviour) returns (imported: bool)
    requires store.Valid() && id < |store.nodes| && store.nodes[id].kind == DataContainerFilter
    modifies store
    ensures store.Valid()
    ensures imported <==> old(store.nodes[id].applyPermits) >= 1
    ensures !imported ==> store.nodes == old(store.nodes)
    ensures imported ==> store.nodes == old(store.nodes)[id := FinishedRecord(old(store.nodes[id]), bridge)]
  {
    var r := store.nodes[id];
    if r.applyPermits >= 1 {
      // tryAcquire
      r := r.(applyPermits := r.applyPermits - 1);
      var w := r.wrapped.value.(dataSet := Finish(bridge, r.wrapped.value));
      r := r.(wrapped := Some(w), output := Some(w.dataSet));
      // release
      r := r.(applyPermits := r.applyPermits + 1);
      store.nodes := store.nodes[id := r];
      imported := true;
    } else {
      imported := false;
    }
  }

  // ---------------------------------------------------------------------------
  // Saved sessions

  /**
   * `writeJson`: the base class writes the item's check state `check` and the
   * transform object, then this class writes its name, tool tip and class
   * identifier; every other key is kept.
   */
  function WriteJson(json: Json, r: FilterRecord, check: CheckState): (out: Json)
    ensures out.Keys == json.Keys + {CheckStateKey, TransformKey, NameKey, ToolTipKey, UuidKey}
    ensures out[CheckStateKey] == JNumber(CheckStateNumber(check)) && out[TransformKey] == JTransform
    ensures out[NameKey] == JText(r.text) && out[ToolTipKey] == JText(r.toolTip) && out[UuidKey] == JText(Uuid)
    ensures forall k :: k in json && k !in {CheckStateKey, TransformKey, NameKey, ToolTipKey, UuidKey} ==> out[k] == json[k]
  {
    var base := json[CheckStateKey := JNumber(CheckStateNumber(check))][TransformKey := JTransform];
    base[NameKey := JText(r.text)][ToolTipKey := JText(r.toolTip)][UuidKey := JText(Uuid)]
  }

  // ---------------------------------------------------------------------------
  // The structure proxy `Create` rewrites

  datatype CheckState = Unchecked | PartiallyChecked | Checked

  /** `AttributeMatrix::Type`. */
  datatype AmType =
    | Vertex | Edge | Face | Cell
    | VertexFeature | EdgeFeature | FaceFeature | CellFeature
    | VertexEnsemble | EdgeEnsemble | FaceEnsemble | CellEnsemble
    | MetaData | Generic | Unknown

  datatype DataArrayProxy = DataArrayProxy(name: string, flag: CheckState)

  datatype AttributeMatrixProxy = AttributeMatrixProxy(
    name: string, flag: CheckState, amType: AmType, dataArrays: map<string, DataArrayProxy>)

  datatype DataContainerProxy = DataContainerProxy(
    name: string, flag: CheckState, attributeMatricies: map<string, AttributeMatrixProxy>)

  datatype DataContainerArrayProxy = DataContainerArrayProxy(dataContainers: map<string, DataContainerProxy>)

  /** Every entry of a proxy map is stored under its own name, as the file reader builds them. */
  predicate ArraysKeyed(m: map<string, DataArrayProxy>) {
    forall k :: k in m ==> m[k].name == k
  }

  predicate MatricesKeyed(m: map<string, AttributeMatrixProxy>) {
    forall k :: k in m ==> m[k].name == k && ArraysKeyed(m[k].dataArrays)
  }

  predicate ProxyKeyed(p: DataContainerArrayProxy) {
    forall k :: k in p.dataContainers ==>
      p.dataContainers[k].name == k && MatricesKeyed(p.dataContainers[k].attributeMatricies)
  }

  /** `after` is `before` with every data array checked. */
  predicate AllArraysChecked(before: map<string, DataArrayProxy>, after: map<string, DataArrayProxy>) {
    after.Keys == before.Keys &&
    forall k :: k in after ==> after[k] == before[k].(flag := Checked)
  }

  /** `after` is `before` selected for loading: checked when of Cell type, all its arrays checked. */
  predicate MatrixSelected(before: AttributeMatrixProxy, after: AttributeMatrixProxy) {
    after.name == before.name && after.amType == before.amType &&
    after.flag == (if before.amType == Cell then Checked else before.flag) &&
    AllArraysChecked(before.dataArrays, after.dataArrays)
  }

  /** `after` is `before` selected for loading: the container and all its matrices. */
  predicate ContainerSelected(before: DataContainerProxy, after: DataContainerProxy) {
    after.name == before.name && after.flag == Checked &&
    after.attributeMatricies.Keys == before.attributeMatricies.Keys &&
    forall k :: k in after.attributeMatricies ==>
      MatrixSelected(before.attributeMatricies[k], after.attributeMatricies[k])
  }

  /** Only the container `dcName` is selected; every other container is left as it was. */
  predicate OnlyContainerSelected(before: DataContainerArrayProxy, after: DataContainerArrayProxy, dcName: string) {
    after.dataContainers.Keys == before.dataContainers.Keys &&
    (forall k :: k in after.dataContainers && k != dcName ==>
       after.dataContainers[k] == before.dataContainers[k]) &&
    (dcName in before.dataContainers ==>
       ContainerSelected(before.dataContainers[dcName], after.dataContainers[dcName]))
  }

  /** The data-array loop of `Create`: each array is checked and stored back under its name. */
  method CheckArrays(arrays: map<string, DataArrayProxy>) returns (result: map<string, DataArrayProxy>)
    requires ArraysKeyed(arrays)
    ensures AllArraysChecked(arrays, result) && ArraysKeyed(result)
  {
    result := arrays;
    var todo := arrays.Keys;
    while todo != {}
      invariant todo <= arrays.Keys && result.Keys == arrays.Keys
      invariant forall k :: k in todo ==> result[k] == arrays[k]
      invariant forall k :: k in result && k !in todo ==> result[k] == arrays[k].(flag := Checked)
      decreases todo
    {
      var k :| k in todo;
      var daProxy := result[k];
      daProxy := daProxy.(flag := Checked);
      result := result[daProxy.name := daProxy];
      todo := todo - {k};
    }
  }

  /** The container part of `Create`'s rewrite: check the container, its Cell matrices and all arrays. */
  method SelectContainer(dc: DataContainerProxy) returns (result: DataContainerProxy)
    requires MatricesKeyed(dc.attributeMatricies)
    ensures ContainerSelected(dc, result)
    ensures MatricesKeyed(result.attributeMatricies) && result.name == dc.name
  {
    result := dc.(flag := Checked);
    var todo := dc.attributeMatricies.Keys;
    while todo != {}
      invariant todo <= dc.attributeMatricies.Keys
      invariant result.name == dc.name && result.flag == Checked
      invariant result.attributeMatricies.Keys == dc.attributeMatricies.Keys
      invariant forall k :: k in todo ==> result.attributeMatricies[k] == dc.attributeMatricies[k]
      invariant forall k :: k in result.attributeMatricies && k !in todo ==>
        MatrixSelected(dc.attributeMatricies[k], result.attributeMatricies[k]) &&
        ArraysKeyed(result.attributeMatricies[k].dataArrays)
      decreases todo
    {
      var k :| k in todo;
      var amProxy := result.attributeMatricies[k];
      if amProxy.amType == Cell {
        amProxy := amProxy.(flag := Checked);
      }
      var arrays := CheckArrays(amProxy.dataArrays);
      amProxy := amProxy.(dataArrays := arrays);
      result := result.(attributeMatricies := result.attributeMatricies[amProxy.name := amProxy]);
      todo := todo - {k};
    }
  }

  /**
   * `Create`: read the container named in the saved JSON from the file and
   * build a filter for it under `parent`. `fileOpens` is whether the reader
   * opened the file, `structure` the proxy it read, `readUsing` the containers
   * it then reads for a proxy, and `wrapStruct` the bridge's wrapping.
   * `requested` is the proxy handed to the reader, when it was asked at all.
   */
  method Create(store: FilterStore, json: Json, fileOpens: bool, structure: DataContainerArrayProxy,
                readUsing: DataContainerArrayProxy -> map<string, DataContainer>,
                wrapStruct: DataContainer -> WrappedDc, parent: Option<FilterId>)
    returns (created: Option<FilterId>, requested: Option<DataContainerArrayProxy>)
    requires store.Valid() && ProxyKeyed(structure)
    requires parent.Some? ==> parent.value < |store.nodes|
    modifies store
    ensures store.Valid()
    ensures var dcName := JsonString(json, NameKey);
      requested.Some? <==> fileOpens && dcName in structure.dataContainers
    ensures requested.Some? ==> OnlyContainerSelected(structure, requested.value, JsonString(json, NameKey))
    ensures created.Some? <==> requested.Some? && JsonString(json, NameKey) in readUsing(requested.value)
    ensures created.None? ==> store.nodes == old(store.nodes)
    ensures created.Some? ==>
      var r := InitialRecord(wrapStruct(readUsing(requested.value)[JsonString(json, NameKey)]), parent)
               .(toolTip := JsonString(json, ToolTipKey));
      created.value == old(|store.nodes|) &&
      (parent.None? ==> store.nodes == old(store.nodes) + [r]) &&
      (parent.Some? ==> store.nodes == WithNewChild(old(store.nodes), parent.value, r))
  {
    created, requested := None, None;
    var dcName := JsonString(json, NameKey);
    if !fileOpens || dcName !in structure.dataContainers {
      return;
    }
    var dcProxy := SelectContainer(structure.dataContainers[dcName]);
    var proxy := structure.(dataContainers := structure.dataContainers[dcProxy.name := dcProxy]);
    requested := Some(proxy);
    var dca := readUsing(proxy);
    if dcName in dca {
      var wrappedDc := wrapStruct(dca[dcName]);
      var id := store.NewFilter(InitialRecord(wrappedDc, parent));
      var r := store.nodes[id].(toolTip := JsonString(json, ToolTipKey));
      store.nodes := store.nodes[id := r];
      created := Some(id);
    }
  }

  /**
   * A saved filter reads back under its own name and tool tip: the keys
   * `Create` reads from what `writeJson` wrote are the record's text and tool
   * tip, whatever the JSON held before.
   */
  lemma WriteThenCreateKeys(json: Json, r: FilterRecord, check: CheckState)
    ensures JsonString(WriteJson(json, r, check), NameKey) == r.text
    ensures JsonString(WriteJson(json, r, check), ToolTipKey) == r.toolTip
  {
  }

  /**
   * Saving a data-container filter and creating it again from the same file
   * rebuilds the same text, tool tip and parent, and wraps the container that
   * carries the filter's name.
   */
  lemma RoundTripRecord(json: Json, w: WrappedDc, parent: Option<FilterId>, toolTip: string, check: CheckState,
                        w': WrappedDc)
    requires w'.name == w.name
    ensures var saved := WriteJson(json, InitialRecord(w, parent).(toolTip := toolTip), check);
      var restored := InitialRecord(w', parent).(toolTip := JsonString(saved, ToolTipKey));
      restored.text == JsonString(saved, NameKey) == w.name &&
      restored.toolTip == toolTip && restored.parent == parent &&
      FilterName(restored) == FilterName(InitialRecord(w, parent))
  {
  }
}
