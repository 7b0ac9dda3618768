/**
 * Output types of visual filters (`VSAbstractFilter::dataType_t`), the
 * compatibility rule between a filter's output and a child's required input,
 * and the component names offered for a data array.
 */
module FilterTypes {
  import opened Wrappers
  import QtText

  /** `dataType_t` as used by VSAbstractFilter.cpp. */
  datatype DataType =
    | ImageData
    | StructuredGrid
    | RectilinearGrid
    | PointData
    | UnstructuredGrid
    | PolyData
    | AnyDataSet
    | InvalidData

  /** The VTK data-object type reported by `GetDataObjectType()`. */
  datatype VtkObjectType =
    | VtkImageData
    | VtkStructuredGrid
    | VtkRectilinearGrid
    | VtkStructuredPoints
    | VtkUnstructuredGrid
    | VtkUnstructuredGridBase
    | VtkPolyData
    | VtkOtherType(code: int)

  /** `getOutputType`: the data type of a filter whose output has VTK type `t`. */
  function OutputType(t: VtkObjectType): DataType {
    match t
    case VtkImageData => ImageData
    case VtkStructuredGrid => StructuredGrid
    case VtkRectilinearGrid => RectilinearGrid
    case VtkStructuredPoints => PointData
    case VtkUnstructuredGrid => UnstructuredGrid
    case VtkUnstructuredGridBase => UnstructuredGrid
    case VtkPolyData => PolyData
    case VtkOtherType(_) => InvalidData
  }

  /** `compatibleInput`: may output of type `input` feed a filter that requires `required`? */
  function CompatibleInput(input: DataType, required: DataType): (ok: bool)
    ensures ok <==> input != InvalidData && (required == AnyDataSet || required == input)
  {
    if input == InvalidData then false
    else if required == AnyDataSet then true
    else required == input
  }

  /**
   * Only unlisted VTK types are invalid, and no VTK type maps to the wildcard;
   * so a filter accepting any data set accepts exactly the listed types.
   */
  lemma OutputTypeClassification(t: VtkObjectType)
    ensures OutputType(t) == InvalidData <==> t.VtkOtherType?
    ensures OutputType(t) != AnyDataSet
    ensures CompatibleInput(OutputType(t), AnyDataSet) <==> !t.VtkOtherType?
    ensures CompatibleInput(OutputType(t), OutputType(t)) <==> !t.VtkOtherType?
  {
  }

  /** What `getComponentList` reads from a `vtkAbstractArray`. */
  datatype ArrayInfo = ArrayInfo(isUnsignedCharArray: bool, isFloatArray: bool, components: int)

  /** "Comp 1" .. "Comp n". */
  function CompName(i: nat): string {
    "Comp " + QtText.Number(i + 1)
  }

  /** The numbered names of the components of an `n`-component array: "Comp 1" .. "Comp n". */
  method NumberedNames(n: int) returns (names: seq<string>)
    ensures |names| == (if n < 0 then 0 else n)
    ensures forall k :: 0 <= k < |names| ==> names[k] == CompName(k)
  {
    names := [];
    var i := 0;
    while i < n
      invariant 0 <= i && (n >= 0 ==> i <= n) && (n < 0 ==> i == 0)
      invariant |names| == i
      invariant forall k :: 0 <= k < i ==> names[k] == CompName(k)
    {
      names := names + [CompName(i)];
      i := i + 1;
    }
  }

  /**
   * `getComponentList(vtkAbstractArray*)`: RGB names for 3-component unsigned-char
   * arrays, XYZ for 3-component float arrays, numbered names otherwise, with
   * "Magnitude" in front when there is more than one component; nothing for null.
   */
  method ComponentList(arr: Option<ArrayInfo>) returns (names: seq<string>)
    ensures arr.None? ==> names == []
    ensures arr.Some? ==>
      var a := arr.value;
      var n := a.components;
      var named := if a.isUnsignedCharArray && n == 3 then ["R", "G", "B"]
                   else if a.isFloatArray && n == 3 then ["X", "Y", "Z"]
                   else seq(if n < 0 then 0 else n, i requires 0 <= i => CompName(i));
      names == (if n > 1 then ["Magnitude"] else []) + named
  {
    names := [];
    if arr.Some? {
      var a := arr.value;
      var n := a.components;
      if a.isUnsignedCharArray && n == 3 {
        names := names + ["R"];
        names := names + ["G"];
        names := names + ["B"];
      } else if a.isFloatArray && n == 3 {
        names := names + ["X"];
        names := names + ["Y"];
        names := names + ["Z"];
      } else {
        names := NumberedNames(n);
      }
      if n > 1 {
        names := ["Magnitude"] + names;
      }
    }
  }
}
