/**
 * The visual-filter tree (`VSAbstractFilter` and the rows of its
 * `QStandardItem`). Filters live in a store indexed by creation order; a
 * filter's parent is always older than the filter, and so is a filter than the
 * children in its rows, because a filter is attached to its parent when it is
 * constructed (`setParentFilter` calls `addChild`).
 */
module FilterTree {
  import opened Wrappers
  import opened Bridge

  /** A filter object's identity (its address in the source), in creation order. */
  type FilterId = nat

  /** The dynamic class of a filter. */
  datatype FilterKind =
    | FileNameFilter
    | DataContainerFilter
    | DataSetFilter
    | ClipFilter
    | CropFilter
    | SliceFilter
    | OtherFilter

  /** Is a filter of this class a `VSAbstractDataFilter`? */
  predicate IsDataFilter(k: FilterKind) {
    k == DataContainerFilter || k == DataSetFilter
  }

  /**
   * One filter object: the base-class state (item text and tool tip, parent,
   * child rows) and, for `VSSIMPLDataContainerFilter`, its wrapped container,
   * the permits of its apply guard and its producer's output.
   */
  datatype FilterRecord = FilterRecord(
    kind: FilterKind,
    text: string,
    toolTip: string,
    parent: Option<FilterId>,
    rows: seq<FilterId>,
    wrapped: Option<WrappedDc>,
    applyPermits: nat,
    output: Option<DataSetHandle>)

  /** Parents are older and children newer than a filter; data-container filters wrap something. */
  predicate WellFormed(nodes: seq<FilterRecord>) {
    forall id :: 0 <= id < |nodes| ==>
      (nodes[id].parent.Some? ==> nodes[id].parent.value < id) &&
      (forall j :: 0 <= j < |nodes[id].rows| ==> id < nodes[id].rows[j] < |nodes|) &&
      (nodes[id].kind == DataContainerFilter ==> nodes[id].wrapped.Some?)
  }

  /** `getFilterName`: a data-container filter is named after its wrapped container. */
  function FilterName(r: FilterRecord): string {
    if r.kind == DataContainerFilter && r.wrapped.Some? then r.wrapped.value.name else r.text
  }

  // ---------------------------------------------------------------------------
  // Row lists

  /** Index of the first row holding `c`, or -1. */
  function IndexIn(rows: seq<FilterId>, c: FilterId): (i: int)
    ensures -1 <= i < |rows|
    ensures i == -1 <==> c !in rows
    ensures i >= 0 ==> rows[i] == c && c !in rows[..i]
  {
    if rows == [] then -1
    else if rows[0] == c then 0
    else
      var k := IndexIn(rows[1..], c);
      assert rows[1..][..if k < 0 then 0 else k] == rows[1..if k < 0 then 1 else k + 1];
      if k == -1 then -1 else k + 1
  }

  /** The rows after `removeChild(c)`: the first row holding `c` is removed, if any. */
  function RowsWithout(rows: seq<FilterId>, c: FilterId): seq<FilterId> {
    var i := IndexIn(rows, c);
    if i < 0 then rows else rows[..i] + rows[i + 1..]
  }

  /** Removing a child drops exactly one occurrence of it and keeps the order of the others. */
  lemma RowsWithoutContents(rows: seq<FilterId>, c: FilterId)
    ensures multiset(RowsWithout(rows, c)) == multiset(rows) - multiset{c}
    ensures c !in rows ==> RowsWithout(rows, c) == rows
  {
    var i := IndexIn(rows, c);
    if i >= 0 {
      assert rows == rows[..i] + [c] + rows[i + 1..];
    }
  }

  /** Removing a child just appended (and not there before) restores the rows. */
  lemma RemoveAfterAppend(rows: seq<FilterId>, c: FilterId)
    requires c !in rows
    ensures RowsWithout(rows + [c], c) == rows
  {
    var i := IndexIn(rows + [c], c);
    assert (rows + [c])[|rows|] == c;
    assert (rows + [c])[..|rows|] == rows;
    assert i == |rows|;
    assert (rows + [c])[..i] == rows;
  }

  // ---------------------------------------------------------------------------
  // Queries over the whole store

  /** `getDescendants`: a preorder listing, each child followed by its own descendants. */
  function Descendants(nodes: seq<FilterRecord>, p: FilterId): (ds: seq<FilterId>)
    requires WellFormed(nodes) && p < |nodes|
    ensures forall k :: 0 <= k < |ds| ==> p < ds[k] < |nodes|
    decreases |nodes| - p, 1, 0
  {
    DescendantsOfRows(nodes, nodes[p].rows, p)
  }

  /** The listing for a run of rows of a filter newer than `above`. */
  function DescendantsOfRows(nodes: seq<FilterRecord>, rows: seq<FilterId>, above: nat): (ds: seq<FilterId>)
    requires WellFormed(nodes)
    requires forall j :: 0 <= j < |rows| ==> above < rows[j] < |nodes|
    ensures forall k :: 0 <= k < |ds| ==> above < ds[k] < |nodes|
    decreases |nodes| - above, 0, |rows|
  {
    if rows == [] then []
    else [rows[0]] + Descendants(nodes, rows[0]) + DescendantsOfRows(nodes, rows[1..], above)
  }

  lemma {:induction false} DescendantsOfRowsAppend(nodes: seq<FilterRecord>, rows: seq<FilterId>, c: FilterId, above: nat)
    requires WellFormed(nodes)
    requires forall j :: 0 <= j < |rows| ==> above < rows[j] < |nodes|
    requires above < c < |nodes|
    ensures DescendantsOfRows(nodes, rows + [c], above)
         == DescendantsOfRows(nodes, rows, above) + [c] + Descendants(nodes, c)
    decreases |rows|
  {
    if rows == [] {
      assert rows + [c] == [c];
    } else {
      assert (rows + [c])[1..] == rows[1..] + [c];
      DescendantsOfRowsAppend(nodes, rows[1..], c, above);
    }
  }

  /**
   * Two stores that agree on the rows of every filter from `p` on, list the
   * same descendants of `p`: a subtree depends only on newer filters.
   */
  lemma {:induction false} DescendantsFrame(nodes: seq<FilterRecord>, nodes': seq<FilterRecord>, p: FilterId)
    requires WellFormed(nodes) && WellFormed(nodes') && p < |nodes| <= |nodes'|
    requires forall q :: p <= q < |nodes| ==> nodes'[q].rows == nodes[q].rows
    ensures Descendants(nodes', p) == Descendants(nodes, p)
    decreases |nodes| - p, 1, 0
  {
    DescendantsOfRowsFrame(nodes, nodes', nodes[p].rows, p);
  }

  lemma {:induction false} DescendantsOfRowsFrame(nodes: seq<FilterRecord>, nodes': seq<FilterRecord>, rows: seq<FilterId>, above: nat)
    requires WellFormed(nodes) && WellFormed(nodes') && |nodes| <= |nodes'|
    requires forall j :: 0 <= j < |rows| ==> above < rows[j] < |nodes|
    requires forall q :: above < q < |nodes| ==> nodes'[q].rows == nodes[q].rows
    ensures DescendantsOfRows(nodes', rows, above) == DescendantsOfRows(nodes, rows, above)
    decreases |nodes| - above, 0, |rows|
  {
    if rows != [] {
      DescendantsFrame(nodes, nodes', rows[0]);
      DescendantsOfRowsFrame(nodes, nodes', rows[1..], above);
    }
  }

  /** The store after constructing a new childless filter `r` and appending it to the rows of `p`. */
  function WithNewChild(nodes: seq<FilterRecord>, p: FilterId, r: FilterRecord): seq<FilterRecord>
    requires p < |nodes|
  {
    nodes[p := nodes[p].(rows := nodes[p].rows + [|nodes|])] + [r]
  }

  /** Attaching a new leaf changes the parent's rows, appends the leaf and leaves every other filter as it was. */
  lemma NewChildEntries(nodes: seq<FilterRecord>, p: FilterId, r: FilterRecord)
    requires p < |nodes|
    ensures var n' := WithNewChild(nodes, p, r);
      |n'| == |nodes| + 1 && n'[p] == nodes[p].(rows := nodes[p].rows + [|nodes|]) && n'[|nodes|] == r &&
      forall i :: 0 <= i < |nodes| && i != p ==> n'[i] == nodes[i]
  {
  }

  /** Attaching a new leaf keeps the store well formed and leaves every older filter's class alone. */
  lemma NewChildWellFormed(nodes: seq<FilterRecord>, p: FilterId, r: FilterRecord)
    requires WellFormed(nodes) && p < |nodes|
    requires r.rows == [] && (r.parent.Some? ==> r.parent.value < |nodes|)
    requires r.kind == DataContainerFilter ==> r.wrapped.Some?
    ensures WellFormed(WithNewChild(nodes, p, r)) && Extends(nodes, WithNewChild(nodes, p, r))
  {
  }

  /** `nodes'` keeps every filter of `nodes`, with the same class. */
  predicate Extends(nodes: seq<FilterRecord>, nodes': seq<FilterRecord>) {
    |nodes| <= |nodes'| && forall i :: 0 <= i < |nodes| ==> nodes'[i].kind == nodes[i].kind
  }

  /** Every element of `s`, as a non-null pointer. */
  function Lift(s: seq<FilterId>): (r: seq<Option<FilterId>>)
    ensures |r| == |s| && forall k :: 0 <= k < |s| ==> r[k] == Some(s[k])
  {
    seq(|s|, k requires 0 <= k < |s| => Some(s[k]))
  }

  lemma LiftAppend(a: seq<FilterId>, b: seq<FilterId>)
    ensures Lift(a + b) == Lift(a) + Lift(b)
  {
  }

  /** Attaching a new leaf to `p` adds it at the end of `p`'s preorder listing. */
  lemma DescendantsAfterNewChild(nodes: seq<FilterRecord>, p: FilterId, r: FilterRecord)
    requires WellFormed(nodes) && p < |nodes|
    requires r.rows == [] && (r.parent.Some? ==> r.parent.value < |nodes|)
    requires r.kind == DataContainerFilter ==> r.wrapped.Some?
    ensures WellFormed(WithNewChild(nodes, p, r))
    ensures Descendants(WithNewChild(nodes, p, r), p) == Descendants(nodes, p) + [|nodes|]
  {
    var n' := WithNewChild(nodes, p, r);
    var c := |nodes|;
    NewChildWellFormed(nodes, p, r);
    assert Descendants(n', c) == [];
    DescendantsOfRowsAppend(n', nodes[p].rows, c, p);
    DescendantsOfRowsFrame(nodes, n', nodes[p].rows, p);
  }

  /** `getAncestor`: follow parents up to the filter that has none. */
  function Ancestor(nodes: seq<FilterRecord>, id: FilterId): (root: FilterId)
    requires WellFormed(nodes) && id < |nodes|
    ensures root <= id && nodes[root].parent.None?
    decreases id
  {
    match nodes[id].parent
    case None => id
    case Some(p) => Ancestor(nodes, p)
  }

  /** The filter, its parent, its grandparent, ... up to the root. */
  function ParentChain(nodes: seq<FilterRecord>, id: FilterId): (chain: seq<FilterId>)
    requires WellFormed(nodes) && id < |nodes|
    ensures |chain| >= 1 && chain[0] == id
    ensures forall k :: 0 <= k < |chain| ==> chain[k] < |nodes|
    decreases id
  {
    match nodes[id].parent
    case None => [id]
    case Some(p) => [id] + ParentChain(nodes, p)
  }

  /** The ancestor is the last filter of the parent chain. */
  lemma {:induction false} AncestorEndsChain(nodes: seq<FilterRecord>, id: FilterId)
    requires WellFormed(nodes) && id < |nodes|
    ensures var chain := ParentChain(nodes, id); Ancestor(nodes, id) == chain[|chain| - 1]
    decreases id
  {
    match nodes[id].parent
    case None =>
    case Some(p) => AncestorEndsChain(nodes, p);
  }

  /** `getDataSetFilter`: the filter itself if it is a data filter, else its parent's answer. */
  function DataSetFilterOf(nodes: seq<FilterRecord>, id: FilterId): (r: Option<FilterId>)
    requires WellFormed(nodes) && id < |nodes|
    ensures r.Some? ==> r.value <= id && IsDataFilter(nodes[r.value].kind)
    decreases id
  {
    if IsDataFilter(nodes[id].kind) then Some(id)
    else match nodes[id].parent
      case None => None
      case Some(p) => DataSetFilterOf(nodes, p)
  }

  /** No filter among the first `k` of `chain` is a data filter. */
  predicate NoDataFilterBefore(nodes: seq<FilterRecord>, chain: seq<FilterId>, k: nat)
    requires k <= |chain| && forall i :: 0 <= i < |chain| ==> chain[i] < |nodes|
  {
    forall j :: 0 <= j < k ==> !IsDataFilter(nodes[chain[j]].kind)
  }

  /**
   * The data filter found is the first one on the parent chain, at position
   * `k`; none is found exactly when the chain holds none.
   */
  lemma {:induction false} DataSetFilterIsNearest(nodes: seq<FilterRecord>, id: FilterId) returns (k: nat)
    requires WellFormed(nodes) && id < |nodes|
    ensures var chain := ParentChain(nodes, id);
      DataSetFilterOf(nodes, id).None? ==> NoDataFilterBefore(nodes, chain, |chain|)
    ensures var chain := ParentChain(nodes, id);
      DataSetFilterOf(nodes, id).Some? ==>
        k < |chain| && chain[k] == DataSetFilterOf(nodes, id).value && NoDataFilterBefore(nodes, chain, k)
    decreases id
  {
    var chain := ParentChain(nodes, id);
    if IsDataFilter(nodes[id].kind) {
      k := 0;
    } else {
      match nodes[id].parent
      case None =>
        assert chain == [id];
        k := 0;
      case Some(p) =>
        var k' := DataSetFilterIsNearest(nodes, p);
        var rest := ParentChain(nodes, p);
        assert chain == [id] + rest;
        assert forall j :: 1 <= j < |chain| ==> chain[j] == rest[j - 1];
        k := k' + 1;
    }
  }

  // ---------------------------------------------------------------------------
  // The store

  class FilterStore {
    /** Every filter created so far, indexed by `FilterId`. */
    var nodes: seq<FilterRecord>

    ghost predicate Valid()
      reads this
    {
      WellFormed(nodes)
    }

    constructor ()
      ensures Valid() && nodes == []
    {
      nodes := [];
    }

    /**
     * Construct filter `r` (no rows yet) and run `setParentFilter(r.parent)`:
     * when it has a parent, `addChild` makes it that parent's last row.
     */
    method NewFilter(r: FilterRecord) returns (id: FilterId)
      requires Valid()
      requires r.rows == [] && (r.parent.Some? ==> r.parent.value < |nodes|)
      requires r.kind == DataContainerFilter ==> r.wrapped.Some?
      modifies this
      ensures Valid()
      ensures id == old(|nodes|)
      ensures r.parent.None? ==> nodes == old(nodes) + [r]
      ensures r.parent.Some? ==> nodes == WithNewChild(old(nodes), r.parent.value, r)
    {
      id := |nodes|;
      nodes := nodes + [r];
      if r.parent.Some? {
        AddChild(r.parent.value, id);
        assert nodes == WithNewChild(old(nodes), r.parent.value, r);
      }
    }

    /** `addChild`: `child` becomes the last row of `p`; no other row moves. */
    method AddChild(p: FilterId, child: FilterId)
      requires Valid() && p < child < |nodes|
      modifies this
      ensures Valid()
      ensures nodes == old(nodes)[p := old(nodes)[p].(rows := old(nodes)[p].rows + [child])]
    {
      nodes := nodes[p := nodes[p].(rows := nodes[p].rows + [child])];
    }

    /** `removeChild`: the first row holding `child` is removed; nothing happens when there is none. */
    method RemoveChild(p: FilterId, child: FilterId)
      requires Valid() && p < |nodes|
      modifies this
      ensures Valid()
      ensures nodes == old(nodes)[p := old(nodes)[p].(rows := RowsWithout(old(nodes)[p].rows, child))]
    {
      var row := IndexOfChild(p, Some(child));
      if row >= 0 {
        var rows := nodes[p].rows;
        nodes := nodes[p := nodes[p].(rows := rows[..row] + rows[row + 1..])];
        assert forall j :: 0 <= j < |nodes[p].rows| ==> nodes[p].rows[j] in rows;
      }
    }

    /** `getChildren`: the rows of `p`, copied into a vector of `rowCount()` entries. */
    method GetChildren(p: FilterId) returns (children: seq<FilterId>)
      requires Valid() && p < |nodes|
      ensures children == nodes[p].rows
    {
      var numRows := |nodes[p].rows|;
      var buffer := new FilterId[numRows];
      for i := 0 to numRows
        invariant forall k :: 0 <= k < i ==> buffer[k] == nodes[p].rows[k]
      {
        buffer[i] := nodes[p].rows[i];
      }
      children := buffer[..];
    }

    /** `getIndexOfChild`: -1 for null or a filter that is not a row of `p`, else its first row. */
    method IndexOfChild(p: FilterId, child: Option<FilterId>) returns (index: int)
      requires Valid() && p < |nodes|
      ensures child.None? ==> index == -1
      ensures child.Some? ==> index == IndexIn(nodes[p].rows, child.value)
    {
      if child.None? {
        return -1;
      }
      var rows := nodes[p].rows;
      var i := 0;
      while i < |rows|
        invariant 0 <= i <= |rows|
        invariant child.value !in rows[..i]
      {
        if rows[i] == child.value {
          assert rows[..i] == rows[..i];
          return i;
        }
        assert rows[..i + 1] == rows[..i] + [rows[i]];
        i := i + 1;
      }
      assert rows[..i] == rows;
      return -1;
    }

    /** `getChild(index)`: null outside `0 <= index < rowCount()`, else that row. */
    function GetChild(p: FilterId, index: int): (c: Option<FilterId>)
      requires Valid() && p < |nodes|
      reads this
      ensures c.None? <==> index < 0 || index >= |nodes[p].rows|
      ensures c.Some? ==> c.value == nodes[p].rows[index] && p < c.value < |nodes|
    {
      if index < 0 || index >= |nodes[p].rows| then None else Some(nodes[p].rows[index])
    }
  }
}
