/**
 * `VSController`: the active view controller, with its change signal, and the
 * flat list of every filter reachable from the top-level data filters.
 */
module Controller {
  import opened Wrappers
  import opened FilterTree

  /** A view controller's identity. */
  type ViewId = nat

  /** Every filter under the top-level data filters: each one, followed by its descendants. */
  function AllFilters(nodes: seq<FilterRecord>, dataFilters: seq<FilterId>): (all: seq<FilterId>)
    requires WellFormed(nodes) && forall i :: 0 <= i < |dataFilters| ==> dataFilters[i] < |nodes|
    ensures |all| >= |dataFilters|
  {
    if dataFilters == [] then []
    else
      var last := dataFilters[|dataFilters| - 1];
      AllFilters(nodes, dataFilters[..|dataFilters| - 1]) + [last] + Descendants(nodes, last)
  }

  /** A filter is listed exactly when it is a data filter or a descendant of one. */
  lemma {:induction false} AllFiltersMembers(nodes: seq<FilterRecord>, dataFilters: seq<FilterId>, x: FilterId)
    requires WellFormed(nodes) && forall i :: 0 <= i < |dataFilters| ==> dataFilters[i] < |nodes|
    ensures x in AllFilters(nodes, dataFilters) <==>
      exists i :: 0 <= i < |dataFilters| && (x == dataFilters[i] || x in Descendants(nodes, dataFilters[i]))
  {
    if dataFilters != [] {
      var n := |dataFilters| - 1;
      var front := dataFilters[..n];
      AllFiltersMembers(nodes, front, x);
      if x in AllFilters(nodes, dataFilters) {
        if x in AllFilters(nodes, front) {
          var i :| 0 <= i < |front| && (x == front[i] || x in Descendants(nodes, front[i]));
          assert dataFilters[i] == front[i];
        } else {
          assert x == dataFilters[n] || x in Descendants(nodes, dataFilters[n]);
        }
      } else {
        forall i | 0 <= i < |dataFilters|
          ensures x != dataFilters[i] && x !in Descendants(nodes, dataFilters[i])
        {
          if i < n {
            assert dataFilters[i] == front[i];
          }
        }
      }
    }
  }

  /**
   * What `getAllFilters` returns as written: the vector is constructed with
   * `size()` null entries and the filters are appended after them.
   */
  function AllFiltersAsWritten(nodes: seq<FilterRecord>, dataFilters: seq<FilterId>): seq<Option<FilterId>>
    requires WellFormed(nodes) && forall i :: 0 <= i < |dataFilters| ==> dataFilters[i] < |nodes|
  {
    seq(|dataFilters|, _ => None) + Lift(AllFilters(nodes, dataFilters))
  }

  /**
   * As written, the list starts with one null per data filter, so it differs
   * from the intended list whenever there is a data filter: with one filter
   * and no descendants it is `[null, filter]`.
   */
  lemma AsWrittenHasNullPlaceholders(nodes: seq<FilterRecord>, dataFilters: seq<FilterId>)
    requires WellFormed(nodes) && forall i :: 0 <= i < |dataFilters| ==> dataFilters[i] < |nodes|
    requires |dataFilters| > 0
    ensures AllFiltersAsWritten(nodes, dataFilters)[0] == None
    ensures None !in Lift(AllFilters(nodes, dataFilters))
    ensures AllFiltersAsWritten(nodes, dataFilters) != Lift(AllFilters(nodes, dataFilters))
  {
    assert AllFiltersAsWritten(nodes, dataFilters)[0] == None;
  }

  /** The one-filter instance of the placeholder defect. */
  lemma AsWrittenSingleFilter(r: FilterRecord)
    requires r.parent.None? && r.rows == [] && r.kind == DataSetFilter
    ensures AllFiltersAsWritten([r], [0]) == [None, Some(0)]
  {
    assert WellFormed([r]);
    assert Descendants([r], 0) == DescendantsOfRows([r], [], 0) == [];
    assert [0][..0] == [];
    assert AllFilters([r], [0]) == AllFilters([r], []) + [0] + Descendants([r], 0) == [0];
    assert Lift([0]) == [Some(0)];
  }

  class Controller {
    var activeView: Option<ViewId>
    /** The `activeViewChanged` signals emitted so far, with their argument. */
    var viewChanges: seq<Option<ViewId>>
    /** The top-level data filters, in import order. */
    var dataFilters: seq<FilterId>

    constructor ()
      ensures activeView.None? && viewChanges == [] && dataFilters == []
    {
      activeView := None;
      viewChanges := [];
      dataFilters := [];
    }

    /** `setActiveViewController`: store a different view and signal it once; the same view changes nothing. */
    method SetActiveViewController(view: Option<ViewId>)
      modifies this
      ensures dataFilters == old(dataFilters)
      ensures old(activeView) == view ==> activeView == old(activeView) && viewChanges == old(viewChanges)
      ensures old(activeView) != view ==> activeView == view && viewChanges == old(viewChanges) + [view]
    {
      if activeView != view {
        activeView := view;
        viewChanges := viewChanges + [activeView];
      }
    }

    /** `getAllFilters` as written: the placeholders, then each data filter and its descendants. */
    method GetAllFiltersAsWritten(store: FilterStore) returns (filters: seq<Option<FilterId>>)
      requires store.Valid() && forall i :: 0 <= i < |dataFilters| ==> dataFilters[i] < |store.nodes|
      ensures filters == AllFiltersAsWritten(store.nodes, dataFilters)
    {
      var count := |dataFilters|;
      filters := seq(count, _ => None);
      for i := 0 to count
        invariant filters == seq(count, _ => None) + Lift(AllFilters(store.nodes, dataFilters[..i]))
      {
        assert dataFilters[..i + 1][..i] == dataFilters[..i];
        var df := dataFilters[i];
        LiftAppend(AllFilters(store.nodes, dataFilters[..i]), [df]);
        LiftAppend(AllFilters(store.nodes, dataFilters[..i]) + [df], Descendants(store.nodes, df));
        filters := filters + [Some(df)];
        filters := filters + Lift(Descendants(store.nodes, df));
      }
      assert dataFilters[..count] == dataFilters;
    }

    /** `getAllFilters` as intended: an empty vector, then each data filter and its descendants. */
    method GetAllFilters(store: FilterStore) returns (filters: seq<FilterId>)
      requires store.Valid() && forall i :: 0 <= i < |dataFilters| ==> dataFilters[i] < |store.nodes|
      ensures filters == AllFilters(store.nodes, dataFilters)
      ensures forall x :: x in filters <==>
        exists i :: 0 <= i < |dataFilters| && (x == dataFilters[i] || x in Descendants(store.nodes, dataFilters[i]))
    {
      var count := |dataFilters|;
      filters := [];
      for i := 0 to count
        invariant filters == AllFilters(store.nodes, dataFilters[..i])
      {
        assert dataFilters[..i + 1][..i] == dataFilters[..i];
        filters := filters + [dataFilters[i]];
        filters := filters + Descendants(store.nodes, dataFilters[i]);
      }
      assert dataFilters[..count] == dataFilters;
      forall x | true
        ensures x in filters <==>
          exists i :: 0 <= i < |dataFilters| && (x == dataFilters[i] || x in Descendants(store.nodes, dataFilters[i]))
      {
        AllFiltersMembers(store.nodes, dataFilters, x);
      }
    }
  }
}
