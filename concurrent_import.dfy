/**
 * `VSConcurrentImport`: imports data-container arrays into the filter tree.
 *
 * Each (file filter, data-container array) pair waits in a FIFO import list.
 * Importing a pair hands its data containers to a pool of wrap workers, which
 * take containers off a shared work list one at a time and collect the
 * non-null wrap results in a buffer. The last worker to finish (a counter of
 * outstanding workers is the barrier) turns the buffer into filters: new
 * children of the file filter in Import mode, existing children rebound by
 * name in Reload mode. Those filters wait in a FIFO of filters to apply, which
 * apply workers drain once the import list is empty, counting as they go.
 *
 * The threads are modelled as a state machine: every worker step is an atomic
 * action and the order of the steps is chosen nondeterministically, so what is
 * proved holds for every schedule of the steps. Signals become `Event`s.
 */
module ConcurrentImport {
  import opened Wrappers
  import opened Bridge
  import opened FilterTree
  import opened DataContainerFilter

  datatype LoadType = Import | Reload

  /** `DcaFilePair`: the file filter and the data containers of its array, in order. */
  datatype DcaFilePair = DcaFilePair(file: FilterId, dca: seq<DataContainer>)

  /** Steps whose behaviour is undefined in the source; the model records them and goes on. */
  datatype Fault =
    | SelectOnEmptyQueue                    // `back()` of an empty filter queue
    | ApplyNull                             // `apply()` on a null filter queued by Reload
    | RebindNonDataContainer(child: FilterId) // a same-named child that is not a data-container filter

  /** The signals and calls the pipeline makes visible. */
  datatype Event =
    | BlockRender(blocked: bool)
    | FilterAdded(id: FilterId)
    | FilterSelected(selected: Option<FilterId>)
    | ApplyingDataFilters(pending: nat)
    | DataFilterApplied(count: int)
    | DataImported(id: FilterId)
    | DataReloaded(id: FilterId)
    | Failed(fault: Fault)

  /**
   * The number of workers per phase: two threads of the global pool are left
   * free when it has more than two, and a single worker is used otherwise.
   */
  function WorkerCount(poolMax: int): (w: nat)
    ensures w >= 1
    ensures poolMax > 2 ==> w == poolMax - 2
    ensures poolMax <= 2 ==> w == 1
  {
    if poolMax > 2 then poolMax - 2 else 1
  }

  // ---------------------------------------------------------------------------
  // Wrap workers

  /** A wrap worker is in its loop, holds a container it took off the work list, or has finished. */
  datatype WorkerState = Looping | Holding(dc: DataContainer) | Done

  /** What a worker adds to the buffer for `dc`: the wrap result when it is not null. */
  function WrapList(bridge: BridgeBehaviour, dc: DataContainer): (ws: seq<WrappedDc>)
    ensures |ws| <= 1
  {
    if Wrap(bridge, dc).Some? then [Wrap(bridge, dc).value] else []
  }

  /** The non-null wrap results of `dcs`, in order. */
  function Wrapped(bridge: BridgeBehaviour, dcs: seq<DataContainer>): (ws: seq<WrappedDc>)
    ensures |ws| <= |dcs|
  {
    if dcs == [] then [] else WrapList(bridge, dcs[0]) + Wrapped(bridge, dcs[1..])
  }

  function IsActive(s: WorkerState): nat {
    if s.Done? then 0 else 1
  }

  function IsHolding(s: WorkerState): nat {
    if s.Holding? then 1 else 0
  }

  /** Whether worker state `s` is about to deliver `x`. */
  function HeldBy(bridge: BridgeBehaviour, s: WorkerState, x: WrappedDc): nat {
    if s.Holding? && Wrap(bridge, s.dc) == Some(x) then 1 else 0
  }

  /** Workers that have not finished. */
  function ActiveCount(ws: seq<WorkerState>): nat {
    if ws == [] then 0 else IsActive(ws[0]) + ActiveCount(ws[1..])
  }

  /** Workers holding a container. */
  function HoldingCount(ws: seq<WorkerState>): nat {
    if ws == [] then 0 else IsHolding(ws[0]) + HoldingCount(ws[1..])
  }

  /** How many times the holding workers are about to deliver `x`. */
  function HeldCount(bridge: BridgeBehaviour, ws: seq<WorkerState>, x: WrappedDc): nat {
    if ws == [] then 0 else HeldBy(bridge, ws[0], x) + HeldCount(bridge, ws[1..], x)
  }

  /** Changing one worker's state changes the counts by that worker's contribution alone. */
  lemma UpdateWorker(ws: seq<WorkerState>, w: nat, x: WorkerState)
    requires w < |ws|
    ensures ActiveCount(ws[w := x]) + IsActive(ws[w]) == ActiveCount(ws) + IsActive(x)
    ensures HoldingCount(ws[w := x]) + IsHolding(ws[w]) == HoldingCount(ws) + IsHolding(x)
  {
    UpdateActive(ws, w, x);
    UpdateHolding(ws, w, x);
  }

  lemma {:induction false} UpdateActive(ws: seq<WorkerState>, w: nat, x: WorkerState)
    requires w < |ws|
    ensures ActiveCount(ws[w := x]) + IsActive(ws[w]) == ActiveCount(ws) + IsActive(x)
  {
    var ws' := ws[w := x];
    if w == 0 {
      assert ws'[1..] == ws[1..];
    } else {
      assert ws'[1..] == ws[1..][w - 1 := x];
      UpdateActive(ws[1..], w - 1, x);
    }
  }

  lemma {:induction false} UpdateHolding(ws: seq<WorkerState>, w: nat, x: WorkerState)
    requires w < |ws|
    ensures HoldingCount(ws[w := x]) + IsHolding(ws[w]) == HoldingCount(ws) + IsHolding(x)
  {
    var ws' := ws[w := x];
    if w == 0 {
      assert ws'[1..] == ws[1..];
    } else {
      assert ws'[1..] == ws[1..][w - 1 := x];
      UpdateHolding(ws[1..], w - 1, x);
    }
  }

  lemma {:induction false} UpdateHeld(bridge: BridgeBehaviour, ws: seq<WorkerState>, w: nat,
                                      s: WorkerState, x: WrappedDc)
    requires w < |ws|
    ensures HeldCount(bridge, ws[w := s], x) + HeldBy(bridge, ws[w], x) == HeldCount(bridge, ws, x) + HeldBy(bridge, s, x)
  {
    var ws' := ws[w := s];
    if w == 0 {
      assert ws'[1..] == ws[1..];
    } else {
      assert ws'[1..] == ws[1..][w - 1 := s];
      UpdateHeld(bridge, ws[1..], w - 1, s, x);
    }
  }

  /** A worker holding a container is active. */
  lemma {:induction false} HoldingAreActive(ws: seq<WorkerState>)
    ensures HoldingCount(ws) <= ActiveCount(ws)
  {
    if ws != [] {
      HoldingAreActive(ws[1..]);
    }
  }

  /** A fresh pool: every worker active, none holding anything. */
  lemma {:induction false} FreshPool(n: nat)
    ensures ActiveCount(seq(n, _ => Looping)) == n
    ensures HoldingCount(seq(n, _ => Looping)) == 0
  {
    if n > 0 {
      assert seq(n, _ => Looping)[1..] == seq(n - 1, _ => Looping);
      FreshPool(n - 1);
    }
  }

  /** Some worker has not finished, and one holding a container is found when there is one. */
  lemma {:induction false} FindWorker(ws: seq<WorkerState>) returns (w: nat)
    requires ActiveCount(ws) >= 1
    ensures w < |ws| && !ws[w].Done?
    ensures HoldingCount(ws) > 0 ==> ws[w].Holding?
    ensures HoldingCount(ws) == 0 ==> ws[w].Looping?
  {
    if ws[0].Holding? || (ws[0].Looping? && HoldingCount(ws[1..]) == 0) {
      w := 0;
    } else {
      HoldingAreActive(ws[1..]);
      var w' := FindWorker(ws[1..]);
      w := w' + 1;
    }
  }

  /** With no worker holding a container, nothing is about to be delivered. */
  lemma {:induction false} NothingHeld(bridge: BridgeBehaviour, ws: seq<WorkerState>, x: WrappedDc)
    requires HoldingCount(ws) == 0
    ensures HeldCount(bridge, ws, x) == 0
  {
    if ws != [] {
      NothingHeld(bridge, ws[1..], x);
    }
  }

  /**
   * A worker may act: deliver what it holds, take the next container, or
   * leave its loop. It leaves with containers still listed only when its
   * `tryAcquire` can fail, that is while another worker is active.
   */
  predicate Enabled(ws: seq<WorkerState>, w: nat, more: bool)
    requires w < |ws|
  {
    ws[w].Holding? || (ws[w].Looping? && (more || ActiveCount(ws) > 1))
  }

  // ---------------------------------------------------------------------------
  // Materialisation of a buffer

  /** What materialising a buffer did: the new store, the filters queued for applying and the events. */
  datatype Outcome = Outcome(nodes: seq<FilterRecord>, queued: seq<Option<FilterId>>, emitted: seq<Event>)

  /** The ids `start`, `start + 1`, ..., of `n` filters created in a row. */
  function Ids(start: nat, n: nat): (ids: seq<FilterId>)
    ensures |ids| == n && forall k :: 0 <= k < n ==> ids[k] == start + k
  {
    seq(n, k requires 0 <= k < n => start + k)
  }

  lemma IdsSnoc(start: nat, n: nat)
    ensures Ids(start, n + 1) == Ids(start, n) + [start + n]
  {
  }

  function AddedEvents(ids: seq<FilterId>): (es: seq<Event>)
    ensures |es| == |ids| && forall k :: 0 <= k < |ids| ==> es[k] == FilterAdded(ids[k])
  {
    seq(|ids|, k requires 0 <= k < |ids| => FilterAdded(ids[k]))
  }

  /** Every data-container filter's apply guard holds its permit. */
  predicate GuardsFree(nodes: seq<FilterRecord>) {
    forall i :: 0 <= i < |nodes| && nodes[i].kind == DataContainerFilter ==> nodes[i].applyPermits == 1
  }

  predicate IsFileFilter(nodes: seq<FilterRecord>, f: FilterId) {
    f < |nodes| && nodes[f].kind == FileNameFilter
  }

  /** Every file of a waiting pair is a file filter. */
  predicate FilesOk(nodes: seq<FilterRecord>, pairs: seq<DcaFilePair>) {
    forall k :: 0 <= k < |pairs| ==> IsFileFilter(nodes, pairs[k].file)
  }

  /** The current file, if any, is a file filter. */
  predicate CurrentOk(nodes: seq<FilterRecord>, f: Option<FilterId>) {
    f.Some? ==> IsFileFilter(nodes, f.value)
  }

  /** Every non-null entry of a filter queue is a data-container filter of the store. */
  predicate DcEntries(nodes: seq<FilterRecord>, q: seq<Option<FilterId>>) {
    forall k :: 0 <= k < |q| && q[k].Some? ==> q[k].value < |nodes| && nodes[q[k].value].kind == DataContainerFilter
  }

  /** Import mode: one new data-container filter per buffered container, each a child of `file`. */
  function ImportSpec(nodes: seq<FilterRecord>, file: FilterId, ws: seq<WrappedDc>): (r: seq<FilterRecord>)
    requires file < |nodes|
    ensures |r| == |nodes| + |ws|
    decreases |ws|
  {
    if ws == [] then nodes
    else WithNewChild(ImportSpec(nodes, file, ws[..|ws| - 1]), file, InitialRecord(ws[|ws| - 1], Some(file)))
  }

  /** Import mode keeps the store well formed and the guards free, and every filter it adds is a data-container filter. */
  lemma {:induction false} ImportKeepsStore(nodes: seq<FilterRecord>, file: FilterId, ws: seq<WrappedDc>)
    requires WellFormed(nodes) && file < |nodes|
    ensures var r := ImportSpec(nodes, file, ws);
      WellFormed(r) && Extends(nodes, r) &&
      (forall i :: |nodes| <= i < |r| ==> r[i].kind == DataContainerFilter) &&
      (GuardsFree(nodes) ==> GuardsFree(r))
    decreases |ws|
  {
    if ws != [] {
      var prev, rec := ImportSpec(nodes, file, ws[..|ws| - 1]), InitialRecord(ws[|ws| - 1], Some(file));
      ImportKeepsStore(nodes, file, ws[..|ws| - 1]);
      NewChildWellFormed(prev, file, rec);
      NewChildEntries(prev, file, rec);
      assert ImportSpec(nodes, file, ws) == WithNewChild(prev, file, rec);
    }
  }

  /**
   * Import mode creates, in buffer order, one filter per container, wrapping
   * it and parented by `file`; they become the last rows of `file`, and no
   * other filter changes.
   */
  lemma {:induction false} ImportCreatesChildren(nodes: seq<FilterRecord>, file: FilterId, ws: seq<WrappedDc>)
    requires file < |nodes|
    ensures var r := ImportSpec(nodes, file, ws);
      r[file] == nodes[file].(rows := nodes[file].rows + Ids(|nodes|, |ws|)) &&
      (forall k :: 0 <= k < |ws| ==> r[|nodes| + k] == InitialRecord(ws[k], Some(file))) &&
      (forall i :: 0 <= i < |nodes| && i != file ==> r[i] == nodes[i])
  {
    ImportParentRows(nodes, file, ws);
    ImportNewRecords(nodes, file, ws);
    ImportKeepsOthers(nodes, file, ws);
  }

  /** The ids of the filters Import mode creates are appended to `file`'s rows, in creation order. */
  lemma {:induction false} ImportParentRows(nodes: seq<FilterRecord>, file: FilterId, ws: seq<WrappedDc>)
    requires file < |nodes|
    ensures ImportSpec(nodes, file, ws)[file] == nodes[file].(rows := nodes[file].rows + Ids(|nodes|, |ws|))
    decreases |ws|
  {
    if ws != [] {
      var n := |ws| - 1;
      var prev := ImportSpec(nodes, file, ws[..n]);
      ImportParentRows(nodes, file, ws[..n]);
      NewChildEntries(prev, file, InitialRecord(ws[n], Some(file)));
      IdsSnoc(|nodes|, n);
      AppendAssoc(nodes[file].rows, Ids(|nodes|, n), [|nodes| + n]);
    }
  }

  /** The `k`-th filter Import mode creates wraps the `k`-th buffered container under `file`. */
  lemma {:induction false} ImportNewRecords(nodes: seq<FilterRecord>, file: FilterId, ws: seq<WrappedDc>)
    requires file < |nodes|
    ensures forall k :: 0 <= k < |ws| ==> ImportSpec(nodes, file, ws)[|nodes| + k] == InitialRecord(ws[k], Some(file))
    decreases |ws|
  {
    if ws != [] {
      var n := |ws| - 1;
      var prev := ImportSpec(nodes, file, ws[..n]);
      ImportNewRecords(nodes, file, ws[..n]);
      NewChildEntries(prev, file, InitialRecord(ws[n], Some(file)));
      forall k | 0 <= k < n
        ensures ImportSpec(nodes, file, ws)[|nodes| + k] == InitialRecord(ws[k], Some(file))
      {
        assert ws[..n][k] == ws[k];
      }
    }
  }

  /** Import mode leaves every filter other than `file` as it was. */
  lemma {:induction false} ImportKeepsOthers(nodes: seq<FilterRecord>, file: FilterId, ws: seq<WrappedDc>)
    requires file < |nodes|
    ensures forall i :: 0 <= i < |nodes| && i != file ==> ImportSpec(nodes, file, ws)[i] == nodes[i]
    decreases |ws|
  {
    if ws != [] {
      var n := |ws| - 1;
      ImportKeepsOthers(nodes, file, ws[..n]);
      NewChildEntries(ImportSpec(nodes, file, ws[..n]), file, InitialRecord(ws[n], Some(file)));
    }
  }

  /** The created filters are the last of `file`'s descendants, in creation order. */
  lemma {:induction false} ImportAppendsDescendants(nodes: seq<FilterRecord>, file: FilterId, ws: seq<WrappedDc>)
    requires WellFormed(nodes) && file < |nodes|
    ensures WellFormed(ImportSpec(nodes, file, ws))
    ensures Descendants(ImportSpec(nodes, file, ws), file) == Descendants(nodes, file) + Ids(|nodes|, |ws|)
    decreases |ws|
  {
    if ws != [] {
      var n := |ws| - 1;
      var prev := ImportSpec(nodes, file, ws[..n]);
      var rec := InitialRecord(ws[n], Some(file));
      ImportAppendsDescendants(nodes, file, ws[..n]);
      DescendantsAfterNewChild(prev, file, rec);
      IdsSnoc(|nodes|, n);
      AppendAssoc(Descendants(nodes, file), Ids(|nodes|, n), [|nodes| + n]);
      assert ImportSpec(nodes, file, ws) == WithNewChild(prev, file, rec);
      var d, x := Descendants(nodes, file), |nodes| + n;
      assert |prev| == x && Descendants(prev, file) == d + Ids(|nodes|, n);
      assert d + Ids(|nodes|, n) + [x] == d + Ids(|nodes|, n + 1);
    }
  }

  /** Each filter Import mode creates has a parent it is compatible with. */
  lemma ImportedFiltersCompatible(nodes: seq<FilterRecord>, file: FilterId, ws: seq<WrappedDc>)
    requires WellFormed(nodes) && IsFileFilter(nodes, file)
    ensures var r := ImportSpec(nodes, file, ws);
      forall i :: |nodes| <= i < |r| ==>
        r[i].parent.Some? && r[i].parent.value < |r| && CompatibleWithParent(r, r[i].parent)
  {
    ImportCreatesChildren(nodes, file, ws);
  }

  /** Reload mode rebinds a child when it is a data-container filter named like the container. */
  predicate Rebinds(r: FilterRecord, w: WrappedDc) {
    FilterName(r) == w.name && r.kind == DataContainerFilter
  }

  /** Two records of the same filter that differ at most in what they wrap (a wrapped filter stays wrapped). */
  predicate SameShape(a: FilterRecord, b: FilterRecord) {
    a.kind == b.kind && a.rows == b.rows && a.parent == b.parent && a.applyPermits == b.applyPermits &&
    FilterName(a) == FilterName(b) && (a.wrapped.Some? ==> b.wrapped.Some?)
  }

  predicate SameShapes(a: seq<FilterRecord>, b: seq<FilterRecord>) {
    |a| == |b| && forall i :: 0 <= i < |a| ==> SameShape(a[i], b[i])
  }

  /** Filters that only changed what they wrap keep the store's invariants. */
  lemma ShapeKeepsStore(a: seq<FilterRecord>, b: seq<FilterRecord>, q: seq<Option<FilterId>>)
    requires SameShapes(a, b)
    ensures WellFormed(a) ==> WellFormed(b)
    ensures Extends(a, b)
    ensures GuardsFree(a) ==> GuardsFree(b)
    ensures DcEntries(a, q) ==> DcEntries(b, q)
  {
  }

  /** Newer filters added behind the old ones keep a queue's entries data-container filters. */
  lemma ExtendsKeepsEntries(a: seq<FilterRecord>, b: seq<FilterRecord>, q: seq<Option<FilterId>>)
    requires Extends(a, b)
    ensures DcEntries(a, q) ==> DcEntries(b, q)
    ensures forall f :: IsFileFilter(a, f) ==> IsFileFilter(b, f)
  {
  }

  predicate InStore(nodes: seq<FilterRecord>, rows: seq<FilterId>) {
    forall j :: 0 <= j < |rows| ==> rows[j] < |nodes|
  }

  /** The state of the loop over the file filter's children while one container is rebound. */
  datatype Rebinding = Rebinding(nodes: seq<FilterRecord>, filter: Option<FilterId>, faults: seq<Event>)

  /**
   * The loop over the children `rows`, in order: a child with the container's
   * name is rebound when it is a data-container filter (and becomes the
   * entry to queue), and is a fault otherwise (the entry becomes null).
   */
  function RebindAll(nodes: seq<FilterRecord>, rows: seq<FilterId>, w: WrappedDc): (b: Rebinding)
    requires InStore(nodes, rows)
    ensures |b.nodes| == |nodes|
    decreases |rows|
  {
    if rows == [] then Rebinding(nodes, None, [])
    else
      var b := RebindAll(nodes, rows[..|rows| - 1], w);
      var c := rows[|rows| - 1];
      if FilterName(b.nodes[c]) != w.name then b
      else if b.nodes[c].kind == DataContainerFilter then
        Rebinding(b.nodes[c := b.nodes[c].(wrapped := Some(w))], Some(c), b.faults)
      else Rebinding(b.nodes, None, b.faults + [Failed(RebindNonDataContainer(c))])
  }

  /** Rebinding changes only what filters wrap, faults are all it reports, and its entry is a data-container filter. */
  lemma {:induction false} RebindAllShape(nodes: seq<FilterRecord>, rows: seq<FilterId>, w: WrappedDc)
    requires InStore(nodes, rows)
    ensures var b := RebindAll(nodes, rows, w);
      SameShapes(nodes, b.nodes) &&
      (forall k :: 0 <= k < |b.faults| ==> b.faults[k].Failed?) &&
      (b.filter.Some? ==> b.filter.value < |nodes| && b.nodes[b.filter.value].kind == DataContainerFilter)
    decreases |rows|
  {
    if rows != [] {
      var front, c := rows[..|rows| - 1], rows[|rows| - 1];
      RebindAllShape(nodes, front, w);
      var b0, b := RebindAll(nodes, front, w), RebindAll(nodes, rows, w);
      if FilterName(b0.nodes[c]) == w.name && b0.nodes[c].kind == DataContainerFilter {
        assert SameShape(nodes[c], b0.nodes[c]);
        forall i | 0 <= i < |nodes|
          ensures SameShape(nodes[i], b.nodes[i])
        {
          if i != c {
            assert b.nodes[i] == b0.nodes[i];
          }
        }
      }
    }
  }

  /** The entry Reload mode queues for `name`: the last same-named child, null when there is none or it is no data-container filter. */
  function LastRebound(nodes: seq<FilterRecord>, rows: seq<FilterId>, name: string): (f: Option<FilterId>)
    requires InStore(nodes, rows)
    ensures f.Some? ==> f.value in rows && nodes[f.value].kind == DataContainerFilter && FilterName(nodes[f.value]) == name
    ensures (forall j :: 0 <= j < |rows| ==> FilterName(nodes[rows[j]]) != name) ==> f.None?
  {
    if rows == [] then None
    else
      var c := rows[|rows| - 1];
      if FilterName(nodes[c]) == name then (if nodes[c].kind == DataContainerFilter then Some(c) else None)
      else LastRebound(nodes, rows[..|rows| - 1], name)
  }

  /**
   * What the loop leaves behind, stated on the filters as they were: every
   * data-container child in `rows` with the container's name now wraps it,
   * every other filter is unchanged, and the entry is the last same-named
   * child when that one is a data-container filter.
   */
  lemma {:induction false} RebindAllMeaning(nodes: seq<FilterRecord>, rows: seq<FilterId>, w: WrappedDc)
    requires InStore(nodes, rows)
    ensures var b := RebindAll(nodes, rows, w);
      b.filter == LastRebound(nodes, rows, w.name) &&
      forall i :: 0 <= i < |nodes| ==>
        b.nodes[i] == if i in rows && Rebinds(nodes[i], w) then nodes[i].(wrapped := Some(w)) else nodes[i]
    decreases |rows|
  {
    if rows != [] {
      var front := rows[..|rows| - 1];
      var c := rows[|rows| - 1];
      assert rows == front + [c];
      RebindAllMeaning(nodes, front, w);
      RebindAllShape(nodes, front, w);
      var b0 := RebindAll(nodes, front, w);
      assert SameShape(nodes[c], b0.nodes[c]);
      var b := RebindAll(nodes, rows, w);
      forall i | 0 <= i < |nodes|
        ensures b.nodes[i] == if i in rows && Rebinds(nodes[i], w) then nodes[i].(wrapped := Some(w)) else nodes[i]
      {
        assert i in rows <==> i in front || i == c;
      }
    }
  }

  /** Neither the queued entry depends on what the children wrap. */
  lemma {:induction false} LastReboundIgnoresWrapping(a: seq<FilterRecord>, b: seq<FilterRecord>, rows: seq<FilterId>, name: string)
    requires SameShapes(a, b) && InStore(a, rows)
    ensures LastRebound(a, rows, name) == LastRebound(b, rows, name)
    decreases |rows|
  {
    if rows != [] {
      LastReboundIgnoresWrapping(a, b, rows[..|rows| - 1], name);
    }
  }

  /** Reload mode: each buffered container, in order, is rebound over the file filter's children. */
  function ReloadSpec(nodes: seq<FilterRecord>, rows: seq<FilterId>, ws: seq<WrappedDc>): (o: Outcome)
    requires InStore(nodes, rows)
    ensures |o.nodes| == |nodes| && |o.queued| == |ws|
    decreases |ws|
  {
    if ws == [] then Outcome(nodes, [], [])
    else
      var prev := ReloadSpec(nodes, rows, ws[..|ws| - 1]);
      var b := RebindAll(prev.nodes, rows, ws[|ws| - 1]);
      Outcome(b.nodes, prev.queued + [b.filter], prev.emitted + b.faults)
  }

  /** Reload mode only changes what filters wrap, reports only faults, and queues data-container filters or nulls. */
  lemma {:induction false} ReloadKeepsShape(nodes: seq<FilterRecord>, rows: seq<FilterId>, ws: seq<WrappedDc>)
    requires InStore(nodes, rows)
    ensures var o := ReloadSpec(nodes, rows, ws);
      SameShapes(nodes, o.nodes) && DcEntries(o.nodes, o.queued) &&
      forall k :: 0 <= k < |o.emitted| ==> o.emitted[k].Failed?
    decreases |ws|
  {
    if ws != [] {
      var prev := ReloadSpec(nodes, rows, ws[..|ws| - 1]);
      ReloadKeepsShape(nodes, rows, ws[..|ws| - 1]);
      RebindAllShape(prev.nodes, rows, ws[|ws| - 1]);
      ShapeKeepsStore(prev.nodes, RebindAll(prev.nodes, rows, ws[|ws| - 1]).nodes, prev.queued);
    }
  }

  /** One more container of Reload mode, seen from the loop: the store stays well formed and `file` keeps its rows. */
  lemma ReloadStep(nodes: seq<FilterRecord>, rows: seq<FilterId>, ws: seq<WrappedDc>, i: nat, file: FilterId)
    requires WellFormed(nodes) && file < |nodes| && rows == nodes[file].rows && i < |ws|
    ensures InStore(nodes, rows)
    ensures var acc := ReloadSpec(nodes, rows, ws[..i]);
      WellFormed(acc.nodes) && acc.nodes[file].rows == rows &&
      ReloadSpec(nodes, rows, ws[..i + 1]) ==
        var b := RebindAll(acc.nodes, rows, ws[i]);
        Outcome(b.nodes, acc.queued + [b.filter], acc.emitted + b.faults)
  {
    var acc := ReloadSpec(nodes, rows, ws[..i]);
    ReloadKeepsShape(nodes, rows, ws[..i]);
    ShapeKeepsStore(nodes, acc.nodes, []);
    assert SameShape(nodes[file], acc.nodes[file]);
    assert ws[..i + 1][..i] == ws[..i];
  }

  /** One more container of Reload mode queues the last same-named child among the filters as they were. */
  lemma ReloadQueuesOneMore(nodes: seq<FilterRecord>, rows: seq<FilterId>, ws: seq<WrappedDc>)
    requires InStore(nodes, rows) && ws != []
    ensures ReloadSpec(nodes, rows, ws).queued ==
      ReloadSpec(nodes, rows, ws[..|ws| - 1]).queued + [LastRebound(nodes, rows, ws[|ws| - 1].name)]
  {
    var n := |ws| - 1;
    ReloadKeepsShape(nodes, rows, ws[..n]);
    var prev := ReloadSpec(nodes, rows, ws[..n]);
    RebindAllMeaning(prev.nodes, rows, ws[n]);
    LastReboundIgnoresWrapping(nodes, prev.nodes, rows, ws[n].name);
  }

  /**
   * Reload mode queues, for each buffered container in order, the last child
   * with its name (null when that child is no data-container filter or there
   * is none), and creates no filter.
   */
  lemma {:induction false} ReloadQueuesLastMatch(nodes: seq<FilterRecord>, rows: seq<FilterId>, ws: seq<WrappedDc>)
    requires InStore(nodes, rows)
    ensures var o := ReloadSpec(nodes, rows, ws);
      |o.nodes| == |nodes| &&
      forall k :: 0 <= k < |ws| ==> o.queued[k] == LastRebound(nodes, rows, ws[k].name)
    decreases |ws|
  {
    if ws != [] {
      var n := |ws| - 1;
      ReloadQueuesLastMatch(nodes, rows, ws[..n]);
      ReloadQueuesOneMore(nodes, rows, ws);
      var prev, o := ReloadSpec(nodes, rows, ws[..n]), ReloadSpec(nodes, rows, ws);
      forall k | 0 <= k < |ws|
        ensures o.queued[k] == LastRebound(nodes, rows, ws[k].name)
      {
        if k < n {
          assert ws[..n][k] == ws[k];
          assert o.queued[k] == prev.queued[k];
        }
      }
    }
  }

  /** The buffer's materialisation in either mode. */
  function MaterialiseSpec(nodes: seq<FilterRecord>, loadType: LoadType, file: FilterId, ws: seq<WrappedDc>): (o: Outcome)
    requires WellFormed(nodes) && file < |nodes|
    ensures |o.queued| == |ws|
  {
    match loadType
    case Import =>
      var ids := Ids(|nodes|, |ws|);
      Outcome(ImportSpec(nodes, file, ws), Lift(ids), AddedEvents(ids))
    case Reload =>
      ReloadSpec(nodes, nodes[file].rows, ws)
  }

  /**
   * Materialising keeps the store well formed, keeps every older filter's
   * class and every guard free, queues only data-container filters (or nulls)
   * and reports no progress.
   */
  lemma MaterialiseKeepsStore(nodes: seq<FilterRecord>, loadType: LoadType, file: FilterId, ws: seq<WrappedDc>,
                              q: seq<Option<FilterId>>)
    requires WellFormed(nodes) && file < |nodes|
    ensures var o := MaterialiseSpec(nodes, loadType, file, ws);
      WellFormed(o.nodes) && Extends(nodes, o.nodes) &&
      (GuardsFree(nodes) ==> GuardsFree(o.nodes)) &&
      (DcEntries(nodes, q) ==> DcEntries(o.nodes, q + o.queued)) &&
      (forall k :: 0 <= k < |o.emitted| ==> !o.emitted[k].DataFilterApplied?)
  {
    var o := MaterialiseSpec(nodes, loadType, file, ws);
    match loadType
    case Import =>
      ImportKeepsStore(nodes, file, ws);
      ExtendsKeepsEntries(nodes, o.nodes, q);
    case Reload =>
      ReloadKeepsShape(nodes, nodes[file].rows, ws);
      ShapeKeepsStore(nodes, o.nodes, q);
  }

  /** The barrier reports no progress: neither the materialisation's events nor the selection and unblocking. */
  lemma BarrierQuiet(nodes: seq<FilterRecord>, loadType: LoadType, file: FilterId, ws: seq<WrappedDc>,
                     e: seq<Event>, q: seq<Option<FilterId>>)
    requires WellFormed(nodes) && file < |nodes|
    ensures AppliedCounts(e + MaterialiseSpec(nodes, loadType, file, ws).emitted + [SelectEvent(q), BlockRender(false)])
            == AppliedCounts(e)
  {
    var o := MaterialiseSpec(nodes, loadType, file, ws);
    MaterialiseKeepsStore(nodes, loadType, file, ws, []);
    AppendAssoc(e, o.emitted, [SelectEvent(q), BlockRender(false)]);
    QuietEvents(e, o.emitted + [SelectEvent(q), BlockRender(false)]);
  }

  /** What `selectFilter(queue.back())` does: select the last queued filter; an empty queue has no back. */
  function SelectEvent(q: seq<Option<FilterId>>): (e: Event)
    ensures q != [] ==> e == FilterSelected(q[|q| - 1])
    ensures q == [] ==> e == Failed(SelectOnEmptyQueue)
  {
    if q == [] then Failed(SelectOnEmptyQueue) else FilterSelected(q[|q| - 1])
  }

  // ---------------------------------------------------------------------------
  // Applying

  /** The events of applying one queued entry as the `count`-th of its run. */
  function ApplyEvents(filter: Option<FilterId>, count: int, loadType: LoadType): seq<Event> {
    (match filter case None => [Failed(ApplyNull)] case Some(id) => [DataImported(id)]) +
    [DataFilterApplied(count)] +
    (if loadType == Reload && filter.Some? then [DataReloaded(filter.value)] else [])
  }

  /** The progress counts reported by `dataFilterApplied`, in order. */
  function AppliedCounts(es: seq<Event>): seq<int> {
    if es == [] then []
    else AppliedCounts(es[..|es| - 1]) + (if es[|es| - 1].DataFilterApplied? then [es[|es| - 1].count] else [])
  }

  /** `c + 1`, `c + 2`, ..., `c + n`. */
  function CountingFrom(c: int, n: nat): (s: seq<int>)
    ensures |s| == n && forall k :: 0 <= k < n ==> s[k] == c + k + 1
  {
    seq(n, k requires 0 <= k < n => c + k + 1)
  }

  lemma CountingFromSnoc(c: int, n: nat)
    ensures CountingFrom(c, n + 1) == CountingFrom(c, n) + [c + n + 1]
  {
  }

  lemma {:induction false} AppliedCountsAppend(a: seq<Event>, b: seq<Event>)
    ensures AppliedCounts(a + b) == AppliedCounts(a) + AppliedCounts(b)
    decreases |b|
  {
    if b == [] {
      assert a + b == a;
    } else {
      var n := |b| - 1;
      assert (a + b)[..|a + b| - 1] == a + b[..n];
      AppliedCountsAppend(a, b[..n]);
    }
  }

  /** Events that report no progress leave the reported counts as they were. */
  lemma {:induction false} QuietEvents(a: seq<Event>, b: seq<Event>)
    requires forall k :: 0 <= k < |b| ==> !b[k].DataFilterApplied?
    ensures AppliedCounts(a + b) == AppliedCounts(a)
    decreases |b|
  {
    AppliedCountsAppend(a, b);
    if b != [] {
      QuietEvents(a, b[..|b| - 1]);
      AppliedCountsAppend(a, b[..|b| - 1]);
    }
  }

  /** Applying one entry reports exactly its count. */
  lemma ApplyReportsCount(a: seq<Event>, filter: Option<FilterId>, count: int, loadType: LoadType)
    ensures AppliedCounts(a + ApplyEvents(filter, count, loadType)) == AppliedCounts(a) + [count]
  {
    var head := match filter case None => [Failed(ApplyNull)] case Some(id) => [DataImported(id)];
    var tail: seq<Event> := if loadType == Reload && filter.Some? then [DataReloaded(filter.value)] else [];
    assert ApplyEvents(filter, count, loadType) == head + [DataFilterApplied(count)] + tail;
    AppliedCountsAppend(a, ApplyEvents(filter, count, loadType));
    AppliedCountsAppend(head + [DataFilterApplied(count)], tail);
    QuietEvents([], head);
    assert [] + head == head;
    assert AppliedCounts(head + [DataFilterApplied(count)]) == [count];
    QuietEvents([], tail);
    assert [] + tail == tail;
  }

  /** Applying one queued entry: a data-container filter is finished; a null entry (the recorded fault) changes nothing. */
  function FinishOne(nodes: seq<FilterRecord>, e: Option<FilterId>, bridge: BridgeBehaviour): seq<FilterRecord>
    requires e.Some? ==> e.value < |nodes| && nodes[e.value].wrapped.Some?
  {
    match e
    case None => nodes
    case Some(id) => nodes[id := FinishedRecord(nodes[id], bridge)]
  }

  /** The store once the entries of `q` have been applied, front first. */
  function FinishAll(nodes: seq<FilterRecord>, q: seq<Option<FilterId>>, bridge: BridgeBehaviour): (r: seq<FilterRecord>)
    requires WellFormed(nodes) && DcEntries(nodes, q)
    ensures SameShapes(nodes, r)
    decreases |q|
  {
    if q == [] then nodes
    else
      var n := |q| - 1;
      assert DcEntries(nodes, q[..n]) by {
        forall k | 0 <= k < n ensures q[..n][k] == q[k] { }
      }
      var prev := FinishAll(nodes, q[..n], bridge);
      assert q[n].Some? ==> q[n].value < |nodes| && SameShape(nodes[q[n].value], prev[q[n].value]);
      var r := FinishOne(prev, q[n], bridge);
      assert forall i :: 0 <= i < |nodes| ==> SameShape(prev[i], r[i]);
      r
  }

  /** A queue grown by one entry: the store is the previous one with that entry applied. */
  lemma FinishAllSnoc(nodes: seq<FilterRecord>, q: seq<Option<FilterId>>, e: Option<FilterId>, bridge: BridgeBehaviour)
    requires WellFormed(nodes) && DcEntries(nodes, q + [e])
    ensures DcEntries(nodes, q)
    ensures var prev := FinishAll(nodes, q, bridge);
      (e.Some? ==> e.value < |prev| && prev[e.value].wrapped.Some?) &&
      FinishAll(nodes, q + [e], bridge) == FinishOne(prev, e, bridge)
  {
    assert (q + [e])[..|q|] == q;
    assert (q + [e])[|q|] == e;
    assert DcEntries(nodes, q) by {
      forall k | 0 <= k < |q| ensures (q + [e])[k] == q[k] { }
    }
    var prev := FinishAll(nodes, q, bridge);
    assert e.Some? ==> SameShape(nodes[e.value], prev[e.value]);
  }

  /**
   * Applying a queue finishes exactly the data-container filters it holds: a
   * filter queued once ends as `apply` leaves it, every queued filter shows its
   * finished data set, and a filter not in the queue is left as it was.
   */
  lemma {:induction false} FinishAllMeaning(nodes: seq<FilterRecord>, q: seq<Option<FilterId>>, bridge: BridgeBehaviour)
    requires WellFormed(nodes) && DcEntries(nodes, q)
    ensures var r := FinishAll(nodes, q, bridge);
      forall i :: 0 <= i < |nodes| ==>
        (Count(q, Some(i)) == 0 ==> r[i] == nodes[i]) &&
        (Count(q, Some(i)) == 1 ==> nodes[i].wrapped.Some? && r[i] == FinishedRecord(nodes[i], bridge)) &&
        (Count(q, Some(i)) >= 1 ==> r[i].wrapped.Some? && r[i].output == Some(r[i].wrapped.value.dataSet))
    decreases |q|
  {
    if q != [] {
      var n := |q| - 1;
      assert q == q[..n] + [q[n]];
      FinishAllSnoc(nodes, q[..n], q[n], bridge);
      FinishAllMeaning(nodes, q[..n], bridge);
      var prev, r := FinishAll(nodes, q[..n], bridge), FinishAll(nodes, q, bridge);
      forall i | 0 <= i < |nodes|
        ensures (Count(q, Some(i)) == 0 ==> r[i] == nodes[i]) &&
                (Count(q, Some(i)) == 1 ==> nodes[i].wrapped.Some? && r[i] == FinishedRecord(nodes[i], bridge)) &&
                (Count(q, Some(i)) >= 1 ==> r[i].wrapped.Some? && r[i].output == Some(r[i].wrapped.value.dataSet))
      {
        CountSnoc(q[..n], q[n], Some(i));
        if q[n] != Some(i) {
          assert r[i] == prev[i];
        }
      }
    }
  }

  /** One more entry of `q0` applied: `FinishAll` grows by one `FinishOne`. */
  lemma FinishAdvance(nodes0: seq<FilterRecord>, q0: seq<Option<FilterId>>, done: seq<Option<FilterId>>,
                      rest: seq<Option<FilterId>>, bridge: BridgeBehaviour)
    requires WellFormed(nodes0) && DcEntries(nodes0, q0) && done + rest == q0 && rest != []
    ensures DcEntries(nodes0, done) && DcEntries(nodes0, done + [rest[0]])
    ensures done + [rest[0]] + rest[1..] == q0
    ensures var prev := FinishAll(nodes0, done, bridge);
      (rest[0].Some? ==> rest[0].value < |prev| && prev[rest[0].value].wrapped.Some?) &&
      FinishAll(nodes0, done + [rest[0]], bridge) == FinishOne(prev, rest[0], bridge)
  {
    assert done + [rest[0]] == q0[..|done| + 1];
    DcEntriesPrefix(nodes0, q0, |done| + 1);
    FinishAllSnoc(nodes0, done, rest[0], bridge);
    AppendAssoc(done, [rest[0]], rest[1..]);
    assert [rest[0]] + rest[1..] == rest;
  }

  lemma CountsAdvance(base: seq<int>, c: int, n: nat)
    ensures base + CountingFrom(c, n) + [c + n + 1] == base + CountingFrom(c, n + 1)
  {
    CountingFromSnoc(c, n);
    AppendAssoc(base, CountingFrom(c, n), [c + n + 1]);
  }

  /** A prefix of a queue keeps its entries. */
  lemma DcEntriesPrefix(nodes: seq<FilterRecord>, q: seq<Option<FilterId>>, i: nat)
    requires DcEntries(nodes, q) && i <= |q|
    ensures DcEntries(nodes, q[..i])
  {
    forall k | 0 <= k < i ensures q[..i][k] == q[k] { }
  }

  /** Every batch's entries, one batch after another. */
  function Flatten<T>(bs: seq<seq<T>>): (s: seq<T>)
    decreases |bs|
  {
    if bs == [] then [] else Flatten(bs[..|bs| - 1]) + bs[|bs| - 1]
  }

  /** The prefix of `pairs` keeps its files. */
  lemma FilesOkPrefix(nodes: seq<FilterRecord>, pairs: seq<DcaFilePair>, i: nat)
    requires FilesOk(nodes, pairs) && i <= |pairs|
    ensures FilesOk(nodes, pairs[..i])
  {
    forall k | 0 <= k < i ensures pairs[..i][k] == pairs[k] { }
  }

  /**
   * The store and the apply queue after the barriers of a run of imports:
   * starting from queue `q`, the `k`-th pair's batch `bs[k]` is materialised
   * under its file filter, one pair after another. `emitted` collects the
   * materialisations' events.
   */
  ghost function ImportRun(nodes: seq<FilterRecord>, loadType: LoadType, q: seq<Option<FilterId>>,
                           pairs: seq<DcaFilePair>, bs: seq<seq<WrappedDc>>): (o: Outcome)
    requires WellFormed(nodes) && DcEntries(nodes, q) && FilesOk(nodes, pairs) && |bs| == |pairs|
    ensures WellFormed(o.nodes) && Extends(nodes, o.nodes) && DcEntries(o.nodes, o.queued)
    ensures |o.queued| == |q| + |Flatten(bs)| && o.queued[..|q|] == q
    decreases |pairs|
  {
    if pairs == [] then Outcome(nodes, q, [])
    else
      var n := |pairs| - 1;
      FilesOkPrefix(nodes, pairs, n);
      var prev := ImportRun(nodes, loadType, q, pairs[..n], bs[..n]);
      assert IsFileFilter(nodes, pairs[n].file);
      var o := MaterialiseSpec(prev.nodes, loadType, pairs[n].file, bs[n]);
      MaterialiseKeepsStore(prev.nodes, loadType, pairs[n].file, bs[n], prev.queued);
      assert bs == bs[..n] + [bs[n]];
      assert (prev.queued + o.queued)[..|q|] == prev.queued[..|q|];
      Outcome(o.nodes, prev.queued + o.queued, prev.emitted + o.emitted)
  }

  /** One more pair: its batch is materialised on the store the earlier pairs left, and its entries queued behind theirs. */
  lemma ImportRunSnoc(nodes: seq<FilterRecord>, loadType: LoadType, q: seq<Option<FilterId>>,
                      pairs: seq<DcaFilePair>, bs: seq<seq<WrappedDc>>, p: DcaFilePair, b: seq<WrappedDc>)
    requires WellFormed(nodes) && DcEntries(nodes, q) && FilesOk(nodes, pairs + [p]) && |bs| == |pairs|
    ensures FilesOk(nodes, pairs)
    ensures IsFileFilter(ImportRun(nodes, loadType, q, pairs, bs).nodes, p.file)
    ensures var prev := ImportRun(nodes, loadType, q, pairs, bs);
      var o := MaterialiseSpec(prev.nodes, loadType, p.file, b);
      ImportRun(nodes, loadType, q, pairs + [p], bs + [b]) == Outcome(o.nodes, prev.queued + o.queued, prev.emitted + o.emitted)
  {
    assert (pairs + [p])[..|pairs|] == pairs && (bs + [b])[..|bs|] == bs;
    assert (pairs + [p])[|pairs|] == p;
    FilesOkPrefix(nodes, pairs + [p], |pairs|);
  }

  /** Store `nodes` and queue `queued` are what `ImportRun` gives for `pairs` and their batches `bs`. */
  ghost predicate RunReaches(nodes0: seq<FilterRecord>, loadType: LoadType, q0: seq<Option<FilterId>>,
                             pairs: seq<DcaFilePair>, bs: seq<seq<WrappedDc>>,
                             nodes: seq<FilterRecord>, queued: seq<Option<FilterId>>)
  {
    WellFormed(nodes0) && DcEntries(nodes0, q0) && FilesOk(nodes0, pairs) && |bs| == |pairs| &&
    var o := ImportRun(nodes0, loadType, q0, pairs, bs);
    nodes == o.nodes && queued == o.queued
  }

  /**
   * After the run of `pairs` the apply workers drained its whole queue: the
   * queue is empty, `applied` grew by it, the store is the run's store with
   * every queued entry finished, and the counts 1, 2, ... were reported.
   */
  ghost predicate RunApplied(nodes0: seq<FilterRecord>, loadType: LoadType, q0: seq<Option<FilterId>>,
                             applied0: seq<Option<FilterId>>, counts0: seq<int>, pairs: seq<DcaFilePair>,
                             bs: seq<seq<WrappedDc>>, bridge: BridgeBehaviour, queue: seq<Option<FilterId>>,
                             applied: seq<Option<FilterId>>, nodes: seq<FilterRecord>, counts: seq<int>)
  {
    WellFormed(nodes0) && DcEntries(nodes0, q0) && FilesOk(nodes0, pairs) && |bs| == |pairs| &&
    var o := ImportRun(nodes0, loadType, q0, pairs, bs);
    queue == [] && applied == applied0 + o.queued && nodes == FinishAll(o.nodes, o.queued, bridge) &&
    counts == counts0 + CountingFrom(0, |o.queued|)
  }

  /** Draining the queue a run of imports reached completes that run. */
  lemma RunCompose(nodes0: seq<FilterRecord>, loadType: LoadType, q0: seq<Option<FilterId>>,
                   applied0: seq<Option<FilterId>>, counts0: seq<int>, pairs: seq<DcaFilePair>,
                   bs: seq<seq<WrappedDc>>, bridge: BridgeBehaviour, n1: seq<FilterRecord>, u1: seq<Option<FilterId>>,
                   queue: seq<Option<FilterId>>, applied: seq<Option<FilterId>>, nodes: seq<FilterRecord>, counts: seq<int>)
    requires RunReaches(nodes0, loadType, q0, pairs, bs, n1, u1)
    requires queue == [] && applied == applied0 + u1 && nodes == FinishAll(n1, u1, bridge)
    requires counts == counts0 + CountingFrom(0, |u1|)
    ensures RunApplied(nodes0, loadType, q0, applied0, counts0, pairs, bs, bridge, queue, applied, nodes, counts)
  {
  }

  /**
   * The import side of a run over `pairs`: each pair imported once, in
   * order, its containers claimed in order, and one batch per pair holding
   * exactly the non-null wrap results of that pair's containers.
   */
  ghost predicate ImportedPairs(bridge: BridgeBehaviour, imported0: seq<DcaFilePair>, claimed0: seq<DataContainer>,
                                batches0: seq<seq<WrappedDc>>, pairs: seq<DcaFilePair>, imported: seq<DcaFilePair>,
                                claimed: seq<DataContainer>, batches: seq<seq<WrappedDc>>)
  {
    imported == imported0 + pairs && claimed == claimed0 + AllContainers(pairs) &&
    |batches| == |batches0| + |pairs| && batches[..|batches0|] == batches0 &&
    forall k :: 0 <= k < |pairs| ==> ExactlyWrapped(bridge, batches[|batches0| + k], pairs[k].dca)
  }

  /** The same step seen from a loop over `pairs`: the store and queue after the `i`-th barrier are `ImportRun` over one pair more. */
  lemma ImportRunNext(nodes0: seq<FilterRecord>, loadType: LoadType, q0: seq<Option<FilterId>>, pairs: seq<DcaFilePair>,
                      i: nat, bs: seq<seq<WrappedDc>>, bs': seq<seq<WrappedDc>>,
                      n1: seq<FilterRecord>, u1: seq<Option<FilterId>>, n2: seq<FilterRecord>, u2: seq<Option<FilterId>>)
    requires FilesOk(nodes0, pairs) && i < |pairs| && |bs'| == i + 1 && bs'[..i] == bs
    requires RunReaches(nodes0, loadType, q0, pairs[..i], bs, n1, u1)
    requires WellFormed(n1) && pairs[i].file < |n1|
    requires var m := MaterialiseSpec(n1, loadType, pairs[i].file, bs'[i]); n2 == m.nodes && u2 == u1 + m.queued
    ensures RunReaches(nodes0, loadType, q0, pairs[..i + 1], bs', n2, u2)
  {
    FilesOkPrefix(nodes0, pairs, i + 1);
    TakeSnoc(pairs, i);
    LastSplit(bs', bs);
    ImportRunSnoc(nodes0, loadType, q0, pairs[..i], bs, pairs[i], bs'[i]);
  }

  /**
   * In Import mode a run of imports creates one filter per buffered container,
   * in batch order, and queues exactly those filters, in creation order, behind
   * the entries already waiting.
   */
  lemma {:induction false} ImportRunQueuesNewFilters(nodes: seq<FilterRecord>, q: seq<Option<FilterId>>,
                                                     pairs: seq<DcaFilePair>, bs: seq<seq<WrappedDc>>)
    requires WellFormed(nodes) && DcEntries(nodes, q) && FilesOk(nodes, pairs) && |bs| == |pairs|
    ensures var o := ImportRun(nodes, Import, q, pairs, bs);
      |o.nodes| == |nodes| + |Flatten(bs)| && o.queued == q + Lift(Ids(|nodes|, |Flatten(bs)|))
    decreases |pairs|
  {
    if pairs != [] {
      var n := |pairs| - 1;
      assert pairs == pairs[..n] + [pairs[n]] && bs == bs[..n] + [bs[n]];
      ImportRunSnoc(nodes, Import, q, pairs[..n], bs[..n], pairs[n], bs[n]);
      ImportRunQueuesNewFilters(nodes, q, pairs[..n], bs[..n]);
      var prev := ImportRun(nodes, Import, q, pairs[..n], bs[..n]);
      var m, c := |Flatten(bs[..n])|, |bs[n]|;
      assert |prev.nodes| == |nodes| + m && prev.queued == q + Lift(Ids(|nodes|, m));
      var o := MaterialiseSpec(prev.nodes, Import, pairs[n].file, bs[n]);
      assert |o.nodes| == |prev.nodes| + c && o.queued == Lift(Ids(|nodes| + m, c));
      assert Flatten(bs) == Flatten(bs[..n]) + bs[n];
      IdsAppend(|nodes|, m, c);
      LiftAppend(Ids(|nodes|, m), Ids(|nodes| + m, c));
      AppendAssoc(q, Lift(Ids(|nodes|, m)), Lift(Ids(|nodes| + m, c)));
    }
  }

  lemma IdsAppend(start: nat, m: nat, c: nat)
    ensures Ids(start, m + c) == Ids(start, m) + Ids(start + m, c)
  {
    var a, b := Ids(start, m + c), Ids(start, m) + Ids(start + m, c);
    assert |a| == |b|;
    forall k | 0 <= k < m + c ensures a[k] == b[k] {
      if k >= m {
        assert b[k] == Ids(start + m, c)[k - m];
      }
    }
  }

  /** The concatenated data containers of a run of pairs. */
  function AllContainers(pairs: seq<DcaFilePair>): seq<DataContainer> {
    if pairs == [] then [] else AllContainers(pairs[..|pairs| - 1]) + pairs[|pairs| - 1].dca
  }

  /** Each batch of `bs` holds exactly the wrap results of the matching pair's containers. */
  ghost predicate BatchesMatch(bridge: BridgeBehaviour, bs: seq<seq<WrappedDc>>, ps: seq<DcaFilePair>)
    decreases |ps|
  {
    |bs| == |ps| &&
    (ps == [] || (BatchesMatch(bridge, bs[..|bs| - 1], ps[..|ps| - 1]) &&
                  ExactlyWrapped(bridge, bs[|bs| - 1], ps[|ps| - 1].dca)))
  }

  lemma BatchesMatchSnoc(bridge: BridgeBehaviour, bs: seq<seq<WrappedDc>>, ps: seq<DcaFilePair>,
                         b: seq<WrappedDc>, p: DcaFilePair)
    requires BatchesMatch(bridge, bs, ps) && ExactlyWrapped(bridge, b, p.dca)
    ensures BatchesMatch(bridge, bs + [b], ps + [p])
  {
    assert (bs + [b])[..|bs|] == bs && (ps + [p])[..|ps|] == ps;
  }

  /** A list of batches grown by one keeps its prefix, and its part after `from` grows by the new batch. */
  lemma BatchesGrow(from: nat, before: seq<seq<WrappedDc>>, after: seq<seq<WrappedDc>>)
    requires from <= |before| && |after| == |before| + 1 && after[..|before|] == before
    ensures after[..from] == before[..from] && after[from..] == before[from..] + [after[|before|]]
  {
    assert after == before + [after[|before|]];
  }

  lemma {:induction false} BatchesMatchMeans(bridge: BridgeBehaviour, bs: seq<seq<WrappedDc>>, ps: seq<DcaFilePair>)
    requires BatchesMatch(bridge, bs, ps)
    ensures forall k :: 0 <= k < |ps| ==> ExactlyWrapped(bridge, bs[k], ps[k].dca)
    decreases |ps|
  {
    if ps != [] {
      var n := |ps| - 1;
      BatchesMatchMeans(bridge, bs[..n], ps[..n]);
      forall k | 0 <= k < |ps|
        ensures ExactlyWrapped(bridge, bs[k], ps[k].dca)
      {
        if k < n {
          assert bs[..n][k] == bs[k] && ps[..n][k] == ps[k];
        }
      }
    }
  }

  /** One more pair taken from the front: the imported prefix and its containers grow by that pair. */
  lemma PairsStep(pairs: seq<DcaFilePair>, i: nat)
    requires i < |pairs|
    ensures pairs[..i + 1] == pairs[..i] + [pairs[i]]
    ensures AllContainers(pairs[..i + 1]) == AllContainers(pairs[..i]) + pairs[i].dca
  {
    assert pairs[..i + 1][..i] == pairs[..i];
  }

  /** How many times `x` occurs in `s` (counted from the back, the end a buffer grows at). */
  function Count<T(==)>(s: seq<T>, x: T): nat {
    if s == [] then 0 else Count(s[..|s| - 1], x) + (if s[|s| - 1] == x then 1 else 0)
  }

  lemma CountSnoc<T>(s: seq<T>, y: T, x: T)
    ensures Count(s + [y], x) == Count(s, x) + (if y == x then 1 else 0)
  {
    assert (s + [y])[..|s|] == s;
  }

  /** `Count` is the multiplicity in the sequence's multiset. */
  lemma {:induction false} CountIsMultiplicity<T>(s: seq<T>, x: T)
    ensures Count(s, x) == multiset(s)[x]
  {
    if s != [] {
      var n := |s| - 1;
      CountIsMultiplicity(s[..n], x);
      assert s == s[..n] + [s[n]];
    }
  }

  /** How many times `x` is the non-null wrap result of an entry of `dcs`. */
  function WrappedCount(bridge: BridgeBehaviour, dcs: seq<DataContainer>, x: WrappedDc): nat {
    if dcs == [] then 0 else HeldBy(bridge, Holding(dcs[0]), x) + WrappedCount(bridge, dcs[1..], x)
  }

  /** `WrappedCount` is the multiplicity in the multiset of `Wrapped`. */
  lemma {:induction false} WrappedCountIsMultiplicity(bridge: BridgeBehaviour, dcs: seq<DataContainer>,
                                                      x: WrappedDc)
    ensures WrappedCount(bridge, dcs, x) == multiset(Wrapped(bridge, dcs))[x]
  {
    if dcs != [] {
      WrappedCountIsMultiplicity(bridge, dcs[1..], x);
      assert Wrapped(bridge, dcs) == WrapList(bridge, dcs[0]) + Wrapped(bridge, dcs[1..]);
    }
  }

  /** `batch` holds the non-null wrap results of `dcs`, each as often as it arises. */
  ghost predicate ExactlyWrapped(bridge: BridgeBehaviour, batch: seq<WrappedDc>, dcs: seq<DataContainer>) {
    forall x :: Count(batch, x) == WrappedCount(bridge, dcs, x)
  }

  /** `ExactlyWrapped` says that the batch is a permutation of the non-null wrap results. */
  lemma ExactlyWrappedIsPermutation(bridge: BridgeBehaviour, batch: seq<WrappedDc>, dcs: seq<DataContainer>)
    ensures ExactlyWrapped(bridge, batch, dcs) <==> multiset(batch) == multiset(Wrapped(bridge, dcs))
  {
    forall x
      ensures Count(batch, x) == multiset(batch)[x] && WrappedCount(bridge, dcs, x) == multiset(Wrapped(bridge, dcs))[x]
    {
      CountIsMultiplicity(batch, x);
      WrappedCountIsMultiplicity(bridge, dcs, x);
    }
  }

  /**
   * The accounting of one import's wrap results: what is in the buffer, what
   * the workers are about to deliver and what the rest of the work list will
   * give are together the non-null wrap results of the whole list.
   */
  ghost predicate Accounted(bridge: BridgeBehaviour, buffer: seq<WrappedDc>, workers: seq<WorkerState>,
                            order: seq<DataContainer>, order0: seq<DataContainer>)
  {
    forall x :: Count(buffer, x) + HeldCount(bridge, workers, x) + WrappedCount(bridge, order, x) == WrappedCount(bridge, order0, x)
  }

  /** A worker delivering what it holds keeps the accounting. */
  lemma DeliverAccounted(bridge: BridgeBehaviour, buffer: seq<WrappedDc>, workers: seq<WorkerState>,
                         w: nat, order: seq<DataContainer>, order0: seq<DataContainer>)
    requires Accounted(bridge, buffer, workers, order, order0) && w < |workers| && workers[w].Holding?
    ensures Accounted(bridge, buffer + WrapList(bridge, workers[w].dc), workers[w := Looping], order, order0)
  {
    var dc := workers[w].dc;
    var buffer' := buffer + WrapList(bridge, dc);
    forall x
      ensures Count(buffer', x) + HeldCount(bridge, workers[w := Looping], x) + WrappedCount(bridge, order, x)
              == WrappedCount(bridge, order0, x)
    {
      UpdateHeld(bridge, workers, w, Looping, x);
      if Wrap(bridge, dc).Some? {
        CountSnoc(buffer, Wrap(bridge, dc).value, x);
      } else {
        assert buffer' == buffer;
      }
    }
  }

  /** A worker taking the front container keeps the accounting. */
  lemma ClaimAccounted(bridge: BridgeBehaviour, buffer: seq<WrappedDc>, workers: seq<WorkerState>,
                       w: nat, order: seq<DataContainer>, order0: seq<DataContainer>)
    requires Accounted(bridge, buffer, workers, order, order0) && w < |workers| && workers[w].Looping? && order != []
    ensures Accounted(bridge, buffer, workers[w := Holding(order[0])], order[1..], order0)
  {
    forall x
      ensures Count(buffer, x) + HeldCount(bridge, workers[w := Holding(order[0])], x) + WrappedCount(bridge, order[1..], x)
              == WrappedCount(bridge, order0, x)
    {
      UpdateHeld(bridge, workers, w, Holding(order[0]), x);
    }
  }

  /** A worker leaving its loop keeps the accounting. */
  lemma LeaveAccounted(bridge: BridgeBehaviour, buffer: seq<WrappedDc>, workers: seq<WorkerState>,
                       w: nat, order: seq<DataContainer>, order0: seq<DataContainer>)
    requires Accounted(bridge, buffer, workers, order, order0) && w < |workers| && workers[w].Looping?
    ensures Accounted(bridge, buffer, workers[w := Done], order, order0)
  {
    forall x
      ensures Count(buffer, x) + HeldCount(bridge, workers[w := Done], x) + WrappedCount(bridge, order, x)
              == WrappedCount(bridge, order0, x)
    {
      UpdateHeld(bridge, workers, w, Done, x);
    }
  }

  lemma AppendAssoc<T>(a: seq<T>, b: seq<T>, c: seq<T>)
    ensures a + b + c == a + (b + c)
  {
  }

  lemma TakeSnoc<T>(s: seq<T>, i: nat)
    requires i < |s|
    ensures s[..i + 1] == s[..i] + [s[i]] && s[..i + 1][..i] == s[..i]
  {
  }

  /** A sequence one longer than its prefix `t` is `t` and its last element. */
  lemma LastSplit<T>(s: seq<T>, t: seq<T>)
    requires |s| == |t| + 1 && s[..|t|] == t
    ensures s == t + [s[|t|]]
  {
  }

  lemma TakeAll<T>(s: seq<T>)
    ensures s[..|s|] == s && s[..0] == []
  {
  }

  /** One more created filter: the spec grows by that filter, and so do the new identities. */
  lemma CreateStep(nodes: seq<FilterRecord>, file: FilterId, buffer: seq<WrappedDc>, i: nat)
    requires file < |nodes| && i < |buffer|
    ensures ImportSpec(nodes, file, buffer[..i + 1]) ==
      WithNewChild(ImportSpec(nodes, file, buffer[..i]), file, InitialRecord(buffer[i], Some(file)))
    ensures Ids(|nodes|, i + 1) == Ids(|nodes|, i) + [|nodes| + i]
  {
    TakeSnoc(buffer, i);
    assert buffer[..i + 1][|buffer[..i + 1]| - 1] == buffer[i];
    var next, snoc := Ids(|nodes|, i + 1), Ids(|nodes|, i) + [|nodes| + i];
    assert |next| == |snoc|;
    forall k | 0 <= k < i + 1 ensures next[k] == snoc[k] { }
  }

  /** The three kinds of apply-worker steps. */
  datatype ApplyStep = StartWorker | PopAndApply | WorkerExits

  class ConcurrentImport {
    /** The filter tree the pipeline adds to. */
    const store: FilterStore
    /** What `SIMPLVtkBridge` makes of the containers: wrap results and finished data sets. */
    const bridge: BridgeBehaviour
    /** `m_ThreadCount`. */
    const threadCount: nat

    var loadType: LoadType
    /** `m_WrappedList`: pairs waiting to be imported. */
    var wrappedList: seq<DcaFilePair>
    /** `m_FileNameFilter`: the file filter of the pair being imported. */
    var fileNameFilter: Option<FilterId>
    /** `m_ImportDataContainerOrder`: the wrap workers' work list. */
    var importOrder: seq<DataContainer>
    /** `m_WrappedDataContainers`: the collection buffer. */
    var wrappedDcs: seq<WrappedDc>
    /** `m_ThreadsRemaining`: the barrier counter. */
    var threadsRemaining: int
    /** `m_UnappliedDataFilters`: filters waiting to be applied; null entries come from Reload mode. */
    var unapplied: seq<Option<FilterId>>
    /** `m_AppliedFilterCount`. */
    var appliedCount: int
    /** Whether `m_FilterLock` is held (from the start of an import to its materialisation). */
    var filterLocked: bool
    /** Apply workers launched but not yet running, and apply workers running. */
    var applyPending: nat
    var applyRunning: nat
    var events: seq<Event>

    /** Pairs whose import has begun, in order. */
    ghost var imported: seq<DcaFilePair>
    /** Containers the wrap workers took off their work list, in order. */
    ghost var claimed: seq<DataContainer>
    /** The buffer each materialisation consumed. */
    ghost var batches: seq<seq<WrappedDc>>
    /** Every entry popped from the apply queue, in order. */
    ghost var applied: seq<Option<FilterId>>

    /** The part of the invariant about the store and the two queues. */
    ghost predicate StoreOk()
      reads store, this`unapplied, this`wrappedList
    {
      store.Valid() && GuardsFree(store.nodes) && DcEntries(store.nodes, unapplied) && FilesOk(store.nodes, wrappedList)
    }

    /**
     * The store and the apply queue are what the barrier of one import leaves:
     * `batch` materialised under `file` on store `nodes0`, its entries queued
     * behind `q0`.
     */
    ghost predicate Materialised(nodes0: seq<FilterRecord>, q0: seq<Option<FilterId>>, file: FilterId,
                                 batch: seq<WrappedDc>)
      reads store, this`unapplied, this`loadType
    {
      WellFormed(nodes0) && file < |nodes0| &&
      var o := MaterialiseSpec(nodes0, loadType, file, batch);
      store.nodes == o.nodes && unapplied == q0 + o.queued
    }

    /**
     * The store and the apply queue are what the barriers of a run of imports
     * leave: `ImportRun` from store `nodes0` and queue `q0`.
     */
    ghost predicate ImportedRun(nodes0: seq<FilterRecord>, q0: seq<Option<FilterId>>, pairs: seq<DcaFilePair>,
                                bs: seq<seq<WrappedDc>>)
      reads store, this`unapplied, this`loadType
    {
      RunReaches(nodes0, loadType, q0, pairs, bs, store.nodes, unapplied)
    }

    /**
     * What a run that imported `pairs` leaves once its apply workers have
     * returned: the queue `ImportRun` builds has been applied in order, one
     * count per entry from 1 up, and the store is that run's store with every
     * queued data filter finished.
     */
    ghost predicate RanToEnd(nodes0: seq<FilterRecord>, q0: seq<Option<FilterId>>, applied0: seq<Option<FilterId>>,
                             events0: seq<Event>, pairs: seq<DcaFilePair>, bs: seq<seq<WrappedDc>>)
      reads store, this`unapplied, this`applied, this`events, this`loadType
    {
      RunApplied(nodes0, loadType, q0, applied0, AppliedCounts(events0), pairs, bs, bridge,
                 unapplied, applied, store.nodes, AppliedCounts(events))
    }

    ghost predicate Valid()
      reads store, this`unapplied, this`wrappedList, this`fileNameFilter, this`filterLocked, this`wrappedDcs
    {
      StoreOk() && threadCount >= 1 && CurrentOk(store.nodes, fileNameFilter) && (!filterLocked ==> wrappedDcs == [])
    }

    /**
     * The constructor: `poolMax` is the global thread pool's maximum, and the
     * initial load type (its default is set outside this file) is a parameter.
     */
    constructor (store: FilterStore, poolMax: int, loadType: LoadType,
                 bridge: BridgeBehaviour)
      requires store.Valid() && GuardsFree(store.nodes)
      ensures Valid() && this.store == store && this.bridge == bridge
      ensures threadCount == WorkerCount(poolMax) && this.loadType == loadType
      ensures wrappedList == [] && unapplied == [] && wrappedDcs == [] && importOrder == []
      ensures !filterLocked && applyPending == 0 && applyRunning == 0 && events == []
    {
      this.store := store;
      this.bridge := bridge;
      this.loadType := loadType;
      threadCount := WorkerCount(poolMax);
      wrappedList := [];
      fileNameFilter := None;
      importOrder := [];
      wrappedDcs := [];
      threadsRemaining := 0;
      unapplied := [];
      appliedCount := 0;
      filterLocked := false;
      applyPending := 0;
      applyRunning := 0;
      events := [];
      imported := [];
      claimed := [];
      batches := [];
      applied := [];
    }

    /** `addDataContainerArray(pair)`: the pair goes to the back of the import list; nothing else changes. */
    method AddDataContainerArray(pair: DcaFilePair)
      requires Valid() && IsFileFilter(store.nodes, pair.file)
      modifies this`wrappedList
      ensures Valid() && wrappedList == old(wrappedList) + [pair]
    {
      wrappedList := wrappedList + [pair];
    }

    /** `addDataContainerArray(filePath, dca)`: a new parentless file filter for the path, then the pair. */
    method AddFile(filePath: string, dca: seq<DataContainer>) returns (file: FilterId)
      requires Valid()
      modifies store, this`wrappedList
      ensures Valid() && file == old(|store.nodes|)
      ensures store.nodes == old(store.nodes) + [FilterRecord(FileNameFilter, filePath, filePath, None, [], None, 0, None)]
      ensures wrappedList == old(wrappedList) + [DcaFilePair(file, dca)]
    {
      file := store.NewFilter(FilterRecord(FileNameFilter, filePath, filePath, None, [], None, 0, None));
      AddDataContainerArray(DcaFilePair(file, dca));
    }

    /** `setLoadType`. */
    method SetLoadType(t: LoadType)
      modifies this`loadType
      ensures loadType == t
    {
      loadType := t;
    }

    /**
     * `importDataContainerArray`: take the pair's file filter (added to the
     * model in Import mode), make its containers the work list, block
     * rendering, take the filter lock, set the barrier to the worker count and
     * launch that many wrap workers.
     */
    method ImportDataContainerArray(pair: DcaFilePair) returns (workers: seq<WorkerState>)
      requires Valid() && !filterLocked && IsFileFilter(store.nodes, pair.file)
      modifies this`fileNameFilter, this`importOrder, this`events, this`filterLocked,
               this`threadsRemaining, this`imported
      ensures Valid() && filterLocked && wrappedDcs == []
      ensures fileNameFilter == Some(pair.file) && importOrder == pair.dca
      ensures events == old(events) + (if loadType == Import then [FilterAdded(pair.file)] else []) + [BlockRender(true)]
      ensures threadsRemaining == threadCount && workers == seq(threadCount, _ => Looping)
      ensures imported == old(imported) + [pair]
      ensures AppliedCounts(events) == AppliedCounts(old(events))
    {
      var started := (if loadType == Import then [FilterAdded(pair.file)] else []) + [BlockRender(true)];
      QuietEvents(events, started);
      fileNameFilter, importOrder, events, filterLocked, threadsRemaining, imported :=
        Some(pair.file), pair.dca, events + started, true, threadCount, imported + [pair];
      workers := seq(threadCount, _ => Looping);
    }

    /** Import mode of the barrier: one new child of the file filter per buffered container, queued. */
    method CreateFilters(file: FilterId, buffer: seq<WrappedDc>)
      requires store.Valid() && file < |store.nodes|
      modifies store, this`events, this`unapplied
      ensures store.Valid()
      ensures var o := MaterialiseSpec(old(store.nodes), Import, file, buffer);
        store.nodes == o.nodes && unapplied == old(unapplied) + o.queued &&
        events == old(events) + o.emitted
    {
      ghost var nodes0 := store.nodes;
      var added: seq<FilterId> := [];
      TakeAll(buffer);
      for i := 0 to |buffer|
        invariant store.Valid() && store.nodes == ImportSpec(nodes0, file, buffer[..i])
        invariant added == Ids(|nodes0|, i)
        modifies store
      {
        CreateStep(nodes0, file, buffer, i);
        var filter := store.NewFilter(InitialRecord(buffer[i], Some(file)));
        added := added + [filter];
      }
      events, unapplied := events + AddedEvents(added), unapplied + Lift(added);
    }

    /**
     * Reload mode for one container: the loop over the file filter's children,
     * rebinding those with its name, then the entry is queued.
     */
    method ReloadContainer(file: FilterId, w: WrappedDc)
      requires store.Valid() && file < |store.nodes|
      modifies store, this`events, this`unapplied
      ensures var b := RebindAll(old(store.nodes), old(store.nodes[file].rows), w);
        store.nodes == b.nodes && events == old(events) + b.faults &&
        unapplied == old(unapplied) + [b.filter]
    {
      ghost var nodes0 := store.nodes;
      var children := store.GetChildren(file);
      var filter := None;
      TakeAll(children);
      for i := 0 to |children|
        invariant store.nodes == RebindAll(nodes0, children[..i], w).nodes
        invariant filter == RebindAll(nodes0, children[..i], w).filter
        invariant events == old(events) + RebindAll(nodes0, children[..i], w).faults
        invariant unapplied == old(unapplied)
      {
        TakeSnoc(children, i);
        var child := children[i];
        ghost var faults := RebindAll(nodes0, children[..i], w).faults;
        if FilterName(store.nodes[child]) != w.name {
          continue;
        }
        if store.nodes[child].kind == DataContainerFilter {
          store.nodes := store.nodes[child := store.nodes[child].(wrapped := Some(w))];
          filter := Some(child);
        } else {
          AppendAssoc(old(events), faults, [Failed(RebindNonDataContainer(child))]);
          events := events + [Failed(RebindNonDataContainer(child))];
          filter := None;
        }
      }
      unapplied := unapplied + [filter];
    }

    /** Reload mode of the barrier: each buffered container, in order, is rebound by name and its entry queued. */
    method RebindFilters(file: FilterId, buffer: seq<WrappedDc>)
      requires store.Valid() && file < |store.nodes|
      modifies store, this`events, this`unapplied
      ensures var o := MaterialiseSpec(old(store.nodes), Reload, file, buffer);
        store.nodes == o.nodes && unapplied == old(unapplied) + o.queued &&
        events == old(events) + o.emitted
    {
      ghost var nodes0 := store.nodes;
      ghost var rows := nodes0[file].rows;
      TakeAll(buffer);
      for i := 0 to |buffer|
        invariant var acc := ReloadSpec(nodes0, rows, buffer[..i]);
          store.nodes == acc.nodes && unapplied == old(unapplied) + acc.queued &&
          events == old(events) + acc.emitted
      {
        TakeSnoc(buffer, i);
        ghost var acc := ReloadSpec(nodes0, rows, buffer[..i]);
        ReloadStep(nodes0, rows, buffer, i, file);
        ReloadContainer(file, buffer[i]);
        ghost var b := RebindAll(acc.nodes, rows, buffer[i]);
        AppendAssoc(old(events), acc.emitted, b.faults);
        AppendAssoc(old(unapplied), acc.queued, [b.filter]);
      }
    }

    /**
     * `partialWrappingThreadFinished`: one worker fewer; the call that brings
     * the counter to zero materialises the buffer.
     */
    method PartialWrappingThreadFinished()
      requires Valid() && filterLocked && fileNameFilter.Some?
      modifies store, this`threadsRemaining, this`events, this`unapplied, this`appliedCount,
               this`wrappedDcs, this`filterLocked, this`batches, this`applyPending
      ensures Valid() && threadsRemaining == old(threadsRemaining) - 1
      ensures threadsRemaining > 0 ==>
        store.nodes == old(store.nodes) && events == old(events) && unapplied == old(unapplied) &&
        appliedCount == old(appliedCount) && wrappedDcs == old(wrappedDcs) && filterLocked == old(filterLocked) &&
        batches == old(batches) && applyPending == old(applyPending)
      ensures threadsRemaining <= 0 ==>
        var o := MaterialiseSpec(old(store.nodes), loadType, fileNameFilter.value, old(wrappedDcs));
        store.nodes == o.nodes && unapplied == old(unapplied) + o.queued &&
        events == old(events) + o.emitted + [SelectEvent(unapplied), BlockRender(false)] &&
        appliedCount == 0 && wrappedDcs == [] && !filterLocked && batches == old(batches) + [old(wrappedDcs)] &&
        applyPending == old(applyPending) + (if wrappedList == [] then threadCount else 0)
    {
      threadsRemaining := threadsRemaining - 1;
      if threadsRemaining <= 0 {
        Materialise();
      }
    }

    /**
     * The barrier's work: turn the buffer into queued filters (by mode), select
     * the last queued filter, reset the applied count, clear the buffer,
     * unblock rendering, release the filter lock and, when no pair is waiting,
     * launch the apply workers.
     */
    method Materialise()
      requires Valid() && filterLocked && fileNameFilter.Some?
      modifies store, this`events, this`unapplied, this`appliedCount,
               this`wrappedDcs, this`filterLocked, this`batches, this`applyPending
      ensures Valid()
      ensures var o := MaterialiseSpec(old(store.nodes), loadType, fileNameFilter.value, old(wrappedDcs));
        store.nodes == o.nodes && unapplied == old(unapplied) + o.queued &&
        events == old(events) + o.emitted + [SelectEvent(unapplied), BlockRender(false)]
      ensures appliedCount == 0 && wrappedDcs == [] && !filterLocked && batches == old(batches) + [old(wrappedDcs)]
      ensures applyPending == old(applyPending) + (if wrappedList == [] then threadCount else 0)
    {
      MaterialiseFilters();
      Release();
    }

    /**
     * The barrier's bookkeeping once the filters exist: select the last queued
     * filter, reset the applied count, move the buffer into the finished
     * batches, unblock rendering, release the filter lock and, when no pair is
     * waiting, launch the apply workers.
     */
    method Release()
      requires Valid()
      modifies this`events, this`appliedCount, this`wrappedDcs, this`filterLocked, this`batches, this`applyPending
      ensures Valid()
      ensures events == old(events) + [SelectEvent(unapplied), BlockRender(false)]
      ensures appliedCount == 0 && wrappedDcs == [] && !filterLocked && batches == old(batches) + [old(wrappedDcs)]
      ensures applyPending == old(applyPending) + (if wrappedList == [] then threadCount else 0)
    {
      batches := batches + [wrappedDcs];
      appliedCount := 0;
      wrappedDcs := [];
      events := events + [SelectEvent(unapplied), BlockRender(false)];
      filterLocked := false;
      if wrappedList == [] {
        applyPending := applyPending + threadCount;
      }
    }

    /** The mode-dependent part of the barrier: new or rebound filters, queued for applying. */
    method MaterialiseFilters()
      requires Valid() && fileNameFilter.Some?
      modifies store, this`events, this`unapplied
      ensures Valid()
      ensures var o := MaterialiseSpec(old(store.nodes), loadType, fileNameFilter.value, wrappedDcs);
        store.nodes == o.nodes && unapplied == old(unapplied) + o.queued &&
        events == old(events) + o.emitted
    {
      var file := fileNameFilter.value;
      ghost var o := MaterialiseSpec(store.nodes, loadType, file, wrappedDcs);
      MaterialiseKeepsStore(store.nodes, loadType, file, wrappedDcs, unapplied);
      ExtendsKeepsEntries(store.nodes, o.nodes, []);
      if loadType == Import {
        CreateFilters(file, wrappedDcs);
      } else {
        RebindFilters(file, wrappedDcs);
      }
    }

    /** The rest of one loop iteration of a worker holding a container: a non-null wrap result goes into the buffer. */
    method Deliver(workers: seq<WorkerState>, w: nat) returns (next: seq<WorkerState>)
      requires w < |workers| && workers[w].Holding?
      modifies this`wrappedDcs
      ensures next == workers[w := Looping]
      ensures wrappedDcs == old(wrappedDcs) + WrapList(bridge, workers[w].dc)
    {
      var wrapped := Wrap(bridge, workers[w].dc);
      if wrapped.Some? {
        wrappedDcs := wrappedDcs + [wrapped.value];
      }
      next := workers[w := Looping];
    }

    /** A worker's `tryAcquire` succeeded with containers listed: it pops the front one. */
    method Claim(workers: seq<WorkerState>, w: nat) returns (next: seq<WorkerState>)
      requires w < |workers| && workers[w].Looping? && importOrder != []
      modifies this`importOrder, this`claimed
      ensures next == workers[w := Holding(old(importOrder[0]))] && importOrder == old(importOrder[1..])
      ensures claimed == old(claimed) + [old(importOrder[0])]
    {
      var dc := importOrder[0];
      importOrder := importOrder[1..];
      claimed := claimed + [dc];
      next := workers[w := Holding(dc)];
    }

    /**
     * The wrap workers of one import, run under every schedule until the last
     * of them has finished: every container is taken off the work list exactly
     * once, in order, the buffer receives exactly the non-null wrap results (in
     * some order), and the barrier materialises it.
     */
    method WrapPhase(workers0: seq<WorkerState>)
      requires Valid() && filterLocked && fileNameFilter.Some? && wrappedDcs == []
      requires workers0 == seq(threadCount, _ => Looping) && threadsRemaining == threadCount
      modifies store, this`importOrder, this`claimed, this`wrappedDcs, this`threadsRemaining, this`events,
               this`unapplied, this`appliedCount, this`filterLocked, this`batches, this`applyPending
      ensures Valid() && importOrder == [] && threadsRemaining == 0
      ensures claimed == old(claimed) + old(importOrder)
      ensures |batches| == |old(batches)| + 1 && batches[..|old(batches)|] == old(batches)
      ensures ExactlyWrapped(bridge, batches[|old(batches)|], old(importOrder))
      ensures Materialised(old(store.nodes), old(unapplied), fileNameFilter.value, batches[|old(batches)|])
      ensures appliedCount == 0 && wrappedDcs == [] && !filterLocked
      ensures applyPending == old(applyPending) + (if wrappedList == [] then threadCount else 0)
      ensures AppliedCounts(events) == AppliedCounts(old(events))
    {
      WrapAll(workers0);
      ghost var buffer := wrappedDcs;
      PartialWrappingThreadFinished();
      assert batches[|old(batches)|] == buffer;
      BarrierQuiet(old(store.nodes), loadType, fileNameFilter.value, buffer, old(events), unapplied);
    }

    /**
     * The wrap workers of one import up to the last one's report: the list is
     * used up in order and the buffer holds exactly the non-null wrap results.
     */
    method WrapAll(workers0: seq<WorkerState>)
      requires threadCount >= 1 && workers0 == seq(threadCount, _ => Looping) && threadsRemaining == threadCount
      requires wrappedDcs == []
      modifies this`importOrder, this`claimed, this`wrappedDcs, this`threadsRemaining
      ensures importOrder == [] && threadsRemaining == 1 && claimed == old(claimed) + old(importOrder)
      ensures ExactlyWrapped(bridge, wrappedDcs, old(importOrder))
    {
      FreshPool(threadCount);
      ghost var order0 := importOrder;
      forall x
        ensures Count(wrappedDcs, x) + HeldCount(bridge, workers0, x) + WrappedCount(bridge, order0, x)
                == WrappedCount(bridge, order0, x)
      {
        NothingHeld(bridge, workers0, x);
      }
      var workers := Workers(workers0);
      forall x
        ensures Count(wrappedDcs, x) == WrappedCount(bridge, order0, x)
      {
        NothingHeld(bridge, workers, x);
      }
    }

    /**
     * The workers' loops under one schedule, up to the point where only the
     * last active worker is left, holding nothing, with the list empty.
     */
    method Workers(workers0: seq<WorkerState>) returns (workers: seq<WorkerState>)
      requires |workers0| == threadCount && ActiveCount(workers0) >= 1 && threadsRemaining == ActiveCount(workers0)
      requires Accounted(bridge, wrappedDcs, workers0, importOrder, importOrder)
      modifies this`importOrder, this`claimed, this`wrappedDcs, this`threadsRemaining
      ensures |workers| == threadCount && ActiveCount(workers) == 1 && threadsRemaining == 1
      ensures importOrder == [] && HoldingCount(workers) == 0
      ensures claimed == old(claimed) + old(importOrder)
      ensures Accounted(bridge, wrappedDcs, workers, [], old(importOrder))
    {
      workers := workers0;
      ghost var claimed0, order0 := claimed, importOrder;
      while ActiveCount(workers) > 1 || importOrder != [] || HoldingCount(workers) > 0
        invariant |workers| == threadCount && ActiveCount(workers) >= 1 && threadsRemaining == ActiveCount(workers)
        invariant claimed + importOrder == claimed0 + order0
        invariant Accounted(bridge, wrappedDcs, workers, importOrder, order0)
        decreases |importOrder|, HoldingCount(workers), ActiveCount(workers)
      {
        ghost var some := FindWorker(workers);
        assert Enabled(workers, some, importOrder != []);
        var w :| 0 <= w < |workers| && Enabled(workers, w, importOrder != []);
        assert workers[w].Holding? || (workers[w].Looping? && (importOrder != [] || ActiveCount(workers) > 1)) by {
          assert Enabled(workers, w, importOrder != []);
        }
        var early: bool :| true;
        if workers[w].Holding? {
          UpdateWorker(workers, w, Looping);
          DeliverAccounted(bridge, wrappedDcs, workers, w, importOrder, order0);
          workers := Deliver(workers, w);
        } else if importOrder != [] && (!early || ActiveCount(workers) == 1) {
          UpdateWorker(workers, w, Holding(importOrder[0]));
          ClaimAccounted(bridge, wrappedDcs, workers, w, importOrder, order0);
          AppendAssoc(claimed, [importOrder[0]], importOrder[1..]);
          workers := Claim(workers, w);
        } else {
          // the list is empty or tryAcquire failed: the worker leaves its loop
          // and reports; another worker is still active, so the slot only
          // counts it down
          UpdateWorker(workers, w, Done);
          LeaveAccounted(bridge, wrappedDcs, workers, w, importOrder, order0);
          workers := workers[w := Done];
          threadsRemaining := threadsRemaining - 1;
        }
      }
      HoldingAreActive(workers);
    }

    /** Finishing a data-container filter keeps the store part of the invariant. */
    static lemma FinishKeepsStore(nodes: seq<FilterRecord>, id: FilterId, bridge: BridgeBehaviour,
                                  q: seq<Option<FilterId>>, pairs: seq<DcaFilePair>)
      requires id < |nodes| && nodes[id].wrapped.Some? && GuardsFree(nodes) && DcEntries(nodes, q) && FilesOk(nodes, pairs)
      ensures var n := nodes[id := FinishedRecord(nodes[id], bridge)];
        GuardsFree(n) && DcEntries(n, q) && FilesOk(n, pairs)
    {
    }

    /** `applyDataFilters`, one step: pop the front entry, apply it, report the count (and the reload). */
    method ApplyNext() returns (filter: Option<FilterId>)
      requires Valid() && unapplied != []
      modifies store, this`unapplied, this`applied, this`appliedCount, this`events
      ensures Valid()
      ensures filter == old(unapplied[0]) && unapplied == old(unapplied[1..]) && applied == old(applied) + [filter]
      ensures appliedCount == old(appliedCount) + 1
      ensures events == old(events) + ApplyEvents(filter, appliedCount, loadType)
      ensures filter.None? ==> store.nodes == old(store.nodes)
      ensures filter.Some? ==>
        store.nodes == old(store.nodes)[filter.value := FinishedRecord(old(store.nodes[filter.value]), bridge)]
    {
      filter := unapplied[0];
      if filter.Some? {
        FinishKeepsStore(store.nodes, filter.value, bridge, unapplied[1..], wrappedList);
        var done := Apply(store, filter.value, bridge);
      }
      // apply (or the null fault), then the count, then the reload report
      unapplied, applied, appliedCount, events :=
        unapplied[1..], applied + [filter], appliedCount + 1, events + ApplyEvents(filter, appliedCount + 1, loadType);
    }

    predicate ApplyEnabled(step: ApplyStep)
      reads this
    {
      match step
      case StartWorker => applyPending > 0
      case PopAndApply => applyRunning > 0 && unapplied != []
      case WorkerExits => applyRunning > 0 && unapplied == []
    }

    /**
     * One step of the apply workers under some schedule: a launched worker
     * starts and reports the queue's size, a running worker pops and applies
     * the front entry, or a running worker finds the queue empty and returns.
     * `popped` tells whether an entry was applied.
     */
    method ApplyWorkerStep() returns (popped: bool)
      requires Valid() && (applyPending > 0 || applyRunning > 0)
      requires applyPending + applyRunning > 0 || unapplied == []
      modifies store, this`unapplied, this`applied, this`appliedCount, this`events, this`applyPending, this`applyRunning
      ensures Valid() && (applyPending + applyRunning > 0 || unapplied == [])
      ensures !popped ==>
        unapplied == old(unapplied) && applied == old(applied) && appliedCount == old(appliedCount) &&
        AppliedCounts(events) == AppliedCounts(old(events)) && store.nodes == old(store.nodes)
      ensures popped ==>
        old(unapplied) != [] && unapplied == old(unapplied[1..]) && applied == old(applied) + [old(unapplied[0])] &&
        appliedCount == old(appliedCount) + 1 && AppliedCounts(events) == AppliedCounts(old(events)) + [appliedCount] &&
        store.nodes == FinishOne(old(store.nodes), old(unapplied[0]), bridge)
      ensures applyPending < old(applyPending) ||
        (applyPending == old(applyPending) && (|unapplied| < |old(unapplied)| ||
          (|unapplied| == |old(unapplied)| && applyRunning < old(applyRunning))))
    {
      if applyPending > 0 {
        assert ApplyEnabled(StartWorker);
      } else if unapplied != [] {
        assert ApplyEnabled(PopAndApply);
      } else {
        assert ApplyEnabled(WorkerExits);
      }
      var step :| ApplyEnabled(step);
      assert (step.StartWorker? && applyPending > 0) ||
             (step.PopAndApply? && applyRunning > 0 && unapplied != []) ||
             (step.WorkerExits? && applyRunning > 0 && unapplied == []) by {
        assert ApplyEnabled(step);
      }
      popped := step.PopAndApply?;
      if step.StartWorker? {
        applyPending := applyPending - 1;
        applyRunning := applyRunning + 1;
        QuietEvents(events, [ApplyingDataFilters(|unapplied|)]);
        events := events + [ApplyingDataFilters(|unapplied|)];
      } else if step.PopAndApply? {
        ghost var before := events;
        var filter := ApplyNext();
        ApplyReportsCount(before, filter, appliedCount, loadType);
      } else {
        applyRunning := applyRunning - 1;
      }
    }

    /**
     * The launched apply workers, run under every schedule until all have
     * returned: each starts by reporting the queue's size, the queue is drained
     * front first, and the counts go up by one per entry. With no worker
     * launched nothing happens.
     */
    method ApplyPhase()
      requires Valid()
      modifies store, this`unapplied, this`applied, this`appliedCount, this`events, this`applyPending, this`applyRunning
      ensures Valid() && applyPending == 0 && applyRunning == 0
      ensures old(applyPending) + old(applyRunning) == 0 ==>
        unapplied == old(unapplied) && applied == old(applied) && appliedCount == old(appliedCount) &&
        events == old(events) && store.nodes == old(store.nodes)
      ensures old(applyPending) + old(applyRunning) > 0 ==>
        unapplied == [] && applied == old(applied) + old(unapplied) &&
        appliedCount == old(appliedCount) + |old(unapplied)| &&
        AppliedCounts(events) == AppliedCounts(old(events)) + CountingFrom(old(appliedCount), |old(unapplied)|) &&
        store.nodes == FinishAll(old(store.nodes), old(unapplied), bridge)
    {
      if applyPending + applyRunning > 0 {
        Drain();
      }
    }

    /** The apply workers, once at least one is launched, until all have returned. */
    method Drain()
      requires Valid() && applyPending + applyRunning > 0
      modifies store, this`unapplied, this`applied, this`appliedCount, this`events, this`applyPending, this`applyRunning
      ensures Valid() && applyPending == 0 && applyRunning == 0
      ensures unapplied == [] && applied == old(applied) + old(unapplied)
      ensures appliedCount == old(appliedCount) + |old(unapplied)|
      ensures AppliedCounts(events) == AppliedCounts(old(events)) + CountingFrom(old(appliedCount), |old(unapplied)|)
      ensures store.nodes == FinishAll(old(store.nodes), old(unapplied), bridge)
    {
      ghost var done: seq<Option<FilterId>> := [];
      while applyPending > 0 || applyRunning > 0
        invariant Valid()
        invariant applied == old(applied) + done && done + unapplied == old(unapplied)
        invariant appliedCount == old(appliedCount) + |done|
        invariant AppliedCounts(events) == AppliedCounts(old(events)) + CountingFrom(old(appliedCount), |done|)
        invariant applyPending + applyRunning > 0 || unapplied == []
        invariant DcEntries(old(store.nodes), done) && store.nodes == FinishAll(old(store.nodes), done, bridge)
        decreases applyPending, |unapplied|, applyRunning
      {
        ghost var before := unapplied;
        var popped := ApplyWorkerStep();
        if popped {
          FinishAdvance(old(store.nodes), old(unapplied), done, before, bridge);
          CountsAdvance(AppliedCounts(old(events)), old(appliedCount), |done|);
          AppendAssoc(old(applied), done, [before[0]]);
          done := done + [before[0]];
        }
      }
      assert done == old(unapplied);
    }

    /**
     * One iteration of `run`: import the front pair, pop it, and let its wrap
     * workers run to their barrier. The pair is imported exactly once, its
     * containers are claimed in order, its batch holds exactly their non-null
     * wrap results, and no progress count is reported.
     */
    method ImportNext()
      requires Valid() && !filterLocked && wrappedList != [] && applyPending == 0
      modifies store, this`fileNameFilter, this`importOrder, this`events, this`filterLocked, this`threadsRemaining,
               this`imported, this`claimed, this`wrappedDcs, this`unapplied, this`appliedCount,
               this`batches, this`applyPending, this`wrappedList
      ensures Valid() && !filterLocked && wrappedList == old(wrappedList[1..])
      ensures imported == old(imported) + [old(wrappedList[0])]
      ensures claimed == old(claimed) + old(wrappedList[0]).dca
      ensures |batches| == |old(batches)| + 1 && batches[..|old(batches)|] == old(batches)
      ensures ExactlyWrapped(bridge, batches[|old(batches)|], old(wrappedList[0]).dca)
      ensures Materialised(old(store.nodes), old(unapplied), old(wrappedList[0]).file, batches[|old(batches)|])
      ensures applyPending == (if wrappedList == [] then threadCount else 0) && appliedCount == 0
      ensures AppliedCounts(events) == AppliedCounts(old(events))
    {
      ghost var nodes0, q0 := store.nodes, unapplied;
      var pair := wrappedList[0];
      var workers := ImportDataContainerArray(pair);
      assert store.nodes == nodes0 && unapplied == q0 && fileNameFilter == Some(pair.file);
      wrappedList := wrappedList[1..];
      WrapPhase(workers);
    }

    /** One turn of the loop in `ImportAll`: the pair at `i` is imported and the run so far grows by it. */
    method ImportStep(ghost pairs: seq<DcaFilePair>, ghost i: nat, ghost nodes0: seq<FilterRecord>,
                      ghost q0: seq<Option<FilterId>>, ghost imported0: seq<DcaFilePair>,
                      ghost claimed0: seq<DataContainer>, ghost batches0: seq<seq<WrappedDc>>)
      requires Valid() && !filterLocked && applyPending == 0 && FilesOk(nodes0, pairs)
      requires i < |pairs| && wrappedList == pairs[i..]
      requires imported == imported0 + pairs[..i] && claimed == claimed0 + AllContainers(pairs[..i])
      requires |batches| == |batches0| + i && batches[..|batches0|] == batches0
      requires BatchesMatch(bridge, batches[|batches0|..], pairs[..i])
      requires RunReaches(nodes0, loadType, q0, pairs[..i], batches[|batches0|..], store.nodes, unapplied)
      modifies store, this`fileNameFilter, this`importOrder, this`events, this`filterLocked, this`threadsRemaining,
               this`imported, this`claimed, this`wrappedDcs, this`unapplied, this`appliedCount,
               this`batches, this`applyPending, this`wrappedList
      ensures Valid() && !filterLocked && wrappedList == pairs[i + 1..]
      ensures imported == imported0 + pairs[..i + 1] && claimed == claimed0 + AllContainers(pairs[..i + 1])
      ensures |batches| == |batches0| + i + 1 && batches[..|batches0|] == batches0
      ensures BatchesMatch(bridge, batches[|batches0|..], pairs[..i + 1])
      ensures RunReaches(nodes0, loadType, q0, pairs[..i + 1], batches[|batches0|..], store.nodes, unapplied)
      ensures applyPending == (if wrappedList == [] then threadCount else 0) && appliedCount == 0
      ensures AppliedCounts(events) == AppliedCounts(old(events))
    {
      ghost var b0, n1, u1 := batches, store.nodes, unapplied;
      assert wrappedList[0] == pairs[i] && wrappedList[1..] == pairs[i + 1..];
      ImportNext();
      PairsStep(pairs, i);
      AppendAssoc(imported0, pairs[..i], [pairs[i]]);
      AppendAssoc(claimed0, AllContainers(pairs[..i]), pairs[i].dca);
      BatchesGrow(|batches0|, b0, batches);
      BatchesMatchSnoc(bridge, b0[|batches0|..], pairs[..i], batches[|b0|], pairs[i]);
      ImportRunNext(nodes0, loadType, q0, pairs, i, b0[|batches0|..], batches[|batches0|..],
                    n1, u1, store.nodes, unapplied);
    }

    /**
     * The import half of `run`: the waiting pairs are imported front first,
     * each exactly once, and each import's wrap workers run to their barrier.
     * The apply workers are launched by the last barrier only.
     */
    method ImportAll()
      requires Valid() && !filterLocked && applyPending == 0
      modifies store, this`fileNameFilter, this`importOrder, this`events, this`filterLocked, this`threadsRemaining,
               this`imported, this`claimed, this`wrappedDcs, this`unapplied, this`appliedCount,
               this`batches, this`applyPending, this`wrappedList
      ensures Valid() && wrappedList == [] && !filterLocked
      ensures ImportedPairs(bridge, old(imported), old(claimed), old(batches), old(wrappedList), imported, claimed, batches)
      ensures ImportedRun(old(store.nodes), old(unapplied), old(wrappedList), batches[|old(batches)|..])
      ensures applyPending == (if old(wrappedList) != [] then threadCount else 0)
      ensures old(wrappedList) != [] ==> appliedCount == 0
      ensures old(wrappedList) == [] ==>
        events == old(events) && unapplied == old(unapplied) && store.nodes == old(store.nodes)
      ensures AppliedCounts(events) == AppliedCounts(old(events))
    {
      ghost var pairs, nodes0, q0 := wrappedList, store.nodes, unapplied;
      ghost var i := 0;
      assert FilesOk(nodes0, pairs) && pairs[..0] == [];
      while wrappedList != []
        invariant Valid() && !filterLocked
        invariant 0 <= i <= |pairs| && wrappedList == pairs[i..]
        invariant imported == old(imported) + pairs[..i]
        invariant claimed == old(claimed) + AllContainers(pairs[..i])
        invariant |batches| == |old(batches)| + i && batches[..|old(batches)|] == old(batches)
        invariant BatchesMatch(bridge, batches[|old(batches)|..], pairs[..i])
        invariant applyPending == (if i > 0 && wrappedList == [] then threadCount else 0)
        invariant i > 0 ==> appliedCount == 0
        invariant i == 0 ==> events == old(events) && unapplied == old(unapplied) && store.nodes == old(store.nodes)
        invariant AppliedCounts(events) == AppliedCounts(old(events))
        invariant RunReaches(nodes0, loadType, q0, pairs[..i], batches[|old(batches)|..], store.nodes, unapplied)
        decreases |wrappedList|
      {
        ImportStep(pairs, i, nodes0, q0, old(imported), old(claimed), old(batches));
        i := i + 1;
      }
      assert pairs[..|pairs|] == pairs;
      BatchesMatchMeans(bridge, batches[|old(batches)|..], pairs);
    }

    /**
     * The apply workers after the imports of `pairs`: when the last barrier
     * launched them they drain the queue that run built; when there was
     * nothing to import nothing was launched and nothing changes.
     */
    method AfterImports(ghost nodes0: seq<FilterRecord>, ghost q0: seq<Option<FilterId>>,
                        ghost applied0: seq<Option<FilterId>>, ghost events0: seq<Event>,
                        ghost pairs: seq<DcaFilePair>, ghost bs: seq<seq<WrappedDc>>)
      requires Valid() && applyRunning == 0 && applied == applied0
      requires pairs == [] ==> applyPending == 0 && events == events0 && unapplied == q0 && store.nodes == nodes0
      requires pairs != [] ==>
        applyPending > 0 && appliedCount == 0 &&
        AppliedCounts(events) == AppliedCounts(events0) && ImportedRun(nodes0, q0, pairs, bs)
      modifies store, this`unapplied, this`applied, this`appliedCount, this`events, this`applyPending, this`applyRunning
      ensures Valid() && applyPending == 0 && applyRunning == 0
      ensures pairs == [] ==> events == events0 && unapplied == q0 && applied == applied0 && store.nodes == nodes0
      ensures pairs != [] ==> RanToEnd(nodes0, q0, applied0, events0, pairs, bs)
    {
      ghost var n1, u1 := store.nodes, unapplied;
      ApplyPhase();
      if pairs != [] {
        RunCompose(nodes0, loadType, q0, applied0, AppliedCounts(events0), pairs, bs, bridge,
                   n1, u1, unapplied, applied, store.nodes, AppliedCounts(events));
      }
    }

    /**
     * `run`, together with the workers it sets off: import the waiting pairs
     * front first, each one exactly once; `run` pops a pair once its import
     * has been launched, and that import's wrap workers then run to their
     * barrier. After the last pair the apply workers drain the queue, and
     * their counts go from 1 to the number of entries queued.
     */
    method Run()
      requires Valid() && !filterLocked && applyPending == 0 && applyRunning == 0
      modifies store, this`fileNameFilter, this`importOrder, this`events, this`filterLocked, this`threadsRemaining,
               this`imported, this`claimed, this`wrappedDcs, this`unapplied, this`appliedCount,
               this`batches, this`applyPending, this`wrappedList, this`applied, this`applyRunning
      ensures Valid() && wrappedList == [] && !filterLocked && applyPending == 0 && applyRunning == 0
      ensures ImportedPairs(bridge, old(imported), old(claimed), old(batches), old(wrappedList), imported, claimed, batches)
      ensures old(wrappedList) == [] ==>
        events == old(events) && unapplied == old(unapplied) && applied == old(applied) && store.nodes == old(store.nodes)
      ensures old(wrappedList) != [] ==>
        RanToEnd(old(store.nodes), old(unapplied), old(applied), old(events), old(wrappedList), batches[|old(batches)|..])
    {
      ghost var w0, b0, n0, u0, a0, e0 := wrappedList, batches, store.nodes, unapplied, applied, events;
      ImportAll();
      AfterImports(n0, u0, a0, e0, w0, batches[|b0|..]);
    }
  }
}
