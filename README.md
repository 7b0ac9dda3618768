# SIMPLVtkLib import pipeline, filter tree and montage dialogs in Dafny

This project models the bookkeeping core of SIMPLVtkLib, the visualisation
library of DREAM3D.

- **The concurrent import pipeline (`VSConcurrentImport`).**
  - (file filter, data-container array) pairs wait in a FIFO import list.
  - Wrap workers take the containers of one pair off a shared work list. They collect the non-null wrap results in a buffer.
  - A counter of outstanding workers is the barrier. When it reaches zero, the buffer becomes filters: new children of the file filter in Import mode, existing children rebound by name in Reload mode.
  - Those filters wait in a FIFO of filters to apply. Apply workers drain it and report a running count.
  - The threads are a state machine. Every worker step is an atomic action, and the order of the steps is chosen nondeterministically. The properties of `Run`, `WrapPhase` and `ApplyPhase` therefore hold under every schedule of those steps.
- **The visual filter tree (`VSAbstractFilter`).**
  - The tree is modelled as an arena of filter records: `FilterTree.FilterStore`, where a filter is identified by its creation index.
  - Modelled operations: children, index look-up, the preorder descendants, the ancestor, the nearest data filter, and the data-type compatibility rule.
- **Concrete filters.**
  - The data-container filter, with its one-permit apply guard, its proxy rewrite in `Create`, its JSON keys and its parent rule.
  - The clip filter, with its last plane and box parameters and its lazily created algorithm.
  - The crop values' change detection.
  - The controller's active view and its list of all filters.
- **The filter-camera interaction style.** A press counter, the grabbed filter and prop, and the current action, all driven by mouse and key events.
- **The montage-import dialogs.**
  - The Robomet file-list widget: tile file names, extension vote, row and column scan, completeness.
  - The DREAM3D montage dialog: `rXcY` container-name parsing, limits, completeness.
  - The Zeiss montage dialog: empty fields, tile count, check-box defaults.
  - The DREAM3D montage wizard page.

Modules follow the source files:

| module | source |
|---|---|
| `ConcurrentImport` | `VSConcurrentImport.cpp` |
| `FilterTree`, `FilterTypes` | `VSAbstractFilter.cpp` |
| `DataContainerFilter` | `VSSIMPLDataContainerFilter.cpp` |
| `Controller` | `VSController.cpp` |
| `ClipFilter` | `VSClipFilter.cpp` |
| `CropValues` | `VSCropValues.cpp` |
| `FilterCamera` | `VSInteractorStyleFilterCamera.cpp` |
| `RobometList` | `RobometListWidget.cpp` |
| `Dream3dMontageDialog` | `ImportDREAM3DMontageDialog.cpp` |
| `ZeissMontageDialog` | `ImportZeissMontageDialog.cpp` |
| `EnterDream3dDataPage` | `EnterDREAM3DDataPage.cpp` |

The remaining modules are support:

- `QtText` holds the Qt string operations the dialogs rely on: `QString::number`, `toInt`, `split`, `arg` padding, and `QFileInfo`'s path, base name and complete suffix.
- `Bridge` stands for the SIMPLVtkBridge wrap and finish calls, as a table given to the model.
- `Wrappers` holds `Option`.

## Model

| member | source | states |
|---|---|---|
| ConcurrentImport.WorkerCount | SIMPLVtkLib/Visualization/Controllers/VSConcurrentImport.cpp:62-71 | the worker count is the pool maximum less 2 when that maximum exceeds 2, and 1 otherwise; so it is always at least 1 |
| ConcurrentImport.Wrapped | SIMPLVtkLib/Visualization/Controllers/VSConcurrentImport.cpp:210-216 | the non-null wrap results of a container list are never more than the containers |
| ConcurrentImport.ConcurrentImport.constructor | SIMPLVtkLib/Visualization/Controllers/VSConcurrentImport.cpp:48-72 | a new importer has `WorkerCount(poolMax)` workers, empty lists and buffer, no lock taken and no worker pending |
| ConcurrentImport.ConcurrentImport.AddDataContainerArray | SIMPLVtkLib/Visualization/Controllers/VSConcurrentImport.cpp:94-97 | the pair is appended at the back of the import list and nothing else changes |
| ConcurrentImport.ConcurrentImport.AddFile | SIMPLVtkLib/Visualization/Controllers/VSConcurrentImport.cpp:77-81 | a new parentless file filter named after the path is added to the store, then the pair with it is appended to the import list |
| ConcurrentImport.ConcurrentImport.SetLoadType | SIMPLVtkLib/Visualization/Controllers/VSConcurrentImport.cpp:248-251 | the load type becomes the one given |
| ConcurrentImport.ConcurrentImport.ImportDataContainerArray | SIMPLVtkLib/Visualization/Controllers/VSConcurrentImport.cpp:116-138 | the pair's containers become the work list; the file filter is reported added in Import mode only; rendering is blocked and the filter lock is taken; the barrier is set to the worker count with every worker looping; no progress count is reported |
| ConcurrentImport.ConcurrentImport.Claim | SIMPLVtkLib/Visualization/Controllers/VSConcurrentImport.cpp:203-208 | a worker whose `tryAcquire` succeeds takes exactly the front container off the work list |
| ConcurrentImport.ConcurrentImport.Deliver | SIMPLVtkLib/Visualization/Controllers/VSConcurrentImport.cpp:210-216 | a worker holding a container adds its wrap result to the buffer only when it is non-null, then loops again |
| ConcurrentImport.DeliverAccounted | SIMPLVtkLib/Visualization/Controllers/VSConcurrentImport.cpp:210-216 | a delivery keeps the accounting: the buffer plus what the holding workers are about to deliver is exactly the wrap results of the containers taken so far |
| ConcurrentImport.ClaimAccounted | SIMPLVtkLib/Visualization/Controllers/VSConcurrentImport.cpp:203-208 | taking the front container keeps that accounting |
| ConcurrentImport.LeaveAccounted | SIMPLVtkLib/Visualization/Controllers/VSConcurrentImport.cpp:201-220 | a worker leaving its loop keeps that accounting |
| ConcurrentImport.ConcurrentImport.Workers | SIMPLVtkLib/Visualization/Controllers/VSConcurrentImport.cpp:201-220 | under any schedule, the workers run until the work list is empty and one active worker is left, holding nothing; the containers are taken in list order and the accounting holds |
| ConcurrentImport.ConcurrentImport.WrapAll | SIMPLVtkLib/Visualization/Controllers/VSConcurrentImport.cpp:201-220 | the work list is used up in order and the buffer holds exactly the non-null wrap results, each as often as it arises |
| ConcurrentImport.ExactlyWrappedIsPermutation | SIMPLVtkLib/Visualization/Controllers/VSConcurrentImport.cpp:210-216 | "exactly the wrap results" means the buffer is a permutation of the non-null wrap results of the containers |
| ConcurrentImport.CountIsMultiplicity | SIMPLVtkLib/Visualization/Controllers/VSConcurrentImport.cpp:210-216 | the occurrence count used by the accounting is the multiset multiplicity |
| ConcurrentImport.WrappedCountIsMultiplicity | SIMPLVtkLib/Visualization/Controllers/VSConcurrentImport.cpp:210-216 | the count of a wrap result among the containers is its multiplicity in the non-null wrap results |
| ConcurrentImport.ConcurrentImport.PartialWrappingThreadFinished | SIMPLVtkLib/Visualization/Controllers/VSConcurrentImport.cpp:143-196 | each call lowers the barrier counter by one; a call that leaves it above zero changes nothing else; the call that brings it to zero or below materialises the buffer |
| ConcurrentImport.ConcurrentImport.Materialise | SIMPLVtkLib/Visualization/Controllers/VSConcurrentImport.cpp:151-194 | the buffer becomes filters as `MaterialiseSpec` says for the load type; the last queued filter is selected; the applied count is reset; the buffer is cleared into the finished batches; rendering is unblocked and the lock released; the apply workers are launched only when no pair waits |
| ConcurrentImport.ConcurrentImport.Release | SIMPLVtkLib/Visualization/Controllers/VSConcurrentImport.cpp:179-194 | after the filters exist: select the last queued filter, reset the count, clear the buffer, unblock rendering, release the lock, and launch the apply workers when the import list is empty |
| ConcurrentImport.ConcurrentImport.MaterialiseFilters | SIMPLVtkLib/Visualization/Controllers/VSConcurrentImport.cpp:151-175 | the store and the apply queue change exactly as `MaterialiseSpec` says for the current load type |
| ConcurrentImport.ConcurrentImport.CreateFilters | SIMPLVtkLib/Visualization/Controllers/VSConcurrentImport.cpp:151-155 | Import mode: the store becomes `ImportSpec` of the buffer, and the new filters are queued and reported added in creation order |
| ConcurrentImport.ConcurrentImport.ReloadContainer | SIMPLVtkLib/Visualization/Controllers/VSConcurrentImport.cpp:158-175 | Reload mode for one container: the loop over the file filter's children ends as `RebindAll` says, and its entry is queued |
| ConcurrentImport.ConcurrentImport.RebindFilters | SIMPLVtkLib/Visualization/Controllers/VSConcurrentImport.cpp:158-175 | Reload mode: every buffered container, in order, is rebound as `ReloadSpec` says |
| ConcurrentImport.ImportSpec | SIMPLVtkLib/Visualization/Controllers/VSConcurrentImport.cpp:151-155 | Import mode adds exactly one filter per buffered container |
| ConcurrentImport.ImportKeepsStore | SIMPLVtkLib/Visualization/Controllers/VSConcurrentImport.cpp:151-155 | Import mode keeps the store well formed and every apply guard free; every filter it adds is a data-container filter |
| ConcurrentImport.ImportCreatesChildren | SIMPLVtkLib/Visualization/Controllers/VSConcurrentImport.cpp:151-155 | the k-th new filter wraps the k-th buffered container under the file filter; the new ids are appended to the file filter's rows in order; every other filter is unchanged |
| ConcurrentImport.ImportParentRows | SIMPLVtkLib/Visualization/Controllers/VSConcurrentImport.cpp:151-155 | the ids of the created filters are appended to the file filter's rows, in creation order |
| ConcurrentImport.ImportNewRecords | SIMPLVtkLib/Visualization/Controllers/VSConcurrentImport.cpp:151-155 | the k-th created filter is the constructor's record for the k-th buffered container, parented by the file filter |
| ConcurrentImport.ImportKeepsOthers | SIMPLVtkLib/Visualization/Controllers/VSConcurrentImport.cpp:151-155 | Import mode leaves every filter other than the file filter as it was |
| ConcurrentImport.ImportAppendsDescendants | SIMPLVtkLib/Visualization/Controllers/VSConcurrentImport.cpp:151-155 | the created filters become the last of the file filter's preorder descendants, in creation order |
| ConcurrentImport.ImportedFiltersCompatible | SIMPLVtkLib/Visualization/Controllers/VSConcurrentImport.cpp:151-155 | each created filter has a parent it is compatible with: a file-name filter |
| ConcurrentImport.ShapeKeepsStore | SIMPLVtkLib/Visualization/Controllers/VSConcurrentImport.cpp:158-169 | filters that changed only what they wrap keep the store well formed, every class and guard, and the queue's entries |
| ConcurrentImport.RebindAll | SIMPLVtkLib/Visualization/Controllers/VSConcurrentImport.cpp:158-169 | the rebinding loop never adds or removes a filter |
| ConcurrentImport.RebindAllShape | SIMPLVtkLib/Visualization/Controllers/VSConcurrentImport.cpp:158-169 | rebinding changes only what filters wrap; the only events it reports are faults; its entry is a data-container filter or null |
| ConcurrentImport.LastRebound | SIMPLVtkLib/Visualization/Controllers/VSConcurrentImport.cpp:158-175 | the queued entry is a same-named data-container child of the file filter; it is null when no child has the name |
| ConcurrentImport.RebindAllMeaning | SIMPLVtkLib/Visualization/Controllers/VSConcurrentImport.cpp:158-169 | every data-container child in the rows with the container's name now wraps it; every other filter is unchanged; the queued entry is `LastRebound` |
| ConcurrentImport.LastReboundIgnoresWrapping | SIMPLVtkLib/Visualization/Controllers/VSConcurrentImport.cpp:158-175 | the queued entry does not depend on what the children currently wrap |
| ConcurrentImport.ReloadSpec | SIMPLVtkLib/Visualization/Controllers/VSConcurrentImport.cpp:158-175 | Reload mode keeps the number of filters and queues one entry per buffered container |
| ConcurrentImport.ReloadKeepsShape | SIMPLVtkLib/Visualization/Controllers/VSConcurrentImport.cpp:158-175 | Reload mode changes only what filters wrap, reports only faults, and queues data-container filters or nulls |
| ConcurrentImport.ReloadStep | SIMPLVtkLib/Visualization/Controllers/VSConcurrentImport.cpp:158-169 | after any prefix of the buffer, the store is still well formed and the file filter keeps its rows |
| ConcurrentImport.ReloadQueuesOneMore | SIMPLVtkLib/Visualization/Controllers/VSConcurrentImport.cpp:158-175 | one more container queues the last same-named child among the filters as they were |
| ConcurrentImport.ReloadQueuesLastMatch | SIMPLVtkLib/Visualization/Controllers/VSConcurrentImport.cpp:158-175 | for each buffered container in order, Reload mode queues the last child with its name; the entry is null when that child is no data-container filter or no child matches |
| ConcurrentImport.MaterialiseSpec | SIMPLVtkLib/Visualization/Controllers/VSConcurrentImport.cpp:151-175 | either mode queues exactly one entry per buffered container |
| ConcurrentImport.MaterialiseKeepsStore | SIMPLVtkLib/Visualization/Controllers/VSConcurrentImport.cpp:151-175 | materialising keeps the store well formed, every older filter's class and every guard free; it queues only data-container filters or nulls |
| ConcurrentImport.BarrierQuiet | SIMPLVtkLib/Visualization/Controllers/VSConcurrentImport.cpp:172-184 | the barrier's events report no progress count |
| ConcurrentImport.SelectEvent | SIMPLVtkLib/Visualization/Controllers/VSConcurrentImport.cpp:179 | the last queued filter is selected; an empty queue has no back, which is recorded as a fault |
| ConcurrentImport.ApplyReportsCount | SIMPLVtkLib/Visualization/Controllers/VSConcurrentImport.cpp:225-243 | applying one entry reports exactly its count |
| ConcurrentImport.QuietEvents | SIMPLVtkLib/Visualization/Controllers/VSConcurrentImport.cpp:225-243 | events that report no progress leave the reported counts as they were |
| ConcurrentImport.AppliedCountsAppend | SIMPLVtkLib/Visualization/Controllers/VSConcurrentImport.cpp:225-243 | the counts reported by two runs of events are those of each run, in order |
| ConcurrentImport.CountingFrom | SIMPLVtkLib/Visualization/Controllers/VSConcurrentImport.cpp:225-243 | the counts after `c` are `c + 1` up to `c + n` |
| ConcurrentImport.ConcurrentImport.ApplyNext | SIMPLVtkLib/Visualization/Controllers/VSConcurrentImport.cpp:231-240 | an apply worker pops the front entry and applies it (a null entry is a recorded fault); the count goes up by one and is reported |
| ConcurrentImport.ConcurrentImport.ApplyWorkerStep | SIMPLVtkLib/Visualization/Controllers/VSConcurrentImport.cpp:225-243 | one step of some apply worker: a launched worker starts and reports the queue's size; a running worker pops and applies the front entry (the store changes by `FinishOne` of that entry, nothing else in it changes), or finds the queue empty and returns |
| ConcurrentImport.FinishAll | SIMPLVtkLib/Visualization/Controllers/VSConcurrentImport.cpp:225-243 | applying a queue keeps every filter's class, parent, rows, apply guard and name, and the number of filters |
| ConcurrentImport.FinishAllMeaning | SIMPLVtkLib/Visualization/Controllers/VSConcurrentImport.cpp:225-243 | after applying a queue, a filter the queue never names is as it was; one named once is what applying its wrapped container makes of it; every filter named at least once outputs its wrapped container's data set |
| ConcurrentImport.FinishAdvance | SIMPLVtkLib/Visualization/Controllers/VSConcurrentImport.cpp:225-243 | applying one entry more is one more `FinishOne` on the store the earlier entries left |
| ConcurrentImport.ConcurrentImport.Drain | SIMPLVtkLib/Visualization/Controllers/VSConcurrentImport.cpp:225-243 | once a worker is launched, the queue is emptied front first into the applied list; the applied count rises by the queue's length, the reported counts are the next consecutive numbers, and the store is `FinishAll` of the old store and the old queue |
| ConcurrentImport.ConcurrentImport.ApplyPhase | SIMPLVtkLib/Visualization/Controllers/VSConcurrentImport.cpp:225-243 | with no worker launched nothing happens; otherwise, under every schedule, all workers return, the queue is drained front first, the counts go up by one per entry, and the store is `FinishAll` of the old store and the old queue |
| ConcurrentImport.ConcurrentImport.WrapPhase | SIMPLVtkLib/Visualization/Controllers/VSConcurrentImport.cpp:143-220 | one import's workers, under every schedule, take every container exactly once and in order; the finished batch holds exactly the non-null wrap results; the barrier then fires once and leaves the store and queue `MaterialiseSpec` gives for that batch under the current file filter |
| ConcurrentImport.ConcurrentImport.ImportNext | SIMPLVtkLib/Visualization/Controllers/VSConcurrentImport.cpp:102-111 | one iteration of `run`: the front pair is imported exactly once and popped; its containers are claimed in order; its batch holds exactly their non-null wrap results; the store and queue become what `MaterialiseSpec` gives for that batch under the pair's file filter |
| ConcurrentImport.ImportRun | SIMPLVtkLib/Visualization/Controllers/VSConcurrentImport.cpp:102-111 | importing a run of pairs keeps the store well formed, keeps every older filter's class, queues only data-container filters or nulls, and queues one entry per wrapped container behind the old queue |
| ConcurrentImport.ImportRunSnoc | SIMPLVtkLib/Visualization/Controllers/VSConcurrentImport.cpp:102-111 | importing one more pair materialises its batch on the store the earlier pairs left and queues its entries behind theirs |
| ConcurrentImport.ImportRunQueuesNewFilters | SIMPLVtkLib/Visualization/Controllers/VSConcurrentImport.cpp:102-111 | in Import mode a run of pairs adds one filter per wrapped container and queues exactly the new ids, in creation order |
| ConcurrentImport.ConcurrentImport.ImportStep | SIMPLVtkLib/Visualization/Controllers/VSConcurrentImport.cpp:102-111 | one turn of the import loop: the next pair is imported and popped, and the store and queue are `ImportRun` over one pair more |
| ConcurrentImport.ConcurrentImport.ImportAll | SIMPLVtkLib/Visualization/Controllers/VSConcurrentImport.cpp:102-111 | the waiting pairs are imported front first, each exactly once, and the import list ends empty; the k-th batch holds exactly the k-th pair's non-null wrap results; the store and queue are `ImportRun` of the old store and queue over those pairs and batches; only the last barrier launches the apply workers |
| ConcurrentImport.BatchesMatchMeans | SIMPLVtkLib/Visualization/Controllers/VSConcurrentImport.cpp:102-111 | batches built one per imported pair match the pairs position by position |
| ConcurrentImport.ConcurrentImport.AfterImports | SIMPLVtkLib/Visualization/Controllers/VSConcurrentImport.cpp:225-243 | the apply workers after a run of imports: when launched they drain the queue that run built, applied in order, with counts 1, 2, ... and the store `FinishAll` of the run's store and queue; when not launched nothing changes |
| ConcurrentImport.ConcurrentImport.Run | SIMPLVtkLib/Visualization/Controllers/VSConcurrentImport.cpp:102-111 | `run` with the workers it sets off: every waiting pair is imported front first, exactly once, and the list is left empty; each batch holds exactly its pair's non-null wrap results; with pairs waiting, the queue `ImportRun` builds is applied in order (the applied list grows by exactly it), counts 1 to its length are reported, and the store is that run's store with every queued entry applied; with none, nothing changes |
| FilterTree.IndexIn | SIMPLVtkLib/Visualization/VisualFilters/VSAbstractFilter.cpp:185-202 | the index is -1 exactly when the child is absent, else the first row holding it |
| FilterTree.RowsWithoutContents | SIMPLVtkLib/Visualization/VisualFilters/VSAbstractFilter.cpp:145-151 | removing a child drops exactly one occurrence and keeps the order of the rest; removing an absent child changes nothing |
| FilterTree.RemoveAfterAppend | SIMPLVtkLib/Visualization/VisualFilters/VSAbstractFilter.cpp:129-151 | removing a child just appended restores the rows |
| FilterTree.Descendants | SIMPLVtkLib/Visualization/VisualFilters/VSAbstractFilter.cpp:207-219 | every descendant is a filter of the store newer than the filter itself |
| FilterTree.DescendantsFrame | SIMPLVtkLib/Visualization/VisualFilters/VSAbstractFilter.cpp:207-219 | a filter's descendants depend only on the rows of it and of newer filters |
| FilterTree.NewChildWellFormed | SIMPLVtkLib/Visualization/VisualFilters/VSAbstractFilter.cpp:99-140 | attaching a new leaf keeps the store well formed and every older filter's class |
| FilterTree.NewChildEntries | SIMPLVtkLib/Visualization/VisualFilters/VSAbstractFilter.cpp:129-140 | attaching a new leaf appends it to its parent's rows and to the store; no other filter changes |
| FilterTree.DescendantsAfterNewChild | SIMPLVtkLib/Visualization/VisualFilters/VSAbstractFilter.cpp:207-219 | a new leaf of `p` comes last in `p`'s preorder listing |
| FilterTree.Ancestor | SIMPLVtkLib/Visualization/VisualFilters/VSAbstractFilter.cpp:156-164 | the ancestor is a filter with no parent, no newer than the filter |
| FilterTree.AncestorEndsChain | SIMPLVtkLib/Visualization/VisualFilters/VSAbstractFilter.cpp:156-164 | the ancestor is the last filter of the parent chain |
| FilterTree.DataSetFilterOf | SIMPLVtkLib/Visualization/VisualFilters/VSAbstractFilter.cpp:400-415 | a filter found is a data filter, no newer than the filter |
| FilterTree.DataSetFilterIsNearest | SIMPLVtkLib/Visualization/VisualFilters/VSAbstractFilter.cpp:400-415 | the filter found is the first data filter on the parent chain; none is found exactly when the chain holds none |
| FilterTree.FilterStore.NewFilter | SIMPLVtkLib/Visualization/VisualFilters/VSAbstractFilter.cpp:99-124 | a new filter gets the next id; with a parent it also becomes that parent's last row |
| FilterTree.FilterStore.AddChild | SIMPLVtkLib/Visualization/VisualFilters/VSAbstractFilter.cpp:129-140 | the child becomes the parent's last row; nothing else changes |
| FilterTree.FilterStore.RemoveChild | SIMPLVtkLib/Visualization/VisualFilters/VSAbstractFilter.cpp:145-151 | the parent's rows lose their first occurrence of the child; nothing else changes |
| FilterTree.FilterStore.GetChildren | SIMPLVtkLib/Visualization/VisualFilters/VSAbstractFilter.cpp:169-180 | the copy loop returns exactly the parent's rows |
| FilterTree.FilterStore.IndexOfChild | SIMPLVtkLib/Visualization/VisualFilters/VSAbstractFilter.cpp:185-202 | the search loop answers -1 for null, otherwise the first row holding the child, or -1 |
| FilterTree.FilterStore.GetChild | SIMPLVtkLib/Visualization/VisualFilters/VSAbstractFilter.cpp:224-232 | null exactly when the index is out of range, else that row: a child newer than the parent |
| FilterTypes.CompatibleInput | SIMPLVtkLib/Visualization/VisualFilters/VSAbstractFilter.cpp:446-459 | an input fits exactly when it is not invalid and the requirement is the wildcard or the same type |
| FilterTypes.OutputTypeClassification | SIMPLVtkLib/Visualization/VisualFilters/VSAbstractFilter.cpp:420-441 | only unlisted VTK types map to invalid data, and none maps to the wildcard; so a wildcard filter accepts exactly the listed types |
| FilterTypes.NumberedNames | SIMPLVtkLib/Visualization/VisualFilters/VSAbstractFilter.cpp:369-372 | the loop yields "Comp 1" up to "Comp n" |
| FilterTypes.ComponentList | SIMPLVtkLib/Visualization/VisualFilters/VSAbstractFilter.cpp:346-382 | R, G, B for 3-component unsigned-char arrays; X, Y, Z for 3-component float arrays; numbered names otherwise; "Magnitude" in front when there is more than one component; nothing for null |
| Bridge.Wrap | SIMPLVtkLib/Visualization/Controllers/VSConcurrentImport.cpp:210-212 | the wrap result is null exactly for a container the bridge cannot wrap |
| DataContainerFilter.JsonString | SIMPLVtkLib/Visualization/VisualFilters/VSSIMPLDataContainerFilter.cpp:108 | a key holding a string reads as that string; a missing key, or one holding a number or an object, reads as "" |
| DataContainerFilter.InitialRecord | SIMPLVtkLib/Visualization/VisualFilters/VSSIMPLDataContainerFilter.cpp:55-65 | a new data-container filter is a leaf under its parent wrapping the container; its name, text and tool tip are the container's name; its guard holds one permit; its output is the container's data set |
| DataContainerFilter.GetOutput | SIMPLVtkLib/Visualization/VisualFilters/VSSIMPLDataContainerFilter.cpp:93-101 | null exactly when no container is wrapped, else its data set |
| DataContainerFilter.CompatibleWithParent | SIMPLVtkLib/Visualization/VisualFilters/VSSIMPLDataContainerFilter.cpp:253-266 | only a file-name filter may be the parent; no parent is refused |
| DataContainerFilter.FinishedRecord | SIMPLVtkLib/Visualization/VisualFilters/VSSIMPLDataContainerFilter.cpp:229-240 | after `apply`, the filter wraps the finished container under the same name and outputs its data set; nothing else changes |
| DataContainerFilter.Apply | SIMPLVtkLib/Visualization/VisualFilters/VSSIMPLDataContainerFilter.cpp:229-240 | the work runs exactly when the guard's permit is free, and then the record becomes `FinishedRecord` with the permit given back; otherwise nothing changes |
| DataContainerFilter.WriteJson | SIMPLVtkLib/Visualization/VisualFilters/VSSIMPLDataContainerFilter.cpp:168-175 | the base class's check-state number and transform object are written, then the name, tool tip and class id as strings; every other key is kept |
| DataContainerFilter.CheckArrays | SIMPLVtkLib/Visualization/VisualFilters/VSSIMPLDataContainerFilter.cpp:133-139 | every data array is checked and stored under its own name |
| DataContainerFilter.SelectContainer | SIMPLVtkLib/Visualization/VisualFilters/VSSIMPLDataContainerFilter.cpp:121-142 | the container is checked, its Cell matrices are checked, and all of its arrays are checked |
| DataContainerFilter.Create | SIMPLVtkLib/Visualization/VisualFilters/VSSIMPLDataContainerFilter.cpp:106-163 | when the file opens, only the named container of the proxy is selected; a filter is created exactly when the reader then yields a container of that name; it wraps that container under the parent with the saved tool tip; otherwise the store is unchanged |
| DataContainerFilter.WriteThenCreateKeys | SIMPLVtkLib/Visualization/VisualFilters/VSSIMPLDataContainerFilter.cpp:108-175 | the keys `Create` reads back from what `writeJson` wrote are the filter's text and tool tip |
| DataContainerFilter.RoundTripRecord | SIMPLVtkLib/Visualization/VisualFilters/VSSIMPLDataContainerFilter.cpp:106-175 | saving a filter and creating it again rebuilds the same text, tool tip and parent, wrapping the container that has the filter's name |
| Controller.AllFilters | SIMPLVtkLib/Visualization/Controllers/VSController.cpp:150-155 | the list is at least as long as the list of data filters; which filters it holds is stated by `Controller.AllFiltersMembers` |
| Controller.AllFiltersMembers | SIMPLVtkLib/Visualization/Controllers/VSController.cpp:146-158 | a filter is listed exactly when it is a data filter or a descendant of one |
| Controller.AsWrittenHasNullPlaceholders | SIMPLVtkLib/Visualization/Controllers/VSController.cpp:146-158 | as written, the list starts with a null whenever there is a data filter, so it differs from the intended list |
| Controller.AsWrittenSingleFilter | SIMPLVtkLib/Visualization/Controllers/VSController.cpp:146-158 | as written, one parentless data filter gives `[null, filter]` |
| Controller.Controller.SetActiveViewController | SIMPLVtkLib/Visualization/Controllers/VSController.cpp:125-133 | setting the same view changes nothing and signals nothing; a different view is stored and signalled exactly once |
| Controller.Controller.GetAllFiltersAsWritten | SIMPLVtkLib/Visualization/Controllers/VSController.cpp:146-158 | the loop as written returns the placeholders, then each data filter and its descendants |
| Controller.Controller.GetAllFilters | SIMPLVtkLib/Visualization/Controllers/VSController.cpp:146-158 | as intended: each data filter followed by its descendants, with no placeholder; a filter is listed exactly when it is a data filter or a descendant of one |
| ClipFilter.ClipAcceptsAnyValidInput | SIMPLVtkLib/Visualization/VisualFilters/VSClipFilter.cpp:264-275 | a clip filter accepts any input but an invalid one, and accepts its own output type (unstructured grid) |
| ClipFilter.ClipFilter.constructor | SIMPLVtkLib/Visualization/VisualFilters/VSClipFilter.cpp:66-90 | no algorithm yet; plane through the origin with normal (1, 0, 0); box at the origin with scale 1 and no rotation; plane type; nothing inverted |
| ClipFilter.ClipFilter.CreateFilter | SIMPLVtkLib/Visualization/VisualFilters/VSClipFilter.cpp:103-108 | a new algorithm is fed by the parent's output port, and the input counts as connected |
| ClipFilter.ClipFilter.ApplyPlane | SIMPLVtkLib/Visualization/VisualFilters/VSClipFilter.cpp:145-172 | the algorithm is created only when missing; a plane clip with exactly these parameters is recorded and used; the box parameters are unchanged |
| ClipFilter.ClipFilter.ApplyBox | SIMPLVtkLib/Visualization/VisualFilters/VSClipFilter.cpp:177-203 | the algorithm is created only when missing; a box clip with exactly these parameters is recorded and used; the plane parameters are unchanged |
| ClipFilter.ClipFilter.GetOutputPort | SIMPLVtkLib/Visualization/VisualFilters/VSClipFilter.cpp:208-220 | the clip result when connected with an algorithm, else the parent's port, else null |
| ClipFilter.ClipFilter.GetOutput | SIMPLVtkLib/Visualization/VisualFilters/VSClipFilter.cpp:225-237 | the clip result when connected with an algorithm, else the parent's output, else null |
| ClipFilter.ClipFilter.GetLastClipTypeString | SIMPLVtkLib/Visualization/VisualFilters/VSClipFilter.cpp:336-349 | "Plane" exactly for a plane clip, "Box" exactly for a box clip |
| ClipFilter.ClipLifecycle | SIMPLVtkLib/Visualization/VisualFilters/VSClipFilter.cpp:66-237 | a new filter forwards its parent's outputs; after a plane and then a box apply, it answers with its own result and "Box", and it keeps the plane parameters |
| CropValues.CropFiltersOfMembers | SIMPLVtkLib/Visualization/VisualFilters/VSCropValues.cpp:62-74 | exactly the crop filters of the selection are picked, in order |
| CropValues.CropValues.HasChanges | SIMPLVtkLib/Visualization/VisualFilters/VSCropValues.cpp:86-107 | true exactly when some of the 6 bounds or 3 sample rates differs from the filter's; nothing is modified |
| CropValues.CropValues.ApplyValues | SIMPLVtkLib/Visualization/VisualFilters/VSCropValues.cpp:62-74 | the values go to exactly the crop filters of the selection, in order |
| CropValues.CropValues.ResetValues | SIMPLVtkLib/Visualization/VisualFilters/VSCropValues.cpp:79-81 | modifies nothing, so whether the values differ from the filter's stays as it was |
| CropValues.OneDifferenceIsAChange | SIMPLVtkLib/Visualization/VisualFilters/VSCropValues.cpp:95-103 | one differing bound is enough for a change |
| FilterCamera.BeginEffects | SIMPLVtkLib/QtWidgets/VSInteractorStyleFilterCamera.cpp:209-230 | only the no-action type starts nothing |
| FilterCamera.CancelEffects | SIMPLVtkLib/QtWidgets/VSInteractorStyleFilterCamera.cpp:243-259 | only the no-action type has nothing to undo |
| FilterCamera.KeyAction | SIMPLVtkLib/QtWidgets/VSInteractorStyleFilterCamera.cpp:117-136 | exactly "t", "r" and "s" choose an action, and never the no-action type |
| FilterCamera.FilterCameraStyle.OnLeftButtonDown | SIMPLVtkLib/QtWidgets/VSInteractorStyleFilterCamera.cpp:52-63 | each press is counted; from the second press on the picked filter is grabbed, otherwise the trackball gets the press |
| FilterCamera.FilterCameraStyle.GrabFilter | SIMPLVtkLib/QtWidgets/VSInteractorStyleFilterCamera.cpp:184-196 | the picked prop and its filter are grabbed, and the filter is selected |
| FilterCamera.FilterCameraStyle.OnLeftButtonUp | SIMPLVtkLib/QtWidgets/VSInteractorStyleFilterCamera.cpp:68-73 | a release always lets go: no action, nothing grabbed |
| FilterCamera.FilterCameraStyle.OnRightButtonDown | SIMPLVtkLib/QtWidgets/VSInteractorStyleFilterCamera.cpp:78-84 | a right press cancels the current action |
| FilterCamera.FilterCameraStyle.OnMouseMove | SIMPLVtkLib/QtWidgets/VSInteractorStyleFilterCamera.cpp:89-112 | the press count restarts; the grabbed filter is dragged only with an action chosen, otherwise the camera moves |
| FilterCamera.FilterCameraStyle.OnKeyDown | SIMPLVtkLib/QtWidgets/VSInteractorStyleFilterCamera.cpp:117-136 | "t", "r" and "s" set their action; "Escape" cancels; any other key changes nothing |
| FilterCamera.FilterCameraStyle.SetViewWidget | SIMPLVtkLib/QtWidgets/VSInteractorStyleFilterCamera.cpp:141-147 | the grabbed filter is let go before the view changes |
| FilterCamera.FilterCameraStyle.SetActionType | SIMPLVtkLib/QtWidgets/VSInteractorStyleFilterCamera.cpp:209-230 | any current action is ended, then the new one is set and started |
| FilterCamera.FilterCameraStyle.EndAction | SIMPLVtkLib/QtWidgets/VSInteractorStyleFilterCamera.cpp:235-238 | no action afterwards |
| FilterCamera.FilterCameraStyle.CancelAction | SIMPLVtkLib/QtWidgets/VSInteractorStyleFilterCamera.cpp:243-259 | the current action's drag is undone, and no action is left, whatever it was |
| FilterCamera.FilterCameraStyle.ReleaseFilter | SIMPLVtkLib/QtWidgets/VSInteractorStyleFilterCamera.cpp:264-270 | no action, no grabbed filter or prop |
| FilterCamera.DoubleClickDrag | SIMPLVtkLib/QtWidgets/VSInteractorStyleFilterCamera.cpp:52-136 | a double click grabs, a key chooses the action, a move drags, and the release lets go |
| FilterCamera.MoveBetweenPressesDoesNotGrab | SIMPLVtkLib/QtWidgets/VSInteractorStyleFilterCamera.cpp:52-112 | a move between two presses restarts the count, so nothing is grabbed |
| QtText.NumberRoundTrip | SIMPLVtkLib/Dialogs/ImportDREAM3DMontageDialog.cpp:163-164 | reading back with `toInt` what `QString::number` wrote gives the number again |
| QtText.PaddedNumberRoundTrip | SIMPLVtkLib/Dialogs/RobometListWidget.cpp:451 | a zero-padded non-negative number reads back as itself |
| QtText.ToIntOfNonNumeric | SIMPLVtkLib/Dialogs/ImportDREAM3DMontageDialog.cpp:151-156 | text with no digit in it reads as 0, whatever white space surrounds it |
| QtText.TrimmedEnds | SIMPLVtkLib/Dialogs/ImportDREAM3DMontageDialog.cpp:151-156 | `toInt` reads the text with white space removed from both ends: what is left neither starts nor ends with white space |
| QtText.TrimmedUnchanged | SIMPLVtkLib/Dialogs/ImportDREAM3DMontageDialog.cpp:163-164 | text that neither starts nor ends with white space, such as what `QString::number` writes, is read as it stands |
| QtText.TrimStartNoDigits | SIMPLVtkLib/Dialogs/ImportDREAM3DMontageDialog.cpp:151-156 | dropping leading white space brings in no digit |
| QtText.TrimEndNoDigits | SIMPLVtkLib/Dialogs/ImportDREAM3DMontageDialog.cpp:151-156 | dropping trailing white space brings in no digit |
| QtText.TrimEndKeepsFirst | SIMPLVtkLib/Dialogs/ImportDREAM3DMontageDialog.cpp:151-156 | dropping trailing white space keeps the first character when any character is left |
| QtText.SplitSnoc | SIMPLVtkLib/Dialogs/RobometListWidget.cpp:558 | splitting `a + sep + b` with no separator in `b` gives the pieces of `a`, then `b` |
| QtText.BaseNameAndSuffix | SIMPLVtkLib/Dialogs/RobometListWidget.cpp:516 | a file name is its base name, '.', and its complete suffix |
| QtText.CompleteSuffixOfDotted | SIMPLVtkLib/Dialogs/ImportDREAM3DMontageDialog.cpp:192-196 | the complete suffix of `dir/base.ext` is `ext` when `base` has no dot |
| RobometList.GridLength | SIMPLVtkLib/Dialogs/RobometListWidget.cpp:441-466 | the list has one entry per (row, column) pair |
| RobometList.GridCell | SIMPLVtkLib/Dialogs/RobometListWidget.cpp:441-466 | the tile of (row, col) is at `(row - startRow) * columns + (col - startCol)`: row-major, rows outside |
| RobometList.SomeMissingMeans | SIMPLVtkLib/Dialogs/RobometListWidget.cpp:458-468 | the missing flag holds exactly when some listed path does not exist |
| RobometList.ListRow | SIMPLVtkLib/Dialogs/RobometListWidget.cpp:443-465 | the column loop appends one row's tile paths in column order; a missing one sets the flag |
| RobometList.GenerateFileList | SIMPLVtkLib/Dialogs/RobometListWidget.cpp:425-471 | an empty input path gives an empty list and leaves the flag as given; otherwise the list is the tile paths in row-major order, and the flag is exactly whether one of them is missing |
| RobometList.GeneratedNamesReadBack | SIMPLVtkLib/Dialogs/RobometListWidget.cpp:446-453 | the column and row a tile file was named with are the ones the scan reads back from it |
| RobometList.MaxBounds | SIMPLVtkLib/Dialogs/RobometListWidget.cpp:553-574 | the maxima start from 0, bound every tile, and are 0 or some tile's column (row) |
| RobometList.MaxColumnAndRow | SIMPLVtkLib/Dialogs/RobometListWidget.cpp:553-574 | the scan loop returns the largest column and row the names carry; names with fewer than two tokens are skipped |
| RobometList.LeastKeyExists | SIMPLVtkLib/Dialogs/RobometListWidget.cpp:522-530 | every non-empty set of keys has a least one in `QString` order |
| RobometList.CountsAreOccurrences | SIMPLVtkLib/Dialogs/RobometListWidget.cpp:514-518 | a suffix is counted exactly when it occurs, as often as it occurs |
| RobometList.MostCommonUnique | SIMPLVtkLib/Dialogs/RobometListWidget.cpp:520-530 | only one suffix is the most common with ties to the least |
| RobometList.CountSuffixes | SIMPLVtkLib/Dialogs/RobometListWidget.cpp:514-518 | the first loop builds exactly the occurrence counts |
| RobometList.MostCommonKey | SIMPLVtkLib/Dialogs/RobometListWidget.cpp:520-530 | the second loop (ascending keys, strict `>`) finds the most common key, the least among ties; "" when no count is positive |
| RobometList.MostCommonExtension | SIMPLVtkLib/Dialogs/RobometListWidget.cpp:502-533 | "" for no files; otherwise the most common complete suffix, the least among ties |
| RobometList.ExistingCount | SIMPLVtkLib/Dialogs/RobometListWidget.cpp:388-405 | the exists-count never exceeds the number of paths |
| RobometList.ExistingCountFull | SIMPLVtkLib/Dialogs/RobometListWidget.cpp:388-405 | every listed path exists exactly when the exists-count reaches the total |
| RobometList.ShowFileList | SIMPLVtkLib/Dialogs/RobometListWidget.cpp:388-403 | the item loop adds each path to the view, counts the existing ones, and sets the flag for a missing one |
| RobometList.ListSlices | SIMPLVtkLib/Dialogs/RobometListWidget.cpp:373-406 | as written: all slices' paths in order; the exists-count over the total; the flag reflects only the last slice |
| RobometList.AllPathsLength | SIMPLVtkLib/Dialogs/RobometListWidget.cpp:373-406 | the total is slices times rows times columns |
| RobometList.ListAndReport | SIMPLVtkLib/Dialogs/RobometListWidget.cpp:349-420 | the list, the message, the "found/total" label and the example name, with the flag corrected (`CorrectedView`) |
| RobometList.RobometListWidget.FindFileExtension | SIMPLVtkLib/Dialogs/RobometListWidget.cpp:502-533 | the extension field becomes the most common suffix of the first slice's files, or "" when there are none |
| RobometList.RobometListWidget.FindNumberOfRowsAndColumns | SIMPLVtkLib/Dialogs/RobometListWidget.cpp:538-585 | only the first slice's files that the name filter `*.<extension>` lets through are scanned; the starts become 0 and the ends the largest column and row those files carry |
| RobometList.WithExtension | SIMPLVtkLib/Dialogs/RobometListWidget.cpp:547-552 | a listed file is kept exactly when its file name ends in '.' and the extension; nothing else is kept |
| RobometList.RobometListWidget.GenerateExampleInputFile | SIMPLVtkLib/Dialogs/RobometListWidget.cpp:349-420 | the widget shows `CorrectedView` of its settings |
| RobometList.RobometListWidget.IsComplete | SIMPLVtkLib/Dialogs/RobometListWidget.cpp:590-617 | complete exactly when the slice range is not reversed, the list is not empty and every listed file exists |
| RobometList.AnySliceMissingIffFewerFound | SIMPLVtkLib/Dialogs/RobometListWidget.cpp:373-419 | some slice has a missing file exactly when the found count is below the total |
| RobometList.AnySliceMissingCoversLastSlice | SIMPLVtkLib/Dialogs/RobometListWidget.cpp:375-406 | whatever the flag as written reports, the corrected flag reports too |
| RobometList.LastSliceHidesEarlierMissing | SIMPLVtkLib/Dialogs/RobometListWidget.cpp:375-417 | as written: with two one-tile slices, the first one missing, the message is "All files exist." |
| RobometList.CorrectedViewAlertsIffMissing | SIMPLVtkLib/Dialogs/RobometListWidget.cpp:408-419 | the corrected view alerts exactly when some listed file is missing, exactly when the count label's numbers differ |
| RobometList.CorrectedViewCatchesEarlierMissing | SIMPLVtkLib/Dialogs/RobometListWidget.cpp:375-417 | on the input that fools the flag as written, the corrected view raises the alert |
| QtText.LastPart | SIMPLVtkLib/Dialogs/ImportDREAM3DMontageDialog.cpp:148 | the last piece of a split holds no separator: the row-column segment of a container name has no '_' (and a file name, no '/') |
| Dream3dMontageDialog.TileContainerNameReadBack | SIMPLVtkLib/Dialogs/ImportDREAM3DMontageDialog.cpp:147-156 | the row and column written into a `prefix_rXcY` name are the ones parsed back, whatever the prefix |
| Dream3dMontageDialog.UnnumberedContainerIsOrigin | SIMPLVtkLib/Dialogs/ImportDREAM3DMontageDialog.cpp:147-156 | a name whose last segment holds no digit counts as row 0, column 0 |
| Dream3dMontageDialog.LimitBounds | SIMPLVtkLib/Dialogs/ImportDREAM3DMontageDialog.cpp:136-161 | the limit is the largest number of any container, or 0 when there is none or all are negative |
| Dream3dMontageDialog.LimitsAreInt32 | SIMPLVtkLib/Dialogs/ImportDREAM3DMontageDialog.cpp:136-161 | both limits fit a C++ `int` |
| Dream3dMontageDialog.LimitIgnoresFlags | SIMPLVtkLib/Dialogs/ImportDREAM3DMontageDialog.cpp:142-145 | the check flags play no part in the limits |
| Dream3dMontageDialog.CompleteIff | SIMPLVtkLib/Dialogs/ImportDREAM3DMontageDialog.cpp:172-210 | complete exactly when no enabled field is empty, the complete suffix is "dream3d" and no proxy is loading |
| Dream3dMontageDialog.EmptyDataFileIsIncomplete | SIMPLVtkLib/Dialogs/ImportDREAM3DMontageDialog.cpp:192-196 | an empty data file never completes, even when its field is disabled |
| Dream3dMontageDialog.Dream3dFileCompletes | SIMPLVtkLib/Dialogs/ImportDREAM3DMontageDialog.cpp:172-210 | a named montage read from `dir/base.dream3d` completes once the proxy is loaded |
| Dream3dMontageDialog.DoubleSuffixIsIncomplete | SIMPLVtkLib/Dialogs/ImportDREAM3DMontageDialog.cpp:192-196 | `base.tar.dream3d` is refused: the complete suffix starts at the first dot |
| Dream3dMontageDialog.ImportDream3dMontageDialog.CheckComplete | SIMPLVtkLib/Dialogs/ImportDREAM3DMontageDialog.cpp:172-210 | the OK button is enabled exactly when the dialog is complete |
| Dream3dMontageDialog.ImportDream3dMontageDialog.ProxyChanged | SIMPLVtkLib/Dialogs/ImportDREAM3DMontageDialog.cpp:131-167 | the end fields show the largest row and column; completeness is rechecked; the metadata then reads back exactly those limits |
| Dream3dMontageDialog.ImportDream3dMontageDialog.GetMetadata | SIMPLVtkLib/Dialogs/ImportDREAM3DMontageDialog.cpp:283-295 | the limits are the fields read as `int`s (0 for non-numbers); name and path are the fields |
| ZeissMontageDialog.AnyBlockingMeans | SIMPLVtkLib/Dialogs/ImportZeissMontageDialog.cpp:235-353 | the dialog is blocked exactly when some line edit is enabled and empty |
| ZeissMontageDialog.Wrap32 | SIMPLVtkLib/Dialogs/ImportZeissMontageDialog.cpp:360-363 | a C++ `int` result: in range and congruent modulo 2^32 |
| ZeissMontageDialog.TileCountAsWrittenInRange | SIMPLVtkLib/Dialogs/ImportZeissMontageDialog.cpp:356-363 | where no step overflows, the 32-bit count is the true count |
| ZeissMontageDialog.WrappedTileCountAcceptsEmptyList | SIMPLVtkLib/Dialogs/ImportZeissMontageDialog.cpp:360-365 | as written: a 65536 by 65536 montage has 2^32 tiles, which the 32-bit product turns into 0, so an empty list is not "too few" |
| ZeissMontageDialog.TileCountOfOrderedBounds | SIMPLVtkLib/Dialogs/ImportZeissMontageDialog.cpp:356-363 | bounds in order declare `(endX - startX + 1) * (endY - startY + 1)` tiles, at least one |
| ZeissMontageDialog.Complete | SIMPLVtkLib/Dialogs/ImportZeissMontageDialog.cpp:231-382 | a complete dialog has no enabled empty field and at least the declared number of tiles |
| ZeissMontageDialog.FilledDialogIsComplete | SIMPLVtkLib/Dialogs/ImportZeissMontageDialog.cpp:231-382 | conversely, filled fields, a complete list and enough tiles complete the dialog |
| ZeissMontageDialog.CorrectedCountRefusesEmptyList | SIMPLVtkLib/Dialogs/ImportZeissMontageDialog.cpp:360-372 | with the unbounded count, an empty list is refused for every ordered bounds, 65536 by 65536 included |
| ZeissMontageDialog.ImportZeissMontageDialog.LineEdits | SIMPLVtkLib/Dialogs/ImportZeissMontageDialog.cpp:235-353 | the fourteen line edits the checks look at |
| ZeissMontageDialog.ImportZeissMontageDialog.CheckComplete | SIMPLVtkLib/Dialogs/ImportZeissMontageDialog.cpp:231-382 | the OK button is enabled and the error label hidden exactly when the dialog is complete, with the tile count taken as the unbounded product; the label's text changes only when too few tiles are selected |
| ZeissMontageDialog.ImportZeissMontageDialog.SetupGui | SIMPLVtkLib/Dialogs/ImportZeissMontageDialog.cpp:83-114 | the montage name starts as "Untitled Montage", then completeness is checked |
| ZeissMontageDialog.ImportZeissMontageDialog.ConvertGrayscaleStateChanged | SIMPLVtkLib/Dialogs/ImportZeissMontageDialog.cpp:183-194 | the weights are enabled exactly when checked; unchecking restores 0.2125, 0.7154, 0.0721; checking keeps the texts |
| ZeissMontageDialog.ImportZeissMontageDialog.ChangeOriginStateChanged | SIMPLVtkLib/Dialogs/ImportZeissMontageDialog.cpp:199-210 | the origin fields are enabled exactly when checked; unchecking resets them to 0, 0, 0 |
| ZeissMontageDialog.ImportZeissMontageDialog.ChangeSpacingStateChanged | SIMPLVtkLib/Dialogs/ImportZeissMontageDialog.cpp:215-226 | the spacing fields are enabled exactly when checked; unchecking resets them to 1, 1, 1 |
| ZeissMontageDialog.ImportZeissMontageDialog.GetMontageStart | SIMPLVtkLib/Dialogs/ImportZeissMontageDialog.cpp:435-441 | z is 1; x and y are the start fields converted |
| ZeissMontageDialog.ImportZeissMontageDialog.GetMontageEnd | SIMPLVtkLib/Dialogs/ImportZeissMontageDialog.cpp:446-452 | z is 1; x and y are the end fields converted |
| ZeissMontageDialog.UncheckedFieldsDoNotBlock | SIMPLVtkLib/Dialogs/ImportZeissMontageDialog.cpp:183-226 | fields switched off by unchecking hold their defaults and never block completion |
| EnterDream3dDataPage.Bound | SIMPLVtkLib/Wizards/ImportMontage/EnterDREAM3DDataPage.cpp:84-91 | a spin box value bounded into a range lies in it, is kept when already inside, and becomes the nearer end otherwise |
| EnterDream3dDataPage.SetMinimum | SIMPLVtkLib/Wizards/ImportMontage/EnterDREAM3DDataPage.cpp:84-90 | `QSpinBox::setMinimum`: the new minimum, the maximum raised to it if below, and the value moved into the range (kept if inside, the minimum if below) |
| EnterDream3dDataPage.SetMaximum | SIMPLVtkLib/Wizards/ImportMontage/EnterDREAM3DDataPage.cpp:85-91 | `QSpinBox::setMaximum`: the new maximum, the minimum lowered to it if above, and the value moved into the range (kept if inside, the maximum if above) |
| EnterDream3dDataPage.SetRangeBounds | SIMPLVtkLib/Wizards/ImportMontage/EnterDREAM3DDataPage.cpp:84-91 | setting the minimum and then the maximum leaves exactly that range, and a value that was in its old range ends bounded into the new one |
| EnterDream3dDataPage.SetupGui | SIMPLVtkLib/Wizards/ImportMontage/EnterDREAM3DDataPage.cpp:80-92 | rows and columns range over [1, INT_MAX] and the overlap over [0, 100]; every value is bounded into its new range (a count below 1 becomes 1), so no spin box is left out of range; enabled states and texts are kept |
| EnterDream3dDataPage.IsComplete | SIMPLVtkLib/Wizards/ImportMontage/EnterDREAM3DDataPage.cpp:120-195 | a complete page has no enabled empty text field and no enabled spin box out of range, and the file's complete suffix is "dream3d" |
| EnterDream3dDataPage.FilledPageIsComplete | SIMPLVtkLib/Wizards/ImportMontage/EnterDREAM3DDataPage.cpp:120-195 | conversely, a page passing every test is complete |
| EnterDream3dDataPage.DisabledEmptyDataFileIsIncomplete | SIMPLVtkLib/Wizards/ImportMontage/EnterDREAM3DDataPage.cpp:140-144 | a disabled empty data file still keeps the page incomplete |
| EnterDream3dDataPage.SetUpPageCompleteIff | SIMPLVtkLib/Wizards/ImportMontage/EnterDREAM3DDataPage.cpp:120-195 | after setup the spin-box tests cannot fail: the page is complete exactly when no enabled text field is empty and the file's complete suffix is "dream3d" |
| EnterDream3dDataPage.DefaultRowCountBecomesOne | SIMPLVtkLib/Wizards/ImportMontage/EnterDREAM3DDataPage.cpp:84-85 | a row count left at the spin box default 0 (range 0 to 99) becomes 1 |
| EnterDream3dDataPage.Dream3dPageCompletes | SIMPLVtkLib/Wizards/ImportMontage/EnterDREAM3DDataPage.cpp:120-195 | a set-up page naming a `.dream3d` file, with all text fields filled, is complete whatever its spin boxes held |
| EnterDream3dDataPage.NavigationIgnoresFields | SIMPLVtkLib/Wizards/ImportMontage/EnterDREAM3DDataPage.cpp:284-303 | the next page is always the HDF5 loading page, and validation never refuses |

## Left out

- QtText.IsSpace: `QString::trimmed` (and so `toInt`) also drops the Unicode space characters beyond ASCII; the model drops only tab, line feed, vertical tab, form feed, carriage return and space.
- RobometList.WithExtension: a `QDir` name filter matches without regard to case unless asked otherwise, and an extension holding the wildcard characters `*`, `?` or `[` would be a pattern; the model matches the extension literally and case-sensitively.

- **Real threads.**
  - QtConcurrent, QSemaphore blocking, and queued signal delivery are replaced by atomic steps in a nondeterministic order.
  - `run` is modelled as import, then pop, then the wrap workers up to their barrier. An interleaving where a barrier fires before `run` pops its pair is not modelled. Nor are the races on the file filter and work list before the lock is taken.
  - The busy-wait in `addChild` is not modelled.
- **Undefined behaviour: some recorded, some excluded.**
  - Three steps are recorded as `Fault` events and the model goes on: `back()` of an empty filter queue; `apply()` on a null entry queued by Reload; rebinding a same-named child that is not a data-container filter.
  - Null dereferences the source does not guard are excluded by preconditions instead: `ClipFilter.ClipFilter.CreateFilter` and `ClipFilter.ClipLifecycle` require a parent (`parent.Some?`); `ClipFilter.ClipFilter.ApplyPlane` and `ClipFilter.ClipFilter.ApplyBox` require one when no clip algorithm exists yet; `FilterCamera.FilterCameraStyle.GrabFilter` requires a view widget, and `FilterCamera.FilterCameraStyle.OnLeftButtonDown` requires one for a double click.
- **Shared wrapped containers.** A `WrappedDataContainerPtr` is a shared pointer: in Reload mode several same-named children end up pointing at the one wrapped object, and applying or finishing one of them changes what the others see. The store holds each filter's wrapped container as a value, so `ConcurrentImport.RebindAll`, `ConcurrentImport.ReloadSpec` and `ConcurrentImport.ConcurrentImport.ApplyNext` (through `FinishedRecord`) change only the filter they name; this aliasing is not modelled.
- **SIMPLVtkBridge, the HDF5 reader and VTK objects are foreign code.**
  - Wrapping and finishing are a table given to the model (`Bridge.BridgeBehaviour`).
  - The reader is an answer given as parameters.
  - VTK algorithms, ports and data sets are opaque handles.
- **The file system is given as data.**
  - Existence is a set of paths.
  - Directory listings are sequences.
  - `convertToAbsolutePath` is the identity.
  - '/' is the separator, and `toNativeSeparators` changes nothing.
- **Floating-point geometry is not modelled.**
  - Clip plane and box values are reals, copied as they are.
  - `getBoxFunction`, `updateAlgorithmInput`, the camera's translate, rotate and scale arithmetic, and the contents of the saved transform object (three arrays of floating-point values) are left out; `WriteJson` writes that key as an opaque value.
  - The camera's effects are recorded as events.
- FilterTree.FilterStore.RemoveChild: `removeRow` destroys the removed item. Ids are positions in the store, so the model keeps the child's record, and its `parent` field still names the old parent; only the parent's rows show the removal.
- ZeissMontageDialog.ImportZeissMontageDialog.CheckComplete: the tile count is the unbounded product, not the 32-bit one the source computes (see Findings), so the error label's number and the test use the intended count. The exception thrown when the OK button is missing is not modelled.
- **Header-only values.**
  - The padding constants are widget parameters.
  - The filter-camera style's initial state is set in its header, which is not part of this model. The constructor starts at rest.
  - The wizard's page ids are reduced to the HDF5 loading page and "other".
- ZeissMontageDialog.ImportZeissMontageDialog.GetMontageStart: the float reading and the float-to-`int` conversion are a parameter `textToInt`, because floating point is not modelled. The same holds for GetMontageEnd and the float getters.
- RobometList.RobometListWidget.GenerateExampleInputFile: the list view and its three labels are one `ListView` value, and the icons are not modelled. It states the corrected missing-files flag (see Findings). The flag as written is `ListSlices`.
- The montage information label of `findNumberOfRowsAndColumns` is text for display only and is not modelled.
- `findPrefix`, `inputDir_textChanged`, `validateInputFile` and the rest of the widget wiring are not modelled. They are UI glue around the modelled operations.
- Dream3dMontageDialog.ImportDream3dMontageDialog.ProxyChanged: the proxy's `QMap` order is given as a sequence. The unused `checkCount` is not modelled.
- Dream3dMontageDialog.ImportDream3dMontageDialog.CheckComplete: the exception for a missing OK button is not modelled.
- The DREAM3D dialog's `selectBtn_clicked`, `dataFile_textChanged`, `setInputDirectory`, `getInputDirectory` and `initializePage` are not modelled; nor is its `setupGui` (the OK button's text, the HDF5 widget's flags, the `QIntValidator`s on the bound fields and the first `checkComplete`), which only configures widgets.
- The text-changed to `checkComplete` signal wiring of both dialogs is not modelled. Nor are the Zeiss `zeissListWidgetChanged` and list-info helpers; the list's completeness is an input.
- The wizard page's `registerFields`, `cleanupPage`, `selectBtn_clicked`, `dataFile_textChanged` (which also calls `setFinalPage(false)`) and `completeChanged` signals are not modelled.
- Spin-box ranges hold the Robomet slice and tile bounds inside `int`. The model's integers are unbounded, so overflow of the source's `for` counters at `INT_MAX` is not modelled.

## Findings

| source | as written | input that shows it | evidently intended | confidence | as-written member | corrected member |
|---|---|---|---|---|---|---|
| SIMPLVtkLib/Visualization/Controllers/VSController.cpp:148-155 | the vector is pre-sized to the number of data filters, then appended to, so it starts with that many null pointers | one parentless data filter with no children: `[null, filter]` | each data filter and its descendants, with no nulls | not executed | Controller.AsWrittenSingleFilter | Controller.Controller.GetAllFilters |
| SIMPLVtkLib/Dialogs/RobometListWidget.cpp:375-417 | each slice's `generateFileList` call overwrites `hasMissingFiles` (line 468), so the message reflects only the last slice | two slices of one tile each, the first tile missing and the second present: "All files exist." | the alert whenever any listed file is missing | not executed | RobometList.LastSliceHidesEarlierMissing | RobometList.CorrectedViewCatchesEarlierMissing |
| SIMPLVtkLib/Dialogs/ImportZeissMontageDialog.cpp:360-365 | the column count, row count and their product are 32-bit `int`s | bounds 0..65535 on both axes: 2^32 tiles wrap to 0, so the tile-count test lets an empty tile list through (the list widget's own completeness check is an input of the model and is not modelled) | the true tile count, so an empty list is refused | not executed | ZeissMontageDialog.WrappedTileCountAcceptsEmptyList | ZeissMontageDialog.CorrectedCountRefusesEmptyList |
