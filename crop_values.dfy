/**
 * `VSCropValues`: the values a crop widget edits (a volume of interest and a
 * sample rate) before they are applied to the selected crop filters.
 */
module CropValues {
  /** The parts of a `VSCropFilter` the values are compared with: its current VOI and sample rate. */
  class CropFilter {
    const voi: array<int>
    const sampleRate: array<int>

    constructor (voi: array<int>, sampleRate: array<int>)
      ensures this.voi == voi && this.sampleRate == sampleRate
    {
      this.voi := voi;
      this.sampleRate := sampleRate;
    }
  }

  /** A selected filter: a crop filter, or a filter of another type (named by its identity). */
  datatype Selected = Crop(filter: CropFilter) | OtherFilter(id: nat)

  /** The crop filters of a selection, in selection order. */
  function CropFiltersOf(selection: seq<Selected>): (r: seq<CropFilter>)
  {
    if selection == [] then []
    else (if selection[0].Crop? then [selection[0].filter] else []) + CropFiltersOf(selection[1..])
  }

  /** Exactly the crop filters of the selection are picked, each once per occurrence and in order. */
  lemma {:induction false} CropFiltersOfMembers(selection: seq<Selected>)
    ensures forall f :: f in CropFiltersOf(selection) <==> Crop(f) in selection
    ensures |CropFiltersOf(selection)| <= |selection|
  {
    if selection != [] {
      CropFiltersOfMembers(selection[1..]);
      assert selection == [selection[0]] + selection[1..];
    }
  }

  lemma CropFiltersOfSnoc(selection: seq<Selected>, s: Selected)
    ensures CropFiltersOf(selection + [s]) == CropFiltersOf(selection) + (if s.Crop? then [s.filter] else [])
  {
    if selection != [] {
      assert (selection + [s])[1..] == selection[1..] + [s];
    }
  }

  class CropValues {
    /** The crop filter the widget edits. */
    const filter: CropFilter
    /** `m_Voi`: xmin, xmax, ymin, ymax, zmin, zmax. */
    const voi: array<int>
    /** `m_SampleRate`: one rate per axis. */
    const sampleRate: array<int>

    ghost predicate Valid() {
      voi.Length == 6 && sampleRate.Length == 3 && filter.voi.Length == 6 && filter.sampleRate.Length == 3
    }

    /** The widget's values and the filter's stored values differ somewhere. */
    ghost predicate Differs()
      requires Valid()
      reads this, filter, voi, sampleRate, filter.voi, filter.sampleRate
    {
      voi[..] != filter.voi[..] || sampleRate[..] != filter.sampleRate[..]
    }

    /** The constructor allocates both arrays; their contents are not initialised. */
    constructor (filter: CropFilter)
      requires filter.voi.Length == 6 && filter.sampleRate.Length == 3
      ensures Valid() && this.filter == filter && fresh(voi) && fresh(sampleRate)
    {
      this.filter := filter;
      voi := new int[6];
      sampleRate := new int[3];
    }

    /**
     * `hasChanges`: compares the bounds two at a time with the sample rate of
     * the same axis and stops at the first difference. Nothing is modified.
     */
    method HasChanges() returns (changed: bool)
      requires Valid()
      ensures changed <==> Differs()
      ensures changed <==> (exists k :: 0 <= k < 6 && voi[k] != filter.voi[k]) ||
                           (exists k :: 0 <= k < 3 && sampleRate[k] != filter.sampleRate[k])
    {
      for i := 0 to 3
        invariant forall k :: 0 <= k < 2 * i ==> voi[k] == filter.voi[k]
        invariant forall k :: 0 <= k < i ==> sampleRate[k] == filter.sampleRate[k]
      {
        if voi[i * 2] != filter.voi[i * 2] || voi[i * 2 + 1] != filter.voi[i * 2 + 1] {
          assert voi[..][i * 2] != filter.voi[..][i * 2] || voi[..][i * 2 + 1] != filter.voi[..][i * 2 + 1];
          return true;
        }
        if sampleRate[i] != filter.sampleRate[i] {
          assert sampleRate[..][i] != filter.sampleRate[..][i];
          return true;
        }
      }
      assert voi[..] == filter.voi[..];
      assert sampleRate[..] == filter.sampleRate[..];
      return false;
    }

    /**
     * `applyValues`: hands these values to every crop filter of the selection,
     * in order, skipping filters of any other type. The filters picked are
     * returned, standing for the `applyValues(this)` calls.
     */
    method ApplyValues(selection: seq<Selected>) returns (appliedTo: seq<CropFilter>)
      ensures appliedTo == CropFiltersOf(selection)
    {
      appliedTo := [];
      for i := 0 to |selection|
        invariant appliedTo == CropFiltersOf(selection[..i])
      {
        CropFiltersOfSnoc(selection[..i], selection[i]);
        assert selection[..i + 1] == selection[..i] + [selection[i]];
        if selection[i].Crop? {
          appliedTo := appliedTo + [selection[i].filter];
        }
      }
      assert selection[..|selection|] == selection;
    }

    /** `resetValues` does nothing: the widget's values and the filter stay as they are. */
    method ResetValues()
      requires Valid()
      ensures Differs() == old(Differs())
    {
    }
  }

  /**
   * One bound or one rate set differently from the filter's is enough to make
   * `hasChanges` true, whatever the other values are.
   */
  lemma OneDifferenceIsAChange(v: CropValues, k: nat)
    requires v.Valid() && k < 6 && v.voi[k] != v.filter.voi[k]
    ensures v.Differs()
  {
    assert v.voi[..][k] != v.filter.voi[..][k];
  }
}
