/**
 * The Crops page: the loaded crop list, the search box and status filter over it, and the list
 * updates after a create, an edit or a delete.
 */
module CropsPage {
  import opened Wrappers
  import opened Records
  import opened Lists
  import opened Backend
  import opened PageState
  import Text

  function IdOf(c: Crop): nat { c.Id }

  /** The search callback: name, variety or farm name contains the term, ignoring case. */
  predicate Matches(c: Crop, term: string) {
    Text.IncludesIgnoringCase(c.name, term) || Text.IncludesIgnoringCase(c.variety, term) ||
    Text.IncludesIgnoringCase(c.farmName, term)
  }

  function Matching(term: string): Crop -> bool {
    (c: Crop) => Matches(c, term)
  }

  function HasStatus(status: string): Crop -> bool {
    (c: Crop) => c.status == status
  }

  /** `filteredCrops`: the search applies only to a non-empty term, the status filter only to a
      status other than "all". */
  function Visible(crops: seq<Crop>, term: string, status: string): (r: seq<Crop>)
    ensures |r| <= |crops|
  {
    var searched := if term != "" then Filter(crops, Matching(term)) else crops;
    if status != "all" then Filter(searched, HasStatus(status)) else searched
  }

  /** Whether a crop is shown: it matches a non-empty term and has the chosen status. */
  function Shown(term: string, status: string): Crop -> bool {
    (c: Crop) => (term == "" || Matches(c, term)) && (status == "all" || c.status == status)
  }

  /** The shown crops are the crops, in their order, that match a non-empty term and have the
      chosen status (any status under "all"), each as often as it occurs in the list. */
  lemma VisibleMembers(crops: seq<Crop>, term: string, status: string)
    ensures SubseqOf(Visible(crops, term, status), crops)
    ensures forall c :: c in Visible(crops, term, status) <==>
      c in crops && (term == "" || Matches(c, term)) && (status == "all" || c.status == status)
    ensures |Visible(crops, term, status)| == CountWhere(crops, Shown(term, status))
  {
    VisibleIsShown(crops, term, status);
    FilterCount(crops, Shown(term, status));
    var searched := if term != "" then Filter(crops, Matching(term)) else crops;
    if term != "" {
      FilterIsSubseq(crops, Matching(term));
      FilterMembers(crops, Matching(term));
    } else {
      SubseqRefl(crops);
    }
    if status != "all" {
      FilterIsSubseq(searched, HasStatus(status));
      FilterMembers(searched, HasStatus(status));
      SubseqTrans(Filter(searched, HasStatus(status)), searched, crops);
    }
  }

  /** The two guarded filters together are one filter by `Shown`. */
  lemma VisibleIsShown(crops: seq<Crop>, term: string, status: string)
    ensures Visible(crops, term, status) == Filter(crops, Shown(term, status))
  {
    if term != "" && status != "all" {
      FilterBoth(crops, Matching(term), HasStatus(status));
      FilterCongruent(crops, Both(Matching(term), HasStatus(status)), Shown(term, status));
    } else if term != "" {
      FilterCongruent(crops, Matching(term), Shown(term, status));
    } else if status != "all" {
      FilterCongruent(crops, HasStatus(status), Shown(term, status));
    } else {
      FilterAll(crops, Shown(term, status));
    }
  }

  /** The empty-term guard changes nothing: searching for "" would keep every crop anyway. */
  lemma EmptySearchKeepsAll(crops: seq<Crop>, status: string)
    ensures Filter(crops, Matching("")) == crops
    ensures Visible(crops, "", "all") == crops
  {
    forall c | c in crops ensures Matching("")(c) {
      Text.EmptyTermMatches(c.name);
    }
    FilterAll(crops, Matching(""));
  }

  /** The status filter and the search can be applied in either order. */
  lemma FiltersCommute(crops: seq<Crop>, term: string, status: string)
    requires term != "" && status != "all"
    ensures Visible(crops, term, status) == Filter(Filter(crops, HasStatus(status)), Matching(term))
  {
    FilterCommute(crops, Matching(term), HasStatus(status));
  }

  class Page {
    var crops: seq<Crop>
    var farms: seq<Farm>
    var searchTerm: string
    var statusFilter: string

    constructor()
      ensures crops == [] && farms == [] && searchTerm == "" && statusFilter == "all"
    {
      crops, farms := [], [];
      searchTerm, statusFilter := "", "all";
    }

    /** `loadData`: the lists `cropService.getAll()` and `farmService.getAll()` answered. */
    method Load(loadedCrops: seq<Crop>, loadedFarms: seq<Farm>)
      modifies this
      ensures crops == loadedCrops && farms == loadedFarms
      ensures searchTerm == old(searchTerm) && statusFilter == old(statusFilter)
    {
      crops, farms := loadedCrops, loadedFarms;
    }

    method Search(term: string)
      modifies this
      ensures searchTerm == term
      ensures crops == old(crops) && farms == old(farms) && statusFilter == old(statusFilter)
    {
      searchTerm := term;
    }

    method FilterStatus(status: string)
      modifies this
      ensures statusFilter == status
      ensures crops == old(crops) && farms == old(farms) && searchTerm == old(searchTerm)
    {
      statusFilter := status;
    }

    /** `handleAddCrop`, given what `cropService.create` answered: the new crop is appended; on
        an error the list stays as it was. */
    method AddCrop(created: Result<Crop, Failure>)
      modifies this
      ensures created.Ok? ==> crops == old(crops) + [created.value]
      ensures created.Err? ==> crops == old(crops)
      ensures farms == old(farms) && searchTerm == old(searchTerm) && statusFilter == old(statusFilter)
    {
      if created.Ok? {
        crops := crops + [created.value];
      }
    }

    /** `handleEditCrop`, given what `cropService.update` answered: the entries with the updated
        crop's `Id` become it. */
    method EditCrop(updated: Result<Crop, Failure>)
      modifies this
      ensures updated.Ok? ==> crops == Replaced(old(crops), IdOf, updated.value.Id, updated.value)
      ensures updated.Err? ==> crops == old(crops)
      ensures farms == old(farms) && searchTerm == old(searchTerm) && statusFilter == old(statusFilter)
    {
      if updated.Ok? {
        crops := Replaced(crops, IdOf, updated.value.Id, updated.value);
      }
    }

    /** `handleDeleteCrop`: nothing happens unless the user confirms; then, once
        `cropService.delete` resolves, the entries with that `Id` are removed. */
    method DeleteCrop(id: nat, confirmed: bool, deleted: Result<bool, Failure>)
      modifies this
      ensures confirmed && deleted.Ok? ==> crops == Removed(old(crops), IdOf, id)
      ensures !(confirmed && deleted.Ok?) ==> crops == old(crops)
      ensures farms == old(farms) && searchTerm == old(searchTerm) && statusFilter == old(statusFilter)
    {
      if confirmed && deleted.Ok? {
        crops := Removed(crops, IdOf, id);
      }
    }

    /** `filteredCrops` on the current state. */
    function Shown(): seq<Crop>
      reads this
    {
      Visible(crops, searchTerm, statusFilter)
    }
  }
}
