/**
 * The Farms page: the farm list with each farm's weather looked up on load, the search box over
 * it, and the list updates after a create, an edit or a delete. `lookup(location)` stands for
 * `weatherService.getWeatherSummary(location)`: the summary, or `None` when the call threw.
 */
module FarmsPage {
  import opened Wrappers
  import opened Records
  import opened Lists
  import opened Backend
  import opened PageState
  import Text
  import FarmForm

  function IdOf(f: Farm): nat { f.Id }

  /** One farm of `loadFarms`: its weather summary replaced by the looked-up report, or by
      `null` when the lookup failed. */
  function WithWeather(f: Farm, lookup: string -> Option<WeatherSummary>): (r: Farm)
    ensures r == f.(weatherSummary := r.weatherSummary)
    ensures lookup(f.location).Some? ==> r.weatherSummary == Report(lookup(f.location).value)
    ensures lookup(f.location).None? ==> r.weatherSummary == Null
  {
    f.(weatherSummary := if lookup(f.location).Some? then Report(lookup(f.location).value) else Null)
  }

  /** `farmsWithWeather`: every fetched farm, in order, with its weather looked up. */
  function Loaded(fetched: seq<Farm>, lookup: string -> Option<WeatherSummary>): (r: seq<Farm>)
    ensures |r| == |fetched|
    ensures forall i :: 0 <= i < |r| ==> r[i] == WithWeather(fetched[i], lookup)
  {
    seq(|fetched|, i requires 0 <= i < |fetched| => WithWeather(fetched[i], lookup))
  }

  /** Loading keeps every farm in its place and changes nothing but the weather summary, which
      is a report when that farm's lookup succeeded and `null` when it failed; a failed lookup
      touches no other farm. The stored summary text is never kept. */
  lemma LoadedShape(fetched: seq<Farm>, lookup: string -> Option<WeatherSummary>)
    ensures var r := Loaded(fetched, lookup);
      forall i :: 0 <= i < |r| ==>
        r[i].Id == fetched[i].Id && r[i].name == fetched[i].name && r[i].location == fetched[i].location &&
        r[i].size == fetched[i].size && r[i].soilType == fetched[i].soilType && r[i].createdAt == fetched[i].createdAt &&
        (r[i].weatherSummary.Null? <==> lookup(fetched[i].location).None?) && !r[i].weatherSummary.Text?
  {
  }

  /** Every farm whose lookup succeeded holds a report object, which the farm form as written
      cannot submit after editing. */
  lemma LoadedFarmsBreakEdit(fetched: seq<Farm>, lookup: string -> Option<WeatherSummary>, i: nat)
    requires i < |fetched| && lookup(fetched[i].location).Some?
    ensures FarmForm.SubmittedSummaryAsWritten(FarmForm.SummaryFieldAsWritten(Loaded(fetched, lookup)[i].weatherSummary)).None?
    ensures FarmForm.SummaryText(Loaded(fetched, lookup)[i].weatherSummary) == lookup(fetched[i].location).value.summary
  {
  }

  /** The search callback: name, location or soil type contains the term, ignoring case. */
  predicate Matches(f: Farm, term: string) {
    Text.IncludesIgnoringCase(f.name, term) || Text.IncludesIgnoringCase(f.location, term) ||
    Text.IncludesIgnoringCase(f.soilType, term)
  }

  function Matching(term: string): Farm -> bool {
    (f: Farm) => Matches(f, term)
  }

  /** `filteredFarms`: the search runs on every term, the empty one included. */
  function Visible(farms: seq<Farm>, term: string): (r: seq<Farm>)
    ensures |r| <= |farms|
  {
    Filter(farms, Matching(term))
  }

  /** The shown farms are the matching ones, in their order, each as often as it occurs. */
  lemma VisibleMembers(farms: seq<Farm>, term: string)
    ensures SubseqOf(Visible(farms, term), farms)
    ensures forall f :: f in Visible(farms, term) <==> f in farms && Matches(f, term)
    ensures |Visible(farms, term)| == CountWhere(farms, Matching(term))
  {
    FilterCount(farms, Matching(term));
    FilterIsSubseq(farms, Matching(term));
    FilterMembers(farms, Matching(term));
  }

  /** An empty search term shows every farm. */
  lemma EmptySearchKeepsAll(farms: seq<Farm>)
    ensures Visible(farms, "") == farms
  {
    forall f | f in farms ensures Matching("")(f) {
      Text.EmptyTermMatches(f.name);
    }
    FilterAll(farms, Matching(""));
  }

  class Page {
    var farms: seq<Farm>
    var searchTerm: string

    constructor()
      ensures farms == [] && searchTerm == ""
    {
      farms, searchTerm := [], "";
    }

    /** `loadFarms`: the list `farmService.getAll()` answered, each farm with its weather. */
    method Load(fetched: seq<Farm>, lookup: string -> Option<WeatherSummary>)
      modifies this
      ensures farms == Loaded(fetched, lookup) && searchTerm == old(searchTerm)
    {
      farms := Loaded(fetched, lookup);
    }

    method Search(term: string)
      modifies this
      ensures searchTerm == term && farms == old(farms)
    {
      searchTerm := term;
    }

    /** `handleAddFarm`, given what `farmService.create` answered. */
    method AddFarm(created: Result<Farm, Failure>)
      modifies this
      ensures created.Ok? ==> farms == old(farms) + [created.value]
      ensures created.Err? ==> farms == old(farms)
      ensures searchTerm == old(searchTerm)
    {
      if created.Ok? {
        farms := farms + [created.value];
      }
    }

    /** `handleEditFarm`, given what `farmService.update` answered: the entries with the updated
        farm's `Id` become it. */
    method EditFarm(updated: Result<Farm, Failure>)
      modifies this
      ensures updated.Ok? ==> farms == Replaced(old(farms), IdOf, updated.value.Id, updated.value)
      ensures updated.Err? ==> farms == old(farms)
      ensures searchTerm == old(searchTerm)
    {
      if updated.Ok? {
        farms := Replaced(farms, IdOf, updated.value.Id, updated.value);
      }
    }

    /** `handleDeleteFarm`: nothing happens unless the user confirms; then, once
        `farmService.delete` resolves, the entries with that `Id` are removed. */
    method DeleteFarm(id: nat, confirmed: bool, deleted: Result<bool, Failure>)
      modifies this
      ensures confirmed && deleted.Ok? ==> farms == Removed(old(farms), IdOf, id)
      ensures !(confirmed && deleted.Ok?) ==> farms == old(farms)
      ensures searchTerm == old(searchTerm)
    {
      if confirmed && deleted.Ok? {
        farms := Removed(farms, IdOf, id);
      }
    }

    /** `filteredFarms` on the current state. */
    function Shown(): seq<Farm>
      reads this
    {
      Visible(farms, searchTerm)
    }
  }
}
