/** The cities screen: search and status filtering, the status toggle and the list load. */
module CityView {
  import opened Wrappers
  import opened Strings
  import opened Seqs
  import opened Endpoints
  import opened Http

  const UpdatingLabel := "Updating..."
  const ActiveLabel := "Active"
  const InactiveLabel := "Inactive"
  const StatusUpdatedMessage := "Status updated"

  datatype City = City(id: string, city: string, latitude: string, longitude: string, isActive: bool)

  /** The status drop-down: `'all' | 'active' | 'inactive'`. */
  datatype StatusFilter = All | Active | Inactive

  predicate MatchSearch(c: City, search: string)
  {
    Contains(ToLower(c.city), ToLower(search))
  }

  predicate MatchStatus(c: City, status: StatusFilter)
  {
    status == All || (status == Active && c.isActive) || (status == Inactive && !c.isActive)
  }

  /** `filteredCities`: the cities whose name contains the search text in any ASCII
      letter case and whose status passes the filter, in list order. */
  function FilteredCities(cities: seq<City>, search: string, status: StatusFilter): (r: seq<City>)
    ensures forall i :: 0 <= i < |r| ==> MatchSearch(r[i], search) && MatchStatus(r[i], status) && r[i] in cities
    ensures forall i :: 0 <= i < |cities| && MatchSearch(cities[i], search) && MatchStatus(cities[i], status) ==> cities[i] in r
  {
    Filter(cities, c => MatchSearch(c, search) && MatchStatus(c, status))
  }

  /** The filtered list keeps the order of `cities`. */
  lemma FilteredIsSubsequence(cities: seq<City>, search: string, status: StatusFilter)
    ensures IsSubsequence(FilteredCities(cities, search, status), cities)
  {
    FilterIsSubsequence(cities, c => MatchSearch(c, search) && MatchStatus(c, status));
  }

  /** For one search text, the active and the inactive results split the `'all'` result. */
  lemma StatusPartition(cities: seq<City>, search: string)
    ensures multiset(FilteredCities(cities, search, Active)) + multiset(FilteredCities(cities, search, Inactive))
      == multiset(FilteredCities(cities, search, All))
    ensures |FilteredCities(cities, search, Active)| + |FilteredCities(cities, search, Inactive)|
      == |FilteredCities(cities, search, All)|
  {
    FilterPartition(cities,
      c => MatchSearch(c, search) && MatchStatus(c, All),
      c => MatchSearch(c, search) && MatchStatus(c, Active),
      c => MatchSearch(c, search) && MatchStatus(c, Inactive));
  }

  /** An empty search applies the status filter alone; with `'all'` as well, nothing is dropped. */
  lemma EmptySearch(cities: seq<City>, status: StatusFilter)
    ensures FilteredCities(cities, "", status) == Filter(cities, c => MatchStatus(c, status))
    ensures FilteredCities(cities, "", All) == cities
  {
    assert ToLower("") == "";
    forall i | 0 <= i < |cities|
      ensures MatchSearch(cities[i], "")
    {
      ContainsEmpty(ToLower(cities[i].city));
    }
    FilterCongruent(cities, c => MatchSearch(c, "") && MatchStatus(c, status), c => MatchStatus(c, status));
    FilterAllKept(cities, c => MatchSearch(c, "") && MatchStatus(c, All));
  }

  /** The status chip's text: the row being toggled shows the progress text. */
  function ChipLabel(statusLoadingId: Option<string>, row: City): (text: string)
    ensures text == UpdatingLabel <==> statusLoadingId == Some(row.id)
    ensures statusLoadingId != Some(row.id) ==> (text == ActiveLabel <==> row.isActive)
    ensures text in {UpdatingLabel, ActiveLabel, InactiveLabel}
  {
    if statusLoadingId == Some(row.id) then UpdatingLabel
    else if row.isActive then ActiveLabel
    else InactiveLabel
  }

  /** The toggle request for a row: its flag inverted, posted to its edit path with auth. */
  function ToggleCall(row: City): (c: Call)
    ensures c.verb == Post && c.endpoint == Path(EditCity(row.id)) && c.config == AuthConfig
    ensures c.body == Json([("is_active", JBool(!row.isActive))])
  {
    Call(Post, Path(EditCity(row.id)), Json([("is_active", JBool(!row.isActive))]), AuthConfig)
  }

  /** The list load: `GET_CITY` with auth. */
  const LoadCall := Call(Get, Path(GetCity), NoBody, AuthConfig)

  class CityScreen {
    var cities: seq<City>
    var loading: bool
    var selectedCity: Option<City>
    var openAdd: bool
    var search: string
    var status: StatusFilter
    var alert: Option<string>
    var statusLoadingId: Option<string>

    constructor()
      ensures cities == [] && !loading && selectedCity == None && !openAdd
      ensures search == "" && status == All && alert == None && statusLoadingId == None
    {
      cities := [];
      loading := false;
      selectedCity := None;
      openAdd := false;
      search := "";
      status := All;
      alert := None;
      statusLoadingId := None;
    }

    /** The rows on screen. */
    function Visible(): seq<City>
      reads this
    {
      FilteredCities(cities, search, status)
    }

    method BeginLoad() returns (call: Call)
      modifies this
      ensures loading && call == LoadCall
      ensures cities == old(cities) && statusLoadingId == old(statusLoadingId) && alert == old(alert)
      ensures search == old(search) && status == old(status) && selectedCity == old(selectedCity) && openAdd == old(openAdd)
    {
      loading := true;
      call := LoadCall;
    }

    /** `res.data.data || []` replaces the list on success; a failure keeps it. */
    method FinishLoad(r: Response<Option<seq<City>>>)
      modifies this
      ensures !loading
      ensures r.Ok? ==> cities == r.data.GetOr([])
      ensures r.Failed? ==> cities == old(cities)
      ensures statusLoadingId == old(statusLoadingId) && alert == old(alert)
      ensures search == old(search) && status == old(status) && selectedCity == old(selectedCity) && openAdd == old(openAdd)
    {
      if r.Ok? {
        cities := r.data.GetOr([]);
      }
      loading := false;
    }

    /** `toggleStatus` up to the request: nothing happens while a toggle is in flight. */
    method BeginToggle(row: City) returns (call: Option<Call>)
      modifies this
      ensures Truthy(old(statusLoadingId)) ==> call == None && statusLoadingId == old(statusLoadingId)
      ensures !Truthy(old(statusLoadingId)) ==> call == Some(ToggleCall(row)) && statusLoadingId == Some(row.id)
      ensures cities == old(cities) && loading == old(loading) && alert == old(alert)
      ensures search == old(search) && status == old(status) && selectedCity == old(selectedCity) && openAdd == old(openAdd)
    {
      if Truthy(statusLoadingId) {
        call := None;
        return;
      }
      statusLoadingId := Some(row.id);
      call := Some(ToggleCall(row));
    }

    /** `toggleStatus` after the request: a success sets the alert and asks for a reload;
        either way the in-flight id is cleared. */
    method FinishToggle(r: Response<MessageData>) returns (reload: bool)
      modifies this
      ensures statusLoadingId == None
      ensures r.Ok? ==> alert == Some(OrElse(r.data.message, StatusUpdatedMessage)) && reload
      ensures r.Failed? ==> alert == old(alert) && !reload
      ensures cities == old(cities) && loading == old(loading)
      ensures search == old(search) && status == old(status) && selectedCity == old(selectedCity) && openAdd == old(openAdd)
    {
      reload := false;
      if r.Ok? {
        alert := Some(OrElse(r.data.message, StatusUpdatedMessage));
        reload := true;
      }
      statusLoadingId := None;
    }

    method SetSearch(v: string)
      modifies this
      ensures search == v && status == old(status) && cities == old(cities)
      ensures Visible() == FilteredCities(old(cities), v, old(status))
      ensures loading == old(loading) && alert == old(alert) && statusLoadingId == old(statusLoadingId)
      ensures selectedCity == old(selectedCity) && openAdd == old(openAdd)
    {
      search := v;
    }

    method SetStatus(v: StatusFilter)
      modifies this
      ensures status == v && search == old(search) && cities == old(cities)
      ensures Visible() == FilteredCities(old(cities), old(search), v)
      ensures loading == old(loading) && alert == old(alert) && statusLoadingId == old(statusLoadingId)
      ensures selectedCity == old(selectedCity) && openAdd == old(openAdd)
    {
      status := v;
    }

    /** The row's Edit button and the New City button open the modal, with and without a city. */
    method OpenModal(row: Option<City>)
      modifies this
      ensures openAdd && selectedCity == (if row.Some? then row else old(selectedCity))
      ensures cities == old(cities) && loading == old(loading) && alert == old(alert) && statusLoadingId == old(statusLoadingId)
      ensures search == old(search) && status == old(status)
    {
      if row.Some? {
        selectedCity := row;
      }
      openAdd := true;
    }

    /** The modal's `onClose`. */
    method CloseModal()
      modifies this
      ensures !openAdd && selectedCity == None
      ensures cities == old(cities) && loading == old(loading) && alert == old(alert) && statusLoadingId == old(statusLoadingId)
      ensures search == old(search) && status == old(status)
    {
      openAdd := false;
      selectedCity := None;
    }

    /** The modal's `onSuccess`: show the message and ask for a reload. */
    method ModalSuccess(msg: string) returns (reload: bool)
      modifies this
      ensures alert == Some(msg) && reload
      ensures cities == old(cities) && loading == old(loading) && statusLoadingId == old(statusLoadingId)
      ensures search == old(search) && status == old(status) && selectedCity == old(selectedCity) && openAdd == old(openAdd)
    {
      alert := Some(msg);
      reload := true;
    }

    method DismissAlert()
      modifies this
      ensures alert == None
      ensures cities == old(cities) && loading == old(loading) && statusLoadingId == old(statusLoadingId)
      ensures search == old(search) && status == old(status) && selectedCity == old(selectedCity) && openAdd == old(openAdd)
    {
      alert := None;
    }
  }

  /** Two toggles cannot overlap: after a toggle has started, a second one on any row sends nothing. */
  method TwoTogglesOneRequest(a: City, b: City) returns (first: Option<Call>, second: Option<Call>)
    requires a.id != ""
    ensures first == Some(ToggleCall(a)) && second == None
  {
    var screen := new CityScreen();
    first := screen.BeginToggle(a);
    second := screen.BeginToggle(b);
  }
}
