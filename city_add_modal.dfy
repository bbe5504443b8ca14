/** The add/edit city modal: the form it fills, its change handler and its submit. */
module CityAddModal {
  import opened Wrappers
  import opened Strings
  import opened Endpoints
  import opened Http
  import opened Forms

  const CitySavedMessage := "City saved"

  /** The `city` prop: a table row, whose fields may be missing. */
  datatype CityRecord = CityRecord(id: string, city: Option<string>, latitude: Option<string>,
                                   longitude: Option<string>, description: Option<string>, isActive: Option<bool>)

  /** The form with no city: empty texts and an active switch. */
  const EmptyCityForm: Form := [
    ("city", Text("")), ("latitude", Text("")), ("longitude", Text("")),
    ("description", Text("")), ("is_active", Flag(true))
  ]

  /** The form filled from a city: a falsy text becomes `''`, and only a missing flag
      becomes `true`, so a stored `false` is kept. */
  function FilledForm(c: CityRecord): (f: Form)
    ensures Names(f) == Names(EmptyCityForm)
    ensures FieldOf(f, "city") == Some(Text(OrElse(c.city, "")))
    ensures FieldOf(f, "latitude") == Some(Text(OrElse(c.latitude, "")))
    ensures FieldOf(f, "longitude") == Some(Text(OrElse(c.longitude, "")))
    ensures FieldOf(f, "description") == Some(Text(OrElse(c.description, "")))
    ensures c.isActive == Some(false) ==> FieldOf(f, "is_active") == Some(Flag(false))
    ensures c.isActive != Some(false) ==> FieldOf(f, "is_active") == Some(Flag(true))
  {
    var f := [
      ("city", Text(OrElse(c.city, ""))), ("latitude", Text(OrElse(c.latitude, ""))),
      ("longitude", Text(OrElse(c.longitude, ""))), ("description", Text(OrElse(c.description, ""))),
      ("is_active", Flag(c.isActive.GetOr(true)))
    ];
    assert f[2].0[0] == 'l' && f[4].0[0] == 'i';
    assert NamesDistinct(f);
    FieldsByName(f);
    assert f[3].0 == "description";
    f
  }

  /** A city whose fields are all missing fills the same form as no city at all. */
  lemma BlankCityFillsEmptyForm(id: string)
    ensures FilledForm(CityRecord(id, None, None, None, None, None)) == EmptyCityForm
  {
  }

  /** The request for a submit: the edit path for a city, the add path otherwise. */
  function SubmitCall(city: Option<CityRecord>, form: Form): (c: Call)
    ensures c.verb == Post && c.body == JsonBody(form) && c.config == AuthConfig
    ensures city.Some? ==> c.endpoint == Path(EditCity(city.value.id))
    ensures city.None? ==> c.endpoint == Path(AddCity)
  {
    Call(Post, if city.Some? then Path(EditCity(city.value.id)) else Path(AddCity), JsonBody(form), AuthConfig)
  }

  class CityModal {
    var form: Form
    var loading: bool

    constructor()
      ensures form == EmptyCityForm && !loading
    {
      form := EmptyCityForm;
      loading := false;
    }

    /** The effect on `[city]`: fill from the city, or reset. */
    method SyncCity(city: Option<CityRecord>)
      modifies this
      ensures city.Some? ==> form == FilledForm(city.value)
      ensures city.None? ==> form == EmptyCityForm
      ensures loading == old(loading)
    {
      if city.Some? {
        form := FilledForm(city.value);
      } else {
        form := EmptyCityForm;
      }
    }

    /** `handleChange`: only the named field changes. */
    method Change(e: ChangeEvent)
      modifies this
      ensures form == SetField(old(form), e.name, EventValue(e))
      ensures loading == old(loading)
    {
      form := SetField(form, e.name, EventValue(e));
    }

    method BeginSubmit(city: Option<CityRecord>) returns (call: Call)
      modifies this
      ensures loading && form == old(form)
      ensures call == SubmitCall(city, form)
    {
      loading := true;
      call := SubmitCall(city, form);
    }

    /** On success the parent hears the message, then the close; loading ends either way. */
    method FinishSubmit(r: Response<MessageData>) returns (calls: seq<Callback>)
      modifies this
      ensures !loading && form == old(form)
      ensures r.Ok? ==> calls == [OnSuccess(OrElse(r.data.message, CitySavedMessage)), OnClose]
      ensures r.Failed? ==> calls == []
    {
      calls := [];
      if r.Ok? {
        calls := calls + [OnSuccess(OrElse(r.data.message, CitySavedMessage))];
        calls := calls + [OnClose];
      }
      loading := false;
    }
  }
}
