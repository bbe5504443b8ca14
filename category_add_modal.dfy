/** The add-category modal: its form, the icon, and the multipart request it builds. */
module CategoryAddModal {
  import opened Wrappers
  import opened Strings
  import opened Endpoints
  import opened Http
  import opened Forms

  const CategoryAddedMessage := "Category added"
  const ImageField := "image"

  /** The initial form: empty texts, active, not featured. */
  const InitialCategoryForm: Form := [
    ("name", Text("")), ("description", Text("")), ("isActive", Flag(true)), ("isFeatured", Flag(false))
  ]

  lemma InitialCategoryFormFields()
    ensures FieldOf(InitialCategoryForm, "name") == Some(Text(""))
    ensures FieldOf(InitialCategoryForm, "description") == Some(Text(""))
    ensures FieldOf(InitialCategoryForm, "isActive") == Some(Flag(true))
    ensures FieldOf(InitialCategoryForm, "isFeatured") == Some(Flag(false))
  {
    var f := InitialCategoryForm;
    assert f[2].0[2] == 'A' && f[3].0[2] == 'F';
    assert NamesDistinct(f);
    FieldsByName(f);
    assert f[1].0 == "description" && f[2].0 == "isActive" && f[3].0 == "isFeatured";
  }

  /** The entries of the category `FormData`: every field stringified, in order, then the
      icon under `image` when one was chosen. */
  predicate IsCategoryFormData(parts: seq<(string, PartValue)>, form: Form, icon: Option<FileRef>)
  {
    && |parts| == |form| + (if icon.Some? then 1 else 0)
    && (forall i :: 0 <= i < |form| ==> parts[i] == (form[i].0, TextPart(Stringify(form[i].1))))
    && (icon.Some? ==> parts[|form|] == (ImageField, FilePart(icon.value)))
  }

  /** The `forEach` over `Object.entries(form)` appending to a fresh `FormData`, then the icon. */
  method BuildFormData(form: Form, icon: Option<FileRef>) returns (parts: seq<(string, PartValue)>)
    ensures IsCategoryFormData(parts, form, icon)
  {
    var fd := new FormData();
    var k := 0;
    while k < |form|
      invariant 0 <= k <= |form|
      invariant |fd.entries| == k
      invariant forall i :: 0 <= i < k ==> fd.entries[i] == (form[i].0, TextPart(Stringify(form[i].1)))
    {
      fd.Append(form[k].0, TextPart(Stringify(form[k].1)));
      k := k + 1;
    }
    if icon.Some? {
      fd.Append(ImageField, FilePart(icon.value));
    }
    parts := fd.entries;
  }

  /** The `image` part is there exactly when an icon was chosen (the form has no field of
      that name). */
  lemma ImagePartIffIcon(parts: seq<(string, PartValue)>, form: Form, icon: Option<FileRef>)
    requires IsCategoryFormData(parts, form, icon)
    requires ImageField !in Names(form)
    ensures (exists i :: 0 <= i < |parts| && parts[i].0 == ImageField) <==> icon.Some?
  {
    if icon.Some? {
      assert parts[|form|].0 == ImageField;
    } else {
      forall i | 0 <= i < |parts|
        ensures parts[i].0 != ImageField
      {
        assert parts[i].0 == Names(form)[i];
      }
    }
  }

  /** Booleans go into the `FormData` as the texts `'true'` and `'false'`. */
  lemma InitialFlagsStringified(parts: seq<(string, PartValue)>, icon: Option<FileRef>)
    requires IsCategoryFormData(parts, InitialCategoryForm, icon)
    ensures parts[2] == ("isActive", TextPart("true")) && parts[3] == ("isFeatured", TextPart("false"))
  {
  }

  class CategoryModal {
    var form: Form
    var icon: Option<FileRef>
    var loading: bool

    constructor()
      ensures form == InitialCategoryForm && icon == None && !loading
    {
      form := InitialCategoryForm;
      icon := None;
      loading := false;
    }

    /** `handleChange`: only the named field changes. */
    method Change(e: ChangeEvent)
      modifies this
      ensures form == SetField(old(form), e.name, EventValue(e))
      ensures icon == old(icon) && loading == old(loading)
    {
      form := SetField(form, e.name, EventValue(e));
    }

    method ChooseIcon(f: Option<FileRef>)
      modifies this
      ensures icon == f && form == old(form) && loading == old(loading)
    {
      icon := f;
    }

    /** The multipart request to `ADD_CATEGORY`, with auth and the multipart header. */
    method BeginSubmit() returns (call: Call)
      modifies this
      ensures loading && form == old(form) && icon == old(icon)
      ensures call.verb == Post && call.endpoint == Path(AddCategory) && call.config == MultipartAuthConfig
      ensures call.body.Multipart? && IsCategoryFormData(call.body.parts, form, icon)
    {
      loading := true;
      var parts := BuildFormData(form, icon);
      call := Call(Post, Path(AddCategory), Multipart(parts), MultipartAuthConfig);
    }

    /** On success the parent hears the message, then the close; loading ends either way. */
    method FinishSubmit(r: Response<MessageData>) returns (calls: seq<Callback>)
      modifies this
      ensures !loading && form == old(form) && icon == old(icon)
      ensures r.Ok? ==> calls == [OnSuccess(OrElse(r.data.message, CategoryAddedMessage)), OnClose]
      ensures r.Failed? ==> calls == []
    {
      calls := [];
      if r.Ok? {
        calls := [OnSuccess(OrElse(r.data.message, CategoryAddedMessage)), OnClose];
      }
      loading := false;
    }
  }
}
