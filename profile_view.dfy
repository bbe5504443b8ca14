/** The profile screen: the loaded form, the image helper and the multipart update. */
module ProfileView {
  import opened Wrappers
  import opened Strings
  import opened Endpoints
  import opened Http
  import opened Forms

  const ProfileUpdatedMessage := "Profile updated"
  const BlobPrefix := "blob:"

  /** `img(v)`: nothing for a falsy value, an object URL as it is, anything else under
      the image base URL. */
  function Img(v: Option<string>, imageBase: string): (src: Option<string>)
    ensures src.None? <==> !Truthy(v)
    ensures Truthy(v) && StartsWith(v.value, BlobPrefix) ==> src == v
    ensures Truthy(v) && !StartsWith(v.value, BlobPrefix) ==> src == Some(imageBase + v.value)
  {
    if !Truthy(v) then None
    else if StartsWith(v.value, BlobPrefix) then v
    else Some(imageBase + v.value)
  }

  /** A decimal digit. */
  function DigitChar(d: nat): (c: char)
    requires d < 10
    ensures '0' <= c <= '9' && c as int - '0' as int == d
  {
    ('0' as int + d) as char
  }

  /** The decimal digits of a natural number, most significant first. */
  function Digits(n: nat): (s: string)
    ensures |s| >= 1
    ensures forall i :: 0 <= i < |s| ==> '0' <= s[i] <= '9'
    decreases n
  {
    if n < 10 then [DigitChar(n)] else Digits(n / 10) + [DigitChar(n % 10)]
  }

  /** The value of a string of decimal digits. */
  function DigitsValue(s: string): nat
    requires forall i :: 0 <= i < |s| ==> '0' <= s[i] <= '9'
    decreases |s|
  {
    if s == [] then 0
    else DigitsValue(s[..|s| - 1]) * 10 + (s[|s| - 1] as int - '0' as int)
  }

  /** Reading the digits back gives the number. */
  lemma {:induction false} DigitsRoundTrip(n: nat)
    ensures DigitsValue(Digits(n)) == n
    decreases n
  {
    if n < 10 {
      assert Digits(n)[..0] == [];
    } else {
      var s := Digits(n);
      assert s[..|s| - 1] == Digits(n / 10);
      DigitsRoundTrip(n / 10);
    }
  }

  /** `String(n)` for an integer. */
  function IntString(n: int): (s: string)
    ensures n >= 0 ==> s == Digits(n)
    ensures n < 0 ==> s == "-" + Digits(-n)
    ensures s != ""
  {
    if n >= 0 then Digits(n) else "-" + Digits(-n)
  }

  /** The text starts with a minus sign exactly for a negative number. */
  lemma SignShown(n: int)
    ensures IntString(n)[0] == '-' <==> n < 0
  {
    if n >= 0 {
      assert IntString(n)[0] == Digits(n)[0];
    }
  }

  /** Equal digit strings come from equal numbers. */
  lemma DigitsInjective(a: nat, b: nat)
    requires Digits(a) == Digits(b)
    ensures a == b
  {
    DigitsRoundTrip(a);
    DigitsRoundTrip(b);
  }

  /** Distinct numbers give distinct texts. */
  lemma IntStringInjective(a: int, b: int)
    requires IntString(a) == IntString(b)
    ensures a == b
  {
    if a >= 0 && b >= 0 {
      DigitsInjective(a, b);
    } else if a < 0 && b < 0 {
      assert IntString(a)[1..] == Digits(-a);
      assert IntString(b)[1..] == Digits(-b);
      DigitsInjective(-a, -b);
    } else {
      SignShown(a);
      SignShown(b);
      assert false;
    }
  }

  /** The profile record the load answers with; any field may be missing. */
  datatype Profile = Profile(name: Option<string>, phone: Option<int>, location: Option<string>,
                             image: Option<string>, bannerImage: Option<string>)

  const EmptyProfileForm: Form := [("name", Text("")), ("phone", Text("")), ("location", Text("")), ("password", Text(""))]

  /** `String(u.phone ?? '')` */
  function PhoneText(phone: Option<int>): (s: string)
    ensures phone.None? ==> s == ""
    ensures phone.Some? ==> s == IntString(phone.value) && s != ""
  {
    if phone.Some? then IntString(phone.value) else ""
  }

  /** The form after a load: missing texts become `''` and the password is always `''`. */
  function LoadedForm(u: Profile): (f: Form)
    ensures Names(f) == Names(EmptyProfileForm)
    ensures FieldOf(f, "name") == Some(Text(u.name.GetOr("")))
    ensures FieldOf(f, "phone") == Some(Text(PhoneText(u.phone)))
    ensures FieldOf(f, "location") == Some(Text(u.location.GetOr("")))
    ensures FieldOf(f, "password") == Some(Text(""))
  {
    var f := [("name", Text(u.name.GetOr(""))), ("phone", Text(PhoneText(u.phone))),
              ("location", Text(u.location.GetOr(""))), ("password", Text(""))];
    assert f[0].0[0] == 'n' && f[1].0[0] == 'p' && f[2].0[0] == 'l' && f[3].0[1] == 'a';
    assert NamesDistinct(f);
    FieldsByName(f);
    assert f[2].0 == "location" && f[3].0 == "password";
    f
  }

  /** A submitted field: every value except the empty text. */
  predicate Submitted(v: FieldValue)
  {
    v != Text("")
  }

  /** The form's `FormData` entries: the submitted fields, stringified, in order. */
  function FieldParts(form: Form): (parts: seq<(string, PartValue)>)
    ensures |parts| <= |form|
    ensures forall i :: 0 <= i < |parts| ==> parts[i].1.TextPart? && parts[i].1.text != ""
    ensures forall i :: 0 <= i < |form| && Submitted(form[i].1) ==> (form[i].0, TextPart(Stringify(form[i].1))) in parts
    ensures forall i :: 0 <= i < |parts| ==> exists j :: 0 <= j < |form| && parts[i] == (form[j].0, TextPart(Stringify(form[j].1)))
    decreases |form|
  {
    if form == [] then []
    else
      var init := form[..|form| - 1];
      var last := form[|form| - 1];
      var rest := FieldParts(init);
      assert forall j :: 0 <= j < |init| ==> init[j] == form[j];
      if Submitted(last.1) then rest + [(last.0, TextPart(Stringify(last.1)))] else rest
  }

  /** A field whose value is the empty text is not sent. */
  lemma EmptyFieldOmitted(form: Form, name: string)
    requires forall i :: 0 <= i < |form| && form[i].0 == name ==> form[i].1 == Text("")
    ensures forall i :: 0 <= i < |FieldParts(form)| ==> FieldParts(form)[i].0 != name
  {
  }

  /** The chosen files, `image` then `bannerImage`. */
  function FileParts(image: Option<FileRef>, banner: Option<FileRef>): (parts: seq<(string, PartValue)>)
    ensures |parts| == (if image.Some? then 1 else 0) + (if banner.Some? then 1 else 0)
    ensures image.Some? ==> parts[0] == ("image", FilePart(image.value))
    ensures banner.Some? ==> parts[|parts| - 1] == ("bannerImage", FilePart(banner.value))
  {
    (if image.Some? then [("image", FilePart(image.value))] else [])
    + (if banner.Some? then [("bannerImage", FilePart(banner.value))] else [])
  }

  /** The `forEach` over `Object.entries(form)`, then the two files. */
  method BuildFormData(form: Form, image: Option<FileRef>, banner: Option<FileRef>) returns (parts: seq<(string, PartValue)>)
    ensures parts == FieldParts(form) + FileParts(image, banner)
  {
    var fd := new FormData();
    var k := 0;
    while k < |form|
      invariant 0 <= k <= |form|
      invariant fd.entries == FieldParts(form[..k])
    {
      assert form[..k + 1][..k] == form[..k];
      if form[k].1 != Text("") {
        fd.Append(form[k].0, TextPart(Stringify(form[k].1)));
      }
      k := k + 1;
    }
    assert form[..|form|] == form;
    if image.Some? {
      fd.Append("image", FilePart(image.value));
    }
    if banner.Some? {
      fd.Append("bannerImage", FilePart(banner.value));
    }
    parts := fd.entries;
  }

  const UpdateCallEndpoint := Unlisted("EDIT_PROFILE", None)

  class ProfileScreen {
    var form: Form
    var image: Option<FileRef>
    var banner: Option<FileRef>
    var previewImage: Option<string>
    var previewBanner: Option<string>
    var loading: bool

    constructor()
      ensures form == EmptyProfileForm && image == None && banner == None
      ensures previewImage == None && previewBanner == None && !loading
    {
      form := EmptyProfileForm;
      image := None;
      banner := None;
      previewImage := None;
      previewBanner := None;
      loading := false;
    }

    /** The load effect: skipped when the stored user has no id. The request carries no
        `authRequired` flag. */
    method BeginLoad(userId: Option<string>) returns (call: Option<Call>)
      ensures !Truthy(userId) ==> call == None
      ensures Truthy(userId) ==> call == Some(Call(Get, Unlisted("GET_PROFILE", userId), NoBody, EmptyConfig))
    {
      if !Truthy(userId) {
        call := None;
        return;
      }
      call := Some(Call(Get, Unlisted("GET_PROFILE", userId), NoBody, EmptyConfig));
    }

    /** The load's `then`: a success fills the form and the previews; a failure changes nothing. */
    method FinishLoad(r: Response<Profile>)
      modifies this
      ensures r.Ok? ==> form == LoadedForm(r.data)
      ensures r.Ok? ==> previewImage == r.data.image && previewBanner == r.data.bannerImage
      ensures r.Failed? ==> form == old(form) && previewImage == old(previewImage) && previewBanner == old(previewBanner)
      ensures image == old(image) && banner == old(banner) && loading == old(loading)
    {
      if r.Ok? {
        form := LoadedForm(r.data);
        previewImage := r.data.image;
        previewBanner := r.data.bannerImage;
      }
    }

    /** A text input: only its field changes. */
    method Change(name: string, v: string)
      modifies this
      ensures form == SetField(old(form), name, Text(v))
      ensures image == old(image) && banner == old(banner) && loading == old(loading)
      ensures previewImage == old(previewImage) && previewBanner == old(previewBanner)
    {
      form := SetField(form, name, Text(v));
    }

    /** The avatar picker: without a file nothing changes; with one, it is kept and
        previewed through its object URL. */
    method PickImage(f: Option<FileRef>, objectUrl: string)
      modifies this
      ensures f.None? ==> image == old(image) && previewImage == old(previewImage)
      ensures f.Some? ==> image == f && previewImage == Some(objectUrl)
      ensures form == old(form) && banner == old(banner) && previewBanner == old(previewBanner) && loading == old(loading)
    {
      if f.None? {
        return;
      }
      image := f;
      previewImage := Some(objectUrl);
    }

    /** The banner picker, likewise. */
    method PickBanner(f: Option<FileRef>, objectUrl: string)
      modifies this
      ensures f.None? ==> banner == old(banner) && previewBanner == old(previewBanner)
      ensures f.Some? ==> banner == f && previewBanner == Some(objectUrl)
      ensures form == old(form) && image == old(image) && previewImage == old(previewImage) && loading == old(loading)
    {
      if f.None? {
        return;
      }
      banner := f;
      previewBanner := Some(objectUrl);
    }

    method BeginSubmit() returns (call: Call)
      modifies this
      ensures loading && form == old(form) && image == old(image) && banner == old(banner)
      ensures previewImage == old(previewImage) && previewBanner == old(previewBanner)
      ensures call == Call(Post, UpdateCallEndpoint, Multipart(FieldParts(form) + FileParts(image, banner)), MultipartAuthConfig)
    {
      loading := true;
      var parts := BuildFormData(form, image, banner);
      call := Call(Post, UpdateCallEndpoint, Multipart(parts), MultipartAuthConfig);
    }

    /** A success raises the fixed alert; loading ends either way. */
    method FinishSubmit(r: Response<MessageData>) returns (alertText: Option<string>)
      modifies this
      ensures !loading && form == old(form) && image == old(image) && banner == old(banner)
      ensures previewImage == old(previewImage) && previewBanner == old(previewBanner)
      ensures r.Ok? ==> alertText == Some(ProfileUpdatedMessage)
      ensures r.Failed? ==> alertText == None
    {
      alertText := if r.Ok? then Some(ProfileUpdatedMessage) else None;
      loading := false;
    }
  }

  /** After a load, the password is never sent unless typed in. */
  lemma LoadedPasswordNotSent(u: Profile)
    ensures forall i :: 0 <= i < |FieldParts(LoadedForm(u))| ==> FieldParts(LoadedForm(u))[i].0 != "password"
  {
    var f := LoadedForm(u);
    assert f[3].0 == "password";
    assert forall i :: 0 <= i < |f| && f[i].0 == "password" ==> i == 3;
    EmptyFieldOmitted(f, "password");
  }
}
