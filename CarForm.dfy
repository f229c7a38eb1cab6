/**
  * The listing form: a vehicle description plus a set of pictures whose size must
  * match the number the user announced. It validates the fields against a rule
  * table, accepts or rejects a file selection, gates the submit button on the
  * picture count, and sends the listing as a multipart request.
  */
module CarForm {
  import opened Optional
  import opened Validation
  import opened Presenter
  import Numerals
  import Session

  /** A selected file. The form only keeps it and forwards it; its contents do not matter here. */
  datatype File = File(name: string, id: nat)

  /**
    * The form's values. A number input the user cleared holds "" in the form
    * library; it is `None` here.
    */
  datatype Values = Values(model: string, price: Option<int>, phone: string, city: string, maxPictures: Option<int>)

  const InitialValues := Values("", None, "", "", Some(1))

  // ---------------------------------------------------------------- validation

  function NumberField(n: Option<int>): Value {
    match n
    case None => Empty
    case Some(x) => Number(x)
  }

  /** The values as the schema sees them, keyed by field name. */
  function Fields(v: Values): map<string, Value> {
    map["model" := Text(v.model), "price" := NumberField(v.price), "phone" := Text(v.phone),
        "city" := Text(v.city), "maxPictures" := NumberField(v.maxPictures)]
  }

  const ListingSchema: Schema := [
    FieldRules("model", [Required("Car model is required")]),
    FieldRules("price", [Required("Price is required"), Positive("Price must be positive")]),
    FieldRules("phone", [Required("Phone number is required")]),
    FieldRules("city", [Required("City is required")]),
    FieldRules("maxPictures", [Required("Max number of pictures is required"),
                               Min(1, "At least 1 picture"), Max(10, "No more than 10 pictures")])
  ]

  lemma ListingSchemaDistinct()
    ensures DistinctNames(ListingSchema)
  {
  }

  /** The schema has no email rule, so the email syntax it is evaluated with never matters. */
  const NoEmailRule: string -> bool := s => false

  /** The inline field errors for the current values. */
  function ListingErrors(v: Values): map<string, string> {
    ListingSchemaDistinct();
    Validate(ListingSchema, Fields(v), NoEmailRule)
  }

  /** Each field of the schema reads its own value. */
  lemma FieldsLookup(v: Values)
    ensures ValueOf(Fields(v), "model") == Text(v.model)
    ensures ValueOf(Fields(v), "price") == NumberField(v.price)
    ensures ValueOf(Fields(v), "phone") == Text(v.phone)
    ensures ValueOf(Fields(v), "city") == Text(v.city)
    ensures ValueOf(Fields(v), "maxPictures") == NumberField(v.maxPictures)
  {
    assert "model"[0] != "price"[0] && "model"[0] != "phone"[0] && "model"[0] != "city"[0];
    assert "price"[1] != "phone"[1] && "price"[0] != "city"[0];
    assert "phone"[0] != "city"[0];
    assert |"maxPictures"| != |"model"| && |"maxPictures"| != |"price"| && |"maxPictures"| != |"phone"| && |"maxPictures"| != |"city"|;
  }

  /** The entry of field `k` of the schema is the first failing message of that field's value. */
  lemma ListingEntry(v: Values, k: nat, val: Value)
    requires k < |ListingSchema|
    requires ValueOf(Fields(v), ListingSchema[k].name) == val
    ensures Find(ListingErrors(v), ListingSchema[k].name) == FirstFailure(ListingSchema[k].rules, val, NoEmailRule)
  {
    ListingSchemaDistinct();
  }

  // What each field's rules report, one field at a time.

  lemma ModelRules(s: string)
    ensures FirstFailure(ListingSchema[0].rules, Text(s), NoEmailRule) ==
      if s == "" then Some("Car model is required") else None
  {
  }

  lemma PriceRules(price: Option<int>)
    ensures FirstFailure(ListingSchema[1].rules, NumberField(price), NoEmailRule) ==
      if price.None? then Some("Price is required")
      else if price.value <= 0 then Some("Price must be positive")
      else None
  {
  }

  lemma PhoneRules(s: string)
    ensures FirstFailure(ListingSchema[2].rules, Text(s), NoEmailRule) ==
      if s == "" then Some("Phone number is required") else None
  {
  }

  lemma CityRules(s: string)
    ensures FirstFailure(ListingSchema[3].rules, Text(s), NoEmailRule) ==
      if s == "" then Some("City is required") else None
  {
  }

  lemma MaxPicturesRules(maxPictures: Option<int>)
    ensures FirstFailure(ListingSchema[4].rules, NumberField(maxPictures), NoEmailRule) ==
      if maxPictures.None? then Some("Max number of pictures is required")
      else if maxPictures.value < 1 then Some("At least 1 picture")
      else if maxPictures.value > 10 then Some("No more than 10 pictures")
      else None
  {
    var val := NumberField(maxPictures);
    var required := Required("Max number of pictures is required");
    var atLeast := Min(1, "At least 1 picture");
    var atMost := Max(10, "No more than 10 pictures");
    assert ListingSchema[4].rules == [required, atLeast, atMost];
    assert [required, atLeast, atMost][1..] == [atLeast, atMost];
    assert [atLeast, atMost][1..] == [atMost];
    assert [atMost][1..] == [];
    assert FirstFailure([atMost], val, NoEmailRule) ==
      if Passes(atMost, val, NoEmailRule) then FirstFailure([], val, NoEmailRule) else Some(atMost.msg);
    assert FirstFailure([atLeast, atMost], val, NoEmailRule) ==
      if Passes(atLeast, val, NoEmailRule) then FirstFailure([atMost], val, NoEmailRule) else Some(atLeast.msg);
    assert FirstFailure([required, atLeast, atMost], val, NoEmailRule) ==
      if Passes(required, val, NoEmailRule) then FirstFailure([atLeast, atMost], val, NoEmailRule) else Some(required.msg);
  }

  /** An empty model is reported as required; any other model has no entry. */
  lemma ModelRule(v: Values)
    ensures Find(ListingErrors(v), "model") == if v.model == "" then Some("Car model is required") else None
  {
    FieldsLookup(v);
    ListingEntry(v, 0, Text(v.model));
    ModelRules(v.model);
  }

  /** A missing price is required, a price of zero or less is not positive, and a positive price has no entry. */
  lemma PriceRule(v: Values)
    ensures Find(ListingErrors(v), "price") ==
      if v.price.None? then Some("Price is required")
      else if v.price.value <= 0 then Some("Price must be positive")
      else None
  {
    FieldsLookup(v);
    ListingEntry(v, 1, NumberField(v.price));
    PriceRules(v.price);
  }

  lemma PhoneRule(v: Values)
    ensures Find(ListingErrors(v), "phone") == if v.phone == "" then Some("Phone number is required") else None
  {
    FieldsLookup(v);
    ListingEntry(v, 2, Text(v.phone));
    PhoneRules(v.phone);
  }

  lemma CityRule(v: Values)
    ensures Find(ListingErrors(v), "city") == if v.city == "" then Some("City is required") else None
  {
    FieldsLookup(v);
    ListingEntry(v, 3, Text(v.city));
    CityRules(v.city);
  }

  /** The picture bound is required and must lie between 1 and 10. */
  lemma MaxPicturesRule(v: Values)
    ensures Find(ListingErrors(v), "maxPictures") ==
      if v.maxPictures.None? then Some("Max number of pictures is required")
      else if v.maxPictures.value < 1 then Some("At least 1 picture")
      else if v.maxPictures.value > 10 then Some("No more than 10 pictures")
      else None
  {
    FieldsLookup(v);
    ListingEntry(v, 4, NumberField(v.maxPictures));
    MaxPicturesRules(v.maxPictures);
  }

  /** The listing values pass validation exactly when every field meets its rules. */
  lemma ListingValidIff(v: Values)
    ensures ListingErrors(v) == map[] <==>
      v.model != "" && v.phone != "" && v.city != "" &&
      v.price.Some? && v.price.value > 0 &&
      v.maxPictures.Some? && 1 <= v.maxPictures.value <= 10
  {
    if ListingErrors(v) == map[] {
      ValidListingMeetsRules(v);
    } else {
      InvalidListingBreaksRule(v);
    }
  }

  lemma ValidListingMeetsRules(v: Values)
    requires ListingErrors(v) == map[]
    ensures v.model != "" && v.phone != "" && v.city != ""
    ensures v.price.Some? && v.price.value > 0
    ensures v.maxPictures.Some? && 1 <= v.maxPictures.value <= 10
  {
    ModelRule(v);
    PriceRule(v);
    PhoneRule(v);
    CityRule(v);
    MaxPicturesRule(v);
  }

  lemma InvalidListingBreaksRule(v: Values)
    requires ListingErrors(v) != map[]
    ensures !(v.model != "" && v.phone != "" && v.city != "" &&
              v.price.Some? && v.price.value > 0 &&
              v.maxPictures.Some? && 1 <= v.maxPictures.value <= 10)
  {
    var errors := ListingErrors(v);
    var name :| name in errors;
    assert name == "model" || name == "price" || name == "phone" || name == "city" || name == "maxPictures" by {
      ListingKeys(v);
    }
    assert Find(errors, name).Some?;
    if name == "model" { ModelRule(v); }
    else if name == "price" { PriceRule(v); }
    else if name == "phone" { PhoneRule(v); }
    else if name == "city" { CityRule(v); }
    else { MaxPicturesRule(v); }
  }

  /** Only the five declared fields can have an entry. */
  lemma ListingKeys(v: Values)
    ensures forall name | name in ListingErrors(v) ::
      name == "model" || name == "price" || name == "phone" || name == "city" || name == "maxPictures"
  {
    ListingSchemaDistinct();
    forall name | name in ListingErrors(v)
      ensures name == "model" || name == "price" || name == "phone" || name == "city" || name == "maxPictures"
    {
      assert Declares(ListingSchema, name);
      var k :| 0 <= k < |ListingSchema| && ListingSchema[k].name == name;
      assert k == 0 || k == 1 || k == 2 || k == 3 || k == 4;
    }
  }

  // ---------------------------------------------------------- file selection

  /**
    * The bound a selection is compared with. JavaScript compares a count with a
    * cleared number input ("") as with 0.
    */
  function SelectionBound(maxPictures: Option<int>): int {
    match maxPictures
    case None => 0
    case Some(m) => m
  }

  /**
    * A number input's value as text, as both string interpolation and a multipart
    * field produce it: decimal digits, or nothing for a cleared input.
    */
  function NumberText(n: Option<int>): string {
    match n
    case None => ""
    case Some(x) => Numerals.IntToString(x)
  }

  /** The rejection message, with the bound printed in decimal. */
  function TooManyMessage(maxPictures: Option<int>): string {
    "You can only upload up to " + NumberText(maxPictures) + " pictures."
  }

  /** The message names the bound unambiguously: two different bounds give two different messages. */
  lemma TooManyMessageNamesBound(m1: int, m2: int)
    requires TooManyMessage(Some(m1)) == TooManyMessage(Some(m2))
    ensures m1 == m2
  {
    var prefix := "You can only upload up to ";
    var suffix := " pictures.";
    var t1, t2 := Numerals.IntToString(m1), Numerals.IntToString(m2);
    assert NumberText(Some(m1)) == t1 && NumberText(Some(m2)) == t2;
    assert TooManyMessage(Some(m1)) == prefix + t1 + suffix;
    assert TooManyMessage(Some(m2)) == prefix + t2 + suffix;
    assert |t1| == |t2|;
    assert t1 == (prefix + t1 + suffix)[|prefix|..|prefix| + |t1|];
    assert t2 == (prefix + t2 + suffix)[|prefix|..|prefix| + |t2|];
    Numerals.IntToStringInjective(m1, m2);
  }

  // --------------------------------------------------------- request payload

  /** A multipart part's content: text for a scalar field, the file itself for a picture. */
  datatype Content = FieldText(text: string) | Blob(file: File)

  datatype Part = Part(name: string, content: Content)

  datatype Header = Header(name: string, value: Option<string>)

  datatype ListingRequest = ListingRequest(parts: seq<Part>, headers: seq<Header>)

  function ScalarParts(v: Values): seq<Part> {
    [Part("model", FieldText(v.model)), Part("price", FieldText(NumberText(v.price))),
     Part("phone", FieldText(v.phone)), Part("city", FieldText(v.city)),
     Part("maxPictures", FieldText(NumberText(v.maxPictures)))]
  }

  function ImageParts(pictures: seq<File>): seq<Part> {
    if pictures == [] then [] else [Part("images", Blob(pictures[0]))] + ImageParts(pictures[1..])
  }

  /** The parts of the multipart body, in the order they are appended. */
  function Payload(v: Values, pictures: seq<File>): seq<Part> {
    ScalarParts(v) + ImageParts(pictures)
  }

  /** The request headers: the stored token is sent as it is, absent or not. */
  function Headers(token: Option<string>): seq<Header> {
    [Header("Content-Type", Some("multipart/form-data")), Header("x-auth-token", token)]
  }

  function RequestFor(v: Values, pictures: seq<File>, token: Option<string>): ListingRequest {
    ListingRequest(Payload(v, pictures), Headers(token))
  }

  lemma {:induction false} ImagePartsAppend(pictures: seq<File>, f: File)
    ensures ImageParts(pictures + [f]) == ImageParts(pictures) + [Part("images", Blob(f))]
  {
    if pictures != [] {
      assert (pictures + [f])[1..] == pictures[1..] + [f];
      ImagePartsAppend(pictures[1..], f);
    }
  }

  lemma {:induction false} ImagePartsAt(pictures: seq<File>)
    ensures |ImageParts(pictures)| == |pictures|
    ensures forall i | 0 <= i < |pictures| :: ImageParts(pictures)[i] == Part("images", Blob(pictures[i]))
  {
    if pictures != [] {
      ImagePartsAt(pictures[1..]);
    }
  }

  /**
    * The payload's layout: the five scalar fields, each carrying its value, in the
    * order model, price, phone, city, maxPictures; then one `images` part per
    * picture, in selection order.
    */
  lemma PayloadLayout(v: Values, pictures: seq<File>)
    ensures |Payload(v, pictures)| == 5 + |pictures|
    ensures Payload(v, pictures)[..5] ==
      [Part("model", FieldText(v.model)), Part("price", FieldText(NumberText(v.price))),
       Part("phone", FieldText(v.phone)), Part("city", FieldText(v.city)),
       Part("maxPictures", FieldText(NumberText(v.maxPictures)))]
    ensures forall i | 0 <= i < |pictures| :: Payload(v, pictures)[5 + i] == Part("images", Blob(pictures[i]))
  {
    ImagePartsAt(pictures);
  }

  /** How many parts carry a given name. */
  function CountNamed(parts: seq<Part>, name: string): nat {
    if parts == [] then 0
    else (if parts[0].name == name then 1 else 0) + CountNamed(parts[1..], name)
  }

  lemma {:induction false} CountNamedAppend(a: seq<Part>, b: seq<Part>, name: string)
    ensures CountNamed(a + b, name) == CountNamed(a, name) + CountNamed(b, name)
  {
    if a == [] {
      assert a + b == b;
    } else {
      assert (a + b)[1..] == a[1..] + b;
      CountNamedAppend(a[1..], b, name);
    }
  }

  lemma {:induction false} CountNamedNone(parts: seq<Part>, name: string)
    requires forall i | 0 <= i < |parts| :: parts[i].name != name
    ensures CountNamed(parts, name) == 0
  {
    if parts != [] {
      CountNamedNone(parts[1..], name);
    }
  }

  lemma {:induction false} CountImageParts(pictures: seq<File>)
    ensures CountNamed(ImageParts(pictures), "images") == |pictures|
  {
    if pictures != [] {
      CountImageParts(pictures[1..]);
    }
  }

  /** The number of `images` parts equals the number of pictures. */
  lemma PayloadImageCount(v: Values, pictures: seq<File>)
    ensures CountNamed(Payload(v, pictures), "images") == |pictures|
  {
    CountNamedAppend(ScalarParts(v), ImageParts(pictures), "images");
    CountNamedNone(ScalarParts(v), "images");
    CountImageParts(pictures);
  }

  /** Builds the multipart body one `append` at a time, the pictures in a loop. */
  method BuildFormData(v: Values, pictures: seq<File>) returns (parts: seq<Part>)
    ensures parts == Payload(v, pictures)
  {
    parts := [];
    parts := parts + [Part("model", FieldText(v.model))];
    parts := parts + [Part("price", FieldText(NumberText(v.price)))];
    parts := parts + [Part("phone", FieldText(v.phone))];
    parts := parts + [Part("city", FieldText(v.city))];
    parts := parts + [Part("maxPictures", FieldText(NumberText(v.maxPictures)))];
    for i := 0 to |pictures|
      invariant parts == ScalarParts(v) + ImageParts(pictures[..i])
    {
      ImagePartsAppend(pictures[..i], pictures[i]);
      assert pictures[..i + 1] == pictures[..i] + [pictures[i]];
      parts := parts + [Part("images", Blob(pictures[i]))];
    }
    assert pictures[..|pictures|] == pictures;
  }

  // ------------------------------------------------------------ the form state

  /** The success dialog shown after a listing is accepted. */
  const ListingSaved := Notified("Success!", "Car information submitted successfully!")

  /** The submit button is enabled exactly when the picture count equals the current bound. */
  function SubmitGate(pictureCount: nat, maxPictures: Option<int>): (enabled: bool)
    ensures maxPictures.None? ==> !enabled
  {
    maxPictures == Some(pictureCount)
  }

  /**
    * With valid values, an enabled button means the set holds between 1 and 10
    * pictures, and a request built then carries exactly `maxPictures` images.
    */
  lemma GatedPayload(v: Values, pictures: seq<File>)
    requires ListingErrors(v) == map[]
    requires SubmitGate(|pictures|, v.maxPictures)
    ensures 1 <= |pictures| <= 10
    ensures CountNamed(Payload(v, pictures), "images") == v.maxPictures.value
  {
    ListingValidIff(v);
    PayloadImageCount(v, pictures);
  }

  class ListingForm {
    var values: Values
    var pictures: seq<File>
    var error: string
    var effects: seq<Effect>             // dialogs shown, in order
    var requests: seq<ListingRequest>    // requests sent to the listing service, in order
    const storage: Session.Storage

    constructor (storage: Session.Storage)
      ensures values == InitialValues && pictures == [] && error == ""
      ensures effects == [] && requests == [] && this.storage == storage
    {
      values := InitialValues;
      pictures := [];
      error := "";
      effects := [];
      requests := [];
      this.storage := storage;
    }

    function SubmitEnabled(): bool
      reads this
    {
      SubmitGate(|pictures|, values.maxPictures)
    }

    /** The user edits fields. Only the values change; the gate follows the new bound. */
    method SetValues(v: Values)
      modifies this
      ensures values == v
      ensures pictures == old(pictures) && error == old(error)
      ensures effects == old(effects) && requests == old(requests)
      ensures SubmitEnabled() <==> v.maxPictures == Some(|old(pictures)|)
    {
      values := v;
    }

    /**
      * A file selection against a bound. Too many files: the old set stays and
      * the error names the bound. Otherwise the selection replaces the set, in
      * selection order, and the error is cleared.
      */
    method HandleFileChange(selected: seq<File>, maxPictures: Option<int>)
      modifies this
      ensures |selected| > SelectionBound(maxPictures) ==>
        pictures == old(pictures) && error == TooManyMessage(maxPictures)
      ensures |selected| <= SelectionBound(maxPictures) ==>
        pictures == selected && error == ""
      ensures values == old(values) && effects == old(effects) && requests == old(requests)
    {
      if |selected| > SelectionBound(maxPictures) {
        error := TooManyMessage(maxPictures);
      } else {
        pictures := selected;
        error := "";
      }
    }

    /** The file input's change event, which passes the current `maxPictures`. */
    method SelectFiles(selected: seq<File>)
      modifies this
      ensures |selected| > SelectionBound(values.maxPictures) ==>
        pictures == old(pictures) && error == TooManyMessage(values.maxPictures)
      ensures |selected| <= SelectionBound(values.maxPictures) ==>
        pictures == selected && error == ""
      ensures values == old(values) && effects == old(effects) && requests == old(requests)
    {
      HandleFileChange(selected, values.maxPictures);
    }

    /**
      * Sends the listing. The request carries the values and pictures as they are
      * now and the stored token, present or not. On acceptance the dialog is shown
      * once, the values go back to their initial state and the set is emptied; on
      * failure only the error changes.
      */
    method HandleSubmit(service: ListingRequest -> bool)
      modifies this
      ensures var sent := RequestFor(old(values), old(pictures), storage.GetItem(Session.TokenKey));
        requests == old(requests) + [sent] &&
        if service(sent) then
          effects == old(effects) + [ListingSaved] && values == InitialValues && pictures == [] &&
          error == old(error)
        else
          effects == old(effects) && values == old(values) && pictures == old(pictures) &&
          error == "Submission failed"
    {
      var parts := BuildFormData(values, pictures);
      var token := storage.GetItem(Session.TokenKey);
      var request := ListingRequest(parts, Headers(token));
      requests := requests + [request];
      if service(request) {
        effects := effects + [ListingSaved];
        values := InitialValues;
        pictures := [];
      } else {
        error := "Submission failed";
      }
    }

    /**
      * A click on submit. A disabled button does nothing; otherwise the fields are
      * validated first and the listing is sent only when no field has an error.
      */
    method Submit(service: ListingRequest -> bool) returns (dispatched: bool)
      modifies this
      ensures dispatched <==> old(SubmitEnabled()) && ListingErrors(old(values)) == map[]
      ensures !dispatched ==>
        values == old(values) && pictures == old(pictures) && error == old(error) &&
        effects == old(effects) && requests == old(requests)
      ensures dispatched ==>
        var sent := RequestFor(old(values), old(pictures), storage.GetItem(Session.TokenKey));
        requests == old(requests) + [sent] &&
        CountNamed(sent.parts, "images") == old(values).maxPictures.value &&
        1 <= |old(pictures)| <= 10 &&
        if service(sent) then
          effects == old(effects) + [ListingSaved] && values == InitialValues && pictures == [] &&
          error == old(error)
        else
          effects == old(effects) && values == old(values) && pictures == old(pictures) &&
          error == "Submission failed"
    {
      dispatched := SubmitEnabled() && ListingErrors(values) == map[];
      if dispatched {
        GatedPayload(values, pictures);
        HandleSubmit(service);
      }
    }
  }

  /** The selection scenarios: a bound of 3 accepts two files and rejects five. */
  method SelectionScenario(a: File, b: File, c: File, d: File, e: File)
  {
    var storage := new Session.Storage();
    var form := new ListingForm(storage);
    form.SetValues(form.values.(maxPictures := Some(3)));
    form.SelectFiles([a, b, c, d, e]);
    assert form.pictures == [] && form.error == "You can only upload up to 3 pictures.";
    form.SelectFiles([a, b]);
    assert form.pictures == [a, b] && form.error == "" && !form.SubmitEnabled();
    form.SelectFiles([a, b, c, d, e]);
    assert form.pictures == [a, b] && form.error == "You can only upload up to 3 pictures.";
    form.SetValues(form.values.(maxPictures := Some(2)));
    assert form.pictures == [a, b] && form.SubmitEnabled();
  }

  /** A complete listing with one picture, accepted by the service: the form is reset. */
  method SubmitScenario(a: File)
  {
    var storage := new Session.Storage();
    var form := new ListingForm(storage);
    var v := Values("Civic", Some(9000), "15550100", "Austin", Some(1));
    form.SetValues(v);
    form.SelectFiles([a]);
    ListingValidIff(v);
    var dispatched := form.Submit(r => true);
    assert dispatched && form.values == InitialValues && form.pictures == [] && form.effects == [ListingSaved];
  }
}
