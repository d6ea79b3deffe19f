/** The zod schemas of src/types/schemas.ts, twice: once as a predicate saying
    which decoded JSON values a schema accepts, once as the parse that builds the
    typed value. The lemmas tie the two together and to the record shapes.

    zod's `.url()` accepts a string exactly when the WHATWG URL parser does.
    URL parsing is not part of this model, so every validator takes that check
    as a parameter `isUrl` and nothing is assumed about it. */
module Schemas {
  import opened Wrappers
  import opened JsonValues
  import opened ServiceTypes

  type UrlCheck = string -> bool

  // ---------------------------------------------------------------------------
  // Acceptance, stated on the JSON value

  /** `Number.isInteger`, on an exact number. */
  predicate IsInteger(x: real) {
    x.Floor as real == x
  }

  predicate HasString(f: map<string, Json>, k: string) {
    k in f && f[k].JString?
  }

  predicate IsUrlValue(isUrl: UrlCheck, v: Json) {
    v.JString? && isUrl(v.s)
  }

  predicate IsStringArray(v: Json) {
    v.JArray? && forall i :: 0 <= i < |v.items| ==> v.items[i].JString?
  }

  predicate IsUrlArray(isUrl: UrlCheck, v: Json) {
    v.JArray? && forall i :: 0 <= i < |v.items| ==> IsUrlValue(isUrl, v.items[i])
  }

  /** The nested `details` object: both lists are required once `details` is there. */
  predicate DetailsSchema(j: Json) {
    j.JObject? &&
    "products_used" in j.fields && IsStringArray(j.fields["products_used"]) &&
    "contraindications" in j.fields && IsStringArray(j.fields["contraindications"])
  }

  /** `ServiceSchema`: an object whose text fields are strings (empty ones too),
      whose price is positive, whose duration is a positive integer, whose image
      and every gallery entry pass the URL check, and whose `details`, when the key
      is there, is a valid details object. Keys the schema does not name are allowed. */
  predicate ServiceSchema(isUrl: UrlCheck, j: Json) {
    j.JObject? &&
    var f := j.fields;
    HasString(f, "id") && HasString(f, "name") && HasString(f, "category") &&
    "price" in f && f["price"].JNumber? && f["price"].n > 0.0 &&
    "duration" in f && f["duration"].JNumber? && IsInteger(f["duration"].n) && f["duration"].n > 0.0 &&
    "image" in f && IsUrlValue(isUrl, f["image"]) &&
    "gallery" in f && IsUrlArray(isUrl, f["gallery"]) &&
    HasString(f, "description") &&
    ("details" in f ==> DetailsSchema(f["details"]))
  }

  /** `ServiceListSchema`: an array every element of which `ServiceSchema` accepts. */
  predicate ServiceListSchema(isUrl: UrlCheck, j: Json) {
    j.JArray? && forall i :: 0 <= i < |j.items| ==> ServiceSchema(isUrl, j.items[i])
  }

  /** `AppointmentResponseSchema`: three strings and a number of either sign. */
  predicate AppointmentResponseSchema(j: Json) {
    j.JObject? &&
    var f := j.fields;
    HasString(f, "status") && HasString(f, "message") && HasString(f, "appointment_id") &&
    "estimated_price" in f && f["estimated_price"].JNumber?
  }

  /** The invariant every parsed Service satisfies, stated on the record. */
  predicate ValidService(isUrl: UrlCheck, s: Service) {
    s.price > 0.0 && s.duration > 0 && isUrl(s.image) &&
    forall i :: 0 <= i < |s.gallery| ==> isUrl(s.gallery[i])
  }

  // ---------------------------------------------------------------------------
  // The parse: the combinators the schemas are built from

  /** `z.string()` */
  function AsString(v: Json): Option<string> {
    if v.JString? then Some(v.s) else None
  }

  /** `z.string().url()` */
  function AsUrl(isUrl: UrlCheck, v: Json): Option<string> {
    if v.JString? && isUrl(v.s) then Some(v.s) else None
  }

  /** `z.number()` */
  function AsNumber(v: Json): Option<real> {
    if v.JNumber? then Some(v.n) else None
  }

  /** `z.number().positive()` */
  function AsPositiveNumber(v: Json): Option<real> {
    if v.JNumber? && v.n > 0.0 then Some(v.n) else None
  }

  /** `z.number().int().positive()` */
  function AsPositiveInt(v: Json): Option<int> {
    if v.JNumber? && IsInteger(v.n) && v.n > 0.0 then Some(v.n.Floor) else None
  }

  /** `z.array(elem)` on the items of an array: succeeds iff every item does,
      and then keeps length and order. */
  function ParseArray<T>(items: seq<Json>, elem: Json -> Option<T>): (r: Option<seq<T>>)
    ensures r.Some? <==> forall i :: 0 <= i < |items| ==> elem(items[i]).Some?
    ensures r.Some? ==> |r.value| == |items|
    ensures r.Some? ==> forall i :: 0 <= i < |items| ==> elem(items[i]) == Some(r.value[i])
  {
    if items == [] then Some([])
    else
      match (elem(items[0]), ParseArray(items[1..], elem))
      case (Some(x), Some(xs)) =>
        assert forall i :: 1 <= i < |items| ==> items[i] == items[1..][i - 1];
        Some([x] + xs)
      case (None, _) => None
      case (_, None) =>
        assert forall i :: 0 <= i < |items| - 1 ==> items[1..][i] == items[i + 1];
        None
  }

  function AsArray<T>(v: Json, elem: Json -> Option<T>): Option<seq<T>> {
    if v.JArray? then ParseArray(v.items, elem) else None
  }

  /** A required key of `z.object`. */
  function Field<T>(f: map<string, Json>, k: string, p: Json -> Option<T>): Option<T> {
    if k in f then p(f[k]) else None
  }

  /** An `.optional()` key of `z.object`: an absent key parses to `None`. */
  function OptionalField<T>(f: map<string, Json>, k: string, p: Json -> Option<T>): Option<Option<T>> {
    if k !in f then Some(None)
    else
      match p(f[k])
      case Some(x) => Some(Some(x))
      case None => None
  }

  function ParseDetails(j: Json): (r: Option<ServiceDetails>)
    ensures r.Some? <==> DetailsSchema(j)
  {
    if !j.JObject? then None
    else
      var productsUsed :- Field(j.fields, "products_used", v => AsArray(v, AsString));
      var contraindications :- Field(j.fields, "contraindications", v => AsArray(v, AsString));
      Some(ServiceDetails(productsUsed, contraindications))
  }

  /** `ServiceSchema.parse`: a Service exactly for the JSON the schema accepts,
      and every Service it returns satisfies the record invariant. */
  function ParseService(isUrl: UrlCheck, j: Json): (r: Option<Service>)
    ensures r.Some? <==> ServiceSchema(isUrl, j)
    ensures r.Some? ==> ValidService(isUrl, r.value)
  {
    if !j.JObject? then None
    else
      var f := j.fields;
      var id :- Field(f, "id", AsString);
      var name :- Field(f, "name", AsString);
      var category :- Field(f, "category", AsString);
      var price :- Field(f, "price", AsPositiveNumber);
      var duration :- Field(f, "duration", AsPositiveInt);
      var image :- Field(f, "image", v => AsUrl(isUrl, v));
      var gallery :- Field(f, "gallery", v => AsArray(v, w => AsUrl(isUrl, w)));
      var description :- Field(f, "description", AsString);
      var details :- OptionalField(f, "details", ParseDetails);
      Some(Service(id, name, category, price, duration, image, gallery, description, details))
  }

  /** `ServiceListSchema.parse`: a list exactly when every element is a Service,
      of the same length and in the same order. */
  function ParseServiceList(isUrl: UrlCheck, j: Json): (r: Option<seq<Service>>)
    ensures r.Some? <==> ServiceListSchema(isUrl, j)
    ensures r.Some? ==> |r.value| == |j.items|
    ensures r.Some? ==> forall i :: 0 <= i < |j.items| ==> ParseService(isUrl, j.items[i]) == Some(r.value[i])
    ensures r.Some? ==> forall i :: 0 <= i < |r.value| ==> ValidService(isUrl, r.value[i])
  {
    AsArray(j, v => ParseService(isUrl, v))
  }

  /** `AppointmentResponseSchema.parse` */
  function ParseAppointmentResponse(j: Json): (r: Option<AppointmentResponse>)
    ensures r.Some? <==> AppointmentResponseSchema(j)
    ensures r.Some? ==> AppointmentResponseToJson(r.value) == StripAppointmentResponse(j)
  {
    if !j.JObject? then None
    else
      var f := j.fields;
      var status :- Field(f, "status", AsString);
      var message :- Field(f, "message", AsString);
      var appointmentId :- Field(f, "appointment_id", AsString);
      var estimatedPrice :- Field(f, "estimated_price", AsNumber);
      var a := AppointmentResponse(status, message, appointmentId, estimatedPrice);
      assert AppointmentResponseToJson(a).fields == StripAppointmentResponse(j).fields;
      Some(a)
  }

  // ---------------------------------------------------------------------------
  // Records back to JSON, and what the parse keeps and drops

  function DetailsToJson(d: ServiceDetails): Json {
    JObject(map[
      "products_used" := JArray(StringsToJson(d.productsUsed)),
      "contraindications" := JArray(StringsToJson(d.contraindications))])
  }

  /** A Service as the API sends it: the keys of `ServiceSchema`, `details` only when present. */
  function ServiceToJson(s: Service): Json {
    var f := map[
      "id" := JString(s.id),
      "name" := JString(s.name),
      "category" := JString(s.category),
      "price" := JNumber(s.price),
      "duration" := JNumber(s.duration as real),
      "image" := JString(s.image),
      "gallery" := JArray(StringsToJson(s.gallery)),
      "description" := JString(s.description)];
    JObject(if s.details.Some? then f["details" := DetailsToJson(s.details.value)] else f)
  }

  function AppointmentResponseToJson(a: AppointmentResponse): Json {
    JObject(map[
      "status" := JString(a.status),
      "message" := JString(a.message),
      "appointment_id" := JString(a.appointmentId),
      "estimated_price" := JNumber(a.estimatedPrice)])
  }

  const DetailsKeys: set<string> := {"products_used", "contraindications"}
  const ServiceKeys: set<string> :=
    {"id", "name", "category", "price", "duration", "image", "gallery", "description", "details"}

  /** zod's default for `z.object`: keys the schema does not name are dropped. */
  function StripDetails(j: Json): Json {
    if j.JObject? then JObject(map k | k in j.fields && k in DetailsKeys :: j.fields[k]) else j
  }

  const AppointmentResponseKeys: set<string> :=
    {"status", "message", "appointment_id", "estimated_price"}

  function StripAppointmentResponse(j: Json): Json {
    if j.JObject? then JObject(map k | k in j.fields && k in AppointmentResponseKeys :: j.fields[k]) else j
  }

  function StripService(j: Json): Json {
    if j.JObject?
    then JObject(map k | k in j.fields && k in ServiceKeys ::
                   if k == "details" then StripDetails(j.fields[k]) else j.fields[k])
    else j
  }

  /** An array of JSON strings is the image of the strings it parses to. */
  lemma ParsedStringsReproduceItems(items: seq<Json>, elem: Json -> Option<string>, ss: seq<string>)
    requires forall v :: elem(v).Some? ==> v == JString(elem(v).value)
    requires ParseArray(items, elem) == Some(ss)
    ensures items == StringsToJson(ss)
  {
  }

  /** Strings serialised and parsed back come back unchanged, for any element
      check they all pass. */
  lemma StringsRoundTrip(ss: seq<string>, elem: Json -> Option<string>)
    requires forall i :: 0 <= i < |ss| ==> elem(JString(ss[i])) == Some(ss[i])
    ensures ParseArray(StringsToJson(ss), elem) == Some(ss)
  {
    var items := StringsToJson(ss);
    assert forall i :: 0 <= i < |items| ==> elem(items[i]) == Some(ss[i]);
    var r := ParseArray(items, elem);
    assert r.Some?;
    assert forall i :: 0 <= i < |ss| ==> r.value[i] == ss[i];
    assert r.value == ss;
  }

  /** The parse drops exactly the unknown keys: a parsed Service serialises back
      to its input with the keys the schema does not name removed. */
  lemma ParsedServiceIsStrippedInput(isUrl: UrlCheck, j: Json)
    requires ParseService(isUrl, j).Some?
    ensures ServiceToJson(ParseService(isUrl, j).value) == StripService(j)
  {
    var s := ParseService(isUrl, j).value;
    var f := j.fields;
    ParsedStringsReproduceItems(f["gallery"].items, w => AsUrl(isUrl, w), s.gallery);
    if "details" in f {
      var d := f["details"];
      var pd := ParseDetails(d).value;
      ParsedStringsReproduceItems(d.fields["products_used"].items, AsString, pd.productsUsed);
      ParsedStringsReproduceItems(d.fields["contraindications"].items, AsString, pd.contraindications);
      assert DetailsToJson(pd).fields == StripDetails(d).fields;
    }
    assert ServiceToJson(s).fields == StripService(j).fields;
  }

  /** Keys the schema does not name make no difference to the parse. */
  lemma ParseServiceIgnoresUnknownKeys(isUrl: UrlCheck, j: Json)
    ensures ParseService(isUrl, StripService(j)) == ParseService(isUrl, j)
  {
  }

  /** The keys `ServiceToJson` writes, and what each holds. */
  lemma ServiceToJsonFields(s: Service)
    ensures var f := ServiceToJson(s).fields;
      f.Keys == (if s.details.Some? then ServiceKeys else ServiceKeys - {"details"}) &&
      f["id"] == JString(s.id) && f["name"] == JString(s.name) &&
      f["category"] == JString(s.category) && f["price"] == JNumber(s.price) &&
      f["duration"] == JNumber(s.duration as real) && f["image"] == JString(s.image) &&
      f["gallery"] == JArray(StringsToJson(s.gallery)) &&
      f["description"] == JString(s.description) &&
      (s.details.Some? ==> f["details"] == DetailsToJson(s.details.value))
  {
  }

  lemma DetailsRoundTrip(d: ServiceDetails)
    ensures ParseDetails(DetailsToJson(d)) == Some(d)
  {
    StringsRoundTrip(d.productsUsed, AsString);
    StringsRoundTrip(d.contraindications, AsString);
  }

  /** Serialising a Service and parsing it back gives the same Service exactly
      when it satisfies the record invariant. */
  lemma ServiceRoundTrip(isUrl: UrlCheck, s: Service)
    ensures ParseService(isUrl, ServiceToJson(s)) == if ValidService(isUrl, s) then Some(s) else None
  {
    var j := ServiceToJson(s);
    var f := j.fields;
    ServiceToJsonFields(s);
    assert (s.duration as real).Floor == s.duration;
    if ValidService(isUrl, s) {
      StringsRoundTrip(s.gallery, w => AsUrl(isUrl, w));
      assert Field(f, "gallery", v => AsArray(v, w => AsUrl(isUrl, w))) == Some(s.gallery);
      if s.details.Some? {
        DetailsRoundTrip(s.details.value);
        assert OptionalField(f, "details", ParseDetails) == Some(s.details);
      } else {
        assert OptionalField(f, "details", ParseDetails) == Some(None);
      }
    } else if forall i :: 0 <= i < |s.gallery| ==> isUrl(s.gallery[i]) {
      assert !(s.price > 0.0 && s.duration > 0 && isUrl(s.image));
    } else {
      var i :| 0 <= i < |s.gallery| && !isUrl(s.gallery[i]);
      assert !IsUrlValue(isUrl, f["gallery"].items[i]);
    }
  }

  /** The list form of the round trip: a list of valid Services survives
      serialisation and `ServiceListSchema.parse` unchanged, in order. */
  lemma ServiceListRoundTrip(isUrl: UrlCheck, ss: seq<Service>)
    requires forall i :: 0 <= i < |ss| ==> ValidService(isUrl, ss[i])
    ensures ParseServiceList(isUrl, JArray(seq(|ss|, i requires 0 <= i < |ss| => ServiceToJson(ss[i])))) == Some(ss)
  {
    var items := seq(|ss|, i requires 0 <= i < |ss| => ServiceToJson(ss[i]));
    forall i | 0 <= i < |ss| ensures ParseService(isUrl, items[i]) == Some(ss[i]) {
      ServiceRoundTrip(isUrl, ss[i]);
    }
    var r := ParseServiceList(isUrl, JArray(items));
    assert r.Some?;
    assert forall i :: 0 <= i < |ss| ==> r.value[i] == ss[i];
    assert r.value == ss;
  }

  /** Every AppointmentResponse record survives serialisation and parsing,
      whatever the sign of its estimated price. */
  lemma AppointmentResponseRoundTrip(a: AppointmentResponse)
    ensures ParseAppointmentResponse(AppointmentResponseToJson(a)) == Some(a)
  {
  }
}
