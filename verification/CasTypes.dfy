// The registered-service records of the CAS actuator API and their JSON form, over JSON value trees.
module CasTypes {
  import opened Wrappers

  const CLASS_KEY := "@class"
  const CAS_SERVICE_CLASS := "org.apereo.cas.services.CasRegisteredService"
  const OIDC_SERVICE_CLASS := "org.apereo.cas.services.OidcRegisteredService"
  const OAUTH_SERVICE_CLASS := "org.apereo.cas.support.oauth.services.OAuthRegisteredService"
  const HASH_MAP_CLASS := "java.util.HashMap"
  const HASH_SET_CLASS := "java.util.HashSet"
  const LINKED_HASH_SET_CLASS := "java.util.LinkedHashSet"
  const PROPERTY_CLASS := "org.apereo.cas.services.DefaultRegisteredServiceProperty"

  datatype Json =
    JNull | JBool(b: bool) | JNum(n: int) | JStr(s: string) | JArr(items: seq<Json>) | JObj(fields: map<string, Json>)

  // A slice of strings under a Java collection class; `values` is None for a nil slice.
  datatype StringCollection = StringCollection(cls: string, values: Option<seq<string>>) {
    function Items(): seq<string> {
      if values.None? then [] else values.value
    }

    // Marshalling an empty class name writes the hash-set class instead.
    function Normal(): StringCollection {
      if cls == "" then StringCollection(HASH_SET_CLASS, values) else this
    }
  }

  datatype Property = Property(cls: string, values: StringCollection)

  datatype Properties = Properties(cls: string, entries: map<string, Property>)

  datatype Service = Service(
    cls: string, id: int, templateName: string, name: string, serviceId: string, logoutUrl: string,
    properties: Option<Properties>, clientId: string, clientSecret: string,
    scopes: Option<StringCollection>, grantTypes: Option<StringCollection>,
    responseTypes: Option<StringCollection>, audience: Option<StringCollection>)

  function NewProperty(value: string): Property {
    Property(PROPERTY_CLASS, StringCollection(LINKED_HASH_SET_CLASS, Some([value])))
  }

  function FirstValue(p: Option<Properties>, key: string): string {
    if p.Some? && key in p.value.entries && p.value.entries[key].values.Items() != [] then
      p.value.entries[key].values.Items()[0]
    else
      ""
  }

  // The property that ties a service to the consumer it was registered for.
  function ConsumerOf(s: Service): string {
    FirstValue(s.properties, "ServiceName")
  }

  predicate Int64(n: int) {
    -0x8000_0000_0000_0000 <= n < 0x8000_0000_0000_0000
  }

  // ---- Decoding primitive values: a missing field or null leaves the zero value. ----

  const MISMATCH := "json: cannot unmarshal value"

  function Get(fields: map<string, Json>, key: string): Json {
    if key in fields then fields[key] else JNull
  }

  function DecodeString(j: Json): Result<string> {
    match j
    case JNull => Ok("")
    case JStr(s) => Ok(s)
    case _ => Err(MISMATCH)
  }

  function DecodeInt64(j: Json): Result<int> {
    match j
    case JNull => Ok(0)
    case JNum(n) => if Int64(n) then Ok(n) else Err(MISMATCH)
    case _ => Err(MISMATCH)
  }

  function DecodeItems(items: seq<Json>): (r: Result<seq<string>>)
    ensures r.Ok? ==> |r.value| == |items|
  {
    if items == [] then Ok([])
    else
      match (DecodeString(items[0]), DecodeItems(items[1..]))
      case (Ok(s), Ok(rest)) => Ok([s] + rest)
      case _ => Err(MISMATCH)
  }

  function DecodeStrings(j: Json): Result<Option<seq<string>>> {
    match j
    case JNull => Ok(None)
    case JArr(items) => (match DecodeItems(items) case Ok(ss) => Ok(Some(ss)) case Err(e) => Err(e))
    case _ => Err(MISMATCH)
  }

  function EncodeStrings(values: Option<seq<string>>): Json {
    if values.None? then JNull
    else JArr(seq(|values.value|, i requires 0 <= i < |values.value| => JStr(values.value[i])))
  }

  lemma {:induction false} TextsRoundTrip(texts: seq<string>, items: seq<Json>)
    requires |items| == |texts|
    requires forall i | 0 <= i < |items| :: DecodeString(items[i]) == Ok(texts[i])
    ensures DecodeItems(items) == Ok(texts)
  {
    if texts != [] {
      TextsRoundTrip(texts[1..], items[1..]);
      assert texts == [texts[0]] + texts[1..];
    }
  }

  lemma StringsRoundTrip(values: Option<seq<string>>)
    ensures DecodeStrings(EncodeStrings(values)) == Ok(values)
  {
    if values.Some? {
      TextsRoundTrip(values.value, EncodeStrings(values).items);
    }
  }

  // ---- Java collections of strings ----

  function EncodeCollection(c: StringCollection): Json {
    JArr([JStr(c.Normal().cls), EncodeStrings(c.values)])
  }

  // [className, values] when the value is a two-element array that starts with a string (or null).
  predicate IsWrapper(j: Json) {
    j.JArr? && |j.items| == 2 && DecodeString(j.items[0]).Ok?
  }

  function DecodeCollection(j: Json): Result<StringCollection> {
    if j == JNull then Ok(StringCollection("", None))
    else if IsWrapper(j) then
      match DecodeStrings(j.items[1])
      case Ok(values) => Ok(StringCollection(DecodeString(j.items[0]).value, values))
      case Err(e) => Err(e)
    else
      match DecodeStrings(j)
      case Ok(values) => Ok(StringCollection(HASH_SET_CLASS, values))
      case Err(e) => Err(e)
  }

  lemma CollectionRoundTrip(c: StringCollection)
    ensures DecodeCollection(EncodeCollection(c)) == Ok(c.Normal())
  {
    StringsRoundTrip(c.values);
  }

  // A plain array of strings is read as itself exactly when it does not have two elements; with two it is
  // taken for a wrapper and refused.
  lemma PlainArrayReadsAsItself(values: seq<string>)
    ensures DecodeCollection(EncodeStrings(Some(values))) == Ok(StringCollection(HASH_SET_CLASS, Some(values))) <==>
            |values| != 2
    ensures |values| == 2 ==> DecodeCollection(EncodeStrings(Some(values))).Err?
  {
    StringsRoundTrip(Some(values));
  }

  // ---- Properties ----

  function EncodeProperty(p: Property): Json {
    JObj(map["@class" := JStr(p.cls), "values" := EncodeCollection(p.values)])
  }

  function DecodeProperty(j: Json): Result<Property> {
    match j
    case JNull => Ok(Property("", StringCollection("", None)))
    case JObj(fields) =>
      (match (DecodeString(Get(fields, "@class")), DecodeCollection(Get(fields, "values")))
       case (Ok(cls), Ok(values)) => Ok(Property(cls, values))
       case _ => Err(MISMATCH))
    case _ => Err(MISMATCH)
  }

  function EncodeEntries(entries: map<string, Property>): map<string, Json> {
    map key | key in entries :: EncodeProperty(entries[key])
  }

  function EncodeProperties(p: Properties): Json {
    JObj(map[CLASS_KEY := JStr(p.cls)] + EncodeEntries(p.entries))
  }

  function DecodeClass(fields: map<string, Json>): Result<string> {
    if Get(fields, CLASS_KEY) == JNull then Ok(HASH_MAP_CLASS) else DecodeString(fields[CLASS_KEY])
  }

  predicate Readable(fields: map<string, Json>) {
    forall key | key in fields :: DecodeProperty(fields[key]).Ok?
  }

  function DecodeEntries(fields: map<string, Json>): map<string, Property>
    requires Readable(fields)
  {
    map key | key in fields :: DecodeProperty(fields[key]).value
  }

  function DecodeProperties(j: Json): Result<Properties> {
    match j
    case JNull => Ok(Properties(HASH_MAP_CLASS, map[]))
    case JObj(fields) =>
      var rest := fields - {CLASS_KEY};
      if DecodeClass(fields).Ok? && Readable(rest) then Ok(Properties(DecodeClass(fields).value, DecodeEntries(rest)))
      else Err(MISMATCH)
    case _ => Err(MISMATCH)
  }

  function NormalProperty(p: Property): Property {
    p.(values := p.values.Normal())
  }

  function NormalProperties(p: Properties): Properties {
    p.(entries := map key | key in p.entries :: NormalProperty(p.entries[key]))
  }

  lemma PropertyRoundTrip(p: Property)
    ensures DecodeProperty(EncodeProperty(p)) == Ok(NormalProperty(p))
  {
    CollectionRoundTrip(p.values);
  }

  lemma EntriesRoundTrip(p: Properties)
    ensures Readable(EncodeEntries(p.entries))
    ensures DecodeEntries(EncodeEntries(p.entries)) == NormalProperties(p).entries
  {
    var fields := EncodeEntries(p.entries);
    forall key | key in p.entries
      ensures DecodeProperty(fields[key]) == Ok(NormalProperty(p.entries[key]))
    {
      PropertyRoundTrip(p.entries[key]);
    }
  }

  // An entry named "@class" takes the place of the class name and can then not be read back.
  lemma PropertiesRoundTrip(p: Properties)
    ensures DecodeProperties(EncodeProperties(p)) ==
            if CLASS_KEY in p.entries then Err(MISMATCH) else Ok(NormalProperties(p))
  {
    var fields := EncodeProperties(p).fields;
    if CLASS_KEY in p.entries {
      assert fields[CLASS_KEY] == EncodeProperty(p.entries[CLASS_KEY]);
    } else {
      assert fields[CLASS_KEY] == JStr(p.cls);
      assert fields - {CLASS_KEY} == EncodeEntries(p.entries);
      EntriesRoundTrip(p);
    }
  }

  // ---- Services ----

  const FIELDS := ["@class", "id", "templateName", "name", "serviceId", "logoutUrl", "properties", "clientId",
    "clientSecret", "scopes", "supportedGrantTypes", "supportedResponseTypes", "audience"]

  function OmitEmpty(value: string): Json {
    if value == "" then JNull else JStr(value)
  }

  function EncodeOptional(value: Option<StringCollection>): Json {
    if value.None? then JNull else EncodeCollection(value.value)
  }

  // The values of FIELDS; null stands for a field that is left out because it has its zero value.
  function FieldValues(s: Service): (values: seq<Json>)
    ensures |values| == |FIELDS|
  {
    [JStr(s.cls), if s.id == 0 then JNull else JNum(s.id), OmitEmpty(s.templateName), OmitEmpty(s.name),
     OmitEmpty(s.serviceId), OmitEmpty(s.logoutUrl),
     if s.properties.None? then JNull else EncodeProperties(s.properties.value), OmitEmpty(s.clientId),
     OmitEmpty(s.clientSecret), EncodeOptional(s.scopes), EncodeOptional(s.grantTypes), EncodeOptional(s.responseTypes),
     EncodeOptional(s.audience)]
  }

  function Object(names: seq<string>, values: seq<Json>): map<string, Json>
    requires |names| == |values|
  {
    if names == [] then map[]
    else if values[0] == JNull then Object(names[1..], values[1..])
    else Object(names[1..], values[1..])[names[0] := values[0]]
  }

  function EncodeService(s: Service): Json {
    JObj(Object(FIELDS, FieldValues(s)))
  }

  function DecodeOptionalProperties(j: Json): Result<Option<Properties>> {
    if j == JNull then Ok(None)
    else match DecodeProperties(j) case Ok(p) => Ok(Some(p)) case Err(e) => Err(e)
  }

  function DecodeOptionalCollection(j: Json): Result<Option<StringCollection>> {
    if j == JNull then Ok(None)
    else match DecodeCollection(j) case Ok(c) => Ok(Some(c)) case Err(e) => Err(e)
  }

  function DecodeFields(v: seq<Json>): Result<Service>
    requires |v| == |FIELDS|
  {
    var texts := DecodeItems([v[0], v[2], v[3], v[4], v[5], v[7], v[8]]);
    var id, properties := DecodeInt64(v[1]), DecodeOptionalProperties(v[6]);
    var scopes, grants := DecodeOptionalCollection(v[9]), DecodeOptionalCollection(v[10]);
    var responses, audience := DecodeOptionalCollection(v[11]), DecodeOptionalCollection(v[12]);
    if texts.Err? || id.Err? || properties.Err? ||
       scopes.Err? || grants.Err? || responses.Err? || audience.Err?
    then Err(MISMATCH)
    else
      var t := texts.value;
      Ok(Service(t[0], id.value, t[1], t[2], t[3], t[4], properties.value, t[5], t[6],
                 scopes.value, grants.value, responses.value, audience.value))
  }

  function DecodeService(j: Json): Result<Service> {
    match j
    case JNull => Ok(Service("", 0, "", "", "", "", None, "", "", None, None, None, None))
    case JObj(f) => DecodeFields(seq(|FIELDS|, i requires 0 <= i < |FIELDS| => Get(f, FIELDS[i])))
    case _ => Err(MISMATCH)
  }

  function NormalCollection(c: Option<StringCollection>): Option<StringCollection> {
    if c.None? then None else Some(c.value.Normal())
  }

  function NormalService(s: Service): Service {
    s.(properties := if s.properties.None? then None else Some(NormalProperties(s.properties.value)),
       scopes := NormalCollection(s.scopes), grantTypes := NormalCollection(s.grantTypes),
       responseTypes := NormalCollection(s.responseTypes), audience := NormalCollection(s.audience))
  }

  lemma {:induction false} ObjectGet(names: seq<string>, values: seq<Json>, i: nat)
    requires |names| == |values| && i < |names|
    requires forall a, b | 0 <= a < b < |names| :: names[a] != names[b]
    ensures Get(Object(names, values), names[i]) == values[i]
    ensures forall key | key in Object(names, values) :: key in names
  {
    if i > 0 {
      ObjectGet(names[1..], values[1..], i - 1);
    } else if |names| > 1 {
      ObjectGet(names[1..], values[1..], 0);
    }
  }

  lemma FieldsDistinct()
    ensures forall a, b | 0 <= a < b < |FIELDS| :: FIELDS[a] != FIELDS[b]
  {
    forall a, b | 0 <= a < b < |FIELDS|
      ensures FIELDS[a] != FIELDS[b]
    {
      assert |FIELDS[a]| != |FIELDS[b]| || FIELDS[a][0] != FIELDS[b][0];
    }
  }

  lemma EncodedField(s: Service, i: nat)
    requires i < |FIELDS|
    ensures Get(EncodeService(s).fields, FIELDS[i]) == FieldValues(s)[i]
  {
    FieldsDistinct();
    ObjectGet(FIELDS, FieldValues(s), i);
  }

  lemma OptionalRoundTrip(c: Option<StringCollection>)
    ensures DecodeOptionalCollection(EncodeOptional(c)) == Ok(NormalCollection(c))
  {
    if c.Some? {
      CollectionRoundTrip(c.value);
    }
  }

  lemma EncodedValues(s: Service, f: map<string, Json>)
    requires f == EncodeService(s).fields
    ensures seq(|FIELDS|, i requires 0 <= i < |FIELDS| => Get(f, FIELDS[i])) == FieldValues(s)
  {
    forall i | 0 <= i < |FIELDS|
      ensures Get(f, FIELDS[i]) == FieldValues(s)[i]
    {
      EncodedField(s, i);
    }
  }

  lemma DecodedProperties(p: Option<Properties>)
    ensures DecodeOptionalProperties(if p.None? then JNull else EncodeProperties(p.value)) ==
            if p.Some? && CLASS_KEY in p.value.entries then Err(MISMATCH)
            else Ok(if p.None? then None else Some(NormalProperties(p.value)))
  {
    if p.Some? {
      PropertiesRoundTrip(p.value);
    }
  }

  lemma FieldsRoundTrip(s: Service)
    requires Int64(s.id)
    ensures DecodeFields(FieldValues(s)) ==
            if s.properties.Some? && CLASS_KEY in s.properties.value.entries then Err(MISMATCH)
            else Ok(NormalService(s))
  {
    var v := FieldValues(s);
    TextsRoundTrip([s.cls, s.templateName, s.name, s.serviceId, s.logoutUrl, s.clientId, s.clientSecret],
                   [v[0], v[2], v[3], v[4], v[5], v[7], v[8]]);
    DecodedProperties(s.properties);
    OptionalRoundTrip(s.scopes);
    OptionalRoundTrip(s.grantTypes);
    OptionalRoundTrip(s.responseTypes);
    OptionalRoundTrip(s.audience);
  }

  // Decoding the encoding of a service gives the service back, up to the class of collections that had none;
  // a property entry named "@class" is the one thing that cannot be read back.
  lemma ServiceRoundTrip(s: Service)
    requires Int64(s.id)
    ensures DecodeService(EncodeService(s)) ==
            if s.properties.Some? && CLASS_KEY in s.properties.value.entries then Err(MISMATCH)
            else Ok(NormalService(s))
  {
    EncodedValues(s, EncodeService(s).fields);
    FieldsRoundTrip(s);
  }
}
