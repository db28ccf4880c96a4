// The names on the wire: what a JSON object of the CAS API holds under each of its names, in both directions.
module Wire {
  import opened Wrappers
  import opened CasTypes
  import opened ServiceList

  type Fields = map<string, Json>

  // ---- Writing ----

  // A text is written unless it is empty.
  predicate WritesText(f: Fields, tag: string, value: string) {
    if value == "" then tag !in f else tag in f && f[tag] == JStr(value)
  }

  // [class, values], with the hash-set class where none is given.
  predicate IsCollection(j: Json, c: StringCollection) {
    j.JArr? && |j.items| == 2 && j.items[0] == JStr(if c.cls == "" then "java.util.HashSet" else c.cls) &&
    match c.values
    case None => j.items[1] == JNull
    case Some(values) =>
      j.items[1].JArr? && |j.items[1].items| == |values| &&
      forall i | 0 <= i < |values| :: j.items[1].items[i] == JStr(values[i])
  }

  predicate WritesCollection(f: Fields, tag: string, value: Option<StringCollection>) {
    if value.None? then tag !in f else tag in f && IsCollection(f[tag], value.value)
  }

  predicate IsProperty(j: Json, p: Property) {
    j.JObj? && j.fields.Keys == {"@class", "values"} &&
    j.fields["@class"] == JStr(p.cls) && IsCollection(j.fields["values"], p.values)
  }

  // An entry that is named like the class takes its place.
  predicate IsProperties(j: Json, p: Properties) {
    j.JObj? && j.fields.Keys == p.entries.Keys + {"@class"} &&
    (forall key | key in p.entries :: IsProperty(j.fields[key], p.entries[key])) &&
    ("@class" !in p.entries ==> j.fields["@class"] == JStr(p.cls))
  }

  lemma CollectionOnWire(c: StringCollection)
    ensures IsCollection(EncodeCollection(c), c)
  {
  }

  lemma PropertyOnWire(p: Property)
    ensures IsProperty(EncodeProperty(p), p)
  {
    hide IsCollection, EncodeCollection;
    CollectionOnWire(p.values);
    assert "@class"[0] != "values"[0];
  }

  lemma PropertiesOnWire(p: Properties)
    ensures IsProperties(EncodeProperties(p), p)
  {
    hide IsProperty, EncodeProperty;
    var f := EncodeProperties(p).fields;
    forall key | key in p.entries
      ensures IsProperty(f[key], p.entries[key])
    {
      PropertyOnWire(p.entries[key]);
      assert f[key] == EncodeEntries(p.entries)[key];
    }
  }

  // The members of a record under the names CAS knows them by. Only the class is written when it is empty.
  predicate IsRecord(j: Json, s: Service) {
    j.JObj? &&
    var f := j.fields;
    f.Keys <= {"@class", "id", "templateName", "name", "serviceId", "logoutUrl", "properties", "clientId",
      "clientSecret", "scopes", "supportedGrantTypes", "supportedResponseTypes", "audience"} &&
    "@class" in f && f["@class"] == JStr(s.cls) &&
    (if s.id == 0 then "id" !in f else "id" in f && f["id"] == JNum(s.id)) &&
    WritesText(f, "templateName", s.templateName) && WritesText(f, "name", s.name) &&
    WritesText(f, "serviceId", s.serviceId) && WritesText(f, "logoutUrl", s.logoutUrl) &&
    (if s.properties.None? then "properties" !in f
     else "properties" in f && IsProperties(f["properties"], s.properties.value)) &&
    WritesText(f, "clientId", s.clientId) && WritesText(f, "clientSecret", s.clientSecret) &&
    WritesCollection(f, "scopes", s.scopes) && WritesCollection(f, "supportedGrantTypes", s.grantTypes) &&
    WritesCollection(f, "supportedResponseTypes", s.responseTypes) && WritesCollection(f, "audience", s.audience)
  }

  lemma {:induction false} NullsLeftOut(names: seq<string>, values: seq<Json>)
    requires |names| == |values|
    ensures forall key | key in Object(names, values) :: Object(names, values)[key] != JNull
  {
    if names != [] { NullsLeftOut(names[1..], values[1..]); }
  }

  // What is written under the name in the i-th place; nothing for null.
  lemma FieldOnWire(s: Service, i: nat, tag: string)
    requires i < |FIELDS| && FIELDS[i] == tag
    ensures var f := EncodeService(s).fields; var v := FieldValues(s)[i];
      if v == JNull then tag !in f else tag in f && f[tag] == v
  {
    hide FieldValues;
    EncodedField(s, i);
    NullsLeftOut(FIELDS, FieldValues(s));
  }

  lemma OnlyFields(s: Service)
    ensures forall key | key in EncodeService(s).fields :: key in FIELDS
  {
    hide FieldValues, FIELDS;
    FieldsDistinct();
    if |FIELDS| > 0 { ObjectGet(FIELDS, FieldValues(s), 0); }
  }

  lemma TextOnWire(s: Service, i: nat, tag: string, value: string)
    requires i < |FIELDS| && FIELDS[i] == tag && FieldValues(s)[i] == OmitEmpty(value)
    ensures WritesText(EncodeService(s).fields, tag, value)
  {
    hide FieldValues, EncodeService, FIELDS;
    FieldOnWire(s, i, tag);
  }

  lemma SetOnWire(s: Service, i: nat, tag: string, value: Option<StringCollection>)
    requires i < |FIELDS| && FIELDS[i] == tag && FieldValues(s)[i] == EncodeOptional(value)
    ensures WritesCollection(EncodeService(s).fields, tag, value)
  {
    hide FieldValues, EncodeService, FIELDS, IsCollection;
    FieldOnWire(s, i, tag);
    if value.Some? { CollectionOnWire(value.value); }
  }

  lemma IsObject(s: Service)
    ensures EncodeService(s).JObj?
  {
  }

  lemma KeysOnWire(s: Service)
    ensures EncodeService(s).fields.Keys <= {"@class", "id", "templateName", "name", "serviceId", "logoutUrl",
      "properties", "clientId", "clientSecret", "scopes", "supportedGrantTypes", "supportedResponseTypes", "audience"}
  {
    OnlyFields(s);
    forall key | key in EncodeService(s).fields
      ensures key in {"@class", "id", "templateName", "name", "serviceId", "logoutUrl", "properties", "clientId",
        "clientSecret", "scopes", "supportedGrantTypes", "supportedResponseTypes", "audience"}
    {
      hide EncodeService;
      var i :| 0 <= i < |FIELDS| && FIELDS[i] == key;
    }
  }

  lemma TextsOnWire(s: Service)
    ensures var f := EncodeService(s).fields;
      WritesText(f, "templateName", s.templateName) && WritesText(f, "name", s.name) &&
      WritesText(f, "serviceId", s.serviceId) && WritesText(f, "logoutUrl", s.logoutUrl) &&
      WritesText(f, "clientId", s.clientId) && WritesText(f, "clientSecret", s.clientSecret)
  {
    hide EncodeService, WritesText, EncodeProperties, EncodeOptional, OmitEmpty;
    TextOnWire(s, 2, "templateName", s.templateName);
    TextOnWire(s, 3, "name", s.name);
    TextOnWire(s, 4, "serviceId", s.serviceId);
    TextOnWire(s, 5, "logoutUrl", s.logoutUrl);
    TextOnWire(s, 7, "clientId", s.clientId);
    TextOnWire(s, 8, "clientSecret", s.clientSecret);
  }

  lemma OthersOnWire(s: Service)
    ensures var f := EncodeService(s).fields;
      "@class" in f && f["@class"] == JStr(s.cls) &&
      (if s.id == 0 then "id" !in f else "id" in f && f["id"] == JNum(s.id)) &&
      (if s.properties.None? then "properties" !in f
       else "properties" in f && IsProperties(f["properties"], s.properties.value))
  {
    hide EncodeService, IsProperties, EncodeProperties, EncodeOptional, OmitEmpty;
    FieldOnWire(s, 0, "@class");
    FieldOnWire(s, 1, "id");
    FieldOnWire(s, 6, "properties");
    if s.properties.Some? {
      PropertiesOnWire(s.properties.value);
      NotNull(s.properties.value);
    }
  }

  lemma SetsOnWire(s: Service)
    ensures var f := EncodeService(s).fields;
      WritesCollection(f, "scopes", s.scopes) && WritesCollection(f, "supportedGrantTypes", s.grantTypes) &&
      WritesCollection(f, "supportedResponseTypes", s.responseTypes) && WritesCollection(f, "audience", s.audience)
  {
    hide EncodeService, WritesCollection, EncodeProperties, EncodeOptional, OmitEmpty;
    SetOnWire(s, 9, "scopes", s.scopes);
    SetOnWire(s, 10, "supportedGrantTypes", s.grantTypes);
    SetOnWire(s, 11, "supportedResponseTypes", s.responseTypes);
    SetOnWire(s, 12, "audience", s.audience);
  }

  // Every member of a record is written under its name, and left out exactly if it is empty.
  lemma RecordOnWire(s: Service)
    ensures IsRecord(EncodeService(s), s)
  {
    hide EncodeService, WritesText, WritesCollection, IsProperties, FIELDS, FieldValues;
    IsObject(s);
    KeysOnWire(s);
    TextsOnWire(s);
    OthersOnWire(s);
    SetsOnWire(s);
  }

  lemma NotNull(p: Properties)
    ensures EncodeProperties(p) != JNull
  {
  }

  // ---- Reading ----

  predicate IsText(j: Json, value: string) {
    j == JStr(value) || (j == JNull && value == "")
  }

  predicate IsTexts(j: Json, values: Option<seq<string>>) {
    match values
    case None => j == JNull
    case Some(texts) =>
      j.JArr? && |j.items| == |texts| && forall i | 0 <= i < |texts| :: IsText(j.items[i], texts[i])
  }

  // A collection is null, a class and its values, or the plain values. An array of two is always taken for the former
  // if it starts with a text or null.
  predicate ReadsAsCollection(j: Json, c: StringCollection) {
    if j == JNull then c == StringCollection("", None)
    else if j.JArr? && |j.items| == 2 && (j.items[0].JStr? || j.items[0].JNull?) then
      IsText(j.items[0], c.cls) && IsTexts(j.items[1], c.values)
    else c.cls == "java.util.HashSet" && IsTexts(j, c.values)
  }

  lemma TextsOffWire(j: Json, values: Option<seq<string>>)
    ensures DecodeStrings(j) == Ok(values) <==> IsTexts(j, values)
  {
    if j.JArr? && values.Some? { ItemsOffWire(j.items, values.value); }
  }

  lemma CollectionOffWire(j: Json, c: StringCollection)
    ensures DecodeCollection(j) == Ok(c) <==> ReadsAsCollection(j, c)
  {
    hide DecodeStrings, IsTexts;
    TextsOffWire(j, c.values);
    if j.JArr? && |j.items| == 2 { TextsOffWire(j.items[1], c.values); }
  }

  predicate ReadsText(f: Fields, tag: string, value: string) {
    if tag !in f || f[tag] == JNull then value == "" else f[tag] == JStr(value)
  }

  predicate ReadsCollection(f: Fields, tag: string, value: Option<StringCollection>) {
    if tag !in f || f[tag] == JNull then value.None?
    else value.Some? && ReadsAsCollection(f[tag], value.value)
  }

  predicate ReadsProperty(j: Json, p: Property) {
    match j
    case JNull => p == Property("", StringCollection("", None))
    case JObj(f) =>
      ReadsText(f, "@class", p.cls) &&
      (if "values" in f then ReadsAsCollection(f["values"], p.values) else p.values == StringCollection("", None))
    case _ => false
  }

  predicate ReadsProperties(j: Json, p: Properties) {
    j.JObj? &&
    var f := j.fields;
    (if "@class" !in f || f["@class"] == JNull then p.cls == "java.util.HashMap" else f["@class"] == JStr(p.cls)) &&
    p.entries.Keys == f.Keys - {"@class"} && forall key | key in p.entries :: ReadsProperty(f[key], p.entries[key])
  }

  // An object gives a record if and only if each member is the value of its name; other names do not matter.
  predicate ReadsRecord(f: Fields, s: Service) {
    ReadsText(f, "@class", s.cls) &&
    (if "id" !in f || f["id"] == JNull then s.id == 0 else f["id"] == JNum(s.id) && Int64(s.id)) &&
    ReadsText(f, "templateName", s.templateName) && ReadsText(f, "name", s.name) &&
    ReadsText(f, "serviceId", s.serviceId) && ReadsText(f, "logoutUrl", s.logoutUrl) &&
    (if "properties" !in f || f["properties"] == JNull then s.properties.None?
     else s.properties.Some? && ReadsProperties(f["properties"], s.properties.value)) &&
    ReadsText(f, "clientId", s.clientId) && ReadsText(f, "clientSecret", s.clientSecret) &&
    ReadsCollection(f, "scopes", s.scopes) && ReadsCollection(f, "supportedGrantTypes", s.grantTypes) &&
    ReadsCollection(f, "supportedResponseTypes", s.responseTypes) && ReadsCollection(f, "audience", s.audience)
  }

  lemma PropertyOffWire(j: Json, p: Property)
    ensures DecodeProperty(j) == Ok(p) <==> ReadsProperty(j, p)
  {
    hide DecodeCollection, ReadsAsCollection;
    NullCollection();
    if j.JObj? && "values" in j.fields { CollectionOffWire(j.fields["values"], p.values); }
  }

  lemma NullCollection()
    ensures DecodeCollection(JNull) == Ok(StringCollection("", None))
  {
  }

  lemma PropertiesOffWire(j: Json, p: Properties)
    requires j != JNull
    ensures DecodeProperties(j) == Ok(p) <==> ReadsProperties(j, p)
  {
    hide DecodeProperty, ReadsProperty;
    if j.JObj? {
      var rest := j.fields - {CLASS_KEY};
      forall key | key in rest && key in p.entries
        ensures DecodeProperty(rest[key]) == Ok(p.entries[key]) <==> ReadsProperty(j.fields[key], p.entries[key])
      {
        PropertyOffWire(rest[key], p.entries[key]);
      }
      if ReadsProperties(j, p) {
        assert Readable(rest);
        assert DecodeEntries(rest) == p.entries;
      }
    }
  }

  lemma TextOffWire(f: Fields, tag: string, value: string)
    ensures DecodeString(Get(f, tag)) == Ok(value) <==> ReadsText(f, tag, value)
  {
  }

  lemma SetOffWire(f: Fields, tag: string, value: Option<StringCollection>)
    ensures DecodeOptionalCollection(Get(f, tag)) == Ok(value) <==> ReadsCollection(f, tag, value)
  {
    hide DecodeCollection, ReadsAsCollection;
    if tag in f && f[tag] != JNull && value.Some? { CollectionOffWire(f[tag], value.value); }
  }

  lemma {:induction false} ItemsOffWire(items: seq<Json>, texts: seq<string>)
    ensures DecodeItems(items) == Ok(texts) <==>
            |items| == |texts| && forall i | 0 <= i < |items| :: DecodeString(items[i]) == Ok(texts[i])
  {
    hide DecodeString;
    if items != [] && texts != [] {
      ItemsOffWire(items[1..], texts[1..]);
      assert texts == [texts[0]] + texts[1..];
    }
  }

  lemma FieldsOffWire(v: seq<Json>, s: Service)
    requires |v| == |FIELDS|
    ensures DecodeFields(v) == Ok(s) <==>
            DecodeString(v[0]) == Ok(s.cls) && DecodeInt64(v[1]) == Ok(s.id) &&
            DecodeString(v[2]) == Ok(s.templateName) &&
            DecodeString(v[3]) == Ok(s.name) && DecodeString(v[4]) == Ok(s.serviceId) &&
            DecodeString(v[5]) == Ok(s.logoutUrl) && DecodeOptionalProperties(v[6]) == Ok(s.properties) &&
            DecodeString(v[7]) == Ok(s.clientId) && DecodeString(v[8]) == Ok(s.clientSecret) &&
            DecodeOptionalCollection(v[9]) == Ok(s.scopes) && DecodeOptionalCollection(v[10]) == Ok(s.grantTypes) &&
            DecodeOptionalCollection(v[11]) == Ok(s.responseTypes) && DecodeOptionalCollection(v[12]) == Ok(s.audience)
  {
    hide DecodeString, DecodeInt64, DecodeItems, DecodeOptionalCollection, DecodeOptionalProperties;
    var items := [v[0], v[2], v[3], v[4], v[5], v[7], v[8]];
    var texts := [s.cls, s.templateName, s.name, s.serviceId, s.logoutUrl, s.clientId, s.clientSecret];
    ItemsOffWire(items, texts);
    if DecodeFields(v) == Ok(s) {
      assert DecodeItems(items).value == texts;
    }
    if DecodeItems(items) == Ok(texts) {
      assert forall i | 0 <= i < 7 :: DecodeString(items[i]) == Ok(texts[i]);
      assert items[1] == v[2] && items[2] == v[3] && items[3] == v[4] && items[4] == v[5] && items[5] == v[7];
    }
  }

  lemma RecordOffWire(f: Fields, s: Service)
    ensures DecodeService(JObj(f)) == Ok(s) <==> ReadsRecord(f, s)
  {
    hide DecodeString, DecodeInt64, DecodeFields, DecodeOptionalCollection, DecodeOptionalProperties, ReadsText,
         ReadsCollection, ReadsProperties, Get;
    var v := seq(|FIELDS|, i requires 0 <= i < |FIELDS| => Get(f, FIELDS[i]));
    FieldsOffWire(v, s);
    TextOffWire(f, "@class", s.cls);
    TextOffWire(f, "templateName", s.templateName);
    TextOffWire(f, "name", s.name);
    TextOffWire(f, "serviceId", s.serviceId);
    TextOffWire(f, "logoutUrl", s.logoutUrl);
    TextOffWire(f, "clientId", s.clientId);
    TextOffWire(f, "clientSecret", s.clientSecret);
    IdOffWire(f, s.id);
    PropertiesMemberOffWire(f, s.properties);
    SetOffWire(f, "scopes", s.scopes);
    SetOffWire(f, "supportedGrantTypes", s.grantTypes);
    SetOffWire(f, "supportedResponseTypes", s.responseTypes);
    SetOffWire(f, "audience", s.audience);
  }

  lemma IdOffWire(f: Fields, id: int)
    ensures DecodeInt64(Get(f, "id")) == Ok(id) <==>
            if "id" !in f || f["id"] == JNull then id == 0 else f["id"] == JNum(id) && Int64(id)
  {
  }

  lemma PropertiesMemberOffWire(f: Fields, p: Option<Properties>)
    ensures DecodeOptionalProperties(Get(f, "properties")) == Ok(p) <==>
            if "properties" !in f || f["properties"] == JNull then p.None?
            else p.Some? && ReadsProperties(f["properties"], p.value)
  {
    hide DecodeProperties, ReadsProperties;
    if "properties" in f && f["properties"] != JNull && p.Some? { PropertiesOffWire(f["properties"], p.value); }
  }

  // ---- Reading lists ----

  predicate AreServices(j: Json, services: seq<Service>) {
    (j == JNull && services == []) ||
    (j.JArr? && |j.items| == |services| &&
     forall i | 0 <= i < |services| :: DecodeService(j.items[i]) == Ok(services[i]))
  }

  // A list is null, a class and its services, an object with the services under that name, or the services themselves.
  predicate ReadsAsList(j: Json, services: seq<Service>) {
    if j.JArr? && |j.items| == 2 && (j.items[0].JStr? || j.items[0].JNull?) then AreServices(j.items[1], services)
    else if j.JObj? then
      "services" in j.fields && j.fields["services"] != JNull && AreServices(j.fields["services"], services)
    else AreServices(j, services)
  }

  lemma {:induction false} AllOffWire(items: seq<Json>, services: seq<Service>)
    ensures DecodeAll(items) == Ok(services) <==>
            |items| == |services| && forall i | 0 <= i < |items| :: DecodeService(items[i]) == Ok(services[i])
  {
    hide DecodeService;
    if items != [] && services != [] {
      AllOffWire(items[1..], services[1..]);
      assert services == [services[0]] + services[1..];
    } else if items != [] {
      assert DecodeAll(items).Ok? ==> |DecodeAll(items).value| > 0;
    }
  }

  lemma ServicesOffWire(j: Json, services: seq<Service>)
    ensures OrEmpty(DecodeServices(j)) == Ok(services) <==> AreServices(j, services)
  {
    hide DecodeService;
    if j.JArr? { AllOffWire(j.items, services); }
  }

  lemma ListOffWire(j: Json, services: seq<Service>)
    ensures DecodeList(j) == Ok(services) <==> ReadsAsList(j, services)
  {
    hide DecodeAll, AreServices, DecodeService;
    ServicesOffWire(j, services);
    if j.JArr? && |j.items| == 2 { ServicesOffWire(j.items[1], services); }
    if j.JObj? && "services" in j.fields { ServicesOffWire(j.fields["services"], services); }
    if j.JObj? { NoServices(j, services); }
  }

  lemma NoServices(j: Json, services: seq<Service>)
    requires j.JObj?
    ensures !AreServices(j, services)
  {
  }
}
