// The answer of the list call in the shapes CAS may give it, and the loops that read and write property maps.
module ServiceList {
  import opened Wrappers
  import opened CasTypes

  function EncodeServices(services: seq<Service>): Json {
    JArr(seq(|services|, i requires 0 <= i < |services| => EncodeService(services[i])))
  }

  function DecodeAll(items: seq<Json>): Result<seq<Service>> {
    if items == [] then Ok([])
    else
      match (DecodeService(items[0]), DecodeAll(items[1..]))
      case (Ok(s), Ok(rest)) => Ok([s] + rest)
      case _ => Err(MISMATCH)
  }

  // A nil slice for null, else the services of an array.
  function DecodeServices(j: Json): Result<Option<seq<Service>>> {
    match j
    case JNull => Ok(None)
    case JArr(items) => (match DecodeAll(items) case Ok(ss) => Ok(Some(ss)) case Err(e) => Err(e))
    case _ => Err(MISMATCH)
  }

  function OrEmpty(r: Result<Option<seq<Service>>>): Result<seq<Service>> {
    match r
    case Ok(None) => Ok([])
    case Ok(Some(ss)) => Ok(ss)
    case Err(e) => Err(e)
  }

  // null, a Java collection wrapper, an object with a "services" array, or the array itself.
  function DecodeList(j: Json): Result<seq<Service>> {
    if j == JNull then Ok([])
    else if IsWrapper(j) then OrEmpty(DecodeServices(j.items[1]))
    else
      var inObject := if j.JObj? then DecodeServices(Get(j.fields, "services")) else Err(MISMATCH);
      if inObject.Ok? && inObject.value.Some? then Ok(inObject.value.value)
      else OrEmpty(DecodeServices(j))
  }

  // Services that survive JSON: numeric ids in range and no property entry called "@class".
  predicate Plain(s: Service) {
    Int64(s.id) && (s.properties.Some? ==> CLASS_KEY !in s.properties.value.entries)
  }

  function NormalServices(services: seq<Service>): seq<Service> {
    seq(|services|, i requires 0 <= i < |services| => NormalService(services[i]))
  }

  lemma EncodedHead(services: seq<Service>)
    requires services != []
    ensures var items := EncodeServices(services).items;
            items != [] && items[0] == EncodeService(services[0]) && items[1..] == EncodeServices(services[1..]).items
  {
  }

  lemma DecodeHead(items: seq<Json>)
    requires items != [] && DecodeService(items[0]).Ok? && DecodeAll(items[1..]).Ok?
    ensures DecodeAll(items) == Ok([DecodeService(items[0]).value] + DecodeAll(items[1..]).value)
  {
    hide DecodeService;
  }

  lemma {:induction false} AllRoundTrip(services: seq<Service>)
    requires forall s | s in services :: Plain(s)
    ensures DecodeAll(EncodeServices(services).items) == Ok(NormalServices(services))
  {
    hide EncodeService, DecodeService, NormalService;
    if services == [] {
      assert EncodeServices(services).items == [] && NormalServices(services) == [];
    } else {
      var rest := services[1..];
      AllRoundTrip(rest);
      assert Plain(services[0]);
      ServiceRoundTrip(services[0]);
      EncodedHead(services);
      var items := EncodeServices(services).items;
      DecodeHead(items);
      assert [NormalService(services[0])] + NormalServices(rest) == NormalServices(services);
    }
  }

  // Whatever shape the list comes in, the same services are read from it. In particular a bare array of two
  // services is never mistaken for a wrapper.
  lemma ListShapesAgree(services: seq<Service>, cls: string)
    requires forall s | s in services :: Plain(s)
    ensures DecodeList(EncodeServices(services)) == Ok(NormalServices(services))
    ensures DecodeList(JArr([JStr(cls), EncodeServices(services)])) == Ok(NormalServices(services))
    ensures DecodeList(JObj(map["services" := EncodeServices(services)])) == Ok(NormalServices(services))
  {
    hide DecodeService, NormalServices, Plain, DecodeAll;
    AllRoundTrip(services);
    var direct := EncodeServices(services);
    if |services| == 2 {
      assert direct.items[0].JObj?;
    }
    var wrapper := JArr([JStr(cls), direct]);
    assert IsWrapper(wrapper) && wrapper.items[1] == direct;
  }

  // Reading a service back does not change the consumer it is registered for.
  lemma ConsumerSurvives(s: Service)
    ensures ConsumerOf(NormalService(s)) == ConsumerOf(s)
  {
    if s.properties.Some? && "ServiceName" in s.properties.value.entries {
      assert NormalProperties(s.properties.value).entries["ServiceName"] ==
             NormalProperty(s.properties.value.entries["ServiceName"]);
    }
  }

  // ---- The property maps, entry by entry ----

  method MarshalProperties(p: Properties) returns (j: Json)
    ensures j == EncodeProperties(p)
  {
    var payload := map[CLASS_KEY := JStr(p.cls)];
    var todo := p.entries.Keys;
    while todo != {}
      invariant todo <= p.entries.Keys
      invariant payload == map[CLASS_KEY := JStr(p.cls)] +
        map key | key in p.entries && key !in todo :: EncodeProperty(p.entries[key])
    {
      var key :| key in todo;
      payload := payload[key := EncodeProperty(p.entries[key])];
      todo := todo - {key};
    }
    assert (map key | key in p.entries && key !in todo :: EncodeProperty(p.entries[key])) == EncodeEntries(p.entries);
    return JObj(payload);
  }

  method UnmarshalProperties(j: Json) returns (r: Result<Properties>)
    ensures r == DecodeProperties(j)
  {
    if !j.JNull? && !j.JObj? {
      return Err(MISMATCH);
    }
    var raw := if j.JNull? then map[] else j.fields;
    ghost var fields := raw;
    var props := Properties(HASH_MAP_CLASS, map[]);
    if CLASS_KEY in raw {
      var cls := DecodeClass(raw);
      if cls.Err? {
        return Err(MISMATCH);
      }
      props := props.(cls := cls.value);
      raw := raw - {CLASS_KEY};
    }
    assert raw == fields - {CLASS_KEY} && DecodeClass(fields) == Ok(props.cls);
    var todo := raw.Keys;
    while todo != {}
      invariant todo <= raw.Keys && DecodeClass(fields) == Ok(props.cls)
      invariant forall key | key in raw && key !in todo :: DecodeProperty(raw[key]).Ok?
      invariant props.entries == map key | key in raw && key !in todo :: DecodeProperty(raw[key]).value
    {
      var key :| key in todo;
      var property := DecodeProperty(raw[key]);
      if property.Err? {
        return Err(MISMATCH);
      }
      props := props.(entries := props.entries[key := property.value]);
      todo := todo - {key};
    }
    assert Readable(raw) && props.entries == DecodeEntries(raw);
    return Ok(props);
  }
}
