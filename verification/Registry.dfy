// The list of services held by CAS.
module Registry {
  import opened Wrappers
  import opened CasTypes

  function Ids(services: seq<Service>): set<int> {
    set s | s in services :: s.id
  }

  predicate Valid(services: seq<Service>) {
    (forall i | 0 <= i < |services| :: services[i].id != 0) &&
    (forall i, j | 0 <= i < j < |services| :: services[i].id != services[j].id)
  }

  // The services of one consumer, in list order.
  function ByConsumer(services: seq<Service>, consumer: string): seq<Service> {
    if services == [] then []
    else (if ConsumerOf(services[0]) == consumer then [services[0]] else []) + ByConsumer(services[1..], consumer)
  }

  // Storing a record replaces the one with the same id.
  function Replace(services: seq<Service>, service: Service): seq<Service> {
    if services == [] then [service]
    else if services[0].id == service.id then [service] + services[1..]
    else [services[0]] + Replace(services[1..], service)
  }

  function Remove(services: seq<Service>, id: int): seq<Service> {
    if services == [] then []
    else if services[0].id == id then services[1..]
    else [services[0]] + Remove(services[1..], id)
  }

  // None when the consumer has no service, an error when it has several.
  function FindServiceByConsumer(services: seq<Service>, consumer: string): Result<Option<Service>> {
    var found := ByConsumer(services, consumer);
    if |found| == 0 then Ok(None)
    else if |found| == 1 then Ok(Some(found[0]))
    else Err("multiple Cas services found")
  }

  lemma {:induction false} ByConsumerIn(services: seq<Service>, consumer: string)
    ensures forall s | s in ByConsumer(services, consumer) :: s in services && ConsumerOf(s) == consumer
  {
    if services != [] {
      ByConsumerIn(services[1..], consumer);
    }
  }

  lemma {:induction false} ByConsumerAppend(a: seq<Service>, b: seq<Service>, consumer: string)
    ensures ByConsumer(a + b, consumer) == ByConsumer(a, consumer) + ByConsumer(b, consumer)
  {
    hide ConsumerOf;
    if a == [] {
      assert a + b == b;
    } else {
      ByConsumerAppend(a[1..], b, consumer);
      assert (a + b)[1..] == a[1..] + b;
      var head := if ConsumerOf(a[0]) == consumer then [a[0]] else [];
      assert head + (ByConsumer(a[1..], consumer) + ByConsumer(b, consumer)) ==
             (head + ByConsumer(a[1..], consumer)) + ByConsumer(b, consumer);
    }
  }

  lemma {:induction false} ByConsumerNone(services: seq<Service>, consumer: string)
    ensures ByConsumer(services, consumer) == [] <==> forall s | s in services :: ConsumerOf(s) != consumer
  {
    if services != [] {
      ByConsumerNone(services[1..], consumer);
      assert services == [services[0]] + services[1..];
    }
  }

  lemma ValidTail(services: seq<Service>)
    requires services != [] && Valid(services)
    ensures Valid(services[1..])
    ensures forall s | s in services[1..] :: s.id != services[0].id
  {
  }

  // Creating: every consumer keeps its services, and the new one joins those of its own consumer.
  lemma CreateEffect(services: seq<Service>, service: Service, consumer: string)
    requires Valid(services) && service.id != 0 && service.id !in Ids(services)
    ensures Valid(services + [service])
    ensures ByConsumer(services + [service], consumer) ==
            ByConsumer(services, consumer) + if ConsumerOf(service) == consumer then [service] else []
  {
    ByConsumerAppend(services, [service], consumer);
    forall i | 0 <= i < |services|
      ensures services[i].id != service.id
    {
      assert services[i] in services;
    }
  }

  lemma {:induction false} ReplaceKeepsValid(services: seq<Service>, service: Service)
    requires Valid(services) && service.id in Ids(services)
    ensures Valid(Replace(services, service)) && Ids(Replace(services, service)) == Ids(services)
  {
    ValidTail(services);
    var tail := services[1..];
    assert services == [services[0]] + tail;
    if services[0].id != service.id {
      ReplaceKeepsValid(tail, service);
      var replaced := Replace(services, service);
      assert replaced[1..] == Replace(tail, service);
      forall i | 0 <= i < |replaced[1..]|
        ensures replaced[1..][i].id != services[0].id
      {
        assert replaced[1..][i].id in Ids(tail);
      }
      assert Ids(services) == {services[0].id} + Ids(tail);
      assert replaced == [services[0]] + replaced[1..];
      assert Ids(replaced) == {services[0].id} + Ids(replaced[1..]);
    }
  }

  lemma {:induction false} ReplaceEffect(services: seq<Service>, stored: Service, service: Service, consumer: string)
    requires Valid(services) && stored in services && stored.id == service.id &&
             ConsumerOf(stored) == ConsumerOf(service)
    ensures consumer != ConsumerOf(service) ==>
            ByConsumer(Replace(services, service), consumer) == ByConsumer(services, consumer)
    ensures ByConsumer(services, consumer) == [stored] ==> ByConsumer(Replace(services, service), consumer) == [service]
  {
    hide ConsumerOf;
    ByConsumerIn(services, consumer);
    ValidTail(services);
    var tail := services[1..];
    assert services == [services[0]] + tail;
    if services[0].id == service.id {
      assert Replace(services, service)[1..] == tail;
    } else {
      ReplaceEffect(tail, stored, service, consumer);
      assert Replace(services, service)[1..] == Replace(tail, service);
      assert ConsumerOf(services[0]) == consumer ==> ByConsumer(services, consumer)[0] == services[0];
    }
  }

  lemma {:induction false} RemoveKeepsValid(services: seq<Service>, id: int)
    requires Valid(services)
    ensures Valid(Remove(services, id)) && forall s | s in Remove(services, id) :: s in services
  {
    if services != [] {
      ValidTail(services);
      var tail := services[1..];
      assert services == [services[0]] + tail;
      if services[0].id != id {
        RemoveKeepsValid(tail, id);
        var removed := Remove(services, id);
        assert removed[1..] == Remove(tail, id);
        assert removed == [services[0]] + removed[1..];
      }
    }
  }

  lemma {:induction false} RemoveEffect(services: seq<Service>, id: int, consumer: string)
    requires Valid(services)
    ensures (forall s | s in services && s.id == id :: ConsumerOf(s) != consumer) ==>
            ByConsumer(Remove(services, id), consumer) == ByConsumer(services, consumer)
    ensures |ByConsumer(services, consumer)| == 1 && ByConsumer(services, consumer)[0].id == id ==>
            ByConsumer(Remove(services, id), consumer) == []
  {
    hide ConsumerOf;
    if services != [] {
      ValidTail(services);
      var tail := services[1..];
      assert services == [services[0]] + tail;
      if services[0].id != id {
        RemoveEffect(tail, id, consumer);
        assert Remove(services, id)[1..] == Remove(tail, id);
      } else {
        ByConsumerIn(tail, consumer);
        assert ByConsumer(tail, consumer) != [] ==> ByConsumer(tail, consumer)[0] in ByConsumer(tail, consumer);
      }
    }
  }

  // Storing a record again as it is changes nothing.
  lemma {:induction false} ReplaceSame(services: seq<Service>, service: Service)
    requires Valid(services) && service in services
    ensures Replace(services, service) == services
  {
    ValidTail(services);
    assert services == [services[0]] + services[1..];
    if services[0].id != service.id {
      ReplaceSame(services[1..], service);
    }
  }
}
