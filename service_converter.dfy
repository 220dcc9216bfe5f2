/**
 * The post-parse step of the services converter: a `ServiceDomain` read from
 * JSON carries its services without their identity, and every service is given
 * the domain it sits in and the key it is filed under.
 */
module ServiceConverter {
  import opened Wrappers
  import opened Models

  /**
   * The domain with its services back-filled. Nothing but the two identity
   * fields of each service changes, and a domain without a services map is
   * returned as it is. The domain is copied as found, null or empty included.
   */
  function BackFilled(d: ServiceDomain): (r: ServiceDomain)
    ensures r.domain == d.domain
    ensures d.services.None? ==> r == d
    ensures d.services.Some? ==> r.services.Some? && r.services.value.Keys == d.services.value.Keys
    ensures d.services.Some? ==>
      forall name :: name in d.services.value ==>
        && r.services.value[name].domain == d.domain
        && r.services.value[name].serviceName == Some(name)
        && r.services.value[name].description == d.services.value[name].description
        && r.services.value[name].fields == d.services.value[name].fields
  {
    match d.services
    case None => d
    case Some(services) =>
      d.(services := Some(map name | name in services :: services[name].(domain := d.domain, serviceName := Some(name))))
  }

  /**
   * `ReadJson` after the generic parse: walks the services map and overwrites
   * the two identity fields of each entry, one key at a time.
   */
  method ReadJson(parsed: ServiceDomain) returns (d: ServiceDomain)
    ensures d == BackFilled(parsed)
  {
    d := parsed;
    if parsed.services.Some? {
      var original := parsed.services.value;
      var services := original;
      var pending := services.Keys;
      while pending != {}
        invariant services.Keys == original.Keys
        invariant pending <= original.Keys
        invariant forall name :: name in pending ==> services[name] == original[name]
        invariant forall name :: name in original && name !in pending ==>
          services[name] == original[name].(domain := parsed.domain, serviceName := Some(name))
        decreases pending
      {
        var name :| name in pending;
        services := services[name := services[name].(domain := parsed.domain, serviceName := Some(name))];
        pending := pending - {name};
      }
      var filled := BackFilled(parsed).services.value;
      assert services.Keys == filled.Keys;
      assert forall name :: name in services ==> services[name] == filled[name];
      assert services == filled;
      d := parsed.(services := Some(services));
    }
  }

  /** Back-filling twice is back-filling once: both fields are read from sources it leaves alone. */
  lemma BackFilledIdempotent(d: ServiceDomain)
    ensures BackFilled(BackFilled(d)) == BackFilled(d)
  {
    if d.services.Some? {
      var once := BackFilled(d).services.value;
      var twice := BackFilled(BackFilled(d)).services.value;
      assert twice.Keys == once.Keys;
      assert forall name :: name in once ==> twice[name] == once[name];
      assert twice == once;
    }
  }

  /**
   * The contract of `BackFilled` pins down its result: any domain that keeps
   * the domain name and the keys, fills both identity fields and keeps every
   * description and field map is the back-filled one.
   */
  lemma BackFilledUnique(d: ServiceDomain, r: ServiceDomain)
    requires d.services.Some? && r.services.Some?
    requires r.domain == d.domain && r.services.value.Keys == d.services.value.Keys
    requires forall name :: name in d.services.value ==>
      && r.services.value[name].domain == d.domain
      && r.services.value[name].serviceName == Some(name)
      && r.services.value[name].description == d.services.value[name].description
      && r.services.value[name].fields == d.services.value[name].fields
    ensures r == BackFilled(d)
  {
    var filled := BackFilled(d).services.value;
    assert forall name :: name in filled ==> r.services.value[name] == filled[name];
    assert r.services.value == filled;
  }

  /** The back-fill enforces nothing about the domain: a null domain is copied into every service. */
  lemma NullDomainIsCopied(s: Service)
    ensures BackFilled(ServiceDomain(None, Some(map["turn_on" := s]))).services.value["turn_on"].domain == None
  {
  }

  /** The decoded light/turn_on domain: domain "light", one service "turn_on" with description "d" and no fields. */
  lemma LightTurnOnFixture()
    ensures
      var raw := Service(None, None, Some("d"), Some(map[]));
      var d := BackFilled(ServiceDomain(Some("light"), Some(map["turn_on" := raw])));
      && d.domain == Some("light")
      && d.services == Some(map["turn_on" := Service(Some("light"), Some("turn_on"), Some("d"), Some(map[]))])
  {
    var raw := Service(None, None, Some("d"), Some(map[]));
    var d := BackFilled(ServiceDomain(Some("light"), Some(map["turn_on" := raw])));
    assert d.services.value.Keys == {"turn_on"};
    assert d.services.value["turn_on"] == Service(Some("light"), Some("turn_on"), Some("d"), Some(map[]));
    assert d.services.value == map["turn_on" := Service(Some("light"), Some("turn_on"), Some("d"), Some(map[]))];
  }
}
