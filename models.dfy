/**
 * The data-transfer records the client reads and writes. Every nullable C#
 * field becomes an `Option` and dictionaries become maps; the values inside
 * the `services` and `fields` maps are taken as non-null.
 */
module Models {
  import opened Wrappers
  import opened Json

  /** Help text for one parameter of a service. */
  datatype ServiceFieldInfo = ServiceFieldInfo(description: Option<string>, example: Option<string>)

  /**
   * One invocable action. `domain` and `serviceName` are not on the wire: they
   * are filled in from the enclosing `ServiceDomain` after parsing.
   */
  datatype Service = Service(
    domain: Option<string>,
    serviceName: Option<string>,
    description: Option<string>,
    fields: Option<map<string, ServiceFieldInfo>>)

  /** The services of one domain, keyed by service name. */
  datatype ServiceDomain = ServiceDomain(domain: Option<string>, services: Option<map<string, Service>>)

  /** A platform `DateTime`, kept opaque. */
  datatype Timestamp = Timestamp(ticks: int)

  /** The state of one entity; `attributes` is schema-less JSON. */
  datatype EntityState = EntityState(
    attributes: Option<map<string, Json>>,
    entityId: Option<string>,
    lastChanged: Timestamp,
    lastUpdated: Timestamp,
    state: Option<string>)
}
