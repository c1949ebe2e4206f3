/**
 * The two lookup results `trace_ip_addr_info` consumes, as plain values:
 * the geo-database record (a dictionary from field name to value) and the
 * RDAP answer (a dictionary with a nested `network` dictionary). Field
 * values are already-formatted text, or Python's `None`.
 */
module Records {
  import opened Wrappers

  /** A field value: formatted text, or Python's `None`. */
  datatype FieldValue = Text(text: string) | Null

  /** What an f-string or `str()` makes of a field value. */
  function Render(v: FieldValue): string {
    match v
    case Text(s) => s
    case Null => "None"
  }

  /** A Python dictionary from field name to value. */
  type Record = map<string, FieldValue>

  /** `d.get(key)`: the value, or `None` when the key is absent. */
  function Get(d: Record, key: string): FieldValue {
    if key in d then d[key] else Null
  }

  /**
   * The result of `lookup_rdap()`: its top-level fields, and the nested
   * `network` dictionary, `None` here when the key is absent.
   */
  datatype RdapResult = RdapResult(fields: Record, network: Option<Record>)

  /** `whois_res.get('network', {})`. */
  function NetworkFields(res: RdapResult): Record {
    if res.network.Some? then res.network.value else map[]
  }

  /**
   * Every subscript `rec[...]` of `trace_ip_addr_info` succeeds: none of the
   * ten keys it reads is missing, so none raises `KeyError`.
   */
  predicate HasGeoKeys(rec: Record) {
    && "country_name" in rec && "continent" in rec && "time_zone" in rec
    && "city" in rec && "country_code" in rec && "postal_code" in rec
    && "country_code3" in rec && "area_code" in rec
    && "latitude" in rec && "longitude" in rec
  }
}
