/**
 * `MainWindow` of the tracker, reduced to the state its lookup and viewer
 * actions touch: the texts of the result labels, the coordinates kept for
 * the viewers (`raw_lat`, `raw_lon`), and the marker file on disk.
 *
 * The pure functions below say what one action does to that state; the
 * class `MainWindow` performs the same action step by step, in the order of
 * the `setText` calls, and its methods are proved to agree with them.
 */
module Window {
  import opened Wrappers
  import opened Records
  import IPv4
  import Currency
  import Artifact

  /** The texts of the result labels the lookup writes. */
  datatype Labels = Labels(
    ipAddress: string,
    country: string,
    city: string,
    timezone: string,
    latitude: string,
    longitude: string,
    postal: string,
    language: string,
    currency: string,
    regionCode: string,
    regionNumber: string,
    owner: string,
    ipVersion: string,
    asnRegistry: string,
    asnCidr: string,
    asnDate: string)

  /** The label texts, the kept coordinates, and the marker file (`None`: no file). */
  datatype WindowState = WindowState(
    labels: Labels,
    rawLat: Option<string>,   // None: the attribute was never assigned
    rawLon: Option<string>,
    artifact: Option<string>)

  /** The labels as the window builds them, before any lookup. */
  const InitialLabels: Labels := Labels(
    " - IP Address : No data",
    " - Country : No data",
    " - City : No data",
    " - Timezone : No data",
    " - Latitude : No data",
    " - Longitude : No data",
    " - Postal code : No data",
    " - Language : No data",
    " - Currency : No data",
    " - Region code : No data",
    " - Region number : No data",
    " - IP Owner : No data",
    " - IP version : No data",
    " - ASN registry: No data",
    " - ASN cidr : No data",
    " - ASN date : No data")

  /** A new window: no coordinates; `file` is whatever a previous session left on disk. */
  function InitialState(file: Option<string>): WindowState {
    WindowState(InitialLabels, None, None, file)
  }

  /** Latitude and longitude are assigned together. */
  predicate CoordinatesPaired(s: WindowState) {
    s.rawLat.Some? <==> s.rawLon.Some?
  }

  /** How a trace ends: normally, or with the exception the source raises. */
  datatype TraceOutcome =
    | Traced
    | RecordMissing    // the database has no record: subscripting None raises TypeError
    | FieldMissing     // the record lacks a key: `rec[...]` raises KeyError
    | RegistryFailed   // the RDAP lookup raises

  /** The country label text built from the record: `country_name(continent)`. */
  function CountryText(rec: Record): string
    requires HasGeoKeys(rec)
  {
    " - country : " + Render(rec["country_name"]) + "(" + Render(rec["continent"]) + ")"
  }

  /** Everything the geo record sets: the kept coordinates first, then ten labels. */
  function GeoStep(s: WindowState, rec: Record): (r: WindowState)
    requires HasGeoKeys(rec)
    ensures r.rawLat.Some? && r.rawLon.Some?
    ensures r.artifact == s.artifact
    ensures r.labels.ipAddress == s.labels.ipAddress && r.labels.currency == s.labels.currency
    ensures r.labels.owner == s.labels.owner && r.labels.ipVersion == s.labels.ipVersion
    ensures r.labels.asnRegistry == s.labels.asnRegistry && r.labels.asnCidr == s.labels.asnCidr
    ensures r.labels.asnDate == s.labels.asnDate
  {
    s.(rawLat := Some(Render(rec["latitude"])),
       rawLon := Some(Render(rec["longitude"])),
       labels := s.labels.(
         country := CountryText(rec),
         city := " - city : " + Render(rec["city"]),
         timezone := " - Timezone : " + Render(rec["time_zone"]),
         latitude := " - Latitude : " + Render(rec["latitude"]),
         longitude := " - Longitude : " + Render(rec["longitude"]),
         postal := " - Postal code :  " + Render(rec["postal_code"]),
         language := " - Language : " + Render(rec["country_code"]),
         regionCode := " - Region code : " + Render(rec["country_code3"]),
         regionNumber := " - Region number : " + Render(rec["area_code"])))
  }

  /** Everything the RDAP answer sets, each field read with `.get`. */
  function RegistryStep(s: WindowState, res: RdapResult): (r: WindowState)
    ensures r.rawLat == s.rawLat && r.rawLon == s.rawLon && r.artifact == s.artifact
    ensures r.labels.(owner := s.labels.owner, ipVersion := s.labels.ipVersion,
                      asnRegistry := s.labels.asnRegistry, asnCidr := s.labels.asnCidr,
                      asnDate := s.labels.asnDate) == s.labels
  {
    s.(labels := s.labels.(
         owner := " - IP Owner : " + Render(Get(res.fields, "asn_description")),
         ipVersion := " - IP version : " + Render(Get(NetworkFields(res), "ip_version")),
         asnRegistry := " - ASN Registry : " + Render(Get(res.fields, "asn_registry")),
         asnCidr := " - ASN cidr : " + Render(Get(res.fields, "asn_cidr")),
         asnDate := " - ASN Date : " + Render(Get(res.fields, "asn_date"))))
  }

  /** The currency chain's one write, if any. */
  function CurrencyStep(s: WindowState, e: Currency.Effect): (r: WindowState)
    ensures r.rawLat == s.rawLat && r.rawLon == s.rawLon && r.artifact == s.artifact
    ensures r.labels.(currency := s.labels.currency, country := s.labels.country) == s.labels
    ensures r.labels.currency != s.labels.currency ==> e == Currency.SetCurrencyLabel(r.labels.currency)
    ensures r.labels.country != s.labels.country ==> e == Currency.SetCountryLabel(r.labels.country)
  {
    match e
    case SetCurrencyLabel(t) => s.(labels := s.labels.(currency := t))
    case SetCountryLabel(t) => s.(labels := s.labels.(country := t))
    case NoEffect => s
  }

  /**
   * `trace_ip_addr_info`, given what the two lookups return for the address
   * (`None` for `rdap`: the RDAP lookup raised). Every exception stops the
   * trace where it is raised and leaves the writes made before it.
   */
  function Trace(s: WindowState, geo: Option<Record>, rdap: Option<RdapResult>): (r: (WindowState, TraceOutcome))
    ensures r.0.labels.ipAddress == s.labels.ipAddress
    ensures CoordinatesPaired(s) ==> CoordinatesPaired(r.0)
    ensures r.1 != Traced ==> r.0.artifact == s.artifact
    ensures r.1 == Traced ==>
              r.0.rawLat.Some? && r.0.rawLon.Some? &&
              r.0.artifact == Some(Artifact.KmlDocument(r.0.rawLon.value, r.0.rawLat.value))
    ensures r.1 in {RecordMissing, FieldMissing} ==> r.0 == s
  {
    if geo.None? then (s, RecordMissing)
    else if !HasGeoKeys(geo.value) then (s, FieldMissing)
    else
      var rec := geo.value;
      var afterGeo := GeoStep(s, rec);
      if rdap.None? then (afterGeo, RegistryFailed)
      else
        var afterRegistry := RegistryStep(afterGeo, rdap.value);
        var afterCurrency := CurrencyStep(afterRegistry, Currency.Rule(rec["country_code3"]));
        var doc := Artifact.KmlDocument(Render(rec["longitude"]), Render(rec["latitude"]));
        (afterCurrency.(artifact := Some(doc)), Traced)
  }

  const ValidationTitle: string := "IP Validation"
  const InvalidIpMessage: string := "Invalid IP address format."

  /** How `check_ip_address` ends: a warning, or the trace it started. */
  datatype CheckOutcome = Rejected(title: string, message: string) | Ran(trace: TraceOutcome)

  /**
   * `check_ip_address` on the text of the input field. The two lookups are
   * functions of the address string: the trace looks up the input itself.
   */
  function CheckIp(s: WindowState, input: string,
                   geoDb: string -> Option<Record>,
                   registry: string -> Option<RdapResult>): (r: (WindowState, CheckOutcome))
    ensures r.1.Rejected? <==> !IPv4.Validate(input).Accepted?
    ensures r.1.Rejected? ==> r == (s, Rejected(ValidationTitle, InvalidIpMessage))
    ensures r.1.Ran? ==> r.0.labels.ipAddress == " - IP Address : " + input
  {
    match IPv4.Validate(input)
    case MalformedFormat => (s, Rejected(ValidationTitle, InvalidIpMessage))
    case OctetOutOfRange => (s, Rejected(ValidationTitle, InvalidIpMessage))
    case Accepted(_) =>
      var r := Trace(s.(labels := s.labels.(ipAddress := " - IP Address : " + input)), geoDb(input), registry(input));
      (r.0, Ran(r.1))
  }

  /** What a viewer button leads to. */
  datatype ViewerAction =
    | Warn(title: string, message: string)
    | OpenUrl(url: string)
    | RunCommand(command: string)

  const InputDataTitle: string := "Input Data Error"
  const NoCoordinatesMessage: string := "Cannot find latitude/longitude data."
  const NoEarthMessage: string := "Cannot find earth."

  /**
   * The viewers' guard, corrected: no coordinates yet, or an empty latitude.
   * The source tests only `raw_lat == ""`, see GuardAsWritten.
   */
  predicate CoordinatesUnset(s: WindowState) {
    s.rawLat.None? || s.rawLat.value == ""
  }

  /** The outcomes of the guard as written, on a window that may lack `raw_lat`. */
  datatype GuardResult = AttributeError | Warned | Proceeds

  /**
   * `self.raw_lat == ""` as written: `MainWindow` never assigns `raw_lat`
   * before a trace succeeds, so reading it raises AttributeError.
   */
  function GuardAsWritten(rawLat: Option<string>): (g: GuardResult)
    ensures g == AttributeError <==> rawLat.None?
    ensures g == Warned <==> rawLat == Some("")
  {
    match rawLat
    case None => AttributeError
    case Some(v) => if v == "" then Warned else Proceeds
  }

  /**
   * An accepted input is shown verbatim in the address label whatever the
   * trace then does, and the trace runs on that same string.
   */
  lemma AcceptedInputShownAndTraced(s: WindowState, input: string,
                                    geoDb: string -> Option<Record>,
                                    registry: string -> Option<RdapResult>)
    requires IPv4.Validate(input).Accepted?
    ensures CheckIp(s, input, geoDb, registry).0.labels.ipAddress == " - IP Address : " + input
    ensures CheckIp(s, input, geoDb, registry).1 ==
              Ran(Trace(s, geoDb(input), registry(input)).1)
  {
  }

  /** A missing record or key stops the trace before its first write. */
  lemma LookupCrashWritesNothing(s: WindowState, geo: Option<Record>, rdap: Option<RdapResult>)
    requires geo.None? || !HasGeoKeys(geo.value)
    ensures Trace(s, geo, rdap).0 == s
    ensures Trace(s, geo, rdap).1 == if geo.None? then RecordMissing else FieldMissing
  {
  }

  /**
   * The geo labels and the kept coordinates come from the record under a
   * fixed renaming: "Language" shows `country_code`, "Region code" shows
   * `country_code3`, "Region number" shows `area_code`. The country label
   * is `country_name(continent)` unless the currency chain's "TPE" branch
   * overwrote it, which happens only when the RDAP lookup returned.
   */
  lemma GeoFieldMapping(s: WindowState, rec: Record, rdap: Option<RdapResult>)
    requires HasGeoKeys(rec)
    ensures var t := Trace(s, Some(rec), rdap).0;
      t.rawLat == Some(Render(rec["latitude"]))
      && t.rawLon == Some(Render(rec["longitude"]))
      && t.labels.latitude == " - Latitude : " + Render(rec["latitude"])
      && t.labels.longitude == " - Longitude : " + Render(rec["longitude"])
      && t.labels.city == " - city : " + Render(rec["city"])
      && t.labels.timezone == " - Timezone : " + Render(rec["time_zone"])
      && t.labels.postal == " - Postal code :  " + Render(rec["postal_code"])
      && t.labels.language == " - Language : " + Render(rec["country_code"])
      && t.labels.regionCode == " - Region code : " + Render(rec["country_code3"])
      && t.labels.regionNumber == " - Region number : " + Render(rec["area_code"])
      && t.labels.country ==
           if rdap.Some? && rec["country_code3"] == Text("TPE") then Currency.TaiwanText
           else " - country : " + Render(rec["country_name"]) + "(" + Render(rec["continent"]) + ")"
  {
    Currency.RuleIsTable(rec["country_code3"]);
  }

  /** The labels after a full trace: the three steps in order. */
  lemma TraceLabels(s: WindowState, rec: Record, res: RdapResult)
    requires HasGeoKeys(rec)
    ensures Trace(s, Some(rec), Some(res)).0.labels ==
              CurrencyStep(RegistryStep(GeoStep(s, rec), res), Currency.Rule(rec["country_code3"])).labels
  {
  }

  /**
   * The network labels come from the RDAP answer with `.get` defaults: an
   * absent field shows "None", and the IP version is read from the nested
   * `network` dictionary, an empty one when that key is absent.
   */
  lemma RegistryFieldMapping(s: WindowState, rec: Record, res: RdapResult)
    requires HasGeoKeys(rec)
    ensures var t := Trace(s, Some(rec), Some(res)).0;
      t.labels.owner == " - IP Owner : " + Render(Get(res.fields, "asn_description"))
      && t.labels.asnRegistry == " - ASN Registry : " + Render(Get(res.fields, "asn_registry"))
      && t.labels.asnCidr == " - ASN cidr : " + Render(Get(res.fields, "asn_cidr"))
      && t.labels.asnDate == " - ASN Date : " + Render(Get(res.fields, "asn_date"))
      && t.labels.ipVersion ==
           if res.network.Some? && "ip_version" in res.network.value
           then " - IP version : " + Render(res.network.value["ip_version"])
           else " - IP version : None"
  {
    TraceLabels(s, rec, res);
  }

  /**
   * After a full trace the currency label shows the table's text for the
   * six listed codes and keeps its previous text for every other code,
   * "TPE" and `None` included.
   */
  lemma CurrencyAfterTrace(s: WindowState, rec: Record, res: RdapResult)
    requires HasGeoKeys(rec)
    ensures var code := rec["country_code3"];
      Trace(s, Some(rec), Some(res)).0.labels.currency ==
        if code.Text? && code.text in Currency.CurrencyTable then Currency.CurrencyTable[code.text]
        else s.labels.currency
  {
    Currency.RuleIsTable(rec["country_code3"]);
  }

  /**
   * Write order: when the RDAP lookup fails, the coordinates and geo labels
   * are already updated, but the network and currency labels keep their
   * text and no marker file is written (an older one stays).
   */
  lemma RegistryFailureOrdering(s: WindowState, rec: Record)
    requires HasGeoKeys(rec)
    ensures var r := Trace(s, Some(rec), None);
      r.1 == RegistryFailed
      && r.0.rawLat == Some(Render(rec["latitude"]))
      && r.0.rawLon == Some(Render(rec["longitude"]))
      && r.0.artifact == s.artifact
      && r.0.labels.currency == s.labels.currency
      && r.0.labels.owner == s.labels.owner
      && r.0.labels.ipVersion == s.labels.ipVersion
      && r.0.labels.asnRegistry == s.labels.asnRegistry
      && r.0.labels.asnCidr == s.labels.asnCidr
      && r.0.labels.asnDate == s.labels.asnDate
  {
  }

  /** Tracing the same address twice leaves the window as tracing it once. */
  lemma TraceIdempotent(s: WindowState, geo: Option<Record>, rdap: Option<RdapResult>)
    ensures Trace(Trace(s, geo, rdap).0, geo, rdap) == Trace(s, geo, rdap)
  {
    if geo.Some? && HasGeoKeys(geo.value) {
      var rec := geo.value;
      Currency.RuleIsTable(rec["country_code3"]);
    }
  }

  /**
   * The marker file depends on the point alone: two full traces whose
   * records agree on latitude and longitude write the same file, whatever
   * the windows showed before and whatever else the records hold.
   */
  lemma ArtifactDependsOnlyOnPoint(s1: WindowState, rec1: Record, res1: RdapResult,
                                   s2: WindowState, rec2: Record, res2: RdapResult)
    requires HasGeoKeys(rec1) && HasGeoKeys(rec2)
    requires rec1["latitude"] == rec2["latitude"] && rec1["longitude"] == rec2["longitude"]
    ensures Trace(s1, Some(rec1), Some(res1)).0.artifact == Trace(s2, Some(rec2), Some(res2)).0.artifact
  {
  }

  /**
   * After a full trace the marker file reads back as (longitude, latitude)
   * and the web viewer's URL as (latitude, longitude): the same point, in
   * the two opposite orders the two formats require.
   */
  lemma TracedPointOrders(s: WindowState, rec: Record, res: RdapResult)
    requires HasGeoKeys(rec)
    requires ',' !in Render(rec["latitude"]) && ',' !in Render(rec["longitude"])
    ensures var t := Trace(s, Some(rec), Some(res)).0;
      var lat := Render(rec["latitude"]);
      var lon := Render(rec["longitude"]);
      t.artifact.Some? && Artifact.ReadKml(t.artifact.value) == Some((lon, lat))
      && t.rawLat == Some(lat) && t.rawLon == Some(lon)
      && Artifact.ReadViewerUrl(Artifact.ViewerUrl(t.rawLat.value, t.rawLon.value)) == Some((lat, lon))
  {
    var lat := Render(rec["latitude"]);
    var lon := Render(rec["longitude"]);
    Artifact.KmlRoundTrip(lon, lat);
    Artifact.ViewerUrlRoundTrip(lat, lon);
  }

  /**
   * The guard as written crashes, rather than warning, on a window where no
   * lookup has succeeded yet; the corrected guard refuses there. Once a
   * latitude is kept the two agree.
   */
  lemma GuardAsWrittenCrashesBeforeLookup(file: Option<string>, rawLat: Option<string>)
    ensures GuardAsWritten(InitialState(file).rawLat) == AttributeError
    ensures CoordinatesUnset(InitialState(file))
    ensures rawLat.Some? ==>
              (GuardAsWritten(rawLat) == Warned <==> CoordinatesUnset(InitialState(file).(rawLat := rawLat)))
  {
  }

  /**
   * The window. The source keeps one label widget per field and changes its
   * text with `setText`; here the texts are one record, and each `setText`
   * replaces one of its fields.
   */
  class MainWindow {
    var labels: Labels
    var rawLat: Option<string>
    var rawLon: Option<string>
    /** The marker file at `./target_geo_location.kml`, `None` when there is none. */
    var artifact: Option<string>

    function State(): WindowState
      reads this
    {
      WindowState(labels, rawLat, rawLon, artifact)
    }

    predicate Valid()
      reads this
    {
      CoordinatesPaired(State())
    }

    /** The window as built: every label "No data", no coordinates; the file is left as found. */
    constructor (file: Option<string>)
      ensures Valid() && State() == InitialState(file)
    {
      labels := InitialLabels;
      rawLat, rawLon := None, None;
      artifact := file;
    }

    /** `open(kml_file, "w")` then `write`: the file holds `doc` and nothing older. */
    method WriteKmlFile(doc: string)
      modifies this`artifact
      ensures artifact == Some(doc)
    {
      artifact := Some(doc);
    }

    /** The record's part of `trace_ip_addr_info`: coordinates kept, then ten labels set. */
    method ShowGeoRecord(rec: Record)
      requires HasGeoKeys(rec)
      modifies this
      ensures State() == GeoStep(old(State()), rec)
    {
      var lat := rec["latitude"];
      var lon := rec["longitude"];

      rawLat := Some(Render(lat));
      rawLon := Some(Render(lon));

      labels := labels.(country := CountryText(rec));
      labels := labels.(city := " - city : " + Render(rec["city"]));
      labels := labels.(timezone := " - Timezone : " + Render(rec["time_zone"]));
      labels := labels.(latitude := " - Latitude : " + Render(lat));
      labels := labels.(longitude := " - Longitude : " + Render(lon));
      labels := labels.(postal := " - Postal code :  " + Render(rec["postal_code"]));
      labels := labels.(language := " - Language : " + Render(rec["country_code"]));
      labels := labels.(regionCode := " - Region code : " + Render(rec["country_code3"]));
      labels := labels.(regionNumber := " - Region number : " + Render(rec["area_code"]));
    }

    /** The RDAP part of `trace_ip_addr_info`: five labels set from the answer. */
    method ShowRegistryAnswer(res: RdapResult)
      modifies this
      ensures State() == RegistryStep(old(State()), res)
    {
      labels := labels.(owner := " - IP Owner : " + Render(Get(res.fields, "asn_description")));
      labels := labels.(ipVersion := " - IP version : " + Render(Get(NetworkFields(res), "ip_version")));
      labels := labels.(asnRegistry := " - ASN Registry : " + Render(Get(res.fields, "asn_registry")));
      labels := labels.(asnCidr := " - ASN cidr : " + Render(Get(res.fields, "asn_cidr")));
      labels := labels.(asnDate := " - ASN Date : " + Render(Get(res.fields, "asn_date")));
    }

    /** The currency chain: at most one label written. */
    method ShowCurrency(code3: FieldValue)
      modifies this
      ensures State() == CurrencyStep(old(State()), Currency.Rule(code3))
    {
      if code3 == Text("USA") {
        labels := labels.(currency := Currency.UsdText);
      } else if code3 == Text("KOR") {
        labels := labels.(currency := Currency.KrwText);
      } else if code3 == Text("JPN") {
        labels := labels.(currency := Currency.JpyText);
      } else if code3 == Text("CHN") {
        labels := labels.(currency := Currency.CnyText);
      } else if code3 == Text("TPE") {
        labels := labels.(country := Currency.TaiwanText);
      } else if code3 == Text("UKR") {
        labels := labels.(currency := Currency.UahText);
      } else if code3 == Text("RUS") {
        labels := labels.(currency := Currency.RubText);
      }
    }

    /** `trace_ip_addr_info(ip)`, with the two lookups supplied as functions of the address. */
    method TraceIpAddrInfo(ip: string, geoDb: string -> Option<Record>,
                           registry: string -> Option<RdapResult>) returns (outcome: TraceOutcome)
      requires Valid()
      modifies this
      ensures Valid()
      ensures (State(), outcome) == Trace(old(State()), geoDb(ip), registry(ip))
    {
      var found := geoDb(ip);
      if found.None? {
        return RecordMissing;
      }
      var rec := found.value;
      if !HasGeoKeys(rec) {
        return FieldMissing;
      }
      ShowGeoRecord(rec);

      var answer := registry(ip);
      if answer.None? {
        return RegistryFailed;
      }
      ShowRegistryAnswer(answer.value);
      ShowCurrency(rec["country_code3"]);
      WriteKmlFile(Artifact.KmlDocument(Render(rec["longitude"]), Render(rec["latitude"])));
      outcome := Traced;
    }

    /** `check_ip_address` on the text `input` of the input field. */
    method CheckIpAddress(input: string, geoDb: string -> Option<Record>,
                          registry: string -> Option<RdapResult>) returns (outcome: CheckOutcome)
      requires Valid()
      modifies this
      ensures Valid()
      ensures (State(), outcome) == CheckIp(old(State()), input, geoDb, registry)
    {
      var verdict := IPv4.Validate(input);
      match verdict
      case Accepted(_) =>
        labels := labels.(ipAddress := " - IP Address : " + input);
        var t := TraceIpAddrInfo(input, geoDb, registry);
        outcome := Ran(t);
      case MalformedFormat =>
        outcome := Rejected(ValidationTitle, InvalidIpMessage);
      case OctetOutOfRange =>
        outcome := Rejected(ValidationTitle, InvalidIpMessage);
    }

    /**
     * `online_ge_api`: refuses while the coordinates are unset, otherwise
     * opens the web viewer at the kept latitude and longitude.
     */
    method OnlineGeApi() returns (action: ViewerAction)
      requires Valid()
      ensures action.Warn? <==> CoordinatesUnset(State())
      ensures action.Warn? ==> action == Warn(InputDataTitle, NoCoordinatesMessage)
      ensures !action.Warn? ==> action == OpenUrl(Artifact.ViewerUrl(rawLat.value, rawLon.value))
    {
      if rawLat.None? || rawLat.value == "" {
        action := Warn(InputDataTitle, NoCoordinatesMessage);
      } else {
        action := OpenUrl(Artifact.ViewerUrl(rawLat.value, rawLon.value));
      }
    }

    /**
     * `offline_ge_api`: refuses while the coordinates are unset, then when
     * the desktop viewer is not installed, and otherwise runs it on the
     * marker file, named by its absolute path.
     */
    method OfflineGeApi(earthInstalled: bool, kmlAbsolutePath: string) returns (action: ViewerAction)
      requires Valid()
      ensures CoordinatesUnset(State()) ==> action == Warn(InputDataTitle, NoCoordinatesMessage)
      ensures !CoordinatesUnset(State()) && !earthInstalled ==> action == Warn(InputDataTitle, NoEarthMessage)
      ensures action.RunCommand? <==> !CoordinatesUnset(State()) && earthInstalled
      ensures action.RunCommand? ==> action.command == Artifact.DesktopCommand(kmlAbsolutePath)
    {
      if rawLat.None? || rawLat.value == "" {
        action := Warn(InputDataTitle, NoCoordinatesMessage);
      } else if !earthInstalled {
        action := Warn(InputDataTitle, NoEarthMessage);
      } else {
        action := RunCommand(Artifact.DesktopCommand(kmlAbsolutePath));
      }
    }

    /** `delete_kml_file`: removes the marker file when there is one; nothing else changes. */
    method DeleteKmlFile()
      modifies this`artifact
      ensures State() == old(State()).(artifact := None)
    {
      if artifact.Some? {
        artifact := None;
      }
    }

    /** `closeEvent`: the marker file does not outlive the window. */
    method CloseEvent()
      modifies this`artifact
      ensures State() == old(State()).(artifact := None)
    {
      DeleteKmlFile();
    }
  }
}
