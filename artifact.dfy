/**
 * The two texts built from the coordinates: the KML marker document that
 * `trace_ip_addr_info` writes (OGC KML 2.2 orders a point as
 * longitude,latitude,altitude), and the web-viewer URL that
 * `online_ge_api` opens (latitude first). Readers for both are defined so
 * that the order each text carries can be stated as a round trip.
 */
module Artifact {
  import opened Wrappers
  import Strings

  /** The template up to the coordinates, indentation and the space after `<Point>` included. */
  const KmlHead: string :=
    "<?xml version=\"1.0\" encoding=\"UTF-8\"?>\n" +
    "    <kml xmlns=\"http://www.opengis.net/kml/2.2\">\n" +
    "        <Placemark>\n" +
    "            <name>Target Location</name>\n" +
    "            <Point> \n" +
    "                <coordinates>"

  /** The template after the coordinates. */
  const KmlTail: string :=
    "</coordinates>\n" +
    "            </Point>\n" +
    "        </Placemark>\n" +
    "    </kml>\n" +
    "    "

  /**
   * The marker document for a point: the template around one
   * `coordinates` element holding longitude, latitude, then altitude 0.
   */
  function KmlDocument(lon: string, lat: string): (doc: string)
    ensures CoordinatesText(doc) == Some(lon + "," + lat + ",0")
  {
    var c := lon + "," + lat + ",0";
    Strings.Framed(KmlHead, c, KmlTail);
    KmlHead + c + KmlTail
  }

  /** The text of the `coordinates` element, when `doc` has the template's head and tail. */
  function CoordinatesText(doc: string): (r: Option<string>)
    ensures r.Some? ==> doc == KmlHead + r.value + KmlTail
  {
    if |doc| >= |KmlHead| + |KmlTail| && doc[..|KmlHead|] == KmlHead && doc[|doc| - |KmlTail|..] == KmlTail
    then
      Strings.Unframe(doc, KmlHead, KmlTail);
      Some(doc[|KmlHead|..|doc| - |KmlTail|])
    else
      None
  }

  /** Reads `first,second,0`: the first value ends at the first comma, the second at the final `,0`. */
  function ParsePoint(c: string): (r: Option<(string, string)>)
    ensures r.Some? ==> ',' !in r.value.0 && c == r.value.0 + "," + r.value.1 + ",0"
  {
    var k := Strings.IndexOf(c, ',');
    if k < |c| && |c| - k >= 3 && c[|c| - 2..] == ",0"
    then
      var p := (c[..k], c[k + 1..|c| - 2]);
      Strings.IndexOfFirst(c, ',');
      assert c == p.0 + "," + p.1 + ",0";
      Some(p)
    else
      None
  }

  /** A point written without a comma in its first value reads back as written. */
  lemma ParsePointRoundTrip(first: string, second: string)
    requires ',' !in first
    ensures ParsePoint(first + "," + second + ",0") == Some((first, second))
  {
    var c := first + "," + second + ",0";
    Strings.IndexOfAfter(first, ',', second + ",0");
    assert c == first + [','] + (second + ",0");
    assert c[..|first|] == first;
    assert c[|first| + 1..|c| - 2] == second;
  }

  /** The (longitude, latitude) a marker document holds. */
  function ReadKml(doc: string): Option<(string, string)> {
    var c := CoordinatesText(doc);
    if c.Some? then ParsePoint(c.value) else None
  }

  /** Reading a written document gives back its (longitude, latitude). */
  lemma KmlRoundTrip(lon: string, lat: string)
    requires ',' !in lon
    ensures ReadKml(KmlDocument(lon, lat)) == Some((lon, lat))
  {
    ParsePointRoundTrip(lon, lat);
  }

  /** The document is determined by the point alone, and determines it. */
  lemma KmlDocumentInjective(lon1: string, lat1: string, lon2: string, lat2: string)
    requires ',' !in lon1 && ',' !in lon2
    ensures KmlDocument(lon1, lat1) == KmlDocument(lon2, lat2) <==> lon1 == lon2 && lat1 == lat2
  {
    KmlRoundTrip(lon1, lat1);
    KmlRoundTrip(lon2, lat2);
  }

  /** The example point (-122.4, 37.8) is written as "-122.4,37.8,0". */
  lemma KmlExample()
    ensures CoordinatesText(KmlDocument("-122.4", "37.8")) == Some("-122.4,37.8,0")
  {
    assert "-122.4" + "," + "37.8" + ",0" == "-122.4,37.8,0";
  }

  const EarthWebPrefix: string := "https://earth.google.com/web/@"
  const EarthWebCamera: string := ",1000a,35y,0h,0t,0r"

  /** The web viewer's URL: latitude first, then longitude, then a fixed camera. */
  function ViewerUrl(lat: string, lon: string): string {
    EarthWebPrefix + lat + "," + lon + EarthWebCamera
  }

  /** The (latitude, longitude) a viewer URL points at. */
  function ReadViewerUrl(url: string): Option<(string, string)> {
    if |url| >= |EarthWebPrefix| + |EarthWebCamera|
       && url[..|EarthWebPrefix|] == EarthWebPrefix
       && url[|url| - |EarthWebCamera|..] == EarthWebCamera
    then
      var c := url[|EarthWebPrefix|..|url| - |EarthWebCamera|];
      var k := Strings.IndexOf(c, ',');
      if k < |c| then Some((c[..k], c[k + 1..])) else None
    else
      None
  }

  /** Reading a viewer URL gives back its (latitude, longitude). */
  lemma ViewerUrlRoundTrip(lat: string, lon: string)
    requires ',' !in lat
    ensures ReadViewerUrl(ViewerUrl(lat, lon)) == Some((lat, lon))
  {
    var url := ViewerUrl(lat, lon);
    var c := lat + "," + lon;
    assert url == EarthWebPrefix + c + EarthWebCamera;
    Strings.Framed(EarthWebPrefix, c, EarthWebCamera);
    Strings.IndexOfAfter(lat, ',', lon);
    assert c == lat + [','] + lon;
    assert c[..|lat|] == lat;
    assert c[|lat| + 1..] == lon;
  }

  /** Where the desktop viewer is expected to be installed. */
  const EarthExecutable: string := "C:\\Program Files\\Google\\Google Earth Pro\\client\\googleearth.exe"

  /** The command line that opens the marker file in the desktop viewer. */
  function DesktopCommand(kmlAbsolutePath: string): string {
    "\"" + EarthExecutable + "\" " + kmlAbsolutePath
  }
}
