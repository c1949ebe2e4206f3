# Geo-ip-tracker: the lookup window, in Dafny

This project models the `MainWindow` of Geo-ip-tracker (`main.py`): the
part that turns the text typed into the address field into the geo and
network labels, the currency label, the KML marker file, and the two
viewer launches. The Qt widgets are reduced to the state these actions
touch:

- the texts of the result labels (`Window.Labels`);
- the coordinates kept for the viewers (`raw_lat`, `raw_lon`);
- the marker file `./target_geo_location.kml` (present with its text, or absent).

Modules:

- `Wrappers` (wrappers.dfy): `Option`.
- `Strings` (strings.dfy): the first-occurrence search that Python's `str.split` relies on, and slicing facts about framed text.
- `IPv4` (ipv4.dfy): `check_ip_address`'s two tests. These are the regular expression `^\d{1,3}\.\d{1,3}\.\d{1,3}\.\d{1,3}$`, then `int()` of every piece of `split('.')` lying between 0 and 255. The regular expression, `split` and `int` are each defined separately. Lemmas prove that the expression matches exactly when the split gives four groups of one to three digits. They also prove that split and join undo each other, and that the validator accepts exactly the in-range quads.
- `Records` (records.dfy): the geo record and the RDAP answer as dictionaries. Field values are text, or Python's `None`, which renders as `"None"`.
- `Currency` (currency.dfy): the `if`/`elif` chain on the three-letter country code, and the table it is equal to. Each label text is one named constant, used by the chain, the table and the window's step-by-step writes.
- `Artifact` (artifact.dfy): the KML document, which is longitude first, and the web viewer URL, which is latitude first. Each has a reader, and a round trip proves the order each format carries.
- `Window` (window.dfy): pure step functions (`GeoStep`, `RegistryStep`, `CurrencyStep`, `Trace`, `CheckIp`) and the class `MainWindow`. The class makes the same writes one `setText` at a time. Each of its methods is proved equal to the step function applied to the old state.

The two lookups, `gi.record_by_name` and `IPWhois(...).lookup_rdap()`, are parameters. They are functions from the address string to an optional record. `None` stands for a missing record, or an RDAP lookup that raised. An exception in `trace_ip_addr_info` is modelled as an outcome (`RecordMissing`, `FieldMissing`, `RegistryFailed`). The state returned with it is the window at the moment of the raise: the writes made before it are kept. What the application does after that is not modelled (see "Left out").

Behaviour of the code that the model keeps:

- A missing geo record raises: `rec['country_name']` subscripts `None` (main.py:356-358). Nothing turns it into a "No data" text.
- A field absent from the RDAP answer is read with `.get` and shows `None` (main.py:389-401).
- An unlisted country code makes no write, so the currency label keeps its old text (main.py:403-416).
- The `TPE` branch writes the Taiwan currency text into the country label, not the currency label (main.py:411-412).
- The marker file is opened with mode `"w"` and written in place (main.py:429-430).

## Model

| member | source | states |
|---|---|---|
| IPv4.MatchGroups | main.py:454 | n groups of `\d{1,3}` separated by dots and anchored at the end span between 2n-1 and 4n-1 characters |
| IPv4.MatchesPattern | main.py:454 | a string the regular expression matches is 7 to 15 characters long |
| IPv4.Split | main.py:455 | `split('.')` always returns at least one piece |
| IPv4.JoinSplit | main.py:455 | joining the pieces of `split('.')` with dots gives back the input |
| IPv4.SplitJoin | main.py:455 | splitting dot-free pieces joined by dots gives back the same pieces |
| IPv4.MatchGroupsSplit | main.py:454-455 | the pattern of n `\d{1,3}` groups separated by dots matches exactly when `split('.')` gives n pieces, each of one to three digits |
| IPv4.DecimalValue | main.py:456 | `int()` of a digit string is below 10 to the power of its length |
| IPv4.DecimalDigits | main.py:456 | `int()` of a one-to-three-digit group is its positional decimal value; leading zeros add nothing |
| IPv4.Values | main.py:455-456 | the octets are `int()` of each piece, one per piece, in order |
| IPv4.Validate | main.py:452-463 | an accepted input has exactly four octets, each at most 255 |
| IPv4.ValidateIff | main.py:454-463 | wrong shape exactly when the split is not four 1-3 digit groups; accepted exactly when it is and every value is at most 255; the octets are the pieces' values in order |
| IPv4.ValidateQuad | main.py:454-456 | four groups joined by dots are accepted with their values when all are at most 255, else rejected as out of range |
| IPv4.AcceptsBroadcast | main.py:454-456 | "255.255.255.255" is accepted as 255, 255, 255, 255 |
| IPv4.AcceptsLeadingZeros | main.py:454-456 | "010.0.00.1" is accepted as 10, 0, 0, 1 |
| IPv4.RejectsOctet256 | main.py:456 | "256.1.1.1" matches the pattern but is rejected as out of range |
| IPv4.RejectsThreeGroups | main.py:454 | "1.2.3" is rejected as malformed |
| IPv4.RejectsWideGroup | main.py:454 | "1234.1.1.1" is rejected as malformed |
| Currency.Rule | main.py:403-416 | only a text value can cause a write; the country label is written exactly for "TPE", and then with the Taiwan text |
| Currency.RuleIsTable | main.py:403-416 | the chain writes the currency label exactly for the six table codes, with the table's text; "TPE" and only "TPE" writes the Taiwan text to the country label; any other value, `None` included, writes nothing |
| Artifact.CoordinatesText | main.py:419-428 | the text it extracts is exactly what lies between the template's head and tail |
| Artifact.ParsePoint | main.py:424 | a parsed point is `first,second,0` with no comma in the first value |
| Artifact.ParsePointRoundTrip | main.py:424 | `first,second,0` parses back to (first, second) when the first value has no comma |
| Artifact.KmlDocument | main.py:419-428 | the written document is the template around one coordinates element holding `lon,lat,0`, longitude first |
| Artifact.KmlRoundTrip | main.py:418-428 | reading a written document gives back (longitude, latitude) |
| Artifact.KmlDocumentInjective | main.py:419-428 | two documents are equal exactly when their points are |
| Artifact.KmlExample | main.py:424 | the point (-122.4, 37.8) is written as `-122.4,37.8,0` |
| Artifact.ViewerUrl | main.py:437 | the web viewer URL, latitude first; its order is proved by `Artifact.ViewerUrlRoundTrip` |
| Artifact.DesktopCommand | main.py:444-448 | the desktop command line: the quoted executable path, a space, then the marker file's absolute path |
| Artifact.ViewerUrlRoundTrip | main.py:437 | the web viewer URL reads back as (latitude, longitude) |
| Window.GeoStep | main.py:356-383 | the geo record's writes keep both coordinates set and leave the address label, the currency label, the five network labels and the marker file as they were |
| Window.RegistryStep | main.py:386-401 | the RDAP answer's writes change only the five network labels; coordinates and marker file stay |
| Window.CurrencyStep | main.py:403-416 | the chain's write changes only the currency or the country label, and only to the text of the effect that names that label |
| Window.Trace | main.py:355-430 | the address label is untouched; coordinates stay paired; only a completed trace writes the marker file, which then holds the kept longitude and latitude; a missing record or key changes nothing |
| Window.CheckIp | main.py:452-463 | rejected exactly when the validator does not accept the input; both rejections show "IP Validation" / "Invalid IP address format.", change nothing and look nothing up; an input that runs is shown verbatim in the address label |
| Window.AcceptedInputShownAndTraced | main.py:456-459 | an accepted input is shown verbatim in the address label and the trace runs on that same string |
| Window.LookupCrashWritesNothing | main.py:356-369 | a missing record or key raises before the first write |
| Window.GeoFieldMapping | main.py:358-383 | each geo label and both kept coordinates come from the named record field; the country label is `country_name(continent)` unless the TPE branch overwrote it |
| Window.RegistryFieldMapping | main.py:386-401 | the five network labels come from the RDAP answer with `.get` defaults; the IP version comes from the nested `network` dictionary |
| Window.CurrencyAfterTrace | main.py:403-416 | after a full trace the currency label holds the table text for a listed code and its old text otherwise |
| Window.RegistryFailureOrdering | main.py:371-401 | when the RDAP lookup raises, the coordinates are already kept, but the network and currency labels and the marker file are untouched |
| Window.TraceIdempotent | main.py:355-430 | tracing the same answers twice leaves the window as tracing them once |
| Window.ArtifactDependsOnlyOnPoint | main.py:418-430 | records that agree on latitude and longitude write the same marker file |
| Window.TracedPointOrders | main.py:418-437 | after a full trace the file reads back as (lon, lat) and the viewer URL as (lat, lon): the same point |
| Window.GuardAsWritten | main.py:433-442 | `self.raw_lat == ""` as written: raises AttributeError exactly when `raw_lat` was never assigned, warns exactly when it is `""` |
| Window.GuardAsWrittenCrashesBeforeLookup | main.py:433-442 | the guard as written raises on a new window; the corrected guard warns there; they agree once a latitude is kept |
| Window.MainWindow.constructor | main.py:159-215 | every label starts with its "No data" text, and no coordinates are kept |
| Window.MainWindow.WriteKmlFile | main.py:429-430 | the file holds the new document and nothing older |
| Window.MainWindow.ShowGeoRecord | main.py:358-383 | its writes equal `GeoStep` on the old state |
| Window.MainWindow.ShowRegistryAnswer | main.py:386-401 | its writes equal `RegistryStep` on the old state |
| Window.MainWindow.ShowCurrency | main.py:403-416 | its writes equal the currency chain's effect on the old state |
| Window.MainWindow.TraceIpAddrInfo | main.py:355-430 | new state and outcome are `Trace` of the old state and the two lookups of the address; coordinates stay paired |
| Window.MainWindow.CheckIpAddress | main.py:452-463 | new state and outcome are `CheckIp` of the old state and the input |
| Window.MainWindow.OnlineGeApi | main.py:433-438 | warns exactly when no latitude is kept, or it is empty; otherwise opens the URL built from the kept latitude and longitude |
| Window.MainWindow.OfflineGeApi | main.py:440-450 | warns on missing coordinates first, then on a missing desktop viewer; runs the viewer on the file's absolute path exactly when both are present |
| Window.MainWindow.DeleteKmlFile | main.py:469-476 | the marker file is gone and nothing else changed |
| Window.MainWindow.CloseEvent | main.py:465-467 | closing the window removes the marker file and changes nothing else |

## Findings

| source | as written | input that shows it | evidently intended | confidence | as-written member | corrected member |
|---|---|---|---|---|---|---|
| main.py:433-442 | `online_ge_api` and `offline_ge_api` test `self.raw_lat == ""`. `MainWindow` assigns `raw_lat` only in `trace_ip_addr_info` (line 371); the `""` initialisation is in `EarthWidget.__init__` (line 42) | pressing either viewer button on a new window, before any successful lookup: `AttributeError` instead of the warning | warn "Cannot find latitude/longitude data." while no coordinates are kept | high; not executed | Window.GuardAsWrittenCrashesBeforeLookup | Window.MainWindow.OnlineGeApi |

`Window.GuardAsWritten` is the guard as written. `Window.MainWindow.OnlineGeApi` and `Window.MainWindow.OfflineGeApi` use the corrected guard `Window.CoordinatesUnset`.

## Left out

- `EarthWidget` (the OpenGL globe), the window layout, styles and button wiring: presentation only.
- `check_db_file` and the GeoDB status label: they do not take part in a lookup.
- The message boxes are not modelled as dialogs. A warning is a returned `Warn(title, message)` or `Rejected(title, message)` value.
- The lookups `gi.record_by_name` and `IPWhois(...).lookup_rdap()` are function parameters. Their network I/O and timing are not modelled.
- `os.path.exists` of the viewer executable is a boolean parameter. `os.path.abspath(kml_file)` is a string parameter. `webbrowser.open` and `os.system` become the returned action, which is not executed. The `print` of the command is left out.
- Coordinates and other field values are opaque text, because Python's formatting of floats is not modelled. The KML and URL round trips need a comma-free first coordinate, which formatted numbers always are.
- A `network` value that is present but not a dictionary, such as `None`, makes `.get` raise. The model assumes a dictionary whenever the key is present.
- Window.MainWindow.DeleteKmlFile: the `os.remove` failure path, which shows "KML File Delete Error", is not modelled, so removal always succeeds.
- Window.MainWindow.WriteKmlFile: an `open`/`write` failure is not modelled, and neither is the UTF-8 encoding.
- IPv4.MatchesPattern: Python's `$` also matches before one trailing newline, and `\d` also accepts non-ASCII Unicode digits. The model takes `$` as the end of input and `\d` as `0`-`9`.
- Application termination after an exception: the model returns the state at the moment `trace_ip_addr_info` raises (`RecordMissing`, `FieldMissing`, `RegistryFailed`), or `GuardAsWritten` raises `AttributeError`, and keeps a usable window afterwards. An exception escaping a Qt slot (`check_ip_address` is wired at main.py:201, the viewer buttons at main.py:231-232) is not caught by the code; with PyQt5 5.5 and later it ends the application, so `closeEvent` (main.py:465-467) does not run and the marker file stays on disk. That termination is not modelled.
- The label widgets are one `Labels` record field that each `setText` replaces a field of. Widget identity and aliasing are not modelled.
