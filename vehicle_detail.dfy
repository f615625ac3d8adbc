/**
 * The vehicle detail page (`VehicleDetail`): it turns the route parameter
 * it reads as `vehicleName`, meant to be a vehicle's slug, back into a
 * search term, asks swapi.dev for vehicles matching it, keeps the first
 * match, and shows a loading block, an error block and the vehicle's data
 * block, each under its own condition.
 */
module VehicleDetail {
  import opened Wrappers
  import opened JsStrings
  import opened JsValues
  import opened Records
  import opened Fetching
  import opened VehiclesList

  // ---------------------------------------------------------------------
  // From the route parameter to the request
  // ---------------------------------------------------------------------

  /** `vehicleName.replace(/-/g, ' ')`: every dash of the slug becomes a space. */
  function SearchName(vehicleName: string): (searchName: string)
    ensures |searchName| == |vehicleName| && '-' !in searchName
    ensures forall i :: 0 <= i < |vehicleName| ==>
      searchName[i] == (if vehicleName[i] == '-' then ' ' else vehicleName[i])
  {
    ReplaceChar(vehicleName, '-', ' ')
  }

  const SearchEndpoint := "https://swapi.dev/api/vehicles/?search="

  /** The URL the page fetches: the search endpoint followed by the search term, which goes in unencoded. */
  function SearchUrl(vehicleName: string): (url: string)
    ensures |url| == |SearchEndpoint| + |vehicleName| && url[..|SearchEndpoint|] == SearchEndpoint
    ensures forall i :: 0 <= i < |vehicleName| ==>
      url[|SearchEndpoint| + i] == (if vehicleName[i] == '-' then ' ' else vehicleName[i])
  {
    var term := SearchName(vehicleName);
    var url := SearchEndpoint + term;
    assert forall i :: 0 <= i < |vehicleName| ==> url[|SearchEndpoint| + i] == term[i];
    url
  }

  /** Every character of class `cls` in `name` is `sp` and stands alone. */
  predicate SingleRuns(name: string, cls: set<char>, sp: char) {
    forall i :: 0 <= i < |name| && name[i] in cls ==>
      name[i] == sp && (i + 1 == |name| || name[i + 1] !in cls)
  }

  /** A name whose only white space is single ` ` characters. */
  predicate SingleSpaced(name: string) {
    SingleRuns(name, Whitespace, ' ')
  }

  /** When every run of the class is one `sp`, dashing the runs is replacing each `sp` by `-`. */
  lemma {:induction false} DashSingleRuns(name: string, cls: set<char>, sp: char)
    requires sp in cls && SingleRuns(name, cls, sp)
    ensures DashRuns(name, cls) == ReplaceChar(name, sp, '-')
    decreases |name|
  {
    if |name| > 0 {
      var rest := name[1..];
      assert SingleRuns(rest, cls, sp) by {
        forall i | 0 <= i < |rest| && rest[i] in cls
          ensures rest[i] == sp && (i + 1 == |rest| || rest[i + 1] !in cls)
        {
          assert rest[i] == name[i + 1];
          if i + 1 < |rest| {
            assert rest[i + 1] == name[i + 2];
          }
        }
      }
      DashSingleRuns(rest, cls, sp);
      assert ReplaceChar(name, sp, '-') == [ReplaceChar(name, sp, '-')[0]] + ReplaceChar(rest, sp, '-');
      if name[0] in cls {
        assert rest == "" || rest[0] !in cls;
        assert DropLeading(rest, cls) == rest;
      }
    }
  }

  /**
   * Were the slug of a single-spaced vehicle name handed to the page as its
   * `vehicleName`, the page would search for the name lower-cased with each
   * of its own dashes turned into a space.
   */
  lemma SearchNameOfSlug(name: string)
    requires SingleSpaced(name)
    ensures SearchName(Slug(name)) == ReplaceChar(ToLower(name), '-', ' ')
  {
    assert ' ' in Whitespace;
    DashSingleRuns(name, Whitespace, ' ');
    var dashed := ReplaceChar(name, ' ', '-');
    var l := ToLower(name);
    var r := ReplaceChar(l, '-', ' ');
    var t := SearchName(Slug(name));
    assert |t| == |r|;
    forall i | 0 <= i < |name| ensures t[i] == r[i] {
      assert Slug(name)[i] == LowerChar(dashed[i]);
    }
  }

  /** Given the slug of a single-spaced name without dashes, the page would search for the name itself, lower-cased. */
  lemma SearchNameOfDashFreeSlug(name: string)
    requires SingleSpaced(name) && '-' !in name
    ensures SearchName(Slug(name)) == ToLower(name)
  {
    SearchNameOfSlug(name);
    assert '-' !in ToLower(name) by {
      forall i | 0 <= i < |name| ensures ToLower(name)[i] != '-' {
        assert name[i] != '-';
      }
    }
  }

  /** Given the slug, a dash in the name comes back as a space in the search term: "AT-AT Walker" would be searched as "at at walker". */
  lemma SearchNameLosesDashes(name: string, i: nat)
    requires SingleSpaced(name) && i < |name| && name[i] == '-'
    ensures |SearchName(Slug(name))| == |name|
    ensures SearchName(Slug(name))[i] == ' '
  {
    SearchNameOfSlug(name);
  }

  // ---------------------------------------------------------------------
  // One fetch
  // ---------------------------------------------------------------------

  const NotFoundMessage := "Vehicle not found"

  /**
   * What one run of `fetchVehicleData` settles on, given the fetch outcome
   * whose body carries `data.results`: the first match, or the message of
   * the error the `try` block throws.
   */
  function FetchResult(outcome: Outcome<seq<Record>>): (s: Settled<Record>)
    ensures s.Loaded? <==> outcome.Response? && outcome.ok && outcome.body.Parsed? && |outcome.body.data| > 0
    ensures s.Loaded? ==> s.value == outcome.body.data[0]
    ensures outcome.NetworkError? ==> s == Failed(outcome.message)
    ensures outcome.Response? && !outcome.ok ==> s == Failed(HttpErrorMessage(outcome.status))
    ensures outcome.Response? && outcome.ok && outcome.body.Unreadable? ==> s == Failed(outcome.body.message)
    ensures outcome.Response? && outcome.ok && outcome.body == Parsed([]) ==> s == Failed(NotFoundMessage)
  {
    match outcome
    case NetworkError(m) => Failed(m)
    case Response(ok, status, body) =>
      if !ok then Failed(HttpErrorMessage(status))
      else match body
        case Unreadable(m) => Failed(m)
        case Parsed(results) =>
          if |results| == 0 then Failed(NotFoundMessage) else Loaded(results[0])
  }

  /** An HTTP failure names its status, and is never confused with a missing vehicle. */
  lemma HttpFailureIsNotNotFound(status: nat)
    ensures HttpErrorMessage(status) != NotFoundMessage
  {
    assert HttpErrorMessage(status)[0] == HttpErrorPrefix[0] == 'H';
    assert NotFoundMessage[0] == 'V';
  }

  // ---------------------------------------------------------------------
  // Display
  // ---------------------------------------------------------------------

  /** `value || 'Unknown'`, as rendered. */
  function FieldText(v: Value): (text: string)
    ensures !Truthy(v) ==> text == "Unknown"
    ensures v.Str? && Truthy(v) ==> text == v.s
  {
    if Truthy(v) then RenderText(v) else "Unknown"
  }

  /** The vehicle's data block: its title and the six info cards. */
  datatype VehicleInfo = VehicleInfo(
    title: string,
    model: string,
    vehicleClass: string,
    manufacturer: string,
    cost: string,
    length: string,
    maxSpeed: string)

  /** A card's text for field value `v`: "Unknown" when the value is falsy, a non-empty string as itself, each followed by the card's unit. */
  predicate ShowsField(v: Value, text: string, unit: string) {
    && (!Truthy(v) ==> text == "Unknown" + unit)
    && (v.Str? && Truthy(v) ==> text == v.s + unit)
  }

  /**
   * The data block of a vehicle record: the name as title, then model,
   * class, manufacturer, cost in credits, length in meters and top speed in
   * km/h, each falling back to "Unknown".
   */
  function Info(vehicle: Record): (info: VehicleInfo)
    ensures Get(vehicle, "name").Str? ==> info.title == Get(vehicle, "name").s
    ensures Get(vehicle, "name") == Undefined ==> info.title == ""
    ensures ShowsField(Get(vehicle, "model"), info.model, "")
    ensures ShowsField(Get(vehicle, "vehicle_class"), info.vehicleClass, "")
    ensures ShowsField(Get(vehicle, "manufacturer"), info.manufacturer, "")
    ensures ShowsField(Get(vehicle, "cost_in_credits"), info.cost, " credits")
    ensures ShowsField(Get(vehicle, "length"), info.length, " meters")
    ensures ShowsField(Get(vehicle, "max_atmosphering_speed"), info.maxSpeed, " km/h")
  {
    VehicleInfo(
      RenderText(Get(vehicle, "name")),
      FieldText(Get(vehicle, "model")),
      FieldText(Get(vehicle, "vehicle_class")),
      FieldText(Get(vehicle, "manufacturer")),
      FieldText(Get(vehicle, "cost_in_credits")) + " credits",
      FieldText(Get(vehicle, "length")) + " meters",
      FieldText(Get(vehicle, "max_atmosphering_speed")) + " km/h")
  }

  /** The keys the data block reads. */
  const InfoKeys: seq<string> := ["name", "model", "vehicle_class", "manufacturer", "cost_in_credits", "length", "max_atmosphering_speed"]

  /**
   * A record that has none of the keys the data block reads, whatever else
   * it carries (`films`, `url`, ...), shows the title "" and "Unknown" on
   * every card, units included.
   */
  lemma InfoWithoutFields(vehicle: Record)
    requires forall k :: k in InfoKeys ==> k !in Keys(vehicle)
    ensures Info(vehicle) == VehicleInfo("", "Unknown", "Unknown", "Unknown", "Unknown credits", "Unknown meters", "Unknown km/h")
  {
    var fields := seq(|InfoKeys|, i requires 0 <= i < |InfoKeys| => Get(vehicle, InfoKeys[i]));
    assert forall i :: 0 <= i < |InfoKeys| ==> fields[i] == Undefined;
    UnknownWithUnits();
  }

  /** The fallback text followed by each unit. */
  lemma UnknownWithUnits()
    ensures "Unknown" + "" == "Unknown"
    ensures "Unknown" + " credits" == "Unknown credits"
    ensures "Unknown" + " meters" == "Unknown meters"
    ensures "Unknown" + " km/h" == "Unknown km/h"
  {
  }

  /** `error` as a condition: `null` and the empty message are falsy. */
  predicate ErrorShown(error: Option<string>) {
    error.Some? && error.value != ""
  }

  /** What the page shows: the three blocks are rendered independently, each under its own condition. */
  datatype VehicleScreen = VehicleScreen(spinner: bool, errorText: Option<string>, data: Option<VehicleInfo>)

  function Render(loading: bool, error: Option<string>, vehicle: Option<Record>): (screen: VehicleScreen)
    ensures screen.spinner <==> loading
    ensures screen.errorText.Some? <==> ErrorShown(error)
    ensures screen.errorText.Some? ==> screen.errorText.value == error.value
    ensures screen.data.Some? <==> vehicle.Some? && !loading && !ErrorShown(error)
    ensures screen.data.Some? ==> screen.data.value == Info(vehicle.value)
  {
    VehicleScreen(
      loading,
      if ErrorShown(error) then Some(error.value) else None,
      if vehicle.Some? && !loading && !ErrorShown(error) then Some(Info(vehicle.value)) else None)
  }

  /** The data block and the error block are never shown together. */
  lemma DataAndErrorExclusive(loading: bool, error: Option<string>, vehicle: Option<Record>)
    ensures !(Render(loading, error, vehicle).data.Some? && Render(loading, error, vehicle).errorText.Some?)
  {
  }

  // ---------------------------------------------------------------------
  // The page's state
  // ---------------------------------------------------------------------

  class VehicleDetailPage {
    /** the route parameter the page reads as `vehicleName`, taken here to be a string */
    const vehicleName: string
    var vehicle: Option<Record>
    var loading: bool
    var error: Option<string>

    /** The initial state: no vehicle, loading, no error. */
    constructor (vehicleName: string)
      ensures this.vehicleName == vehicleName
      ensures vehicle == None && loading && error == None
    {
      this.vehicleName := vehicleName;
      vehicle, loading, error := None, true, None;
    }

    /** The start of `fetchVehicleData`, up to the `await`: loading on, error cleared; it returns the URL requested. */
    method BeginFetch() returns (url: string)
      modifies this
      ensures loading && error == None && vehicle == old(vehicle)
      ensures url == SearchUrl(vehicleName)
    {
      loading := true;
      error := None;
      url := SearchEndpoint + SearchName(vehicleName);
    }

    /** The rest of `fetchVehicleData` once the fetch has settled: store the first match or the error, then `finally` turns loading off. */
    method Settle(outcome: Outcome<seq<Record>>)
      modifies this
      ensures !loading
      ensures match FetchResult(outcome)
        case Loaded(x) => vehicle == Some(x) && error == old(error)
        case Failed(m) => vehicle == old(vehicle) && error == Some(m)
    {
      match FetchResult(outcome) {
        case Loaded(x) => vehicle := Some(x);
        case Failed(m) => error := Some(m);
      }
      loading := false;
    }

    function Screen(): VehicleScreen
      reads this
    {
      Render(loading, error, vehicle)
    }
  }

  /**
   * The screen after one whole fetch (begin, then settle) from a page that
   * held `before`: the loading block is gone; a match shows its data; an
   * empty result shows "Vehicle not found"; a failed status shows the HTTP
   * error; and a failure with an empty message shows no error at all, only
   * the vehicle held before, if any.
   */
  function ScreenAfterFetch(before: Option<Record>, outcome: Outcome<seq<Record>>): (screen: VehicleScreen)
    ensures !screen.spinner
    ensures outcome.Response? && outcome.ok && outcome.body.Parsed? && |outcome.body.data| > 0 ==>
      screen == VehicleScreen(false, None, Some(Info(outcome.body.data[0])))
    ensures outcome.Response? && outcome.ok && outcome.body == Parsed([]) ==>
      screen == VehicleScreen(false, Some(NotFoundMessage), None)
    ensures outcome.Response? && !outcome.ok ==>
      screen == VehicleScreen(false, Some(HttpErrorMessage(outcome.status)), None)
    ensures FetchResult(outcome) == Failed("") ==>
      screen == VehicleScreen(false, None, if before.Some? then Some(Info(before.value)) else None)
  {
    assert outcome.Response? && !outcome.ok ==> |HttpErrorMessage(outcome.status)| > 0;
    match FetchResult(outcome)
    case Loaded(x) => Render(false, None, Some(x))
    case Failed(m) => Render(false, Some(m), before)
  }

  /** One run of the page's effect: begin, await the outcome, settle. */
  method RunFetch(page: VehicleDetailPage, outcome: Outcome<seq<Record>>) returns (url: string)
    modifies page
    ensures url == SearchUrl(page.vehicleName)
    ensures page.Screen() == ScreenAfterFetch(old(page.vehicle), outcome)
  {
    url := page.BeginFetch();
    page.Settle(outcome);
  }
}
