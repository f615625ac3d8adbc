/**
 * The vehicles list page (`VehiclesList`): it fetches the swapi.dev
 * vehicle list once, shows a loading message until the fetch settles, and
 * links every vehicle to a detail route named by a slug of its name.
 */
module VehiclesList {
  import opened JsStrings
  import opened JsValues
  import opened Records
  import opened Fetching

  // ---------------------------------------------------------------------
  // The slug
  // ---------------------------------------------------------------------

  // The slug replaces runs of `\s` characters. The functions and lemmas
  // below take the character class `cls` as a parameter, and the slug
  // instantiates it with `Whitespace`.

  /** `s` without its leading characters of class `cls`. */
  function DropLeading(s: string, cls: set<char>): (r: string)
    ensures |r| <= |s| && r == s[|s| - |r|..]
    ensures r == "" || r[0] !in cls
    ensures forall i :: 0 <= i < |s| - |r| ==> s[i] in cls
    decreases |s|
  {
    if |s| > 0 && s[0] in cls then DropLeading(s[1..], cls) else s
  }

  /** `s.replace(/[cls]+/g, '-')`: every maximal run of characters of class `cls` becomes one `-`. */
  function DashRuns(s: string, cls: set<char>): (r: string)
    ensures |r| <= |s|
    ensures forall i :: 0 <= i < |r| ==> r[i] !in cls || r[i] == '-'
    decreases |s|
  {
    if |s| == 0 then ""
    else if s[0] in cls then "-" + DashRuns(DropLeading(s[1..], cls), cls)
    else [s[0]] + DashRuns(s[1..], cls)
  }

  /** `name.replace(/\s+/g, '-').toLowerCase()`. */
  function Slug(name: string): (slug: string)
    ensures |slug| <= |name|
    ensures forall i :: 0 <= i < |slug| ==> !IsAsciiUpper(slug[i]) && slug[i] !in Whitespace
  {
    var dashed := DashRuns(name, Whitespace);
    assert '-' !in Whitespace;
    assert forall c :: c !in Whitespace ==> LowerChar(c) !in Whitespace by {
      forall c ensures c !in Whitespace ==> LowerChar(c) !in Whitespace {
        LowerOutsideWhitespace(c);
      }
    }
    ToLower(dashed)
  }

  /** Lower-casing never produces white space: it only maps `A`..`Z` to `a`..`z`. */
  lemma LowerOutsideWhitespace(c: char)
    ensures c !in Whitespace ==> LowerChar(c) !in Whitespace
  {
    if IsAsciiUpper(c) {
      assert 'a' <= LowerChar(c) <= 'z';
    }
  }

  /** The detail route of a vehicle with the given name: `/vehicles/` followed by a slug without white space or capitals. */
  function VehicleLink(name: string): (link: string)
    ensures |"/vehicles/"| <= |link| <= |"/vehicles/"| + |name|
    ensures link[..|"/vehicles/"|] == "/vehicles/"
    ensures forall j :: |"/vehicles/"| <= j < |link| ==> link[j] !in Whitespace && !IsAsciiUpper(link[j])
  {
    var slug := Slug(name);
    var link := "/vehicles/" + slug;
    assert forall j :: |"/vehicles/"| <= j < |link| ==> link[j] == slug[j - |"/vehicles/"|];
    link
  }

  /** A string without characters of the class is left alone. */
  lemma {:induction false} DashRunsIdentity(s: string, cls: set<char>)
    requires forall i :: 0 <= i < |s| ==> s[i] !in cls
    ensures DashRuns(s, cls) == s
    decreases |s|
  {
    if |s| > 0 {
      DashRunsIdentity(s[1..], cls);
      assert s == [s[0]] + s[1..];
    }
  }

  /** Slugging a slug changes nothing. */
  lemma SlugIdempotent(name: string)
    ensures Slug(Slug(name)) == Slug(name)
  {
    DashRunsIdentity(Slug(name), Whitespace);
    ToLowerIdempotent(DashRuns(name, Whitespace));
  }

  /** A run of the class followed by a character outside it is dropped entirely. */
  lemma {:induction false} DropLeadingRun(w: string, b: string, cls: set<char>)
    requires forall i :: 0 <= i < |w| ==> w[i] in cls
    requires b == "" || b[0] !in cls
    ensures DropLeading(w + b, cls) == b
    decreases |w|
  {
    if |w| > 0 {
      assert (w + b)[1..] == w[1..] + b;
      DropLeadingRun(w[1..], b, cls);
    } else {
      assert w + b == b;
    }
  }

  /** Dropping the leading run from `x + y` stops inside `x` when `x` is not all of the class. */
  lemma {:induction false} DropLeadingConcat(x: string, y: string, cls: set<char>)
    requires DropLeading(x, cls) != ""
    ensures DropLeading(x + y, cls) == DropLeading(x, cls) + y
    decreases |x|
  {
    assert |x| > 0;
    if x[0] in cls {
      assert (x + y)[1..] == x[1..] + y;
      DropLeadingConcat(x[1..], y, cls);
    }
  }

  /**
   * A maximal run of the class, between a part that does not end in it and
   * one that does not start with it, becomes exactly one `-`.
   */
  lemma {:induction false} DashRunsAtRun(a: string, w: string, b: string, cls: set<char>)
    requires a == "" || a[|a| - 1] !in cls
    requires |w| > 0 && forall i :: 0 <= i < |w| ==> w[i] in cls
    requires b == "" || b[0] !in cls
    ensures DashRuns(a + w + b, cls) == DashRuns(a, cls) + "-" + DashRuns(b, cls)
    decreases |a|, 1
  {
    if |a| == 0 {
      RunAtStart(w, b, cls);
      assert a + w + b == w + b;
      assert DashRuns(a, cls) + "-" == "-";
    } else if a[0] !in cls {
      KeptStep(a, w, b, cls);
    } else {
      RunStep(a, w, b, cls);
    }
  }

  /** Dropping the leading run from a string that ends outside the class keeps its last character last. */
  lemma DropKeepsLast(s: string, cls: set<char>)
    requires |s| > 0 && s[|s| - 1] !in cls
    ensures DropLeading(s, cls) != "" && DropLeading(s, cls)[|DropLeading(s, cls)| - 1] == s[|s| - 1]
  {
  }

  /** The step of `DashRunsAtRun` when `a` starts outside the class: that character is kept, and the rest of `a` is the smaller case. */
  lemma {:induction false} KeptStep(a: string, w: string, b: string, cls: set<char>)
    requires |a| > 0 && a[0] !in cls && a[|a| - 1] !in cls
    requires |w| > 0 && forall i :: 0 <= i < |w| ==> w[i] in cls
    requires b == "" || b[0] !in cls
    ensures DashRuns(a + w + b, cls) == DashRuns(a, cls) + "-" + DashRuns(b, cls)
    decreases |a|, 0
  {
    DashRunsAtRun(a[1..], w, b, cls);
    ConcatAssoc(a[1..], w, b);
    KeptFirst(a, w + b, cls);
    Regroup([a[0]], DashRuns(a[1..], cls), DashRuns(b, cls));
    ConcatAssoc(a, w, b);
  }

  /** The step of `DashRunsAtRun` when `a` starts with a run: the run becomes `-`, and what follows it is the smaller case. */
  lemma {:induction false} RunStep(a: string, w: string, b: string, cls: set<char>)
    requires |a| > 0 && a[0] in cls && a[|a| - 1] !in cls
    requires |w| > 0 && forall i :: 0 <= i < |w| ==> w[i] in cls
    requires b == "" || b[0] !in cls
    ensures DashRuns(a + w + b, cls) == DashRuns(a, cls) + "-" + DashRuns(b, cls)
    decreases |a|, 0
  {
    var rest := DropLeading(a[1..], cls);
    DropKeepsLast(a[1..], cls);
    DashRunsAtRun(rest, w, b, cls);
    ConcatAssoc(rest, w, b);
    RunFirst(a, w + b, cls);
    Regroup("-", DashRuns(rest, cls), DashRuns(b, cls));
    ConcatAssoc(a, w, b);
  }

  lemma Regroup(x: string, y: string, z: string)
    ensures x + (y + "-" + z) == (x + y) + "-" + z
  {
  }

  lemma RunAtStart(w: string, b: string, cls: set<char>)
    requires |w| > 0 && forall i :: 0 <= i < |w| ==> w[i] in cls
    requires b == "" || b[0] !in cls
    ensures DashRuns(w + b, cls) == "-" + DashRuns(b, cls)
  {
    assert (w + b)[0] == w[0];
    assert (w + b)[1..] == w[1..] + b;
    DropLeadingRun(w[1..], b, cls);
  }

  lemma KeptFirst(a: string, y: string, cls: set<char>)
    requires |a| > 0 && a[0] !in cls
    ensures DashRuns(a, cls) == [a[0]] + DashRuns(a[1..], cls)
    ensures DashRuns(a + y, cls) == [a[0]] + DashRuns(a[1..] + y, cls)
  {
    assert (a + y)[0] == a[0];
    assert (a + y)[1..] == a[1..] + y;
  }

  lemma RunFirst(a: string, y: string, cls: set<char>)
    requires |a| > 0 && a[0] in cls && DropLeading(a[1..], cls) != ""
    ensures DashRuns(a, cls) == "-" + DashRuns(DropLeading(a[1..], cls), cls)
    ensures DashRuns(a + y, cls) == "-" + DashRuns(DropLeading(a[1..], cls) + y, cls)
  {
    var t := a + y;
    assert t[0] == a[0];
    assert t[1..] == a[1..] + y;
    DropLeadingConcat(a[1..], y, cls);
    assert DropLeading(t[1..], cls) == DropLeading(a[1..], cls) + y;
  }

  // ---------------------------------------------------------------------
  // The render
  // ---------------------------------------------------------------------

  /** One card of the grid: the name, the "Model: " and "Class: " lines and the "View Details" link. */
  datatype VehicleCard = VehicleCard(title: string, modelLine: string, classLine: string, link: string)

  datatype VehiclesScreen =
    | LoadingMessage
    | Grid(cards: seq<VehicleCard>)
    /** a vehicle whose `name` is not a string: `name.replace` throws */
    | RenderFault

  /**
   * The card of a vehicle whose name is the string `name`: titled with the
   * name, linked to its slug route, and with the model and class shown
   * after their captions (nothing after the caption when the field is
   * missing).
   */
  function Card(vehicle: Record, name: string): (card: VehicleCard)
    ensures card.title == name && card.link == VehicleLink(name)
    ensures Get(vehicle, "model").Str? ==> card.modelLine == "Model: " + Get(vehicle, "model").s
    ensures Get(vehicle, "model") == Undefined ==> card.modelLine == "Model: "
    ensures Get(vehicle, "vehicle_class").Str? ==> card.classLine == "Class: " + Get(vehicle, "vehicle_class").s
    ensures Get(vehicle, "vehicle_class") == Undefined ==> card.classLine == "Class: "
  {
    VehicleCard(
      name,
      "Model: " + RenderText(Get(vehicle, "model")),
      "Class: " + RenderText(Get(vehicle, "vehicle_class")),
      VehicleLink(name))
  }

  /** The page's render: `loading ? "Loading vehicles..." : vehicles.map(card)`. */
  function RenderList(loading: bool, vehicles: seq<Record>): (screen: VehiclesScreen)
    ensures screen.LoadingMessage? <==> loading
    ensures screen.RenderFault? <==> !loading && exists i :: 0 <= i < |vehicles| && !Get(vehicles[i], "name").Str?
    ensures screen.Grid? ==> |screen.cards| == |vehicles| && forall i :: 0 <= i < |vehicles| ==>
      Get(vehicles[i], "name").Str? && screen.cards[i] == Card(vehicles[i], Get(vehicles[i], "name").s)
  {
    if loading then LoadingMessage
    else if exists i :: 0 <= i < |vehicles| && !Get(vehicles[i], "name").Str? then RenderFault
    else Grid(seq(|vehicles|, i requires 0 <= i < |vehicles| => Card(vehicles[i], Get(vehicles[i], "name").s)))
  }

  // ---------------------------------------------------------------------
  // The page's state
  // ---------------------------------------------------------------------

  class VehiclesPage {
    /** the `vehicles` state: the vehicle records of swapi.dev */
    var vehicles: seq<Record>
    var loading: bool

    /** `useState([])` and `useState(true)`. */
    constructor ()
      ensures vehicles == [] && loading
    {
      vehicles, loading := [], true;
    }

    /**
     * `fetchVehicles`: the list becomes `data.results` (the status is not
     * checked); a rejected fetch or unreadable body leaves it as it was; in
     * every case `finally` turns loading off.
     */
    method FetchVehicles(outcome: Outcome<seq<Record>>)
      modifies this
      ensures !loading
      ensures vehicles == if outcome.Response? && outcome.body.Parsed? then outcome.body.data else old(vehicles)
    {
      if outcome.Response? && outcome.body.Parsed? {
        vehicles := outcome.body.data;
      }
      loading := false;
    }

    function Screen(): VehiclesScreen
      reads this
    {
      RenderList(loading, vehicles)
    }
  }

  /** From the initial state a failed fetch ends with no vehicles and loading off. */
  method FirstFetch(outcome: Outcome<seq<Record>>) returns (vehicles: seq<Record>, loading: bool)
    ensures !loading && !RenderList(loading, vehicles).LoadingMessage?
    ensures vehicles == if outcome.Response? && outcome.body.Parsed? then outcome.body.data else []
    ensures !(outcome.Response? && outcome.body.Parsed?) ==> RenderList(loading, vehicles) == Grid([])
  {
    var page := new VehiclesPage();
    page.FetchVehicles(outcome);
    vehicles, loading := page.vehicles, page.loading;
  }
}
