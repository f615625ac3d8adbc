/**
 * The generic detail page (`DetailView`): it derives its category from the
 * API endpoint it is given, fetches one record by route id, flattens the
 * `{result: {uid, url, properties}}` envelope into one record, and shows
 * a spinner, an error panel or a card of the record's properties with an
 * "Add to Favorites" button.
 */
module DetailView {
  import opened Wrappers
  import opened JsStrings
  import opened JsValues
  import opened Records
  import opened Fetching
  import opened FavoriteContext

  // ---------------------------------------------------------------------
  // Category
  // ---------------------------------------------------------------------

  /**
   * `apiEndpoint.split('/').pop()`: the part of the endpoint after its last
   * `/` (all of it when there is none, empty when it ends in `/`).
   */
  function Category(apiEndpoint: string): (c: string)
    ensures '/' !in c
    ensures |c| <= |apiEndpoint| && apiEndpoint[|apiEndpoint| - |c|..] == c
    ensures |c| < |apiEndpoint| ==> apiEndpoint[|apiEndpoint| - |c| - 1] == '/'
  {
    LastPieceIsTail(apiEndpoint, '/');
    Last(Split(apiEndpoint, '/'))
  }

  /** An endpoint that ends in `/` has the empty category. */
  lemma CategoryAfterTrailingSlash(apiEndpoint: string)
    requires |apiEndpoint| > 0 && apiEndpoint[|apiEndpoint| - 1] == '/'
    ensures Category(apiEndpoint) == ""
  {
  }

  // ---------------------------------------------------------------------
  // Normalising the envelope
  // ---------------------------------------------------------------------

  /** `data.result`: the record's uid, its url and its `properties` object (absent when `undefined` or `null`). */
  datatype DetailResult = DetailResult(uid: Value, url: Value, properties: Option<Record>)

  /** The parsed body: `Some` when `data.result` is truthy, `None` otherwise. */
  type Envelope = Option<DetailResult>

  /** `` `https://www.swapi.tech/api/${category}/${id}/` ``, the record fetched. */
  function RequestUrl(category: string, routeId: string): (url: string)
    ensures '/' !in category && '/' !in routeId ==>
      var pieces := Split(url, '/');
      |pieces| >= 3 && pieces[|pieces| - 3..] == [category, routeId, ""]
  {
    var root := "https://www.swapi.tech/api";
    var tail := category + "/" + routeId + "/";
    assert root + ['/'] + tail == "https://www.swapi.tech/api/" + category + "/" + routeId + "/";
    if '/' !in category && '/' !in routeId then
      RecordTail(root, category, routeId);
      root + ['/'] + tail
    else root + ['/'] + tail
  }

  /** The pieces of `root/category/routeId/` end with the category, the id and the empty piece after the last `/`. */
  lemma RecordTail(root: string, category: string, routeId: string)
    requires '/' !in category && '/' !in routeId
    ensures var pieces := Split(root + ['/'] + (category + "/" + routeId + "/"), '/');
      |pieces| >= 3 && pieces[|pieces| - 3..] == [category, routeId, ""]
  {
    var parts := [category, routeId, ""];
    assert parts[1..] == [routeId, ""];
    assert parts[1..][1..] == [""];
    assert Join(parts[1..][1..], "/") == "";
    assert Join(parts[1..], "/") == routeId + "/" + "";
    assert Join(parts, "/") == category + "/" + (routeId + "/" + "");
    assert category + "/" + routeId + "/" == Join(parts, "/");
    SplitJoin(parts, '/');
    SplitAtSeparator(root, '/', category + "/" + routeId + "/");
  }

  const InvalidDataMessage := "Invalid data structure received from API"

  /** `{...data.result.properties, id: data.result.uid || id, url: data.result.url}`. */
  function Flatten(result: DetailResult, routeId: string): (item: Record)
    ensures Get(item, "id") == if Truthy(result.uid) then result.uid else Str(routeId)
    ensures Get(item, "url") == result.url
    ensures forall k :: k != "id" && k != "url" ==> Get(item, k) == Get(Spread(result.properties), k)
  {
    var withId := Set(Spread(result.properties), "id", if Truthy(result.uid) then result.uid else Str(routeId));
    Set(withId, "url", result.url)
  }

  /**
   * The properties keep their order; `id` and `url` stay where the
   * properties had them and are otherwise added last, `id` first. Properties
   * without duplicate keys give a record without duplicate keys.
   */
  lemma FlattenKeys(result: DetailResult, routeId: string)
    ensures Keys(Flatten(result, routeId)) == WithKey(WithKey(Keys(Spread(result.properties)), "id"), "url")
    ensures WellFormed(Spread(result.properties)) ==> WellFormed(Flatten(result, routeId))
  {
    var props := Spread(result.properties);
    var idValue := if Truthy(result.uid) then result.uid else Str(routeId);
    var withId := Set(props, "id", idValue);
    SetKeys(props, "id", idValue);
    SetKeys(withId, "url", result.url);
    if WellFormed(props) {
      SetWellFormed(props, "id", idValue);
      SetWellFormed(withId, "url", result.url);
    }
  }

  /** Properties without `id` and `url` keep their entries, and gain `id` and then `url` at the end. */
  lemma FlattenAppends(result: DetailResult, routeId: string)
    requires "id" !in Keys(Spread(result.properties)) && "url" !in Keys(Spread(result.properties))
    ensures Flatten(result, routeId) ==
      Spread(result.properties) + [("id", if Truthy(result.uid) then result.uid else Str(routeId)), ("url", result.url)]
  {
    var props := Spread(result.properties);
    var idValue := if Truthy(result.uid) then result.uid else Str(routeId);
    var withId := props + [("id", idValue)];
    SetNewKey(props, "id", idValue);
    SetKeys(props, "id", idValue);
    assert Keys(withId) == Keys(props) + ["id"];
    assert "url" !in Keys(withId);
    SetNewKey(withId, "url", result.url);
    assert withId + [("url", result.url)] == props + [("id", idValue), ("url", result.url)];
  }

  /** A swapi.tech envelope for Luke Skywalker flattens to name, height, id and url. */
  lemma FlattenExample()
    ensures Flatten(DetailResult(Str("1"), Str("u"), Some([("name", Str("Luke Skywalker")), ("height", Str("172"))])), "1")
         == [("name", Str("Luke Skywalker")), ("height", Str("172")), ("id", Str("1")), ("url", Str("u"))]
  {
    var props: Record := [("name", Str("Luke Skywalker")), ("height", Str("172"))];
    assert Keys(props) == ["name", "height"];
    FlattenAppends(DetailResult(Str("1"), Str("u"), Some(props)), "1");
  }

  /**
   * What one run of `fetchData` settles on: every failure the `try` block
   * throws becomes its message; a readable envelope with a `result` becomes
   * the flattened record.
   */
  function FetchResult(outcome: Outcome<Envelope>, routeId: string): (s: Settled<Record>)
    ensures s.Loaded? <==> outcome.Response? && outcome.ok && outcome.body.Parsed? && outcome.body.data.Some?
    ensures s.Loaded? ==> s.value == Flatten(outcome.body.data.value, routeId)
    ensures outcome.NetworkError? ==> s == Failed(outcome.message)
    ensures outcome.Response? && !outcome.ok ==> s == Failed(HttpErrorMessage(outcome.status))
    ensures outcome.Response? && outcome.ok && outcome.body.Unreadable? ==> s == Failed(outcome.body.message)
    ensures outcome.Response? && outcome.ok && outcome.body == Parsed(None) ==> s == Failed(InvalidDataMessage)
  {
    match outcome
    case NetworkError(m) => Failed(m)
    case Response(ok, status, body) =>
      if !ok then Failed(HttpErrorMessage(status))
      else match body
        case Unreadable(m) => Failed(m)
        case Parsed(None) => Failed(InvalidDataMessage)
        case Parsed(Some(result)) => Loaded(Flatten(result, routeId))
  }

  // ---------------------------------------------------------------------
  // Display
  // ---------------------------------------------------------------------

  /** `word.charAt(0).toUpperCase() + word.slice(1)`. */
  function CapitalizeWord(w: string): string {
    if |w| == 0 then "" else [UpperChar(w[0])] + w[1..]
  }

  function CapitalizeAll(ws: seq<string>): (r: seq<string>)
    ensures |r| == |ws| && forall i :: 0 <= i < |ws| ==> r[i] == CapitalizeWord(ws[i])
  {
    seq(|ws|, i requires 0 <= i < |ws| => CapitalizeWord(ws[i]))
  }

  /**
   * `formatKey`: `key.split('_').map(capitalize).join(' ')`, so "hair_color"
   * becomes "Hair Color". It keeps the length, turns each `_` into a space
   * at the same position, upper-cases the first character of the key and
   * every character that follows a `_`, and keeps every other character.
   */
  function FormatKey(key: string): (heading: string)
    ensures |heading| == |key|
    ensures forall i :: 0 <= i < |key| ==> heading[i] == TitleCaseAt(key, i, true)
  {
    var p := Split(key, '_');
    assert CapitalizeAll(p) == [CapitalizeWord(p[0])] + CapitalizeAll(p[1..]);
    JoinCapitalizedIsTitleCase(key, true);
    Join(CapitalizeAll(p), " ")
  }

  /** The character `formatKey` puts at position `i`: `_` becomes a space, a segment's first character is upper-cased, the rest is kept. */
  function TitleCaseAt(key: string, i: nat, capFirst: bool): char
    requires i < |key|
  {
    if key[i] == '_' then ' '
    else if (i == 0 && capFirst) || (i > 0 && key[i - 1] == '_') then UpperChar(key[i])
    else key[i]
  }

  function TitleCase(key: string, capFirst: bool): (r: string)
    ensures |r| == |key| && forall i :: 0 <= i < |key| ==> r[i] == TitleCaseAt(key, i, capFirst)
  {
    seq(|key|, i requires 0 <= i < |key| => TitleCaseAt(key, i, capFirst))
  }

  /** The pieces of a key, joined with spaces, every piece but possibly the first capitalised. */
  function JoinCapitalized(parts: seq<string>, capFirst: bool): string
    requires |parts| >= 1
  {
    Join([if capFirst then CapitalizeWord(parts[0]) else parts[0]] + CapitalizeAll(parts[1..]), " ")
  }

  lemma JoinPrefixFirst(a: string, b: string, rest: seq<string>, sep: string)
    ensures Join([a + b] + rest, sep) == a + Join([b] + rest, sep)
  {
    if |rest| > 0 {
      assert ([a + b] + rest)[1..] == rest;
      assert ([b] + rest)[1..] == rest;
    }
  }

  lemma {:induction false} JoinCapitalizedIsTitleCase(key: string, capFirst: bool)
    ensures JoinCapitalized(Split(key, '_'), capFirst) == TitleCase(key, capFirst)
    decreases |key|
  {
    if |key| > 0 {
      JoinCapitalizedIsTitleCase(key[1..], key[0] == '_');
      if key[0] == '_' {
        UnderscoreStep(key, capFirst);
      } else {
        LetterStep(key, capFirst);
      }
    }
  }

  /** A key starting with `_`: a space, then the rest with its first segment capitalised. */
  lemma UnderscoreStep(key: string, capFirst: bool)
    requires |key| > 0 && key[0] == '_'
    ensures JoinCapitalized(Split(key, '_'), capFirst) == " " + JoinCapitalized(Split(key[1..], '_'), true)
    ensures TitleCase(key, capFirst) == " " + TitleCase(key[1..], true)
  {
    var p := Split(key[1..], '_');
    assert key == [key[0]] + key[1..];
    SplitCons(key[0], key[1..], '_');
    JoinAfterEmpty(p, capFirst);
    TitleCaseShift(key, capFirst, true);
  }

  /** Pieces after an empty first piece: the join starts with the separator, and the next piece is capitalised. */
  lemma JoinAfterEmpty(p: seq<string>, capFirst: bool)
    requires |p| >= 1
    ensures JoinCapitalized([""] + p, capFirst) == " " + JoinCapitalized(p, true)
  {
    var cs := CapitalizeAll(p);
    assert ([""] + p)[1..] == p;
    assert (if capFirst then CapitalizeWord("") else "") == "";
    assert cs == [CapitalizeWord(p[0])] + CapitalizeAll(p[1..]);
    assert ([""] + cs)[1..] == cs;
    assert Join([""] + cs, " ") == "" + " " + Join(cs, " ");
  }

  /** A key starting with another character: that character, capitalised or not, then the rest with its first segment left alone. */
  lemma LetterStep(key: string, capFirst: bool)
    requires |key| > 0 && key[0] != '_'
    ensures var head := if capFirst then UpperChar(key[0]) else key[0];
      && JoinCapitalized(Split(key, '_'), capFirst) == [head] + JoinCapitalized(Split(key[1..], '_'), false)
      && TitleCase(key, capFirst) == [head] + TitleCase(key[1..], false)
  {
    var p := Split(key[1..], '_');
    var head := if capFirst then UpperChar(key[0]) else key[0];
    assert Split(key, '_') == [[key[0]] + p[0]] + p[1..];
    assert ([[key[0]] + p[0]] + p[1..])[1..] == p[1..];
    assert (if capFirst then CapitalizeWord([key[0]] + p[0]) else [key[0]] + p[0]) == [head] + p[0];
    JoinPrefixFirst([head], p[0], CapitalizeAll(p[1..]), " ");
    TitleCaseShift(key, capFirst, false);
  }

  /** The title case of a key is its first character's followed by that of the rest, whose first character is capitalised exactly when the key starts with `_`. */
  lemma TitleCaseShift(key: string, capFirst: bool, restCap: bool)
    requires |key| > 0 && restCap == (key[0] == '_')
    ensures TitleCase(key, capFirst) == [TitleCaseAt(key, 0, capFirst)] + TitleCase(key[1..], restCap)
  {
    var r := TitleCase(key, capFirst);
    var t := TitleCase(key[1..], restCap);
    forall i | 1 <= i < |key| ensures r[i] == t[i - 1] {
      assert key[1..][i - 1] == key[i];
    }
  }

  /** The keys never displayed as properties. */
  const ExcludedKeys: seq<string> := ["created", "edited", "url", "id"]

  /**
   * The shown text of a property value: an array of strings shows as the
   * strings joined by ", "; a falsy scalar as "N/A"; a non-empty string as
   * itself.
   */
  function DisplayValue(v: Value): (text: string)
    ensures v.Arr? && (forall i :: 0 <= i < |v.elems| ==> v.elems[i].Str?) ==> text == Join(Strings(v.elems), ", ")
    ensures !v.Arr? && !Truthy(v) ==> text == "N/A"
    ensures v.Str? && Truthy(v) ==> text == v.s
  {
    if v.Arr? then
      if forall i :: 0 <= i < |v.elems| ==> v.elems[i].Str? then
        JoinValuesOfStrings(v.elems, ", ");
        JoinValues(v.elems, ", ")
      else JoinValues(v.elems, ", ")
    else if !Truthy(v) then "N/A"
    else RenderText(v)
  }

  /** The property lines of the card: each shown entry as its formatted key and displayed value, in the record's order. */
  function PropertyRows(item: Record): (rows: seq<(string, string)>)
    ensures var shown := WithoutKeys(item, ExcludedKeys);
      |rows| == |shown| &&
      forall i :: 0 <= i < |shown| ==> rows[i] == (FormatKey(shown[i].0), DisplayValue(shown[i].1))
  {
    var shown := WithoutKeys(item, ExcludedKeys);
    seq(|shown|, i requires 0 <= i < |shown| => (FormatKey(shown[i].0), DisplayValue(shown[i].1)))
  }

  /** What the page shows. */
  datatype DetailScreen =
    | Spinner(caption: string)
    | ErrorPanel(heading: string, message: string)
    | Card(imageUrl: string, title: string, rows: seq<(string, string)>)
    /** the card is due but `item` is still `null`: reading `item.name` throws */
    | RenderFault

  /** The page's render for a given state: loading wins over an error, a truthy error over the card. */
  function Render(category: string, routeId: string, loading: bool, error: Option<string>, item: Option<Record>): (screen: DetailScreen)
    ensures screen.Spinner? <==> loading
    ensures screen.ErrorPanel? <==> !loading && error.Some? && error.value != ""
    ensures screen.ErrorPanel? ==> screen.message == error.value
    ensures screen.Card? <==> !loading && (error.None? || error.value == "") && item.Some?
    ensures screen.Card? ==> screen.rows == PropertyRows(item.value)
  {
    if loading then Spinner("Loading " + category + " details...")
    else if error.Some? && error.value != "" then ErrorPanel("Error loading " + category + " details", error.value)
    else match item
      case None => RenderFault
      case Some(it) =>
        var name := Get(it, "name");
        var title := if Truthy(name) then RenderText(name) else RenderText(Get(it, "title"));
        Card(ImageBase + category + "/" + routeId + ".jpg", title, PropertyRows(it))
  }

  /** The favorite the button adds: `{...item, type: category}`. */
  function TypedFavorite(item: Record, category: string): (fav: Record)
    ensures Get(fav, "type") == Str(category)
    ensures forall k :: k != "type" ==> Get(fav, k) == Get(item, k)
  {
    Set(item, "type", Str(category))
  }

  // ---------------------------------------------------------------------
  // The page's state
  // ---------------------------------------------------------------------

  class DetailPage {
    const apiEndpoint: string
    /** the `:id` route parameter */
    const routeId: string
    var item: Option<Record>
    var loading: bool
    var error: Option<string>

    /** The initial state: no item, loading, no error. */
    constructor (apiEndpoint: string, routeId: string)
      ensures this.apiEndpoint == apiEndpoint && this.routeId == routeId
      ensures item == None && loading && error == None
    {
      this.apiEndpoint := apiEndpoint;
      this.routeId := routeId;
      item, loading, error := None, true, None;
    }

    /** The start of `fetchData`, up to the `await`: loading on, error cleared, item kept; it returns the URL requested. */
    method BeginFetch() returns (url: string)
      modifies this
      ensures loading && error == None && item == old(item)
      ensures url == RequestUrl(Category(apiEndpoint), routeId)
    {
      loading := true;
      error := None;
      url := RequestUrl(Category(apiEndpoint), routeId);
    }

    /** The rest of `fetchData` once the fetch has settled: store the item or the error, then `finally` turns loading off. */
    method Settle(outcome: Outcome<Envelope>)
      modifies this
      ensures !loading
      ensures match FetchResult(outcome, routeId)
        case Loaded(x) => item == Some(x) && error == old(error)
        case Failed(m) => item == old(item) && error == Some(m)
    {
      var settled := FetchResult(outcome, routeId);
      match settled {
        case Loaded(x) => item := Some(x);
        case Failed(m) => error := Some(m);
      }
      loading := false;
    }

    function Screen(): DetailScreen
      reads this
    {
      Render(Category(apiEndpoint), routeId, loading, error, item)
    }

    /** The "Add to Favorites" button of the card. */
    method AddToFavorites(store: FavoritesStore)
      requires item.Some?
      modifies store
      ensures store.favorites == old(store.favorites) + [TypedFavorite(item.value, Category(apiEndpoint))]
    {
      var fav := TypedFavorite(item.value, Category(apiEndpoint));
      store.AddFavorite(fav);
    }
  }

  /**
   * The screen after one whole fetch (begin, then settle) from a page that
   * held `before`: the card of the fetched record on success; on failure the
   * error panel with the message, except that an empty message is falsy and
   * leaves the previous record's card, or a render fault when there was none.
   */
  function ScreenAfterFetch(category: string, routeId: string, before: Option<Record>, outcome: Outcome<Envelope>): (screen: DetailScreen)
    ensures !screen.Spinner?
    ensures outcome.Response? && outcome.ok && outcome.body.Parsed? && outcome.body.data.Some? ==>
      screen.Card? && screen.rows == PropertyRows(Flatten(outcome.body.data.value, routeId))
    ensures outcome.Response? && !outcome.ok ==> screen.ErrorPanel? && screen.message == HttpErrorMessage(outcome.status)
    ensures outcome.Response? && outcome.ok && outcome.body == Parsed(None) ==>
      screen == ErrorPanel("Error loading " + category + " details", InvalidDataMessage)
    ensures screen == RenderFault <==> FetchResult(outcome, routeId) == Failed("") && before.None?
  {
    match FetchResult(outcome, routeId)
    case Loaded(x) => Render(category, routeId, false, None, Some(x))
    case Failed(m) => Render(category, routeId, false, Some(m), before)
  }

  /** One run of the page's effect, as the event loop runs it: begin, await the outcome, settle. */
  method RunFetch(page: DetailPage, outcome: Outcome<Envelope>) returns (url: string)
    modifies page
    ensures url == RequestUrl(Category(page.apiEndpoint), page.routeId)
    ensures page.Screen() == ScreenAfterFetch(Category(page.apiEndpoint), page.routeId, old(page.item), outcome)
  {
    url := page.BeginFetch();
    page.Settle(outcome);
  }
}
