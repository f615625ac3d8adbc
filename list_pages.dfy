/**
 * The four list pages `CharacterList`, `StarshipList`, `SpeciesList` and
 * `PlanetList`. They are copies of one another that differ in the endpoint
 * they fetch, the route and image folder they link to, and, for planets
 * only, in ignoring the entry's `uid` when deriving its id. Each fetches a
 * page of `{results: [...]}` once, shows every entry with an image and a
 * detail link, and has an "Add to Favorites" button per entry.
 */
module ListPages {
  import opened Wrappers
  import opened JsStrings
  import opened JsValues
  import opened Records
  import opened Fetching
  import opened FavoriteContext

  /** One element of `data.results`. */
  datatype ListEntry = ListEntry(uid: Value, name: Value, url: string, properties: Option<Record>)

  datatype Page = Characters | Starships | Species | Planets {

    /** The route prefix and image folder. */
    function Category(): string {
      match this
      case Characters => "characters"
      case Starships => "starships"
      case Species => "species"
      case Planets => "planets"
    }

    /**
     * The list endpoint fetched on mount: the page's own collection of the
     * swapi.tech API, except that characters live under `people`.
     */
    function Endpoint(): (url: string)
      ensures url == "https://www.swapi.tech/api/" + (if Characters? then "people" else Category()) + "/"
    {
      match this
      case Characters => "https://www.swapi.tech/api/people/"
      case Starships => "https://www.swapi.tech/api/starships/"
      case Species => "https://www.swapi.tech/api/species/"
      case Planets => "https://www.swapi.tech/api/planets/"
    }

    /** Whether the id is `entry.uid ||` the url segment (every page but the planets). */
    predicate UsesUid() {
      !Planets?
    }

    /** The three summary lines of an entry: caption, property key and unit. */
    function Facts(): seq<Fact> {
      match this
      case Characters => [Fact("Height", "height", " cm"), Fact("Mass", "mass", " kg"), Fact("Birth Year", "birth_year", "")]
      case Starships => [Fact("Model", "model", ""), Fact("Manufacturer", "manufacturer", ""), Fact("Cost", "cost_in_credits", " credits")]
      case Species => [Fact("Classification", "classification", ""), Fact("Language", "language", ""), Fact("Average Lifespan", "average_lifespan", " years")]
      case Planets => [Fact("Climate", "climate", ""), Fact("Population", "population", ""), Fact("Terrain", "terrain", "")]
    }
  }

  /** One `<p>{caption}: {entry.properties?.[key]}{unit}</p>` line. */
  datatype Fact = Fact(caption: string, key: string, unit: string)

  // ---------------------------------------------------------------------
  // Ids
  // ---------------------------------------------------------------------

  /** `.filter(Boolean)` on strings: drop the empty ones. */
  function NonEmpty(parts: seq<string>): (r: seq<string>)
    ensures forall p :: p in r <==> p in parts && p != ""
    decreases |parts|
  {
    if |parts| == 0 then []
    else
      assert forall p :: p in parts <==> p == parts[0] || p in parts[1..];
      (if parts[0] != "" then [parts[0]] else []) + NonEmpty(parts[1..])
  }

  lemma {:induction false} NonEmptyConcat(a: seq<string>, b: seq<string>)
    ensures NonEmpty(a + b) == NonEmpty(a) + NonEmpty(b)
    decreases |a|
  {
    if |a| == 0 {
      assert a + b == b;
    } else {
      assert (a + b)[1..] == a[1..] + b;
      NonEmptyConcat(a[1..], b);
    }
  }

  /** `url.split('/').filter(Boolean).pop()`: the last non-empty segment of the url, `undefined` when there is none. */
  function UrlId(url: string): (id: Value)
    ensures id.Str? || id == Undefined
    ensures id.Str? ==> id.s != "" && '/' !in id.s && id.s in Split(url, '/')
  {
    var segments := NonEmpty(Split(url, '/'));
    if |segments| == 0 then Undefined
    else
      SplitPiecesFree(url, '/');
      assert Last(segments) in segments;
      Str(Last(segments))
  }

  /** The url has no non-empty segment exactly when it is made of slashes only. */
  lemma {:induction false} UrlIdUndefined(url: string)
    ensures UrlId(url) == Undefined <==> forall i :: 0 <= i < |url| ==> url[i] == '/'
    decreases |url|
  {
    if |url| > 0 {
      var t := url[1..];
      UrlIdUndefined(t);
      var p := Split(t, '/');
      if url[0] == '/' {
        assert Split(url, '/') == [""] + p;
        assert NonEmpty([""] + p) == NonEmpty(p);
        assert (forall i :: 0 <= i < |url| ==> url[i] == '/') <==> (forall i :: 0 <= i < |t| ==> t[i] == '/');
      } else {
        var first := [url[0]] + p[0];
        assert Split(url, '/') == [first] + p[1..];
        assert NonEmpty([first] + p[1..]) == [first] + NonEmpty(p[1..]);
      }
    }
  }

  /** A trailing slash does not change the derived id. */
  lemma UrlIdTrailingSlash(url: string)
    ensures UrlId(url + "/") == UrlId(url)
  {
    SplitAtSeparator(url, '/', "");
    assert url + ['/'] + "" == url + "/";
    NonEmptyConcat(Split(url, '/'), [""]);
    assert NonEmpty([""]) == [];
    assert Split(url, '/') + [] == Split(url, '/');
  }

  /** A url `prefix/segment`, with or without a trailing slash, gives the segment as id. */
  lemma UrlIdOfPath(prefix: string, segment: string, trailingSlash: bool)
    requires segment != "" && '/' !in segment
    ensures UrlId(prefix + "/" + segment + (if trailingSlash then "/" else "")) == Str(segment)
  {
    var url := prefix + "/" + segment;
    SplitAtSeparator(prefix, '/', segment);
    assert prefix + ['/'] + segment == url;
    SplitFree(segment, '/');
    NonEmptyConcat(Split(prefix, '/'), [segment]);
    if trailingSlash {
      UrlIdTrailingSlash(url);
    } else {
      assert url + "" == url;
    }
  }

  /** A swapi.tech people url ending in `/5/` gives the id "5". */
  lemma UrlIdExample()
    ensures UrlId("https://www.swapi.tech/api/people/5/") == Str("5")
  {
    UrlIdOfPath("https://www.swapi.tech/api/people", "5", true);
    assert "https://www.swapi.tech/api/people" + "/" + "5" + "/" == "https://www.swapi.tech/api/people/5/";
  }

  /**
   * `entry.uid || entry.url.split('/').filter(Boolean).pop()` on every page
   * but the planets, and only the url part there. An id taken from the url
   * is a non-empty segment of it without `/`.
   */
  function DeriveId(page: Page, entry: ListEntry): (id: Value)
    ensures page.UsesUid() && Truthy(entry.uid) ==> id == entry.uid
    ensures !(page.UsesUid() && Truthy(entry.uid)) ==>
      id == Undefined || (id.Str? && id.s != "" && '/' !in id.s && id.s in Split(entry.url, '/'))
  {
    if page.UsesUid() && Truthy(entry.uid) then entry.uid else UrlId(entry.url)
  }

  /** The planets page takes its id from the url even when the entry has a uid; the other pages agree with one another. */
  lemma PlanetIdIgnoresUid(entry: ListEntry, uid: Value)
    ensures DeriveId(Planets, entry) == DeriveId(Planets, entry.(uid := uid)) == UrlId(entry.url)
    ensures DeriveId(Characters, entry) == DeriveId(Starships, entry) == DeriveId(Species, entry)
    ensures !Truthy(entry.uid) ==> DeriveId(Characters, entry) == DeriveId(Planets, entry)
  {
  }

  // ---------------------------------------------------------------------
  // Links and images
  // ---------------------------------------------------------------------

  /**
   * `` `/${category}/${id}` ``, the entry's detail route: an id without `/`
   * is exactly its third segment, after the category, so it is the `:id`
   * the route receives.
   */
  function DetailLink(page: Page, id: Value): (link: string)
    ensures '/' !in ToString(id) ==> Split(link, '/') == ["", page.Category(), ToString(id)]
  {
    var parts := ["", page.Category(), ToString(id)];
    assert parts[1..] == [page.Category(), ToString(id)];
    assert parts[1..][1..] == [ToString(id)];
    assert Join(parts[1..][1..], "/") == ToString(id);
    assert Join(parts[1..], "/") == page.Category() + "/" + ToString(id);
    assert Join(parts, "/") == "" + "/" + (page.Category() + "/" + ToString(id));
    if '/' !in ToString(id) then
      SplitJoin(parts, '/');
      Join(parts, "/")
    else Join(parts, "/")
  }

  /**
   * `` `https://starwars-visualguide.com/assets/img/${category}/${id}.jpg` ``:
   * the image file of an id without `/` is `<id>.jpg`, directly inside the
   * page's own folder.
   */
  function ImageUrl(page: Page, id: Value): (url: string)
    ensures '/' !in ToString(id) ==>
      var pieces := Split(url, '/');
      |pieces| >= 2 && pieces[|pieces| - 2..] == [page.Category(), ToString(id) + ".jpg"]
  {
    var base := ImageBase[..|ImageBase| - 1];
    var file := ToString(id) + ".jpg";
    assert '/' !in ".jpg";
    assert ImageBase + page.Category() + "/" + ToString(id) + ".jpg" == base + ['/'] + (page.Category() + ['/'] + file);
    if '/' !in ToString(id) then
      PathTail(base, page.Category(), file);
      base + ['/'] + (page.Category() + ['/'] + file)
    else base + ['/'] + (page.Category() + ['/'] + file)
  }

  lemma PathTail(base: string, folder: string, file: string)
    requires '/' !in folder && '/' !in file
    ensures var pieces := Split(base + ['/'] + (folder + ['/'] + file), '/');
      |pieces| >= 2 && pieces[|pieces| - 2..] == [folder, file]
  {
    SplitAtSeparator(folder, '/', file);
    SplitFree(folder, '/');
    SplitFree(file, '/');
    SplitAtSeparator(base, '/', folder + ['/'] + file);
  }

  /** The text of an entry's summary lines; `properties?.` reads `undefined`, shown as nothing, when the entry has no properties. */
  function SummaryLines(page: Page, entry: ListEntry): (lines: seq<string>)
    ensures |lines| == |page.Facts()|
    ensures forall i :: 0 <= i < |lines| ==>
      lines[i] == page.Facts()[i].caption + ": " + RenderText(Get(Spread(entry.properties), page.Facts()[i].key)) + page.Facts()[i].unit
  {
    var facts := page.Facts();
    seq(|facts|, i requires 0 <= i < |facts| =>
      facts[i].caption + ": " + RenderText(Get(Spread(entry.properties), facts[i].key)) + facts[i].unit)
  }

  /** An entry without properties still shows every caption and unit, with an empty value between them. */
  lemma SummaryWithoutProperties(page: Page, entry: ListEntry)
    requires entry.properties.None?
    ensures forall i :: 0 <= i < |page.Facts()| ==>
      SummaryLines(page, entry)[i] == page.Facts()[i].caption + ": " + page.Facts()[i].unit
  {
    assert Spread(entry.properties) == [];
  }

  // ---------------------------------------------------------------------
  // Favorites
  // ---------------------------------------------------------------------

  /** `{...entry.properties, url: entry.url, name: entry.name, id}`. */
  function FavoriteRecord(entry: ListEntry, id: Value): (fav: Record)
    ensures Get(fav, "url") == Str(entry.url) && Get(fav, "name") == entry.name && Get(fav, "id") == id
    ensures forall k :: k != "url" && k != "name" && k != "id" ==> Get(fav, k) == Get(Spread(entry.properties), k)
  {
    Set(Set(Set(Spread(entry.properties), "url", Str(entry.url)), "name", entry.name), "id", id)
  }

  /** The properties keep their order, `url`, `name` and `id` are added last when missing, and no key is duplicated. */
  lemma FavoriteRecordKeys(entry: ListEntry, id: Value)
    ensures Keys(FavoriteRecord(entry, id)) == WithKey(WithKey(WithKey(Keys(Spread(entry.properties)), "url"), "name"), "id")
    ensures WellFormed(Spread(entry.properties)) ==> WellFormed(FavoriteRecord(entry, id))
  {
    var r0 := Spread(entry.properties);
    var r1 := Set(r0, "url", Str(entry.url));
    var r2 := Set(r1, "name", entry.name);
    SetKeys(r0, "url", Str(entry.url));
    SetKeys(r1, "name", entry.name);
    SetKeys(r2, "id", id);
    if WellFormed(r0) {
      SetWellFormed(r0, "url", Str(entry.url));
      SetWellFormed(r1, "name", entry.name);
      SetWellFormed(r2, "id", id);
    }
  }

  // ---------------------------------------------------------------------
  // The page's state
  // ---------------------------------------------------------------------

  class ListPage {
    const page: Page
    /** the `characters` / `starships` / `species` / `planets` state */
    var items: seq<ListEntry>

    /** `useState([])`. */
    constructor (page: Page)
      ensures this.page == page && items == []
    {
      this.page := page;
      items := [];
    }

    /**
     * `fetchData`: the list becomes `data.results` as parsed, whatever the
     * HTTP status (the status is never checked); a rejected fetch or an
     * unreadable body is caught and logged and the list keeps its value.
     */
    method FetchData(outcome: Outcome<seq<ListEntry>>) returns (url: string)
      modifies this
      ensures url == page.Endpoint()
      ensures items == if outcome.Response? && outcome.body.Parsed? then outcome.body.data else old(items)
    {
      url := page.Endpoint();
      if outcome.Response? && outcome.body.Parsed? {
        items := outcome.body.data;
      }
    }

    /** The "Add to Favorites" button of a listed entry: one record appended. */
    method AddToFavorites(store: FavoritesStore, entry: ListEntry)
      requires entry in items
      modifies store
      ensures store.favorites == old(store.favorites) + [FavoriteRecord(entry, DeriveId(page, entry))]
    {
      store.AddFavorite(FavoriteRecord(entry, DeriveId(page, entry)));
    }
  }

  /**
   * An end-to-end scenario: the characters page requests the `people`
   * collection, receives two people without uid, and adding the first to an
   * empty store appends exactly one favorite, whose id "5" comes from its url.
   */
  method PeopleScenario(luke: Record, leia: Record) returns (requested: string, favs: seq<Record>, shown: nat)
    ensures requested == "https://www.swapi.tech/api/people/"
    ensures shown == 2 && |favs| == 1
    ensures Get(favs[0], "id") == Str("5") && Get(favs[0], "name") == Str("Luke Skywalker")
  {
    var first := ListEntry(Undefined, Str("Luke Skywalker"), "https://www.swapi.tech/api/people/5/", Some(luke));
    var second := ListEntry(Undefined, Str("Leia Organa"), "https://www.swapi.tech/api/people/6/", Some(leia));
    var store := new FavoritesStore();
    var characters := new ListPage(Characters);
    requested := characters.FetchData(Response(true, 200, Parsed([first, second])));
    shown := |characters.items|;
    characters.AddToFavorites(store, first);
    UrlIdExample();
    favs := store.favorites;
  }
}
