/**
  The catalog container (`SongCatalogContainer` in App.jsx): the result list shown for the
  selected type, a random browse search until the user searches, and the loading flag.
*/
module App {
  import opened Wrappers

  /** An entry of a catalog result list (a track, an artist or an album). */
  datatype CatalogItem = CatalogItem(id: string, name: string)

  /**
    A catalog search answer. A list is `None` when its field or its `items` is missing; the
    initial `[]` and a failed browse have every list missing.
  */
  datatype SearchData = SearchData(
    tracks: Option<seq<CatalogItem>>,
    artists: Option<seq<CatalogItem>>,
    albums: Option<seq<CatalogItem>>)

  const NoResults: SearchData := SearchData(None, None, None)

  /** The list shown for a type: that type's items, `[]` when missing, and `[]` for an unknown type. */
  function ShownItems(kind: string, songs: SearchData): (items: seq<CatalogItem>)
    ensures kind == "track" ==> items == songs.tracks.GetOr([])
    ensures kind == "artist" ==> items == songs.artists.GetOr([])
    ensures kind == "album" ==> items == songs.albums.GetOr([])
    ensures kind != "track" && kind != "artist" && kind != "album" ==> items == []
  {
    if kind == "track" then songs.tracks.GetOr([])
    else if kind == "artist" then songs.artists.GetOr([])
    else if kind == "album" then songs.albums.GetOr([])
    else []
  }

  /** Nothing is shown before any answer arrives, or after a failed browse, whatever the type. */
  lemma NoResultsShowNothing(kind: string)
    ensures ShownItems(kind, NoResults) == []
  {
  }

  /** The shown list is always one of the answer's three lists, or empty. */
  lemma ShownItemsFromAnswer(kind: string, songs: SearchData)
    ensures var items := ShownItems(kind, songs);
      items == [] || Some(items) == songs.tracks || Some(items) == songs.artists || Some(items) == songs.albums
  {
  }

  /** The fixed browse terms. */
  const RandomTerms: seq<string> :=
    ["a", "e", "i", "o", "u", "love", "the", "la", "el", "mi", "yo", "you", "summer", "night", "sun"]

  /** The browse search: a random term for the current type. */
  datatype BrowseRequest = BrowseRequest(term: string, kind: string)

  class CatalogContainer {
    var songs: SearchData
    var kind: string
    var hasSearched: bool
    var loading: bool

    /** Once the user's results are shown, the list is not loading. */
    predicate Valid()
      reads this
    {
      hasSearched ==> !loading
    }

    /** The list passed to the song list. */
    function Shown(): seq<CatalogItem>
      reads this
    {
      ShownItems(kind, songs)
    }

    constructor ()
      ensures songs == NoResults && kind == "track" && !hasSearched && loading
      ensures Valid() && Shown() == []
    {
      songs, kind, hasSearched, loading := NoResults, "track", false, true;
    }

    /**
      The browse effect for term number `termIndex` (the random draw): only until the user
      has searched, it starts loading and sends a non-empty fixed term with the current type.
    */
    method BrowseStart(termIndex: nat) returns (req: Option<BrowseRequest>)
      requires termIndex < |RandomTerms|
      requires Valid()
      modifies this
      ensures Valid()
      ensures !old(hasSearched) ==> loading && req == Some(BrowseRequest(RandomTerms[termIndex], kind))
      ensures old(hasSearched) ==> loading == old(loading) && req.None?
      ensures req.Some? ==> req.value.term in RandomTerms && req.value.term != ""
      ensures songs == old(songs) && kind == old(kind) && hasSearched == old(hasSearched)
    {
      if !hasSearched {
        loading := true;
        req := Some(BrowseRequest(RandomTerms[termIndex], kind));
      } else {
        req := None;
      }
    }

    /** The browse answer arrives (`None` when it failed): it replaces the results and loading ends. */
    method BrowseLoaded(data: Option<SearchData>)
      requires Valid()
      modifies this
      ensures Valid()
      ensures songs == data.GetOr(NoResults) && !loading
      ensures kind == old(kind) && hasSearched == old(hasSearched)
    {
      songs := data.GetOr(NoResults);
      loading := false;
    }

    /** `handleResults`: the user's results replace the list, marked as searched and not loading. */
    method HandleResults(results: SearchData)
      requires Valid()
      modifies this
      ensures Valid()
      ensures songs == results && hasSearched && !loading && kind == old(kind)
      ensures Shown() == ShownItems(kind, results)
    {
      songs, hasSearched, loading := results, true, false;
    }

    /** `handleTypeChange`: the type changes and a new browse is due; the results stay. */
    method HandleTypeChange(newKind: string)
      requires Valid()
      modifies this
      ensures Valid()
      ensures kind == newKind && !hasSearched && songs == old(songs) && loading == old(loading)
    {
      kind, hasSearched := newKind, false;
    }
  }

  /**
    Changing the type to a different one and back, with the browse effect that each change
    triggers (its dependencies are the type and `hasSearched`, which the change clears): since
    each change alters the type, each starts a browse for the type then selected, even after
    the user's own search, so the type is restored but the list is loading again; until an
    answer arrives the old results stay.
  */
  method TypeRoundTrip(c: CatalogContainer, other: string, first: nat, second: nat)
    returns (away: Option<BrowseRequest>, back: Option<BrowseRequest>)
    requires c.Valid() && other != c.kind
    requires first < |RandomTerms| && second < |RandomTerms|
    modifies c
    ensures away == Some(BrowseRequest(RandomTerms[first], other))
    ensures back == Some(BrowseRequest(RandomTerms[second], old(c.kind)))
    ensures c.kind == old(c.kind) && c.songs == old(c.songs)
    ensures c.loading && !c.hasSearched && c.Valid()
  {
    var k := c.kind;
    c.HandleTypeChange(other);
    away := c.BrowseStart(first);
    c.HandleTypeChange(k);
    back := c.BrowseStart(second);
  }
}
