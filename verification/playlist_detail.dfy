/**
  The catalog playlist page (PlaylistDetail.jsx): total duration, whole minutes, the search
  filter over track and artist names, and the per-row number and `m:ss` duration.
*/
module PlaylistDetail {
  import opened Wrappers
  import Text
  import Seqs

  /** A track of a catalog playlist; `artists` and `durationMs` may be missing. */
  datatype DetailTrack = DetailTrack(
    id: string,
    name: string,
    artists: Option<seq<string>>,
    durationMs: Option<nat>)

  /** An entry of `playlist.tracks.items`; the catalog sends `track: null` for unavailable tracks. */
  datatype PlaylistItem = PlaylistItem(track: Option<DetailTrack>)

  /** `item.track.duration_ms || 0`. */
  function DurationOrZero(t: DetailTrack): nat {
    t.durationMs.GetOr(0)
  }

  /**
    The `reduce` as written: it reads `item.track.duration_ms` for every item, so an item
    without a track throws (`None`); otherwise it is the sum with missing durations as 0.
  */
  function TotalMsAsWritten(items: seq<PlaylistItem>): (r: Option<nat>)
    ensures r.None? <==> exists i :: 0 <= i < |items| && items[i].track.None?
  {
    if items == [] then Some(0)
    else if items[0].track.None? then None
    else
      match TotalMsAsWritten(items[1..])
      case None => None
      case Some(rest) => Some(DurationOrZero(items[0].track.value) + rest)
  }

  /**
    The total duration over the items that have a track, a missing duration counting as 0;
    wherever the reduce as written yields a value, this is that value.
  */
  function TotalMs(items: seq<PlaylistItem>): (total: nat)
    ensures TotalMsAsWritten(items).Some? ==> total == TotalMsAsWritten(items).value
  {
    if items == [] then 0
    else (if items[0].track.Some? then DurationOrZero(items[0].track.value) else 0) + TotalMs(items[1..])
  }

  /** The total of a concatenation is the sum of the totals. */
  lemma {:induction false} TotalMsConcat(xs: seq<PlaylistItem>, ys: seq<PlaylistItem>)
    ensures TotalMs(xs + ys) == TotalMs(xs) + TotalMs(ys)
  {
    if xs == [] {
      assert xs + ys == ys;
    } else {
      assert (xs + ys)[1..] == xs[1..] + ys;
      TotalMsConcat(xs[1..], ys);
    }
  }

  /** Every track's duration is part of the total. */
  lemma {:induction false} TotalMsBounds(items: seq<PlaylistItem>, i: nat)
    requires i < |items| && items[i].track.Some?
    ensures DurationOrZero(items[i].track.value) <= TotalMs(items)
  {
    if i > 0 {
      TotalMsBounds(items[1..], i - 1);
    }
  }

  /** Where every item has a track, the reduce as written and the total agree. */
  lemma {:induction false} AsWrittenAgreesWithoutGaps(items: seq<PlaylistItem>)
    requires forall i :: 0 <= i < |items| ==> items[i].track.Some?
    ensures TotalMsAsWritten(items) == Some(TotalMs(items))
  {
    if items != [] {
      AsWrittenAgreesWithoutGaps(items[1..]);
    }
  }

  /**
    One unavailable track makes the reduce as written throw, although the page filters
    such items everywhere else (the list and its count show nothing for it), and the
    total over the remaining tracks is well defined.
  */
  lemma NullTrackBreaksTotal()
    ensures var items := [PlaylistItem(Some(DetailTrack("t1", "Song A", None, Some(180000)))), PlaylistItem(None)];
      && TotalMsAsWritten(items).None?
      && TotalMs(items) == 180000
      && |FilteredTracks(items, "")| == 1
  {
    var items := [PlaylistItem(Some(DetailTrack("t1", "Song A", None, Some(180000)))), PlaylistItem(None)];
    assert TotalMsAsWritten(items[1..]).None?;
    assert items[1..][1..] == [];
    assert Text.OccursAt(Text.ToLower("Song A"), Text.ToLower(""), 0);
    assert Seqs.Filter(items, HasTrack) == [items[0]];
    assert Seqs.Filter([items[0]], (it: PlaylistItem) => MatchesItem(it, "")) == [items[0]];
  }

  /** `totalMin = Math.floor(totalMs / 60000)`: the whole minutes of the total. */
  function TotalMinutes(items: seq<PlaylistItem>): (m: nat)
    ensures m * 60000 <= TotalMs(items) < (m + 1) * 60000
  {
    TotalMs(items) / 60000
  }

  /** `item.track`: the item has a track. */
  predicate HasTrack(item: PlaylistItem) {
    item.track.Some?
  }

  /** `artists?.some(a => a.name.toLowerCase().includes(q))`, with `q` already lower-cased. */
  function AnyArtistMatches(artists: seq<string>, q: string): (b: bool)
    ensures b <==> exists k :: 0 <= k < |artists| && Text.Contains(Text.ToLower(artists[k]), q)
  {
    if artists == [] then false
    else Text.Contains(Text.ToLower(artists[0]), q) || AnyArtistMatches(artists[1..], q)
  }

  /** The search condition on a track: its name or one of its artists' names contains the term, ignoring case. */
  predicate Matches(t: DetailTrack, search: string) {
    Text.Contains(Text.ToLower(t.name), Text.ToLower(search))
    || (t.artists.Some? && AnyArtistMatches(t.artists.value, Text.ToLower(search)))
  }

  /** The second filter's condition, applied to items that have a track. */
  predicate MatchesItem(item: PlaylistItem, search: string) {
    item.track.Some? && Matches(item.track.value, search)
  }

  /** The items that have a track (the count shown after "de"). */
  function WithTrack(items: seq<PlaylistItem>): seq<PlaylistItem> {
    Seqs.Filter(items, HasTrack)
  }

  /** `filteredTracks`: the items that have a track, then those that match the search. */
  function FilteredTracks(items: seq<PlaylistItem>, search: string): seq<PlaylistItem> {
    Seqs.Filter(WithTrack(items), (it: PlaylistItem) => MatchesItem(it, search))
  }

  /**
    An item is listed exactly when it has a track whose name, or some artist's name,
    contains the search term ignoring case; the listed count never exceeds the count of
    items with a track.
  */
  lemma FilteredTracksMeaning(items: seq<PlaylistItem>, search: string)
    ensures forall it :: it in FilteredTracks(items, search) <==>
      it in items && it.track.Some? &&
      (Text.Contains(Text.ToLower(it.track.value.name), Text.ToLower(search))
       || (it.track.value.artists.Some? &&
           exists k :: 0 <= k < |it.track.value.artists.value|
                       && Text.Contains(Text.ToLower(it.track.value.artists.value[k]), Text.ToLower(search))))
    ensures |FilteredTracks(items, search)| <= |WithTrack(items)|
  {
  }

  /** Filtering keeps the order of the playlist: it distributes over concatenation. */
  lemma FilteredTracksConcat(xs: seq<PlaylistItem>, ys: seq<PlaylistItem>, search: string)
    ensures FilteredTracks(xs + ys, search) == FilteredTracks(xs, search) + FilteredTracks(ys, search)
  {
    Seqs.FilterConcat(xs, ys, HasTrack);
    Seqs.FilterConcat(WithTrack(xs), WithTrack(ys), (it: PlaylistItem) => MatchesItem(it, search));
  }

  /** The two chained filters keep exactly what one filter by the combined condition keeps. */
  lemma FilteredTracksOneFilter(items: seq<PlaylistItem>, search: string)
    ensures FilteredTracks(items, search) == Seqs.Filter(items, (it: PlaylistItem) => MatchesItem(it, search))
  {
    Seqs.FilterFilter(items, HasTrack, (it: PlaylistItem) => MatchesItem(it, search), (it: PlaylistItem) => MatchesItem(it, search));
  }

  /** An empty search lists every item that has a track. */
  lemma EmptySearchKeepsAll(items: seq<PlaylistItem>)
    ensures FilteredTracks(items, "") == WithTrack(items)
  {
    forall it: PlaylistItem | it.track.Some?
      ensures MatchesItem(it, "")
    {
      assert Text.OccursAt(Text.ToLower(it.track.value.name), Text.ToLower(""), 0);
    }
    var w := WithTrack(items);
    assert forall i :: 0 <= i < |w| ==> w[i] in w && w[i].track.Some?;
    Seqs.FilterAll(w, (it: PlaylistItem) => MatchesItem(it, ""));
  }

  /**
    The duration cell: `Math.floor(ms / 60000)` and `Math.floor(ms / 1000) % 60` padded to
    two digits, separated by ":"; a missing duration renders `NaN` in both places.
  */
  function RowDuration(durationMs: Option<nat>): string {
    match durationMs
    case None => "NaN:NaN"
    case Some(ms) => Text.Digits(ms / 60000) + ":" + Text.PadStart2(Text.Digits((ms / 1000) % 60))
  }

  /** Whole seconds split into whole minutes and the remaining seconds. */
  lemma MinutesSeconds(ms: nat)
    ensures ms / 60000 == (ms / 1000) / 60
    ensures (ms / 60000) * 60 + (ms / 1000) % 60 == ms / 1000
  {
    var s := ms / 1000;
    assert ms == s * 1000 + ms % 1000;
    var m := s / 60;
    assert s == m * 60 + s % 60;
    assert ms == m * 60000 + (s % 60) * 1000 + ms % 1000;
    assert (s % 60) * 1000 + ms % 1000 < 60000;
  }

  /**
    The duration cell reads back: before the ":" stand the whole minutes, after it exactly
    two digits giving the seconds in 0..59, and minutes and seconds recombine to the whole
    seconds of the duration.
  */
  lemma RowDurationReadsBack(ms: nat)
    ensures exists m: string, s: string ::
      && RowDuration(Some(ms)) == m + ":" + s
      && (forall i :: 0 <= i < |m| ==> Text.IsDigit(m[i]))
      && (forall i :: 0 <= i < |s| ==> Text.IsDigit(s[i]))
      && Text.ParseDecimal(m) == ms / 60000
      && |s| == 2 && Text.ParseDecimal(s) == (ms / 1000) % 60 < 60
      && Text.ParseDecimal(m) * 60 + Text.ParseDecimal(s) == ms / 1000
  {
    var m := Text.Digits(ms / 60000);
    var s := Text.PadStart2(Text.Digits((ms / 1000) % 60));
    Text.ParseDigits(ms / 60000);
    Text.TwoDigitField((ms / 1000) % 60);
    MinutesSeconds(ms);
    assert RowDuration(Some(ms)) == m + ":" + s;
  }

  /** A row of the table: its 1-based number and its duration cell. */
  datatype Row = Row(number: nat, track: DetailTrack, duration: string)

  /** The table rows for the listed items, numbered from 1 in list order. */
  function Rows(listed: seq<PlaylistItem>): (rows: seq<Row>)
    requires forall i :: 0 <= i < |listed| ==> listed[i].track.Some?
    ensures |rows| == |listed|
    ensures forall i :: 0 <= i < |listed| ==>
      rows[i].number == i + 1 && rows[i].track == listed[i].track.value
      && rows[i].duration == RowDuration(listed[i].track.value.durationMs)
  {
    seq(|listed|, i requires 0 <= i < |listed| =>
      Row(i + 1, listed[i].track.value, RowDuration(listed[i].track.value.durationMs)))
  }

  /** The filtered list can always be rendered as rows, and row numbers run 1..n without gaps. */
  lemma RowsOfFiltered(items: seq<PlaylistItem>, search: string)
    ensures var f := FilteredTracks(items, search);
      && (forall i :: 0 <= i < |f| ==> f[i].track.Some?)
      && (forall i :: 0 <= i < |f| ==> Rows(f)[i].number == i + 1)
  {
    var f := FilteredTracks(items, search);
    forall i | 0 <= i < |f| ensures f[i].track.Some? {
      assert f[i] in f;
    }
  }
}
