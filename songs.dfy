/** Client-side part of `search_songs`: where the song list comes from in the
    JSON envelope, which records survive the genre and danceability checks,
    and the final `[:limit]` slice. */
module SongFilter {
  import opened Wrappers
  import opened Text

  /** A song as the service returns it. Every key may be missing; the fields
      the search does not inspect are carried through unchanged. */
  datatype SongRecord = SongRecord(
    songId: Option<string>,
    title: Option<string>,
    tempo: Option<string>,
    genre: Option<string>,
    danceability: Option<real>)

  /** What the transport hands back: a `RequestException` (a connection
      error or an HTTP error status from `raise_for_status`; with requests
      2.27 or later also a body that is not JSON), or the decoded top-level
      object. */
  datatype Response = Failure | Ok(data: map<string, seq<SongRecord>>)

  /** The song list of the envelope: the "tempo" entry whenever that key
      exists, otherwise the "search" entry, and the empty list when neither
      key is there. */
  function SelectSongs(data: map<string, seq<SongRecord>>): (songs: seq<SongRecord>)
    ensures "tempo" in data ==> songs == data["tempo"]
    ensures "tempo" !in data && "search" in data ==> songs == data["search"]
    ensures "tempo" !in data && "search" !in data ==> songs == []
  {
    if "tempo" in data then data["tempo"]
    else if "search" in data then data["search"]
    else []
  }

  /** Under a "tempo" envelope, whatever the "search" key holds is ignored. */
  lemma TempoEnvelopeWins(data: map<string, seq<SongRecord>>, other: seq<SongRecord>)
    requires "tempo" in data
    ensures SelectSongs(data["search" := other]) == SelectSongs(data)
  {
  }

  /** The filter arguments of `search_songs`. */
  datatype FilterOptions = FilterOptions(
    genre: Option<string>,
    danceabilityMin: Option<real>,
    danceabilityMax: Option<real>)

  /** Python truthiness of an optional bound: `None` and `0.0` are false. */
  predicate BoundActive(bound: Option<real>): (b: bool)
    ensures bound == None ==> !b
    ensures bound == Some(0.0) ==> !b
    ensures bound.Some? && bound.value != 0.0 ==> b
  {
    bound.Some? && bound.value != 0.0
  }

  /** The danceability the checks compare: the record's own value, or 0 when
      the key is missing. */
  function Danceability(song: SongRecord): (d: real)
    ensures song.danceability.None? ==> d == 0.0
    ensures song.danceability.Some? ==> d == song.danceability.value
  {
    song.danceability.GetOr(0.0)
  }

  /** The genre check: with a truthy filter, the record's genre (missing
      counts as "") must equal the filter once both are lowered. */
  predicate KeepsGenre(genre: Option<string>, song: SongRecord): (b: bool)
    ensures !Present(genre) ==> b
    ensures Present(genre) && song.genre.None? ==> !b
    ensures Present(genre) && song.genre.Some? ==> (b <==> Lower(song.genre.value) == Lower(genre.value))
  {
    !Present(genre) || Lower(song.genre.GetOr("")) == Lower(genre.value)
  }

  /** The danceability checks: each bound applies only when truthy. */
  predicate KeepsDanceability(o: FilterOptions, song: SongRecord): (b: bool)
    ensures !BoundActive(o.danceabilityMin) && !BoundActive(o.danceabilityMax) ==> b
    ensures BoundActive(o.danceabilityMin) && Danceability(song) < o.danceabilityMin.value ==> !b
    ensures BoundActive(o.danceabilityMax) && Danceability(song) > o.danceabilityMax.value ==> !b
    ensures !b ==> (BoundActive(o.danceabilityMin) && Danceability(song) < o.danceabilityMin.value)
                   || (BoundActive(o.danceabilityMax) && Danceability(song) > o.danceabilityMax.value)
  {
    (!BoundActive(o.danceabilityMin) || Danceability(song) >= o.danceabilityMin.value)
    && (!BoundActive(o.danceabilityMax) || Danceability(song) <= o.danceabilityMax.value)
  }

  /** A record survives when it passes every active check. */
  predicate Keeps(o: FilterOptions, song: SongRecord): (b: bool)
    ensures b ==> KeepsGenre(o.genre, song) && KeepsDanceability(o, song)
    ensures !KeepsGenre(o.genre, song) ==> !b
    ensures !KeepsDanceability(o, song) ==> !b
  {
    KeepsGenre(o.genre, song) && KeepsDanceability(o, song)
  }

  /** The records that survive, in input order (the specification of the
      append loop, written the way the loop builds it: one record at the end
      at a time). */
  function Filter(songs: seq<SongRecord>, o: FilterOptions): (r: seq<SongRecord>)
    ensures |r| <= |songs|
    ensures forall k :: 0 <= k < |r| ==> r[k] in songs && Keeps(o, r[k])
    decreases |songs|
  {
    if songs == [] then []
    else
      var last := songs[|songs| - 1];
      Filter(songs[..|songs| - 1], o) + (if Keeps(o, last) then [last] else [])
  }

  /** Python's `s[:limit]`: a prefix of length `limit` for `limit >= 0`; a
      negative `limit` counts from the end and drops `-limit` records. */
  function Take<T>(s: seq<T>, limit: int): (r: seq<T>)
    ensures r <= s
    ensures limit >= 0 ==> |r| <= limit && (|r| == limit || r == s)
    ensures limit < 0 ==> |r| + (-limit) == |s| || r == []
    ensures limit < 0 ==> |r| + (-limit) >= |s|
  {
    if limit >= 0 then s[..if limit < |s| then limit else |s|]
    else s[..if |s| + limit > 0 then |s| + limit else 0]
  }

  /** The value `search_songs` returns for a given transport outcome. */
  function SearchResult(o: FilterOptions, limit: int, response: Response): (r: seq<SongRecord>)
    ensures response.Failure? ==> r == []
    ensures limit >= 0 ==> |r| <= limit
    ensures response.Ok? ==> forall k :: 0 <= k < |r| ==> r[k] in SelectSongs(response.data) && Keeps(o, r[k])
  {
    match response
    case Failure => []
    case Ok(data) => Take(Filter(SelectSongs(data), o), limit)
  }

  // ---------------------------------------------------------------------
  // The filter is an order-preserving selection.

  lemma {:induction false} FilterAppend(a: seq<SongRecord>, b: seq<SongRecord>, o: FilterOptions)
    ensures Filter(a + b, o) == Filter(a, o) + Filter(b, o)
    decreases |b|
  {
    if b == [] {
      assert a + b == a;
    } else {
      var last := b[|b| - 1];
      assert (a + b)[..|a + b| - 1] == a + b[..|b| - 1];
      FilterAppend(a, b[..|b| - 1], o);
    }
  }

  /** Filtering a record on its own keeps it exactly when it passes. */
  lemma FilterSingle(song: SongRecord, o: FilterOptions)
    ensures Filter([song], o) == if Keeps(o, song) then [song] else []
  {
  }

  /** A record is in the output exactly when it is in the input and passes
      every active check. */
  lemma {:induction false} FilterMembers(songs: seq<SongRecord>, o: FilterOptions, song: SongRecord)
    ensures song in Filter(songs, o) <==> song in songs && Keeps(o, song)
    decreases |songs|
  {
    if songs != [] {
      var init := songs[..|songs| - 1];
      assert songs == init + [songs[|songs| - 1]];
      FilterMembers(init, o, song);
    }
  }

  /** Indices of the surviving records, in increasing order. */
  function KeptIndices(songs: seq<SongRecord>, o: FilterOptions): seq<nat>
    decreases |songs|
  {
    if songs == [] then []
    else
      var n := |songs| - 1;
      KeptIndices(songs[..n], o) + (if Keeps(o, songs[n]) then [n] else [])
  }

  /** The kept positions are valid, strictly increasing, and are exactly
      the positions whose record passes. */
  lemma {:induction false} KeptIndicesSelect(songs: seq<SongRecord>, o: FilterOptions)
    ensures var idx := KeptIndices(songs, o);
            && (forall k :: 0 <= k < |idx| ==> idx[k] < |songs|)
            && (forall k, l :: 0 <= k < l < |idx| ==> idx[k] < idx[l])
            && (forall i :: 0 <= i < |songs| ==> (i in idx <==> Keeps(o, songs[i])))
    decreases |songs|
  {
    if songs != [] {
      var n := |songs| - 1;
      var init := songs[..n];
      KeptIndicesSelect(init, o);
      var idx0 := KeptIndices(init, o);
      forall i | 0 <= i < n
        ensures songs[i] == init[i]
      {
      }
      if Keeps(o, songs[n]) {
        assert KeptIndices(songs, o) == idx0 + [n];
      } else {
        assert KeptIndices(songs, o) == idx0;
      }
    }
  }

  /** The output lists the records at the kept positions, in order. */
  lemma {:induction false} FilterAtKeptIndices(songs: seq<SongRecord>, o: FilterOptions)
    ensures var idx := KeptIndices(songs, o);
            && |idx| == |Filter(songs, o)|
            && (forall k :: 0 <= k < |idx| ==> idx[k] < |songs| && Filter(songs, o)[k] == songs[idx[k]])
    decreases |songs|
  {
    if songs != [] {
      var n := |songs| - 1;
      var init := songs[..n];
      FilterAtKeptIndices(init, o);
      var idx0, out0 := KeptIndices(init, o), Filter(init, o);
      assert forall k :: 0 <= k < |idx0| ==> songs[idx0[k]] == init[idx0[k]];
      if Keeps(o, songs[n]) {
        assert KeptIndices(songs, o) == idx0 + [n];
        assert Filter(songs, o) == out0 + [songs[n]];
      } else {
        assert KeptIndices(songs, o) == idx0;
        assert Filter(songs, o) == out0;
      }
    }
  }

  /** The output is the input at strictly increasing positions; a position
      is among them exactly when its record passes every active check, so
      every excluded record fails at least one. */
  lemma FilterIsSelection(songs: seq<SongRecord>, o: FilterOptions)
    ensures var idx := KeptIndices(songs, o);
            && |idx| == |Filter(songs, o)|
            && (forall k :: 0 <= k < |idx| ==> idx[k] < |songs| && Filter(songs, o)[k] == songs[idx[k]])
            && (forall k, l :: 0 <= k < l < |idx| ==> idx[k] < idx[l])
            && (forall i :: 0 <= i < |songs| ==> (i in idx <==> Keeps(o, songs[i])))
  {
    KeptIndicesSelect(songs, o);
    FilterAtKeptIndices(songs, o);
  }

  /** A list of records that all pass is left unchanged. */
  lemma {:induction false} FilterKeepsPassing(songs: seq<SongRecord>, o: FilterOptions)
    requires forall k :: 0 <= k < |songs| ==> Keeps(o, songs[k])
    ensures Filter(songs, o) == songs
    decreases |songs|
  {
    if songs != [] {
      var n := |songs| - 1;
      FilterKeepsPassing(songs[..n], o);
      assert songs[..n] + [songs[n]] == songs;
    }
  }

  /** With no truthy argument, the filter keeps everything. */
  lemma FilterInactive(songs: seq<SongRecord>, genre: Option<string>, lo: Option<real>, hi: Option<real>)
    requires !Present(genre) && !BoundActive(lo) && !BoundActive(hi)
    ensures Filter(songs, FilterOptions(genre, lo, hi)) == songs
  {
  }

  /** Filtering and truncating the output again with the same arguments
      returns it unchanged. */
  lemma SearchIdempotent(songs: seq<SongRecord>, o: FilterOptions, limit: int)
    requires limit >= 0
    ensures var out := Take(Filter(songs, o), limit);
            Take(Filter(out, o), limit) == out
  {
    var all := Filter(songs, o);
    var out := Take(all, limit);
    assert forall k :: 0 <= k < |out| ==> out[k] == all[k];
    FilterKeepsPassing(out, o);
  }

  /** The same, for the whole search: feeding the output back as a "tempo"
      envelope reproduces it. */
  lemma SearchResultIdempotent(o: FilterOptions, limit: int, response: Response)
    requires limit >= 0
    ensures var out := SearchResult(o, limit, response);
            SearchResult(o, limit, Ok(map["tempo" := out])) == out
  {
    if response.Ok? {
      SearchIdempotent(SelectSongs(response.data), o, limit);
    }
  }

  /** With a negative limit the slice is not idempotent: `[r, r][:-1]` is `[r]`, and `[r][:-1]` is `[]`. */
  lemma NegativeLimitNotIdempotent(r: SongRecord)
    ensures var o := FilterOptions(None, None, None);
            var out := Take(Filter([r, r], o), -1);
            out == [r] && Take(Filter(out, o), -1) == []
  {
    var o := FilterOptions(None, None, None);
    FilterKeepsPassing([r, r], o);
    FilterKeepsPassing([r], o);
  }

  // ---------------------------------------------------------------------
  // Truncation.

  /** For `limit >= 0` the result is exactly the first `min(limit, n)` survivors. */
  lemma TakePrefix<T>(s: seq<T>, limit: int)
    requires limit >= 0
    ensures |Take(s, limit)| == (if limit < |s| then limit else |s|)
    ensures forall k :: 0 <= k < |Take(s, limit)| ==> Take(s, limit)[k] == s[k]
  {
  }

  lemma TakeZero<T>(s: seq<T>)
    ensures Take(s, 0) == []
  {
  }

  // ---------------------------------------------------------------------
  // Python truthiness of the filter arguments.

  /** `genre=""` filters nothing, exactly as `genre=None`. */
  lemma EmptyGenreIgnored(o: FilterOptions, song: SongRecord)
    ensures Keeps(o.(genre := Some("")), song) == Keeps(o.(genre := None), song)
  {
  }

  /** Under an active genre filter a record with no genre is excluded. */
  lemma MissingGenreExcluded(o: FilterOptions, song: SongRecord)
    requires Present(o.genre) && song.genre == None
    ensures !Keeps(o, song)
  {
  }

  /** The genre comparison ignores the case of both sides. */
  lemma GenreIgnoresCase(o: FilterOptions, song: SongRecord, g: string, h: string)
    requires o.genre == Some(g) && song.genre == Some(h)
    ensures Keeps(o.(genre := Some(Lower(g))), song.(genre := Some(Lower(h)))) == Keeps(o, song)
  {
  }

  /** `danceability_min=0.0` is ignored, exactly as `None`. */
  lemma ZeroMinIgnored(o: FilterOptions, song: SongRecord)
    ensures Keeps(o.(danceabilityMin := Some(0.0)), song) == Keeps(o.(danceabilityMin := None), song)
  {
  }

  /** `danceability_max=0.0` imposes no cap, exactly as `None`. */
  lemma ZeroMaxIgnored(o: FilterOptions, song: SongRecord)
    ensures Keeps(o.(danceabilityMax := Some(0.0)), song) == Keeps(o.(danceabilityMax := None), song)
  {
  }

  /** A missing danceability behaves exactly as a danceability of 0. */
  lemma MissingDanceabilityIsZero(o: FilterOptions, song: SongRecord)
    ensures Keeps(o, song.(danceability := None)) == Keeps(o, song.(danceability := Some(0.0)))
  {
  }

  /** Hence a positive lower bound excludes every record without a danceability... */
  lemma MissingDanceabilityFailsMin(o: FilterOptions, song: SongRecord)
    requires o.danceabilityMin.Some? && o.danceabilityMin.value > 0.0
    requires song.danceability == None
    ensures !Keeps(o, song)
  {
  }

  /** ...while a non-negative upper bound never does. */
  lemma MissingDanceabilityPassesMax(o: FilterOptions, song: SongRecord)
    requires o.danceabilityMax.Some? && o.danceabilityMax.value >= 0.0
    ensures KeepsDanceability(o.(danceabilityMin := None), song.(danceability := None))
  {
  }

  // ---------------------------------------------------------------------
  // Concrete cases.

  function Song(genre: Option<string>, danceability: Option<real>): SongRecord {
    SongRecord(None, None, None, genre, danceability)
  }

  /** Lower bound 0.7 over danceabilities 0.8, 0.5 and missing keeps only the first. */
  lemma ExampleDanceabilityMin()
    ensures var songs := [Song(None, Some(0.8)), Song(None, Some(0.5)), Song(None, None)];
            Filter(songs, FilterOptions(None, Some(0.7), None)) == [songs[0]]
  {
    var songs := [Song(None, Some(0.8)), Song(None, Some(0.5)), Song(None, None)];
    var o := FilterOptions(None, Some(0.7), None);
    assert songs == [songs[0]] + [songs[1]] + [songs[2]];
    FilterAppend([songs[0]] + [songs[1]], [songs[2]], o);
    FilterAppend([songs[0]], [songs[1]], o);
    FilterSingle(songs[0], o);
    FilterSingle(songs[1], o);
    FilterSingle(songs[2], o);
  }

  /** Genre "rock" over genres "Rock" and "Pop" keeps only the first. */
  lemma ExampleGenre()
    ensures var songs := [Song(Some("Rock"), Some(0.5)), Song(Some("Pop"), None)];
            Filter(songs, FilterOptions(Some("rock"), None, None)) == [songs[0]]
  {
  }
}
