/** `GetSongBPMClient.search_songs`: build the request, hand it to the
    transport, pick the song list out of the envelope, run the filter loop
    and slice to `limit`. */
module SongClient {
  import opened Wrappers
  import opened Text
  import opened SongQuery
  import opened SongFilter

  /** The loop of lines 102-118, step by step: `continue` past a record that
      fails a check, append the others, then slice. */
  method FilterSongs(songs: seq<SongRecord>, genre: Option<string>,
                     danceabilityMin: Option<real>, danceabilityMax: Option<real>, limit: int)
    returns (result: seq<SongRecord>)
    ensures result == Take(Filter(songs, FilterOptions(genre, danceabilityMin, danceabilityMax)), limit)
    ensures limit >= 0 ==> |result| <= limit
    ensures forall k :: 0 <= k < |result| ==>
              result[k] in songs && Keeps(FilterOptions(genre, danceabilityMin, danceabilityMax), result[k])
  {
    ghost var o := FilterOptions(genre, danceabilityMin, danceabilityMax);
    var filtered: seq<SongRecord> := [];
    for i := 0 to |songs|
      invariant filtered == Filter(songs[..i], o)
    {
      var song := songs[i];
      assert songs[..i + 1][..i] == songs[..i];
      if Present(genre) && Lower(song.genre.GetOr("")) != Lower(genre.value) {
        continue;
      }
      if danceabilityMin.Some? || danceabilityMax.Some? {
        var danceability := song.danceability.GetOr(0.0);
        if BoundActive(danceabilityMin) && danceability < danceabilityMin.value {
          continue;
        }
        if BoundActive(danceabilityMax) && danceability > danceabilityMax.value {
          continue;
        }
      }
      filtered := filtered + [song];
    }
    assert songs[..|songs|] == songs;
    result := Take(filtered, limit);
  }

  /** The whole search. `transport` stands for `requests.get(...)`,
      `raise_for_status()` and `.json()`: it maps the request that is sent
      to what comes back. A failure is absorbed into an empty list. The
      other parameters carry the defaults of the Python signature. */
  method SearchSongs(transport: Query -> Response, bpm: int := 180, bpmTolerance: int := 5,
                     genre: Option<string> := None, artist: Option<string> := None,
                     danceabilityMin: Option<real> := None, danceabilityMax: Option<real> := None,
                     limit: int := 20)
    returns (songs: seq<SongRecord>)
    ensures songs == SearchResult(FilterOptions(genre, danceabilityMin, danceabilityMax), limit,
                                  transport(BuildQuery(bpm, bpmTolerance, artist, limit)))
    ensures transport(BuildQuery(bpm, bpmTolerance, artist, limit)).Failure? ==> songs == []
    ensures limit >= 0 ==> |songs| <= limit
  {
    var query := BuildQuery(bpm, bpmTolerance, artist, limit);
    var response := transport(query);
    match response {
      case Failure =>
        songs := [];
      case Ok(data) =>
        var candidates := SelectSongs(data);
        songs := FilterSongs(candidates, genre, danceabilityMin, danceabilityMax, limit);
    }
  }

  /** A call that leaves every argument at its default searches the general
      tempo path for 175 to 185 BPM, filters nothing and keeps at most 20
      records. */
  method SearchWithDefaults(transport: Query -> Response) returns (songs: seq<SongRecord>)
    ensures var q := BuildQuery(180, 5, None, 20);
            && ParseUrl(q.url) == Some(Tempo(Window(175, 185)))
            && q.params == map["limit" := 20]
            && (transport(q).Failure? ==> songs == [])
            && (transport(q).Ok? ==> songs == Take(SelectSongs(transport(q).data), 20))
    ensures |songs| <= 20
  {
    songs := SearchSongs(transport);
    var q := BuildQuery(180, 5, None, 20);
    if transport(q).Ok? {
      FilterInactive(SelectSongs(transport(q).data), None, None, None);
    }
  }
}
