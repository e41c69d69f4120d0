# pacer_script search core, in Dafny

A model of `GetSongBPMClient.search_songs`, the one operation of the GetSongBPM
command-line script that does more than move data around. Given a target BPM,
a tolerance, an optional artist, an optional genre, optional danceability
bounds and a limit, it does four things:

1. It builds the request. The window is `[bpm - tolerance, bpm + tolerance]`.
   The path is artist-scoped or general. The parameters are `{"limit": limit}`.
2. It takes the song list from the response envelope: the `"tempo"` key first,
   then `"search"`, then `[]`.
3. It keeps, in order, the records that pass the genre check and the
   danceability checks.
4. It slices the survivors to `limit`.

A transport failure gives `[]`.

## Modules

- `wrappers.dfy`, module `Wrappers`: an `Option` type with `GetOr`, used for
  Python's `Optional` arguments and for `dict.get(key, default)`.
- `text.dfy`, module `Text`:
    - Python truthiness of an optional string (`Present`).
    - `str.lower()` on ASCII letters (`Lower`).
    - `str(int)` as f-strings use it (`IntToString`), with a parser that
      inverts it.
- `query.dfy`, module `SongQuery`:
    - the BPM window and the endpoint choice;
    - the exact URL string the f-strings build;
    - a parser that recovers the endpoint from that URL;
    - `BuildQuery`, which pairs the URL with the parameter map.
- `songs.dfy`, module `SongFilter`:
    - song records and the transport's `Response`;
    - envelope selection;
    - the filter predicates, with their Python truthiness rules;
    - `Filter`, the pure specification of the append loop;
    - Python slicing (`Take`) and the lemmas.
- `client.dfy`, module `SongClient`:
    - `FilterSongs`, the imperative loop with its `continue`s, proved equal
      to `Take(Filter(..), limit)`;
    - `SearchSongs`, the whole operation, with the transport as a function
      parameter and the Python signature's defaults as default arguments;
    - `SearchWithDefaults`, a call that relies on every default.

The model follows the code, including where Python truthiness gives
surprising results:

- A danceability bound of `0.0` is ignored, as Python's `if danceability_min
  and …` does, so it behaves exactly like no bound at all.
- A negative tolerance is not rejected.
- A negative `limit` is modelled with Python's slice semantics.
- The outer `is not None` guard (pacer.py:109) is kept in `FilterSongs`. The
  specification `Filter` leaves it out. The proof that the two agree shows the
  guard has no effect.

## Model

| member | source | states |
|---|---|---|
| `SongQuery.TempoWindow` | pacer.py:84-85 | the window is centred on `bpm` (`min + max == 2*bpm`) with half-width `tolerance` (`max - min == 2*tolerance`); no validation of sign or order |
| `SongQuery.WindowMembership` | pacer.py:84-85 | a tempo lies in the window exactly when it is within `tolerance` of `bpm` |
| `SongQuery.ChooseEndpoint` | pacer.py:88-91 | the artist-scoped endpoint is chosen if and only if the artist is truthy (not `None`, not `""`), and then it carries that artist; the window is carried unchanged |
| `SongQuery.UrlRoundTrip` | pacer.py:89-91 | the URL built by the f-strings can be parsed back into exactly the endpoint, artist and window it was built from |
| `SongQuery.Url` | pacer.py:88-91 | the f-string URL starts with the base URL and ends with `/`; `UrlRoundTrip` shows it determines the endpoint, artist and window |
| `SongQuery.UrlInjective` | pacer.py:89-91 | two different well-formed endpoints (artist and window) never produce the same URL, even when the unencoded artist name contains slashes; searches differing only in `limit`, or in artist `None` against `""`, do share a URL |
| `SongQuery.BuildQuery` | pacer.py:84-93 | the URL names the window `[bpm - tolerance, bpm + tolerance]`; it is artist-scoped if and only if the artist is truthy, with that artist verbatim; the params are exactly `{"limit": limit}` |
| `SongQuery.NoArtistUsesTempoPath` | pacer.py:90-91 | with artist `None` or `""` the URL is `base/tempo/{min}/{max}/` |
| `SongQuery.ArtistUsesArtistPath` | pacer.py:88-89 | with a non-empty artist the URL is `base/artist/{artist}/tempo/{min}/{max}/`, with the artist not encoded |
| `Text.Present` | pacer.py:88 | Python truthiness of an optional string: `None` and `""` are false, any other string is true; `EmptyGenreIgnored` and `ChooseEndpoint` rely on it |
| `Text.Lower` | pacer.py:105 | lowering keeps the length, lowers each character and leaves no upper-case letter |
| `Text.LowerIdempotent` | pacer.py:105 | lowering twice equals lowering once; `GenreIgnoresCase` builds on it |
| `Text.IntToString` | pacer.py:89-91 | `str(int)` of a bound: non-empty, no `/`, a leading `-` exactly for a negative number and digits everywhere else; zero is written `0` and no other number has a leading zero; `IntToStringRoundTrip` shows it loses nothing |
| `Text.IntToStringRoundTrip` | pacer.py:89-91 | the decimal rendering of a BPM bound in the URL loses nothing: parsing it returns the bound |
| `SongFilter.SelectSongs` | pacer.py:99 | songs come from `"tempo"` if present; otherwise from `"search"` if present; otherwise `[]` |
| `SongFilter.TempoEnvelopeWins` | pacer.py:99 | with a `"tempo"` key present, the contents of `"search"` do not affect the result |
| `SongFilter.BoundActive` | pacer.py:111-113 | Python truthiness of an optional bound: `None` and `0.0` are false, any other value is true |
| `SongFilter.Danceability` | pacer.py:110 | the record's danceability, or `0` when the key is missing |
| `SongFilter.KeepsGenre` | pacer.py:105-106 | without a truthy genre filter every record passes; with one, a record without a genre fails, and a record with a genre passes exactly when the lowered genres are equal |
| `SongFilter.KeepsDanceability` | pacer.py:109-114 | with no truthy bound every record passes; a record fails exactly when it is below a truthy lower bound or above a truthy upper bound |
| `SongFilter.Keeps` | pacer.py:105-116 | a record is kept only if it passes the genre check and the danceability checks, and failing either excludes it |
| `SongFilter.Filter` | pacer.py:102-116 | the survivors are no more than the input, each comes from the input and passes every active check; `FilterIsSelection` and `FilterMembers` show they are exactly the passing records in input order |
| `SongFilter.SearchResult` | pacer.py:99-122 | a failure gives `[]` whatever the options and limit; for `limit >= 0` at most `limit` records; every record comes from the selected envelope list and passes every active check |
| `SongFilter.Take` | pacer.py:118 | the slice is a prefix; for `limit >= 0` its length is at most `limit` and it is either all the input or exactly `limit` long; for a negative `limit` exactly `-limit` records are dropped from the end, or none remain |
| `SongFilter.TakePrefix` | pacer.py:118 | for `limit >= 0` the result is exactly the first `min(limit, n)` survivors |
| `SongFilter.TakeZero` | pacer.py:118 | `limit = 0` yields `[]` |
| `SongFilter.FilterAppend` | pacer.py:102-116 | filtering distributes over concatenation, so records are judged independently and order is kept |
| `SongFilter.FilterSingle` | pacer.py:102-116 | a single record is kept exactly when it passes every active check |
| `SongFilter.FilterMembers` | pacer.py:102-116 | a record is in the output if and only if it is in the input and passes every active check |
| `SongFilter.FilterIsSelection` | pacer.py:102-116 | the output is the input at strictly increasing positions; a position is selected if and only if its record passes, so every excluded record fails at least one check |
| `SongFilter.FilterKeepsPassing` | pacer.py:102-116 | a list whose records all pass is returned unchanged |
| `SongFilter.FilterInactive` | pacer.py:105-113 | with no truthy genre or bound, every record is kept |
| `SongFilter.SearchIdempotent` | pacer.py:102-118 | for `limit >= 0`, filtering and slicing the output again with the same arguments returns it unchanged |
| `SongFilter.SearchResultIdempotent` | pacer.py:99-118 | for `limit >= 0`, feeding a search's output back as a `"tempo"` envelope reproduces it |
| `SongFilter.NegativeLimitNotIdempotent` | pacer.py:118 | with `limit = -1` a second pass drops another record, so idempotence needs `limit >= 0` |
| `SongFilter.EmptyGenreIgnored` | pacer.py:105 | `genre=""` filters exactly as `genre=None`, that is, it filters nothing |
| `SongFilter.MissingGenreExcluded` | pacer.py:105 | under a truthy genre filter, a record with no genre (defaulted to `""`) is excluded |
| `SongFilter.GenreIgnoresCase` | pacer.py:105 | lowering both the filter and the record's genre does not change whether the record is kept |
| `SongFilter.ZeroMinIgnored` | pacer.py:109-112 | `danceability_min=0.0` filters exactly as `None` |
| `SongFilter.ZeroMaxIgnored` | pacer.py:109-114 | `danceability_max=0.0` imposes no cap: it filters exactly as `None` |
| `SongFilter.MissingDanceabilityIsZero` | pacer.py:110 | a missing danceability is judged exactly as a danceability of `0` |
| `SongFilter.MissingDanceabilityFailsMin` | pacer.py:110-112 | a positive lower bound excludes every record without a danceability |
| `SongFilter.MissingDanceabilityPassesMax` | pacer.py:110-114 | a non-negative upper bound never excludes a record without a danceability |
| `SongFilter.ExampleDanceabilityMin` | pacer.py:109-116 | lower bound `0.7` over danceabilities `0.8`, `0.5` and missing keeps only the first |
| `SongFilter.ExampleGenre` | pacer.py:105-106 | genre `"rock"` over records of genre `"Rock"` and `"Pop"` keeps only the first |
| `SongClient.FilterSongs` | pacer.py:102-118 | the append loop with its `continue`s returns `Take(Filter(songs, options), limit)`; its length is at most `limit` when `limit >= 0`; every record it returns comes from the input and passes every active check |
| `SongClient.SearchWithDefaults` | pacer.py:60-67 | a call with every default requests the general tempo path for the window 175 to 185 with params `{"limit": 20}`, applies no filter, and returns the first 20 records of the envelope list, or `[]` on failure |
| `SongClient.SearchSongs` | pacer.py:60-122 | the returned list is the search result for the response to exactly the request `BuildQuery` describes; a failure gives `[]`; the length is at most `limit` when `limit >= 0` |

## Left out

- HTTP transport, `raise_for_status` and `response.json()` (pacer.py:52-54, 96-98, 137-139) are foreign library I/O. They appear as the `transport: Query -> Response` parameter. A `Failure` stands for any `RequestException`. A body that is not JSON is such an exception only with requests 2.27 or later; with older versions the `ValueError` escapes the handler, which is not modelled. The API key header is sent only by the transport and is not modelled.
- How `requests` itself treats the URL is not modelled. It may percent-encode characters or split the URL at `?` or `#` in an artist name. `Url` is the string the f-string builds.
- `search_by_tempo` and `get_song_details` (pacer.py:29-58, 124-143) are thin request wrappers. Their only logic is `dict.get` with a default on one envelope key (`"search"` with `[]` at pacer.py:55, `"song"` with `{}` at pacer.py:140). This is not modelled.
- SongClient.SearchSongs: the message printed on a `RequestException` (pacer.py:121) is not modelled; only the `[]` it returns is.
- `display_results` (pacer.py:145-176) only prints to the terminal.
- `main` (pacer.py:179-269) is demo driver glue: sleeps, `input()` prompts, `int()`/`float()` parsing and its `ValueError`/`KeyboardInterrupt` handling.
- Text.Lower: lowers only ASCII letters. Python's `str.lower()` also lowers other Unicode letters.
- Danceability values are `real`, not IEEE floats, so NaN is not modelled. The code only compares them.
- Dynamic-typing failures are not modelled. Examples: a `genre` key present with value `None`, which would raise `AttributeError`; a non-numeric danceability; an envelope value that is not a list; a top-level JSON value that is not an object.
- The record fields that the search does not read are represented by a few optional fields (`songId`, `title`, `tempo`). They stand in for the rest of the JSON object, which passes through untouched.
