# jikanGo request facades and example programs, in Dafny

jikanGo is a Go client for the Jikan REST API, an unofficial MyAnimeList API.
This project models two layers of it.

1. **The resource services.** These are `CharacterService`, `AnimeService`, `MangaService`, `ClubService`, `UserService` and `GenreService`. Each method may validate its arguments. It then builds one request descriptor: the GET method, a path made from a template, and an optional query. It hands that descriptor to the client's shared dispatcher `Do`. It returns the decoded data (and the pagination) or passes the dispatcher's error through unchanged.
2. **The example programs.** These are `genreInfo`, `mangaInfo`, `characterInfo`, `animeInfo` and `lookupUser`. The model covers their pure helpers: truncation, joining, capped listings, placeholders and the genre filter parser. It also covers how each `main` decides what to do from its flags and from the line it reads.

`Do` is not part of this model. It is a function parameter, `dispatch: Request -> Reply<T>`. A facade method returns a `Call`, which records two things:

- `sent`: the requests handed to the dispatcher, so "never reaches `Do`" is `sent == []`;
- `result`: the Go return values, spelled out. `Single(data, err)` stands for `(*T, error)` and for `([]T, error)`, and `Paged(data, pagination, err)` stands for `([]T, *Pagination, error)`, with `None` for nil.

A nil `url.Values` is `None`. An empty but non-nil one is `Some(map[])`.

Decimal rendering and parsing are defined concretely for Go's 64-bit `int`:

- `Decimal.Itoa` stands for `strconv.Itoa` and `%d`;
- `Decimal.Atoi` stands for `strconv.Atoi`: an optional sign, at least one digit, and a value within range. Its error becomes `None`.

White space is the set `unicode.IsSpace` accepts. Go strings are byte strings where a program measures or cuts them, so `truncate` works on `Cli.Bytes`.

The modules follow the repository's files:

| module | file |
|---|---|
| `Client` | request, reply and call shapes shared by the services |
| `CharacterService`, `AnimeService`, `MangaService`, `ClubService`, `UserService`, `GenreService` | `character.go`, `anime.go`, `manga.go`, `club.go`, `user.go`, `genre.go` |
| `Decimal`, `Strings` | the parts of `strconv` and `strings` the code relies on |
| `Listing` | the capped "first N, then *k more*" loop that the examples repeat |
| `Cli` | `truncate`, and the prompt with its id-or-query rule, shared by three examples |
| `GenreInfo`, `MangaInfo`, `CharacterInfo`, `AnimeInfo`, `LookupUser` | `examples/<name>/main.go` |

Validation differs from file to file, and the model keeps it as written:

- only `character.go` checks ids, pages and queries;
- the anime, manga, club, user and genre services forward every input.

The code has no uniform validation policy, and the model follows the code.

## Model

| member | source | states |
|---|---|---|
| CharacterService.ByID | character.go:60-72 | id <= 0 fails with "invalid character ID: {id}" and sends nothing. Otherwise it sends exactly GET /characters/{id} with a nil query, then returns the data with a nil error, or nil with `Do`'s error unchanged. |
| CharacterService.Anime | character.go:74-86 | The same id check, then GET /characters/{id}/anime, nil query, result or error passed through. |
| CharacterService.Manga | character.go:88-100 | The same id check, then GET /characters/{id}/manga, nil query, result or error passed through. |
| CharacterService.Voices | character.go:102-114 | The same id check, then GET /characters/{id}/voices, nil query, result or error passed through. |
| CharacterService.Pictures | character.go:116-128 | The same id check, then GET /characters/{id}/pictures, nil query, result or error passed through. |
| CharacterService.Search | character.go:130-150 | page < 1 fails first, even when the query is also empty. An empty query fails next. Neither failure sends anything. Otherwise it sends GET /characters with exactly q=query and page=decimal(page). On success the pagination is non-nil. On failure data and pagination are nil and the error is unchanged. |
| CharacterService.PathsIdentifyCall | character.go:68-124 | The five id endpoints build equal paths only for the same endpoint and the same id. |
| CharacterService.SearchQueryRoundTrip | character.go:138-146 | A dispatched search carries the keys q and page and no others. The page value parses back to the page. |
| AnimeService.ByID | anime.go:42-48 | GET /anime/{id} with a nil query, for every id including ids <= 0. The result or the error is passed through. |
| AnimeService.Characters | anime.go:50-70 | GET /anime/{id}/characters, nil query, no validation. |
| AnimeService.Staff | anime.go:72-84 | GET /anime/{id}/staff, nil query, no validation. |
| AnimeService.Episodes | anime.go:86-110 | GET /anime/{id}/episodes with the single key page=decimal(page), for every id and page. On failure both data and pagination are nil and the error is unchanged. On success the pagination is non-nil. |
| AnimeService.News | anime.go:112-134 | GET /anime/{id}/news with the same single-key page query and the same result shape. |
| AnimeService.PathsIdentifyCall | anime.go:44-130 | The five anime endpoints build equal paths only for the same endpoint and the same id. |
| AnimeService.PageQueryRoundTrip | anime.go:94 | The page query has exactly the key page, and its value parses back to the page. |
| MangaService.ByID | manga.go:33-39 | Exactly one GET /manga/{id} with a nil query, for every id. The data or the error is passed through. |
| MangaService.ByIDNamesManga | manga.go:35 | The id parses back from the requested path. |
| ClubService.ByID | club.go:26-32 | GET /clubs/{id} with a nil query. |
| ClubService.Search | club.go:34-44 | GET /clubs with exactly q=query and page=decimal(page). An empty query and any page are forwarded. On success the pagination is non-nil. |
| ClubService.Members | club.go:46-66 | GET /clubs/{id}/members with exactly the page key. |
| ClubService.PathsIdentifyCall | club.go:28-62 | Club and member paths are equal only for the same endpoint and the same id. |
| UserService.ByID | user.go:29-35 | GET /users/{username}/full with a nil query. The username is spliced in verbatim and unchecked. |
| UserService.History | user.go:37-55 | GET /users/{username}/history with exactly the page key. On success the pagination is non-nil. |
| UserService.ByIDCarriesUsername | user.go:31 | The username is exactly what sits between "/users/" and "/full". |
| UserService.ProfileIsNotHistory | user.go:31-51 | A profile path never equals a history path, whatever the two usernames are. |
| UserService.EmptyUsernameIsSent | user.go:29-31 | The empty username is not rejected. It requests "/users//full". |
| GenreService.FilterQuery | genre.go:22-25 | The empty filter gives the empty query. Any other filter gives exactly one entry, filter=value. |
| GenreService.Anime | genre.go:21-31 | GET /genres/anime with the filter query, which is never nil. The result or the error is passed through. |
| GenreService.Manga | genre.go:33-43 | GET /genres/manga with the filter query, result or error passed through. |
| GenreService.FilterRoundTrip | genre.go:22-25 | The filter reads back from the query, and "" reads back as "no filter". |
| GenreService.SameQueryOtherPath | genre.go:21-43 | For the same filter, Anime and Manga build the same method and query, and only the paths differ. |
| Decimal.Itoa | character.go:140 | The decimal form is non-empty. It begins with '-' exactly for negative numbers, and the rest is digits. |
| Decimal.Atoi | examples/mangaInfo/main.go:37 | A parse succeeds only for a non-empty string that starts with a sign or a digit, and its value lies within Go's int range. |
| Decimal.AtoiItoa | examples/mangaInfo/main.go:325 | Atoi(Itoa(n)) == n for every int n. |
| Decimal.ItoaInjective | character.go:68 | Distinct integers print differently. |
| Decimal.ItoaHasNoSlash | character.go:68 | A printed integer has no '/', so it stays a single path segment. |
| Client.IdPathDetermines | character.go:68-82 | Equal paths "prefix{id}suffix" with segment suffixes mean equal ids and equal suffixes. |
| Client.IdPathNamesId | anime.go:44 | The id parses back from the segment after the prefix. |
| Client.EndpointPathsIdentify | anime.go:44-130 | Under one prefix, a table of distinct suffixes that each start a new segment gives equal paths only for the same endpoint and the same id. The anime and character services each apply it to their own table. |
| Strings.TrimSpace | examples/lookupUser/main.go:25 | The result is empty exactly when the input is all white space. Otherwise it starts and ends with a non-space. |
| Strings.TrimSpaceIdempotent | examples/mangaInfo/main.go:36 | Trimming twice equals trimming once. |
| Strings.TrimSpacePadded | examples/lookupUser/main.go:25 | White space on either side of a word is removed and the word is kept. |
| Strings.JoinLayout | examples/animeInfo/main.go:191 | In strings.Join, element k sits at its offset, one separator follows each element but the last, and the last element ends the string. |
| Listing.CappedShape | examples/characterInfo/main.go:157-164 | A capped listing has the first `limit` elements in order. When there are more, it has exactly one extra line, "N more", with N = len - limit. |
| Listing.CappedCovers | examples/characterInfo/main.go:157-160 | The entries and the "N more" count together account for every element. |
| Listing.CapRows | examples/mangaInfo/main.go:310-318 | The loop with its `break` at the cap produces exactly the capped listing. |
| Cli.Interpret | examples/mangaInfo/main.go:37-41 | Input that Atoi accepts becomes the id, with exactly the value Atoi reads, so "+5" and "007" count too. Anything else, the empty string included, becomes the query unchanged. |
| Cli.RenderedIdIsId | examples/characterInfo/main.go:34-35 | An id typed as the program prints it is read as that id. |
| Cli.Prompt | examples/characterInfo/main.go:27-39 | The prompt runs only when id == 0 and the query is empty. Reading nothing is fatal. Otherwise the trimmed answer is written to the id or the query. |
| Cli.TypedIdAnswers | examples/animeInfo/main.go:32-34 | Typing an id sets that id and leaves the query empty. |
| Cli.BlankAnswers | examples/animeInfo/main.go:32-37 | A blank line leaves id 0 and an empty query. |
| Cli.Truncate | examples/mangaInfo/main.go:335-340 | Short strings are unchanged. Longer ones become exactly maxLen bytes: their first maxLen-3 bytes, then "...". The result never exceeds maxLen. |
| Cli.TruncateIdempotent | examples/characterInfo/main.go:213-218 | Truncating twice equals truncating once. |
| MangaInfo.ResourceItems | examples/mangaInfo/main.go:310-317 | At most `limit` names, in input order, then one "+{len-limit}" item when there are more. |
| MangaInfo.JoinResources | examples/mangaInfo/main.go:306-319 | "" for no resources. Otherwise the items above are joined with ", ". |
| MangaInfo.NullInt | examples/mangaInfo/main.go:321-326 | "?" exactly for nil. Otherwise exactly `Itoa` of the value, which parses back to it. |
| MangaInfo.RelationNames | examples/mangaInfo/main.go:286-293 | At most three names, in order, then "+{k} more" with k = len - 3. |
| MangaInfo.RelationLines | examples/mangaInfo/main.go:280-296 | The relations loop, with its `continue` and its capped inner loop, produces the relation summary. |
| MangaInfo.RelationSummaryLength | examples/mangaInfo/main.go:282-285 | There are never more lines than relations. |
| MangaInfo.RelationSummaryFromRelations | examples/mangaInfo/main.go:283-294 | Every line belongs to a relation that has entries, so empty relations are skipped. |
| MangaInfo.RelationSummarySingle | examples/mangaInfo/main.go:283-294 | A single relation prints its line when it has entries and nothing when it has none. |
| MangaInfo.RelationSummaryAppend | examples/mangaInfo/main.go:282-295 | The summary of two runs of relations is the first's summary followed by the second's, so an empty relation is skipped and the loop goes on (`continue`, not `break`). |
| MangaInfo.RelationSummaryKeepsAll | examples/mangaInfo/main.go:282-295 | Every relation with entries is printed, at the position counted by the lines printed before it, whatever empty relations come first. |
| MangaInfo.Route | examples/mangaInfo/main.go:49-75 | A non-empty query always searches and nothing else. Otherwise a positive id picks news, then reviews, then full, then details. With no positive id nothing is fetched. Each branch is stated as an if-and-only-if. |
| MangaInfo.Run | examples/mangaInfo/main.go:30-75 | The prompt, then the dispatch on the updated flags. No input is fatal. |
| MangaInfo.TypedIdIsShown | examples/mangaInfo/main.go:36-38 | A positive id typed at the prompt is shown under the flags' priority. |
| MangaInfo.BlankAnswerIsIdle | examples/mangaInfo/main.go:36-56 | A blank answer leads to no request at all. |
| MangaInfo.DetailsFetchesManga | examples/mangaInfo/main.go:71 | The details route has a positive id and requests /manga/{id}. |
| CharacterInfo.Route | examples/characterInfo/main.go:46-55 | A non-empty query searches and returns. Otherwise the details are fetched for whatever id there is, 0 included. |
| CharacterInfo.Run | examples/characterInfo/main.go:27-55 | The prompt, then the dispatch. No input is fatal. |
| CharacterInfo.BlankAnswerIsRefused | examples/characterInfo/main.go:53 | A blank answer asks for character 0, which character.go refuses with "invalid character ID: 0" and without sending anything. |
| CharacterInfo.TypedIdIsRequested | examples/characterInfo/main.go:33-53 | A typed id reaches CharacterService.ByID. Only a positive one is sent. |
| CharacterInfo.SearchedPageIsChecked | examples/characterInfo/main.go:46-59 | A query is searched with the flags' page as it is. A page below 1 is refused by character.go with "page must be >= 1, got {page}" and no request; any other page sends exactly q and page on /characters. |
| CharacterInfo.KanjiCell | examples/characterInfo/main.go:74-77 | The kanji cell is never blank. An empty kanji name shows as "-". |
| CharacterInfo.RowOf | examples/characterInfo/main.go:73-79 | A search row keeps the id and favorites. The name is cut to at most 35 bytes. The kanji cell is the kanji name when there is one, and "-" otherwise. |
| CharacterInfo.PictureUrl | examples/characterInfo/main.go:204-208 | The large image URL when it is non-empty, the normal one otherwise. |
| CharacterInfo.AppearanceLines | examples/characterInfo/main.go:153-181 | The first ten (role, title cut to 40) rows in order, then "and N more" with N = len - 10. Every appearance is accounted for. |
| CharacterInfo.GalleryLines | examples/characterInfo/main.go:197-210 | Up to five picture URLs, then "N more images". |
| AnimeInfo.Names | examples/animeInfo/main.go:187-190 | One name per resource, in order. |
| AnimeInfo.JoinNames | examples/animeInfo/main.go:186-192 | The array filled in the loop, joined by ", ": every name at its offset, in order, with no cap, and "" for none. |
| AnimeInfo.Route | examples/animeInfo/main.go:45-49 | Exactly one route. A non-empty query searches with Limit 5 and every other option at its zero value. Otherwise ByID gets the id as it is. |
| AnimeInfo.Run | examples/animeInfo/main.go:26-49 | The prompt, then the dispatch. No input is fatal. |
| AnimeInfo.BlankAnswerRequestsZero | examples/animeInfo/main.go:48 | A blank answer asks for anime 0, and anime.go sends /anime/0. |
| AnimeInfo.TypedIdIsRequested | examples/animeInfo/main.go:33-48 | A typed id of either sign is requested as is. |
| AnimeInfo.OpeningLines | examples/animeInfo/main.go:159-168 | At most two openings, then "... and N more". |
| GenreInfo.ParseFilter | examples/genreInfo/main.go:74-88 | It accepts exactly genres, explicit_genres, explicit, themes, demographics, demo and "". genres gives GenreGenres, explicit_genres and explicit give GenreExplicit, themes gives GenreThemes, and demographics and demo give GenreDemographics. Anything else fails with "invalid filter: {s}". Only "" gives the empty filter. |
| GenreInfo.Normalize | examples/genreInfo/main.go:130-143 | GenreGenres, GenreExplicit, GenreThemes and GenreDemographics print as genres, explicit, themes and demographics. Only the empty filter normalizes to "". |
| GenreInfo.ParseNormalize | examples/genreInfo/main.go:76-83 | Parsing a normalized filter gives back the filter, for every filter. |
| GenreInfo.NormalizeInjective | examples/genreInfo/main.go:131-139 | Distinct filters normalize to distinct names. |
| GenreInfo.AvailableFiltersParse | examples/genreInfo/main.go:30-34 | Every name that -list-filters prints is accepted, each as a different non-empty filter. |
| GenreInfo.Category | examples/genreInfo/main.go:114-117 | The TYPE column is "all" exactly for the empty filter, and otherwise the normalized name. |
| GenreInfo.Choice | examples/genreInfo/main.go:48-55 | "1" or "anime" chooses anime, "2" or "manga" chooses manga, and nothing else chooses either. |
| GenreInfo.ListGenres | examples/genreInfo/main.go:73-98 | An invalid filter fails before any request. "anime" selects anime genres and any other media type selects manga genres. Filter, page and limit are carried over. |
| GenreInfo.Run | examples/genreInfo/main.go:29-70 | -list-filters wins, and no client is created. Otherwise -anime is handled before -manga. With neither flag, the trimmed choice decides, an invalid choice is fatal and reading nothing ends quietly. |
| GenreInfo.PaddedChoice | examples/genreInfo/main.go:47-55 | Each of "1", "anime", "2" and "manga", with any white space on its left and any on its right, is read as the bare choice: anime for "1" and "anime", manga for "2" and "manga". |
| LookupUser.Na | examples/lookupUser/main.go:82-87 | Never blank. "N/A" for "", and every other value unchanged. |
| LookupUser.Lookup | examples/lookupUser/main.go:17-46 | A failed read and an empty trimmed username each stop the run before the client exists or any request is made. Otherwise exactly GET /users/{trimmed}/full is sent, and the profile or the error is the outcome. |
| LookupUser.NoRequestIffBlank | examples/lookupUser/main.go:21-28 | No request is made exactly when nothing was read or the line is all white space. |
| LookupUser.RequestedNameIsTrimmed | examples/lookupUser/main.go:25-37 | The username in the request is the trimmed line: non-empty, with no white space at either end. |
| LookupUser.PaddedNameIsLookedUp | examples/lookupUser/main.go:25 | A name typed with white space around it is looked up as the bare name. |

## Left out

- `Client.Do`, the HTTP transport, JSON decoding, `jikan.Error`/`IsNotFound`, and the `ID`, `Pagination` and `Resource` definitions are not part of this model. `Do` is an oracle parameter, and payloads are type parameters. `ID` is a plain `int`. `Client.Pagination` and `Cli.Resource` are stand-ins: the services only pass a pagination value through without reading it, and the programs read only a resource's name.
- URL encoding of queries is left out. `url.Values` is collapsed to one string per key, which is all the services ever set.
- The effect of a nil versus an empty query on the wire belongs to `Do` and is left out. The two are kept apart in the descriptors.
- `context` deadlines and cancellation, and the client's timeout options, are runtime plumbing.
- The fetch orchestration of the detail views is left out: the goroutines and channel in `showMangaDetails` and `showCharacterDetails`, and the calls animeInfo makes one after another. So is the discarding of those fetches' errors. This covers characterInfo's `Character.Anime`, `Manga`, `Voices` and `Pictures` calls, mangaInfo's characters, statistics and recommendations, and animeInfo's statistics, relations, themes and external links. Where the rendering of their results is listed above, it is modelled: `CharacterInfo.AppearanceLines`, `CharacterInfo.GalleryLines` and `AnimeInfo.OpeningLines`.
- Terminal output is not modelled. This covers `fmt`/`tabwriter` printing, the "Press Enter" pause in animeInfo and the pagination footers. The model stops at the values that would be printed.
- `nullFloat` and every `%.2f`/`%.1f`/`%.300s` format are floating point or formatting, so they are left out.
- The examples call library methods that this version of the library does not have, from another library version: `Manga.Search/Characters/Statistics/Recommendations/Full/News/Reviews`, `Search.Anime`, `Anime.Statistics/Relations/Themes/External`, `Genre.Anime(ctx, f, page, limit)` and the `GenreFilter` constants. Routes to them end in an action or request description, such as `SearchManga` or `GenreRequest`, rather than a library call. The filter constants are five distinct abstract values.
- Several listings repeat the capped shape that `Listing` proves, and they are not modelled one by one: mangaInfo's characters and recommendations, and characterInfo's voice actors.
- animeInfo's relations loop (examples/animeInfo/main.go:148-157) prints every relation's names joined by ", ", with no cap and no skipping. It is left out; it is the uncapped join that `AnimeInfo.JoinNames` proves, applied to each relation.
- The "not found" messages chosen with `IsNotFound` are left out. In lookupUser every dispatcher error becomes `RequestFailed`.
- `Strings.TrimSpace` works on code points, with the `unicode.IsSpace` set. Go trims the UTF-8 encoding of the same characters, and how invalid UTF-8 bytes are handled is not modelled.
- `Decimal.Atoi` folds every `strconv.Atoi` error, syntax and range alike, into `None`. The programs only test `err == nil`.
