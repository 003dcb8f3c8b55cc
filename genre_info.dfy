/**
 * The genreInfo example program (examples/genreInfo/main.go): the filter
 * parser and its inverse, the media choice, and the order of `main`'s steps.
 *
 * The program calls a `Genre.Anime(ctx, f, page, limit)` that the library
 * modelled here does not have, so a listing ends in a request description
 * rather than a library call.
 */
module GenreInfo {
  import opened Wrappers
  import opened Strings

  /** The four genre filter constants, and the empty filter. */
  datatype GenreFilter = NoFilter | GenreGenres | GenreExplicit | GenreThemes | GenreDemographics

  /** The filter names `-filter` accepts, aliases included. */
  const Accepted: set<string> := {"genres", "explicit_genres", "explicit", "themes", "demographics", "demo", ""}

  /** The names `-list-filters` prints, in order. */
  const AvailableFilters: seq<string> := ["genres", "explicit_genres", "themes", "demographics"]

  /** The filter switch at the top of `listGenres`; anything else is an error. */
  function ParseFilter(s: string): (r: Result<GenreFilter, string>)
    ensures r.Ok? <==> s in Accepted
    ensures r.Err? ==> r.error == "invalid filter: " + s
    ensures r == Ok(NoFilter) <==> s == ""
    ensures s == "genres" ==> r == Ok(GenreGenres)
    ensures s == "explicit_genres" || s == "explicit" ==> r == Ok(GenreExplicit)
    ensures s == "themes" ==> r == Ok(GenreThemes)
    ensures s == "demographics" || s == "demo" ==> r == Ok(GenreDemographics)
  {
    match s
    case "genres" => Ok(GenreGenres)
    case "explicit_genres" => Ok(GenreExplicit)
    case "explicit" => Ok(GenreExplicit)
    case "themes" => Ok(GenreThemes)
    case "demographics" => Ok(GenreDemographics)
    case "demo" => Ok(GenreDemographics)
    case "" => Ok(NoFilter)
    case _ => Err("invalid filter: " + s)
  }

  /** `normalizeFilter`: the canonical name of each constant, "" for the empty filter. */
  function Normalize(f: GenreFilter): (s: string)
    ensures s == "" <==> f == NoFilter
    ensures f == GenreGenres ==> s == "genres"
    ensures f == GenreExplicit ==> s == "explicit"
    ensures f == GenreThemes ==> s == "themes"
    ensures f == GenreDemographics ==> s == "demographics"
  {
    match f
    case GenreGenres => "genres"
    case GenreExplicit => "explicit"
    case GenreThemes => "themes"
    case GenreDemographics => "demographics"
    case NoFilter => ""
  }

  /** Parsing a normalized filter gives the filter back, for every filter. */
  lemma ParseNormalize(f: GenreFilter)
    ensures ParseFilter(Normalize(f)) == Ok(f)
  {
  }

  /** Normalizing loses nothing a parse found: distinct filters get distinct names. */
  lemma NormalizeInjective(f: GenreFilter, g: GenreFilter)
    requires Normalize(f) == Normalize(g)
    ensures f == g
  {
  }

  /** Every name `-list-filters` advertises is accepted, each as a different real filter. */
  lemma AvailableFiltersParse()
    ensures forall k :: 0 <= k < |AvailableFilters| ==>
      ParseFilter(AvailableFilters[k]).Ok? && ParseFilter(AvailableFilters[k]).value != NoFilter
    ensures forall j, k :: 0 <= j < k < |AvailableFilters| ==>
      ParseFilter(AvailableFilters[j]) != ParseFilter(AvailableFilters[k])
  {
  }

  /** The TYPE column: the normalized filter, or "all" for the empty one. */
  function Category(f: GenreFilter): (c: string)
    ensures c == "all" <==> f == NoFilter
    ensures f != NoFilter ==> c == Normalize(f)
  {
    var n := Normalize(f);
    if n == "" then "all" else n
  }

  datatype Media = AnimeMedia | MangaMedia

  /** The interactive choice: "1" or "anime", "2" or "manga"; anything else is fatal (None). */
  function Choice(s: string): (m: Option<Media>)
    ensures m == Some(AnimeMedia) <==> s == "1" || s == "anime"
    ensures m == Some(MangaMedia) <==> s == "2" || s == "manga"
  {
    match s
    case "1" => Some(AnimeMedia)
    case "anime" => Some(AnimeMedia)
    case "2" => Some(MangaMedia)
    case "manga" => Some(MangaMedia)
    case _ => None
  }

  /** The genre listing `listGenres` asks for. */
  datatype GenreRequest = GenreRequest(media: Media, filter: GenreFilter, page: int, limit: int)

  /**
   * `listGenres` up to its request: the filter is parsed first, and an invalid
   * one fails before any request; "anime" selects anime genres, any other
   * media type manga genres.
   */
  function ListGenres(mediaType: string, filter: string, page: int, limit: int): (r: Result<GenreRequest, string>)
    ensures r.Err? <==> filter !in Accepted
    ensures r.Err? ==> r.error == "invalid filter: " + filter
    ensures r.Ok? ==> r.value.media == (if mediaType == "anime" then AnimeMedia else MangaMedia)
    ensures r.Ok? ==> Ok(r.value.filter) == ParseFilter(filter) && r.value.page == page && r.value.limit == limit
  {
    match ParseFilter(filter)
    case Err(e) => Err(e)
    case Ok(f) => Ok(GenreRequest(if mediaType == "anime" then AnimeMedia else MangaMedia, f, page, limit))
  }

  /** The command-line flags. */
  datatype GenreFlags = GenreFlags(anime: bool, manga: bool, filter: string, page: int, limit: int, listFilters: bool)

  /** How `main` ends. */
  datatype Outcome =
    | ShowFilters(names: seq<string>)
    | Fatal(message: string)         // log.Fatal / log.Fatalf
    | Requested(request: GenreRequest)
    | Idle                           // nothing chosen: main returns

  /** `if err := listGenres(...); err != nil { log.Fatalf("Error: %v", err) }`. */
  function Listed(mediaType: string, f: GenreFlags): Outcome
  {
    match ListGenres(mediaType, f.filter, f.page, f.limit)
    case Err(e) => Fatal("Error: " + e)
    case Ok(req) => Requested(req)
  }

  function MediaName(m: Media): string
  {
    match m
    case AnimeMedia => "anime"
    case MangaMedia => "manga"
  }

  /** Where the prompt leads when neither -anime nor -manga was given. */
  function AfterChoice(f: GenreFlags, line: Option<string>): Outcome
  {
    match line
    case None => Idle
    case Some(l) =>
      match Choice(TrimSpace(l))
      case None => Fatal("Invalid choice")
      case Some(m) => Listed(MediaName(m), f)
  }

  /**
   * `main`: -list-filters first, before the client exists; then the prompt,
   * which sets `*anime` or `*manga`; then anime before
   * manga. `created` says whether the client was made.
   */
  method Run(f: GenreFlags, line: Option<string>) returns (o: Outcome, created: bool)
    ensures f.listFilters ==> o == ShowFilters(AvailableFilters) && !created
    ensures !f.listFilters ==> created
    ensures !f.listFilters && f.anime ==> o == Listed("anime", f)
    ensures !f.listFilters && !f.anime && f.manga ==> o == Listed("manga", f)
    ensures !f.listFilters && !f.anime && !f.manga ==> o == AfterChoice(f, line)
  {
    if f.listFilters {
      return ShowFilters(AvailableFilters), false;
    }
    created := true;
    var anime, manga := f.anime, f.manga;
    if !anime && !manga {
      if line.Some? {
        var choice := TrimSpace(line.value);
        match Choice(choice) {
          case None => return Fatal("Invalid choice"), created;
          case Some(AnimeMedia) => anime := true;
          case Some(MangaMedia) => manga := true;
        }
      }
    }
    if anime {
      return Listed("anime", f), created;
    }
    if manga {
      return Listed("manga", f), created;
    }
    o := Idle;
  }

  /**
   * Any choice surrounded by white space, on either side and in any amount,
   * counts as the bare choice: the line is trimmed first.
   */
  lemma PaddedChoice(f: GenreFlags, left: string, c: string, right: string)
    requires c == "1" || c == "anime" || c == "2" || c == "manga"
    requires forall i :: 0 <= i < |left| ==> IsSpace(left[i])
    requires forall i :: 0 <= i < |right| ==> IsSpace(right[i])
    ensures AfterChoice(f, Some(left + c + right)) == AfterChoice(f, Some(c))
    ensures AfterChoice(f, Some(left + c + right)) == Listed(if c == "1" || c == "anime" then "anime" else "manga", f)
  {
    ChoiceIsWord(c);
    TrimSpacePadded(left, c, right);
    TrimSpacePadded("", c, "");
    assert "" + c + "" == c;
  }

  /** Every accepted choice is a word with no white space at either end. */
  lemma ChoiceIsWord(c: string)
    requires c == "1" || c == "anime" || c == "2" || c == "manga"
    ensures |c| > 0 && !IsSpace(c[0]) && !IsSpace(c[|c| - 1])
  {
    if c == "1" || c == "2" {
      assert c[0] == c[|c| - 1] && (c[0] == '1' || c[0] == '2');
    } else if c == "anime" {
      assert c[0] == 'a' && c[|c| - 1] == 'e';
    } else {
      assert c[0] == 'm' && c[|c| - 1] == 'a';
    }
  }
}
