/**
 * The characterInfo example program (examples/characterInfo/main.go): its
 * routing and the cells and capped listings it prints.
 */
module CharacterInfo {
  import opened Wrappers
  import opened Decimal
  import opened Strings
  import opened Listing
  import opened Cli
  import opened Client
  import CharacterService

  /** The flags after parsing. */
  datatype CharacterFlags = CharacterFlags(id: int, query: string, page: int)

  /** What `main` goes on to do. */
  datatype CharacterAction =
    | NoInput                        // log.Fatal("No input")
    | SearchCharacters(query: string, page: int)
    | CharacterDetails(id: int)

  function TargetOf(f: CharacterFlags): Target
  {
    Target(f.id, f.query)
  }

  /** A non-empty query searches and returns; otherwise the details of whatever id there is. */
  function Route(f: CharacterFlags): (a: CharacterAction)
    ensures a.SearchCharacters? <==> f.query != ""
    ensures a.SearchCharacters? ==> a.query == f.query && a.page == f.page
    ensures a.CharacterDetails? <==> f.query == ""
    ensures a.CharacterDetails? ==> a.id == f.id
  {
    if f.query != "" then SearchCharacters(f.query, f.page) else CharacterDetails(f.id)
  }

  /** `main`: the optional prompt, then the dispatch. */
  method Run(f: CharacterFlags, line: Option<string>) returns (a: CharacterAction)
    ensures !Prompts(TargetOf(f)) ==> a == Route(f)
    ensures Prompts(TargetOf(f)) && line.None? ==> a == NoInput
    ensures Prompts(TargetOf(f)) && line.Some? ==>
      var t := Answer(TargetOf(f), TrimSpace(line.value));
      a == Route(f.(id := t.id, query := t.query))
  {
    var r := Prompt(TargetOf(f), line);
    match r {
      case None => a := NoInput;
      case Some(t) => a := Route(f.(id := t.id, query := t.query));
    }
  }

  /**
   * A blank answer leads to the details of character 0, which the library
   * refuses before any request.
   */
  lemma BlankAnswerIsRefused<T>(f: CharacterFlags, line: string, dispatch: Request -> Reply<T>)
    requires Prompts(TargetOf(f))
    requires forall i :: 0 <= i < |line| ==> IsSpace(line[i])
    ensures var t := Answer(TargetOf(f), TrimSpace(line));
      Route(f.(id := t.id, query := t.query)) == CharacterDetails(0)
    ensures Refuses(CharacterService.ByID(0, dispatch), "invalid character ID: 0")
  {
    BlankAnswers(TargetOf(f), line);
    assert Digits(0) == "0";
    assert CharacterService.InvalidId(0) == "invalid character ID: 0";
  }

  /** A typed id reaches the library; a positive one is requested, any other refused unsent. */
  lemma TypedIdIsRequested<T>(f: CharacterFlags, n: int, dispatch: Request -> Reply<T>)
    requires Prompts(TargetOf(f)) && MinInt <= n <= MaxInt
    ensures var t := Answer(TargetOf(f), TrimSpace(Itoa(n)));
      Route(f.(id := t.id, query := t.query)) == CharacterDetails(n)
    ensures CharacterService.ByID(n, dispatch).sent == if n > 0 then [Get("/characters/" + Itoa(n), None)] else []
  {
    TypedIdAnswers(TargetOf(f), n);
  }

  /**
   * A query routes to the library's search with the flags' page as it is, so a
   * page below 1 is refused there without a request, and any other page is sent.
   */
  lemma SearchedPageIsChecked<T>(f: CharacterFlags, dispatch: Request -> Reply<Envelope<T>>)
    requires f.query != ""
    ensures Route(f) == SearchCharacters(f.query, f.page)
    ensures var c := CharacterService.Search(f.query, f.page, dispatch);
      f.page < 1 ==> RefusesPage(c, "page must be >= 1, got " + Itoa(f.page))
    ensures var c := CharacterService.Search(f.query, f.page, dispatch);
      f.page >= 1 ==> c.sent == [Get("/characters", Some(map["q" := f.query, "page" := Itoa(f.page)]))]
  {
  }

  /** A search result row's data: jikan.Character as far as the table uses it. */
  datatype Character = Character(malId: int, name: Bytes, nameKanji: string, favorites: int)

  /** One row of the search table. */
  datatype SearchRow = SearchRow(malId: int, name: Bytes, kanji: string, favorites: int)

  /** The kanji cell: the kanji name, or "-" when there is none. */
  function KanjiCell(kanji: string): (cell: string)
    ensures cell != ""
    ensures kanji != "" ==> cell == kanji
    ensures kanji == "" ==> cell == "-"
  {
    if kanji == "" then "-" else kanji
  }

  /** A search row: the name cut to 35 bytes, the kanji cell never blank. */
  function RowOf(c: Character): (row: SearchRow)
    ensures row.malId == c.malId && row.favorites == c.favorites
    ensures |row.name| <= 35 && (|c.name| <= 35 ==> row.name == c.name)
    ensures |c.name| > 35 ==> |row.name| == 35 && row.name[..32] == c.name[..32] && row.name[32..] == Ellipsis
    ensures c.nameKanji != "" ==> row.kanji == c.nameKanji
    ensures c.nameKanji == "" ==> row.kanji == "-"
  {
    SearchRow(c.malId, Truncate(c.name, 35), KanjiCell(c.nameKanji), c.favorites)
  }

  /** A jikan.CharacterAnime or CharacterManga, as far as the listing uses it. */
  datatype Appearance = Appearance(role: string, title: Bytes)

  /** A jikan.CharacterPicture. */
  datatype Picture = Picture(imageUrl: string, largeImageUrl: string)

  /** The gallery shows the large image when there is one, the normal one otherwise. */
  function PictureUrl(p: Picture): (url: string)
    ensures p.largeImageUrl != "" ==> url == p.largeImageUrl
    ensures p.largeImageUrl == "" ==> url == p.imageUrl
  {
    if p.largeImageUrl != "" then p.largeImageUrl else p.imageUrl
  }

  /** The (role, title) row of one appearance, the title cut to 40 bytes. */
  function AppearanceRow(a: Appearance): (string, Bytes)
  {
    (a.role, Truncate(a.title, 40))
  }

  /**
   * The appearance table (anime and manga alike): the first ten appearances,
   * in order, and an "and N more" line with N = len - 10 when there are more.
   */
  method AppearanceLines(appearances: seq<Appearance>) returns (lines: seq<Line<(string, Bytes)>>)
    ensures |lines| == if |appearances| <= 10 then |appearances| else 11
    ensures forall k :: 0 <= k < |appearances| && k < 10 ==> lines[k] == Entry(AppearanceRow(appearances[k]))
    ensures |appearances| > 10 ==> lines[10] == More(|appearances| - 10)
    ensures Covered(lines) == |appearances|
  {
    var rows := seq(|appearances|, k requires 0 <= k < |appearances| => AppearanceRow(appearances[k]));
    lines := CapRows(rows, 10);
    CappedShape(rows, 10);
    CappedCovers(rows, 10);
  }

  /** The gallery: up to five picture URLs, then "N more images" for the rest. */
  method GalleryLines(pictures: seq<Picture>) returns (lines: seq<Line<string>>)
    ensures |lines| == if |pictures| <= 5 then |pictures| else 6
    ensures forall k :: 0 <= k < |pictures| && k < 5 ==> lines[k] == Entry(PictureUrl(pictures[k]))
    ensures |pictures| > 5 ==> lines[5] == More(|pictures| - 5)
  {
    var urls := seq(|pictures|, k requires 0 <= k < |pictures| => PictureUrl(pictures[k]));
    lines := CapRows(urls, 5);
    CappedShape(urls, 5);
  }
}
