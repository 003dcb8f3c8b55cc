/**
 * The animeInfo example program (examples/animeInfo/main.go): its routing,
 * the search options it sends, the `join` helper and the openings listing.
 */
module AnimeInfo {
  import opened Wrappers
  import opened Decimal
  import opened Strings
  import opened Listing
  import opened Cli
  import opened Client
  import AnimeService

  /** The names of some resources, in order. */
  function Names(r: seq<Resource>): (names: seq<string>)
    ensures |names| == |r| && forall k :: 0 <= k < |r| ==> names[k] == r[k].name
  {
    seq(|r|, k requires 0 <= k < |r| => r[k].name)
  }

  /**
   * `join(r)`: a slice of len(r) filled with the names, then strings.Join with
   * ", ". No cap: every name, in input order, and "" for no resources.
   */
  method JoinNames(r: seq<Resource>) returns (s: string)
    ensures s == Join(Names(r), ", ")
    ensures r == [] ==> s == ""
    ensures forall k :: 0 <= k < |r| ==>
      Offset(Names(r), ", ", k) + |r[k].name| <= |s| &&
      s[Offset(Names(r), ", ", k)..Offset(Names(r), ", ", k) + |r[k].name|] == r[k].name
  {
    var a := new string[|r|];
    for i := 0 to |r|
      invariant forall k :: 0 <= k < i ==> a[k] == r[k].name
    {
      a[i] := r[i].name;
    }
    assert a[..] == Names(r);
    s := Join(a[..], ", ");
    forall k | 0 <= k < |r|
      ensures Offset(Names(r), ", ", k) + |r[k].name| <= |s|
      ensures s[Offset(Names(r), ", ", k)..Offset(Names(r), ", ", k) + |r[k].name|] == r[k].name
    {
      JoinLayout(Names(r), ", ", k);
    }
  }

  /** The anonymous options struct `searchAndShow` passes; the zero value of each field but Limit. */
  datatype SearchOptions = SearchOptions(
    kind: string, status: string, rating: string, genres: seq<int>,
    orderBy: string, sort: string, page: int, limit: int)

  /** `{Limit: 5}`. */
  const SearchDefaults: SearchOptions := SearchOptions("", "", "", [], "", "", 0, 5)

  /** What `main` goes on to do. */
  datatype AnimeAction =
    | NoInput                        // log.Fatal("Give me an input..")
    | SearchAnime(query: string, options: SearchOptions)
    | AnimeDetails(id: int)

  /** Exactly one route: search for a non-empty query, otherwise ByID with the id as it is. */
  function Route(t: Target): (a: AnimeAction)
    ensures a.SearchAnime? <==> t.query != ""
    ensures a.SearchAnime? ==> a.query == t.query && a.options == SearchDefaults
    ensures a.AnimeDetails? <==> t.query == ""
    ensures a.AnimeDetails? ==> a.id == t.id
  {
    if t.query != "" then SearchAnime(t.query, SearchDefaults) else AnimeDetails(t.id)
  }

  /** `main`: the optional prompt, then the dispatch. */
  method Run(t: Target, line: Option<string>) returns (a: AnimeAction)
    ensures !Prompts(t) ==> a == Route(t)
    ensures Prompts(t) && line.None? ==> a == NoInput
    ensures Prompts(t) && line.Some? ==> a == Route(Answer(t, TrimSpace(line.value)))
  {
    var r := Prompt(t, line);
    match r {
      case None => a := NoInput;
      case Some(u) => a := Route(u);
    }
  }

  /**
   * Nothing stops a blank answer: it becomes id 0, and the library, which
   * validates nothing, requests /anime/0.
   */
  lemma BlankAnswerRequestsZero<T>(t: Target, line: string, dispatch: Request -> Reply<T>)
    requires Prompts(t)
    requires forall i :: 0 <= i < |line| ==> IsSpace(line[i])
    ensures Route(Answer(t, TrimSpace(line))) == AnimeDetails(0)
    ensures AnimeService.ByID(0, dispatch).sent == [Get("/anime/0", None)]
  {
    BlankAnswers(t, line);
    assert Digits(0) == "0";
    assert "/anime/" + Itoa(0) == "/anime/0";
  }

  /** A typed id, of any sign, is requested as it is. */
  lemma TypedIdIsRequested<T>(t: Target, n: int, dispatch: Request -> Reply<T>)
    requires Prompts(t) && MinInt <= n <= MaxInt
    ensures Route(Answer(t, TrimSpace(Itoa(n)))) == AnimeDetails(n)
    ensures AnimeService.ByID(n, dispatch).sent == [Get("/anime/" + Itoa(n), None)]
  {
    TypedIdAnswers(t, n);
  }

  /** The openings: the first two, then "... and N more" for the rest. */
  method OpeningLines(openings: seq<string>) returns (lines: seq<Line<string>>)
    ensures |lines| == if |openings| <= 2 then |openings| else 3
    ensures forall k :: 0 <= k < |openings| && k < 2 ==> lines[k] == Entry(openings[k])
    ensures |openings| > 2 ==> lines[2] == More(|openings| - 2)
  {
    lines := CapRows(openings, 2);
    CappedShape(openings, 2);
  }
}
