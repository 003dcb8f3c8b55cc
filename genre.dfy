/**
 * GenreService (genre.go): the filter becomes a query entry only when it is
 * non-empty. The query handed over is never nil, only possibly empty.
 */
module GenreService {
  import opened Wrappers
  import opened Client

  /** `q := url.Values{}; if filter != "" { q.Set("filter", filter) }`. */
  function FilterQuery(filter: string): (q: Query)
    ensures filter == "" ==> q == map[]
    ensures filter != "" ==> q.Keys == {"filter"} && q["filter"] == filter
  {
    if filter == "" then map[] else map["filter" := filter]
  }

  /** The filter a query asks for, "" when it has no filter key. */
  function FilterOf(q: Query): string
  {
    if "filter" in q then q["filter"] else ""
  }

  /** GET /genres/anime with the filter query. */
  function Anime<T>(filter: string, dispatch: Request -> Reply<T>): (c: Call<Single<T>>)
    ensures Sends(c, Get("/genres/anime", Some(FilterQuery(filter))), dispatch)
  {
    Fetch(Get("/genres/anime", Some(FilterQuery(filter))), dispatch)
  }

  /** GET /genres/manga with the filter query. */
  function Manga<T>(filter: string, dispatch: Request -> Reply<T>): (c: Call<Single<T>>)
    ensures Sends(c, Get("/genres/manga", Some(FilterQuery(filter))), dispatch)
  {
    Fetch(Get("/genres/manga", Some(FilterQuery(filter))), dispatch)
  }

  /** The server reads back exactly the filter the caller gave, the empty one as "no filter". */
  lemma FilterRoundTrip(filter: string)
    ensures FilterOf(FilterQuery(filter)) == filter
  {
  }

  /** Anime and Manga build the same query for the same filter and differ only in the path. */
  lemma SameQueryOtherPath<T, U>(filter: string, d1: Request -> Reply<T>, d2: Request -> Reply<U>)
    ensures var a, m := Anime(filter, d1).sent[0], Manga(filter, d2).sent[0];
      a.verb == m.verb && a.query == m.query && a.path != m.path
  {
    assert "/genres/anime"[8] != "/genres/manga"[8];
  }
}
