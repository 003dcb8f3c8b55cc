/** ClubService (club.go): no validation; the search query is forwarded even when empty. */
module ClubService {
  import opened Wrappers
  import opened Client
  import Decimal

  /** GET /clubs/{id} with a nil query, for any id. */
  function ByID<T>(id: int, dispatch: Request -> Reply<T>): (c: Call<Single<T>>)
    ensures Sends(c, Get("/clubs/" + Decimal.Itoa(id), None), dispatch)
  {
    assert IdPath("/clubs/", id, "") == "/clubs/" + Decimal.Itoa(id);
    Fetch(Get(IdPath("/clubs/", id, ""), None), dispatch)
  }

  /** GET /clubs?q=query&page=page for every query, the empty one included, and every page. */
  function Search<T>(query: string, page: int, dispatch: Request -> Reply<Envelope<T>>): (c: Call<Paged<T>>)
    ensures SendsPage(c, Get("/clubs", Some(map["q" := query, "page" := Decimal.Itoa(page)])), dispatch)
  {
    FetchPage(Get("/clubs", Some(map["q" := query, "page" := Decimal.Itoa(page)])), dispatch)
  }

  /** GET /clubs/{id}/members?page=page, for any id and page. */
  function Members<T>(id: int, page: int, dispatch: Request -> Reply<Envelope<T>>): (c: Call<Paged<T>>)
    ensures SendsPage(c, Get("/clubs/" + Decimal.Itoa(id) + "/members", Some(map["page" := Decimal.Itoa(page)])), dispatch)
  {
    FetchPage(Get(IdPath("/clubs/", id, "/members"), Some(PageQuery(page))), dispatch)
  }

  /** A club and a member list are never confused, and each names its club. */
  lemma PathsIdentifyCall(m: int, n: int)
    ensures IdPath("/clubs/", m, "") != IdPath("/clubs/", n, "/members")
    ensures IdPath("/clubs/", m, "/members") == IdPath("/clubs/", n, "/members") ==> m == n
    ensures IdPath("/clubs/", m, "") == IdPath("/clubs/", n, "") ==> m == n
  {
    if IdPath("/clubs/", m, "") == IdPath("/clubs/", n, "/members") {
      IdPathDetermines("/clubs/", m, "", n, "/members");
    }
    if IdPath("/clubs/", m, "/members") == IdPath("/clubs/", n, "/members") {
      IdPathDetermines("/clubs/", m, "/members", n, "/members");
    }
    if IdPath("/clubs/", m, "") == IdPath("/clubs/", n, "") {
      IdPathDetermines("/clubs/", m, "", n, "");
    }
  }
}
