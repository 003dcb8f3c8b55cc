/**
 * AnimeService (anime.go): no input is validated. Every id, zero and
 * negative ones included, and every page is forwarded to the dispatcher.
 */
module AnimeService {
  import opened Wrappers
  import opened Client
  import Decimal

  const Prefix: string := "/anime/"

  /** The path segment after the id, for ByID, Characters, Staff, Episodes and News in that order. */
  const Endpoints: seq<string> := ["", "/characters", "/staff", "/episodes", "/news"]

  /** GET /anime/{id} with a nil query, for any id. */
  function ByID<T>(id: int, dispatch: Request -> Reply<T>): (c: Call<Single<T>>)
    ensures Sends(c, Get("/anime/" + Decimal.Itoa(id), None), dispatch)
  {
    assert IdPath(Prefix, id, Endpoints[0]) == "/anime/" + Decimal.Itoa(id);
    Fetch(Get(IdPath(Prefix, id, Endpoints[0]), None), dispatch)
  }

  /** GET /anime/{id}/characters with a nil query, for any id. */
  function Characters<T>(id: int, dispatch: Request -> Reply<T>): (c: Call<Single<T>>)
    ensures Sends(c, Get("/anime/" + Decimal.Itoa(id) + "/characters", None), dispatch)
  {
    Fetch(Get(IdPath(Prefix, id, Endpoints[1]), None), dispatch)
  }

  /** GET /anime/{id}/staff with a nil query, for any id. */
  function Staff<T>(id: int, dispatch: Request -> Reply<T>): (c: Call<Single<T>>)
    ensures Sends(c, Get("/anime/" + Decimal.Itoa(id) + "/staff", None), dispatch)
  {
    Fetch(Get(IdPath(Prefix, id, Endpoints[2]), None), dispatch)
  }

  /** GET /anime/{id}/episodes?page=page, for any id and any page. */
  function Episodes<T>(id: int, page: int, dispatch: Request -> Reply<Envelope<T>>): (c: Call<Paged<T>>)
    ensures SendsPage(c, Get("/anime/" + Decimal.Itoa(id) + "/episodes", Some(map["page" := Decimal.Itoa(page)])), dispatch)
  {
    FetchPage(Get(IdPath(Prefix, id, Endpoints[3]), Some(PageQuery(page))), dispatch)
  }

  /** GET /anime/{id}/news?page=page, for any id and any page. */
  function News<T>(id: int, page: int, dispatch: Request -> Reply<Envelope<T>>): (c: Call<Paged<T>>)
    ensures SendsPage(c, Get("/anime/" + Decimal.Itoa(id) + "/news", Some(map["page" := Decimal.Itoa(page)])), dispatch)
  {
    FetchPage(Get(IdPath(Prefix, id, Endpoints[4]), Some(PageQuery(page))), dispatch)
  }

  /** Equal paths of the five endpoints mean the same endpoint and the same id. */
  lemma PathsIdentifyCall(m: int, i: nat, n: int, j: nat)
    requires i < |Endpoints| && j < |Endpoints|
    requires IdPath(Prefix, m, Endpoints[i]) == IdPath(Prefix, n, Endpoints[j])
    ensures m == n && i == j
  {
    EndpointsDistinct();
    EndpointPathsIdentify(Prefix, Endpoints, m, i, n, j);
  }

  lemma EndpointsDistinct()
    ensures DistinctSegments(Endpoints)
  {
    forall j, k | 0 <= j < k < |Endpoints|
      ensures Endpoints[j] != Endpoints[k]
    {
      assert |Endpoints[j]| != |Endpoints[k]|;
    }
  }

  /** The page query has the single key page, and it reads back as the page sent. */
  lemma PageQueryRoundTrip(page: int)
    requires Decimal.MinInt <= page <= Decimal.MaxInt
    ensures PageQuery(page).Keys == {"page"}
    ensures Decimal.Atoi(PageQuery(page)["page"]) == Some(page)
  {
    Decimal.AtoiItoa(page);
  }
}
