/**
 * CharacterService (character.go): the one facade that validates its inputs
 * before it dispatches. Ids must be positive; Search wants a page of at
 * least 1 and a non-empty query, and checks the page first.
 */
module CharacterService {
  import opened Wrappers
  import opened Client
  import Decimal

  const Prefix: string := "/characters/"

  /** The path segment after the id, for ByID, Anime, Manga, Voices and Pictures in that order. */
  const Endpoints: seq<string> := ["", "/anime", "/manga", "/voices", "/pictures"]

  function InvalidId(id: int): string
  {
    "invalid character ID: " + Decimal.Itoa(id)
  }

  /** Validation shared by the five id endpoints, then one GET with a nil query. */
  function ById<T>(id: int, endpoint: string, dispatch: Request -> Reply<T>): Call<Single<T>>
  {
    if id <= 0 then Refuse(InvalidId(id))
    else Fetch(Get(IdPath(Prefix, id, endpoint), None), dispatch)
  }

  /** GET /characters/{id}, refused without dispatch for id <= 0. */
  function ByID<T>(id: int, dispatch: Request -> Reply<T>): (c: Call<Single<T>>)
    ensures id <= 0 ==> Refuses(c, "invalid character ID: " + Decimal.Itoa(id))
    ensures id > 0 ==> Sends(c, Get("/characters/" + Decimal.Itoa(id), None), dispatch)
  {
    assert IdPath(Prefix, id, Endpoints[0]) == "/characters/" + Decimal.Itoa(id);
    ById(id, Endpoints[0], dispatch)
  }

  /** GET /characters/{id}/anime, refused without dispatch for id <= 0. */
  function Anime<T>(id: int, dispatch: Request -> Reply<T>): (c: Call<Single<T>>)
    ensures id <= 0 ==> Refuses(c, "invalid character ID: " + Decimal.Itoa(id))
    ensures id > 0 ==> Sends(c, Get("/characters/" + Decimal.Itoa(id) + "/anime", None), dispatch)
  {
    ById(id, Endpoints[1], dispatch)
  }

  /** GET /characters/{id}/manga, refused without dispatch for id <= 0. */
  function Manga<T>(id: int, dispatch: Request -> Reply<T>): (c: Call<Single<T>>)
    ensures id <= 0 ==> Refuses(c, "invalid character ID: " + Decimal.Itoa(id))
    ensures id > 0 ==> Sends(c, Get("/characters/" + Decimal.Itoa(id) + "/manga", None), dispatch)
  {
    ById(id, Endpoints[2], dispatch)
  }

  /** GET /characters/{id}/voices, refused without dispatch for id <= 0. */
  function Voices<T>(id: int, dispatch: Request -> Reply<T>): (c: Call<Single<T>>)
    ensures id <= 0 ==> Refuses(c, "invalid character ID: " + Decimal.Itoa(id))
    ensures id > 0 ==> Sends(c, Get("/characters/" + Decimal.Itoa(id) + "/voices", None), dispatch)
  {
    ById(id, Endpoints[3], dispatch)
  }

  /** GET /characters/{id}/pictures, refused without dispatch for id <= 0. */
  function Pictures<T>(id: int, dispatch: Request -> Reply<T>): (c: Call<Single<T>>)
    ensures id <= 0 ==> Refuses(c, "invalid character ID: " + Decimal.Itoa(id))
    ensures id > 0 ==> Sends(c, Get("/characters/" + Decimal.Itoa(id) + "/pictures", None), dispatch)
  {
    ById(id, Endpoints[4], dispatch)
  }

  /**
   * GET /characters?q=query&page=page. The page is checked before the
   * query, so a bad page is reported even when the query is empty too.
   */
  function Search<T>(query: string, page: int, dispatch: Request -> Reply<Envelope<T>>): (c: Call<Paged<T>>)
    ensures page < 1 ==> RefusesPage(c, "page must be >= 1, got " + Decimal.Itoa(page))
    ensures page >= 1 && query == "" ==> RefusesPage(c, "search query cannot be empty")
    ensures page >= 1 && query != "" ==>
      SendsPage(c, Get("/characters", Some(map["q" := query, "page" := Decimal.Itoa(page)])), dispatch)
  {
    if page < 1 then RefusePage("page must be >= 1, got " + Decimal.Itoa(page))
    else if query == "" then RefusePage("search query cannot be empty")
    else FetchPage(Get("/characters", Some(map["q" := query, "page" := Decimal.Itoa(page)])), dispatch)
  }

  /**
   * The requests of the five id endpoints never collide: equal paths mean
   * the same endpoint and the same id.
   */
  lemma PathsIdentifyCall(m: int, i: nat, n: int, j: nat)
    requires i < |Endpoints| && j < |Endpoints|
    requires IdPath(Prefix, m, Endpoints[i]) == IdPath(Prefix, n, Endpoints[j])
    ensures m == n && i == j
  {
    EndpointsDistinct();
    EndpointPathsIdentify(Prefix, Endpoints, m, i, n, j);
  }

  lemma EndpointsDistinct()
    ensures DistinctSegments(Endpoints)
  {
    forall j, k | 0 <= j < k < |Endpoints|
      ensures Endpoints[j] != Endpoints[k]
    {
      assert |Endpoints[j]| != |Endpoints[k]| || Endpoints[j][1] != Endpoints[k][1];
    }
  }

  /** A dispatched search carries exactly the keys q and page, and the page reads back as sent. */
  lemma SearchQueryRoundTrip<T>(query: string, page: int, dispatch: Request -> Reply<Envelope<T>>)
    requires page >= 1 && query != "" && page <= Decimal.MaxInt
    ensures var c := Search(query, page, dispatch);
      && |c.sent| == 1 && c.sent[0].query.Some?
      && var q := c.sent[0].query.value;
      && q.Keys == {"q", "page"} && q["q"] == query
      && Decimal.Atoi(q["page"]) == Some(page)
  {
    Decimal.AtoiItoa(page);
  }
}
