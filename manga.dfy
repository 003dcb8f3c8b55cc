/** MangaService (manga.go): one unvalidated endpoint. */
module MangaService {
  import opened Wrappers
  import opened Client
  import Decimal

  /** GET /manga/{id} with a nil query, for any id. */
  function ByID<T>(id: int, dispatch: Request -> Reply<T>): (c: Call<Single<T>>)
    ensures Sends(c, Get("/manga/" + Decimal.Itoa(id), None), dispatch)
  {
    assert IdPath("/manga/", id, "") == "/manga/" + Decimal.Itoa(id);
    Fetch(Get(IdPath("/manga/", id, ""), None), dispatch)
  }

  /** The request names the manga: its id reads back from the path. */
  lemma ByIDNamesManga<T>(id: int, dispatch: Request -> Reply<T>)
    requires Decimal.MinInt <= id <= Decimal.MaxInt
    ensures var p := ByID(id, dispatch).sent[0].path;
      Decimal.Atoi(p[|"/manga/"|..]) == Some(id)
  {
    IdPathNamesId("/manga/", id, "");
  }
}
