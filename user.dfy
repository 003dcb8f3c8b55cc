/**
 * UserService (user.go): the username is spliced into the path as it is,
 * without escaping and without an emptiness check.
 */
module UserService {
  import opened Wrappers
  import opened Client
  import Decimal

  /** GET /users/{username}/full with a nil query. */
  function ByID<T>(username: string, dispatch: Request -> Reply<T>): (c: Call<Single<T>>)
    ensures Sends(c, Get("/users/" + username + "/full", None), dispatch)
  {
    Fetch(Get("/users/" + username + "/full", None), dispatch)
  }

  /** GET /users/{username}/history?page=page. */
  function History<T>(username: string, page: int, dispatch: Request -> Reply<Envelope<T>>): (c: Call<Paged<T>>)
    ensures SendsPage(c, Get("/users/" + username + "/history", Some(map["page" := Decimal.Itoa(page)])), dispatch)
  {
    FetchPage(Get("/users/" + username + "/history", Some(PageQuery(page))), dispatch)
  }

  /**
   * The path hands the username over verbatim: it is exactly what sits
   * between "/users/" and the endpoint, so distinct users get distinct paths.
   */
  lemma ByIDCarriesUsername<T>(username: string, dispatch: Request -> Reply<T>)
    ensures var p := ByID(username, dispatch).sent[0].path;
      |p| == |username| + 12 && p[7..|p| - 5] == username
  {
  }

  /** A profile request and a history request never share a path, whatever the usernames. */
  lemma ProfileIsNotHistory(u1: string, u2: string)
    ensures "/users/" + u1 + "/full" != "/users/" + u2 + "/history"
  {
    LastChar("/users/" + u1, "/full");
    LastChar("/users/" + u2, "/history");
  }

  lemma LastChar(x: string, y: string)
    requires |y| > 0
    ensures (x + y)[|x + y| - 1] == y[|y| - 1]
  {
  }

  /** The empty username is not rejected: it yields the path "/users//full". */
  lemma EmptyUsernameIsSent<T>(dispatch: Request -> Reply<T>)
    ensures ByID("", dispatch).sent == [Get("/users//full", None)]
  {
    assert "/users/" + "" + "/full" == "/users//full";
  }
}
