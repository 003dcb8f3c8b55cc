/**
 * What every facade method shares: the request descriptor it hands to the
 * client's dispatcher `Do`, the dispatcher itself as an oracle, and the
 * three Go return shapes the facades produce.
 *
 * `Do` is not part of this model. It is a function parameter
 * `dispatch: Request -> Reply<T>`: a request goes in, the decoded envelope
 * or an error comes out. A facade method returns a `Call`, whose `sent` lists
 * the requests it handed to the dispatcher, in order.
 */
module Client {
  import opened Wrappers
  import Decimal

  /** http.MethodGet, the only method the facades use. */
  const MethodGet: string := "GET"

  /** url.Values; every key the facades set carries exactly one value. */
  type Query = map<string, string>

  /** One call of `Do`: HTTP method (verb), path below the versioned base URL, and the query (None is a nil url.Values). */
  datatype Request = Request(verb: string, path: string, query: Option<Query>)

  /**
   * Validation: an error built with fmt.Errorf before dispatch.
   * Dispatch: whatever error `Do` returned (transport, decoding, API status);
   * its structure belongs to the dispatcher and is not modelled.
   */
  datatype Error = Validation(message: string) | Dispatch(cause: string)

  /** The envelope's "pagination" object. */
  datatype Pagination = Pagination(lastPage: int, hasNextPage: bool, count: int, total: int, perPage: int)

  /** What `Do` leaves behind: the decoded destination `r`, or its error. */
  datatype Reply<T> = Decoded(body: T) | Failed(error: Error)

  /** The destination of a list endpoint: `struct { Data T; Pagination Pagination }`. */
  datatype Envelope<T> = Envelope(data: T, pagination: Pagination)

  /** Go's `(*T, error)` or `([]T, error)`: None is nil. */
  datatype Single<T> = Single(data: Option<T>, err: Option<Error>)

  /** Go's `([]T, *Pagination, error)`. */
  datatype Paged<T> = Paged(data: Option<T>, pagination: Option<Pagination>, err: Option<Error>)

  /** A facade call: the requests handed to `Do`, and what the method returned. */
  datatype Call<R> = Call(sent: seq<Request>, result: R)

  function Get(path: string, query: Option<Query>): Request
  {
    Request(MethodGet, path, query)
  }

  /** `url.Values{"page": {strconv.Itoa(page)}}`. */
  function PageQuery(page: int): Query
  {
    map["page" := Decimal.Itoa(page)]
  }

  /** A path with a decimal id spliced in, as fmt.Sprintf("prefix%dsuffix", id) builds it. */
  function IdPath(prefix: string, id: int, suffix: string): string
  {
    prefix + Decimal.Itoa(id) + suffix
  }

  /**
   * `if err := s.c.Do(...); err != nil { return nil, err }; return r.Data, nil`:
   * one request, then the dispatcher's data or its error.
   */
  function Fetch<T>(req: Request, dispatch: Request -> Reply<T>): Call<Single<T>>
  {
    match dispatch(req)
    case Failed(e) => Call([req], Single(None, Some(e)))
    case Decoded(body) => Call([req], Single(Some(body), None))
  }

  /** The same for list endpoints, which also return `&r.Pagination`. */
  function FetchPage<T>(req: Request, dispatch: Request -> Reply<Envelope<T>>): Call<Paged<T>>
  {
    match dispatch(req)
    case Failed(e) => Call([req], Paged(None, None, Some(e)))
    case Decoded(l) => Call([req], Paged(Some(l.data), Some(l.pagination), None))
  }

  /** A validation failure: `return nil, fmt.Errorf(...)` before any request. */
  function Refuse<T>(message: string): Call<Single<T>>
  {
    Call([], Single(None, Some(Validation(message))))
  }

  function RefusePage<T>(message: string): Call<Paged<T>>
  {
    Call([], Paged(None, None, Some(Validation(message))))
  }

  /**
   * `c` handed exactly `req` to the dispatcher, once, and returned nil data with
   * the very error it got back, or the decoded data with a nil error.
   */
  ghost predicate Sends<T>(c: Call<Single<T>>, req: Request, dispatch: Request -> Reply<T>)
  {
    && c.sent == [req]
    && match dispatch(req)
       case Failed(e) => c.result == Single(None, Some(e))
       case Decoded(body) => c.result == Single(Some(body), None)
  }

  /** As Sends, for list endpoints: on success the pagination is non-nil, on failure both are nil. */
  ghost predicate SendsPage<T>(c: Call<Paged<T>>, req: Request, dispatch: Request -> Reply<Envelope<T>>)
  {
    && c.sent == [req]
    && match dispatch(req)
       case Failed(e) => c.result == Paged(None, None, Some(e))
       case Decoded(l) => c.result == Paged(Some(l.data), Some(l.pagination), None)
  }

  /** `c` never reached the dispatcher and failed validation with `message`. */
  ghost predicate Refuses<T>(c: Call<Single<T>>, message: string)
  {
    c.sent == [] && c.result == Single(None, Some(Validation(message)))
  }

  ghost predicate RefusesPage<T>(c: Call<Paged<T>>, message: string)
  {
    c.sent == [] && c.result == Paged(None, None, Some(Validation(message)))
  }

  /** A suffix that is empty or starts a new path segment. */
  predicate SegmentSuffix(s: string)
  {
    s == "" || s[0] == '/'
  }

  /**
   * An id path determines its id and its suffix: two paths with the same
   * prefix are equal only for the same id and the same trailing segments.
   */
  lemma IdPathDetermines(prefix: string, m: int, s1: string, n: int, s2: string)
    requires SegmentSuffix(s1) && SegmentSuffix(s2)
    requires IdPath(prefix, m, s1) == IdPath(prefix, n, s2)
    ensures m == n && s1 == s2
  {
    var a, b := Decimal.Itoa(m), Decimal.Itoa(n);
    var p := IdPath(prefix, m, s1);
    Decimal.ItoaHasNoSlash(m);
    Decimal.ItoaHasNoSlash(n);
    SplitAtSlash(prefix, a, s1, b, s2);
    SplitAtSlash(prefix, b, s2, a, s1);
    assert a == p[|prefix|..|prefix| + |a|] == b;
    Decimal.ItoaInjective(m, n);
    assert s1 == p[|prefix| + |a|..] == s2;
  }

  /** The first slash after a common prefix ends a slash-free segment. */
  lemma SplitAtSlash(prefix: string, a: string, s1: string, b: string, s2: string)
    requires forall i :: 0 <= i < |a| ==> a[i] != '/'
    requires SegmentSuffix(s2)
    requires prefix + a + s1 == prefix + b + s2
    ensures |a| <= |b|
  {
    CharAt(prefix, a, s1, |b|);
    CharAt(prefix, b, s2, |b|);
  }

  /** Where the characters of the middle part and of the tail sit in a concatenation. */
  lemma CharAt(x: string, y: string, z: string, k: int)
    ensures |x + y + z| == |x| + |y| + |z|
    ensures 0 <= k < |y| ==> (x + y + z)[|x| + k] == y[k]
    ensures k == |y| && |z| > 0 ==> (x + y + z)[|x| + k] == z[0]
  {
  }

  /** A service's table of path suffixes: each starts a new segment, and no two are alike. */
  predicate DistinctSegments(endpoints: seq<string>)
  {
    && (forall k :: 0 <= k < |endpoints| ==> SegmentSuffix(endpoints[k]))
    && (forall j, k :: 0 <= j < k < |endpoints| ==> endpoints[j] != endpoints[k])
  }

  /**
   * Under one prefix, a table of distinct segment suffixes never lets two
   * calls collide: equal paths mean the same endpoint and the same id.
   */
  lemma EndpointPathsIdentify(prefix: string, endpoints: seq<string>, m: int, i: nat, n: int, j: nat)
    requires DistinctSegments(endpoints)
    requires i < |endpoints| && j < |endpoints|
    requires IdPath(prefix, m, endpoints[i]) == IdPath(prefix, n, endpoints[j])
    ensures m == n && i == j
  {
    IdPathDetermines(prefix, m, endpoints[i], n, endpoints[j]);
  }

  /** The id can be read back out of the path it was spliced into. */
  lemma IdPathNamesId(prefix: string, id: int, suffix: string)
    requires Decimal.MinInt <= id <= Decimal.MaxInt
    ensures var p := IdPath(prefix, id, suffix);
      Decimal.Atoi(p[|prefix|..|p| - |suffix|]) == Some(id)
  {
    var p := IdPath(prefix, id, suffix);
    assert p[|prefix|..|p| - |suffix|] == Decimal.Itoa(id);
    Decimal.AtoiItoa(id);
  }
}
