/**
 * The mangaInfo example program (examples/mangaInfo/main.go): its routing
 * from flags and the prompt's answer, and the pure display helpers.
 */
module MangaInfo {
  import opened Wrappers
  import opened Decimal
  import opened Strings
  import opened Listing
  import opened Cli
  import opened Client
  import MangaService

  /** One entry of a manga's relations: the relation's name and the related works. */
  datatype Relation = Relation(relation: string, entry: seq<Resource>)

  /** The label of one line of a `joinResources` listing: a name, or "+N". */
  function ResourceLabel(l: Line<Resource>): string
  {
    match l
    case Entry(r) => r.name
    case More(k) => "+" + Itoa(k)
  }

  /** The items `joinResources` joins: at most `limit` names in order, then "+N" for the rest. */
  function ResourceItems(r: seq<Resource>, limit: nat): (names: seq<string>)
    ensures |names| == if |r| <= limit then |r| else limit + 1
    ensures forall k :: 0 <= k < |r| && k < limit ==> names[k] == r[k].name
    ensures |r| > limit ==> names[limit] == "+" + Itoa(|r| - limit)
  {
    var lines := Capped(r, limit);
    CappedShape(r, limit);
    seq(|lines|, k requires 0 <= k < |lines| => ResourceLabel(lines[k]))
  }

  /**
   * `joinResources(r, limit)`: "" for no resources, otherwise the items above
   * joined by ", ". A negative limit would make Go's `make` panic once there is
   * something to list.
   */
  method JoinResources(r: seq<Resource>, limit: int) returns (s: string)
    requires r == [] || limit >= 0
    ensures r == [] ==> s == ""
    ensures r != [] ==> s == Join(ResourceItems(r, limit), ", ")
  {
    if |r| == 0 {
      return "";
    }
    var lines := CapRows(r, limit);
    var names := seq(|lines|, k requires 0 <= k < |lines| => ResourceLabel(lines[k]));
    s := Join(names, ", ");
  }

  /** `nullInt`: "?" for nil, the decimal of the value otherwise. */
  function NullInt(n: Option<int>): (s: string)
    ensures s == "?" <==> n.None?
    ensures n.Some? ==> s == Itoa(n.value)
    ensures n.Some? && MinInt <= n.value <= MaxInt ==> Atoi(s) == n
  {
    match n
    case None => "?"
    case Some(v) =>
      InRangeParsesBack(v);
      assert Itoa(v)[0] == '-' || IsDigit(Itoa(v)[0]);
      Itoa(v)
  }

  lemma InRangeParsesBack(v: int)
    ensures MinInt <= v <= MaxInt ==> Atoi(Itoa(v)) == Some(v)
  {
    if MinInt <= v <= MaxInt {
      AtoiItoa(v);
    }
  }

  /** The label of one line of a relation's names: a name, or "+k more". */
  function RelationLabel(l: Line<Resource>): string
  {
    match l
    case Entry(r) => r.name
    case More(k) => "+" + Itoa(k) + " more"
  }

  /** A relation's names: at most three in order, then "+k more" for the rest. */
  function RelationNames(entry: seq<Resource>): (names: seq<string>)
    ensures |names| == if |entry| <= 3 then |entry| else 4
    ensures forall k :: 0 <= k < |entry| && k < 3 ==> names[k] == entry[k].name
    ensures |entry| > 3 ==> names[3] == "+" + Itoa(|entry| - 3) + " more"
  {
    var lines := Capped(entry, 3);
    CappedShape(entry, 3);
    seq(|lines|, k requires 0 <= k < |lines| => RelationLabel(lines[k]))
  }

  /** The printed line of a relation: its name and its names joined by ", ". */
  function RelationLine(rel: Relation): (string, string)
  {
    (rel.relation, Join(RelationNames(rel.entry), ", "))
  }

  /** The "Relations:" block: one line per relation, in order, skipping those with no entries. */
  function RelationSummary(rels: seq<Relation>): seq<(string, string)>
    decreases |rels|
  {
    if rels == [] then []
    else
      var rest := RelationSummary(rels[..|rels| - 1]);
      var last := rels[|rels| - 1];
      if last.entry == [] then rest else rest + [RelationLine(last)]
  }

  /** The loop over `m.Relations` with its `continue`, and the capped inner loop. */
  method RelationLines(rels: seq<Relation>) returns (lines: seq<(string, string)>)
    ensures lines == RelationSummary(rels)
  {
    lines := [];
    for i := 0 to |rels|
      invariant lines == RelationSummary(rels[..i])
    {
      assert rels[..i + 1][..i] == rels[..i];
      var rel := rels[i];
      if |rel.entry| == 0 {
        continue;
      }
      var capped := CapRows(rel.entry, 3);
      var names := seq(|capped|, k requires 0 <= k < |capped| => RelationLabel(capped[k]));
      lines := lines + [(rel.relation, Join(names, ", "))];
    }
    assert rels[..|rels|] == rels;
  }

  /** There are never more lines than relations. */
  lemma {:induction false} RelationSummaryLength(rels: seq<Relation>)
    ensures |RelationSummary(rels)| <= |rels|
    decreases |rels|
  {
    if rels != [] {
      RelationSummaryLength(rels[..|rels| - 1]);
    }
  }

  /** Every printed line is the line of some relation that has entries. */
  lemma {:induction false} RelationSummaryFromRelations(rels: seq<Relation>)
    ensures forall k :: 0 <= k < |RelationSummary(rels)| ==>
      exists j :: 0 <= j < |rels| && rels[j].entry != [] && RelationSummary(rels)[k] == RelationLine(rels[j])
    decreases |rels|
  {
    if rels != [] {
      var init := rels[..|rels| - 1];
      RelationSummaryFromRelations(init);
      var rest := RelationSummary(init);
      var last := rels[|rels| - 1];
      var s := RelationSummary(rels);
      assert s == if last.entry == [] then rest else rest + [RelationLine(last)];
      forall k | 0 <= k < |s|
        ensures exists j :: 0 <= j < |rels| && rels[j].entry != [] && s[k] == RelationLine(rels[j])
      {
        if k < |rest| {
          assert s[k] == rest[k];
          var j :| 0 <= j < |init| && init[j].entry != [] && rest[k] == RelationLine(init[j]);
          assert rels[j] == init[j];
        } else {
          assert last.entry != [] && s[k] == RelationLine(last);
        }
      }
    } else {
      assert RelationSummary(rels) == [];
    }
  }

  /** A relation on its own prints its line when it has entries, and nothing otherwise. */
  lemma RelationSummarySingle(r: Relation)
    ensures RelationSummary([r]) == if r.entry == [] then [] else [RelationLine(r)]
  {
    assert [r][..0] == [];
  }

  /**
   * The summary of two runs of relations is the summary of the first followed by
   * that of the second: an empty relation is skipped and the loop goes on.
   */
  lemma {:induction false} RelationSummaryAppend(a: seq<Relation>, b: seq<Relation>)
    ensures RelationSummary(a + b) == RelationSummary(a) + RelationSummary(b)
    decreases |b|
  {
    if b == [] {
      assert a + b == a;
    } else {
      var init := b[..|b| - 1];
      assert (a + b)[..|a + b| - 1] == a + init;
      assert (a + b)[|a + b| - 1] == b[|b| - 1];
      RelationSummaryAppend(a, init);
    }
  }

  /**
   * Every relation with entries is printed, at the position given by the number
   * of lines printed before it, whatever empty relations surround it.
   */
  lemma RelationSummaryKeepsAll(rels: seq<Relation>, j: int)
    requires 0 <= j < |rels| && rels[j].entry != []
    ensures var before := RelationSummary(rels[..j]);
      |before| < |RelationSummary(rels)| && RelationSummary(rels)[|before|] == RelationLine(rels[j])
  {
    assert rels == rels[..j] + ([rels[j]] + rels[j + 1..]);
    RelationSummaryAppend(rels[..j], [rels[j]] + rels[j + 1..]);
    RelationSummaryAppend([rels[j]], rels[j + 1..]);
    RelationSummarySingle(rels[j]);
  }

  /** The command-line flags, after parsing. */
  datatype MangaFlags = MangaFlags(id: int, query: string, page: int, news: bool, reviews: bool, full: bool)

  /** What `main` goes on to do. */
  datatype MangaAction =
    | NoInput                        // log.Fatal("No input provided")
    | SearchManga(query: string, page: int)
    | ShowNews(id: int, page: int)
    | ShowReviews(id: int, page: int)
    | ShowFull(id: int)
    | ShowDetails(id: int)
    | Idle                           // no query and no positive id: main returns

  /**
   * The dispatch after the prompt: a query always means search and nothing
   * else; failing that, a positive id picks news, reviews, full or details,
   * in that priority; otherwise nothing happens.
   */
  function Route(f: MangaFlags): (a: MangaAction)
    ensures a.SearchManga? <==> f.query != ""
    ensures a.SearchManga? ==> a == SearchManga(f.query, f.page)
    ensures a.Idle? <==> f.query == "" && f.id <= 0
    ensures a.ShowNews? <==> f.query == "" && f.id > 0 && f.news
    ensures a.ShowReviews? <==> f.query == "" && f.id > 0 && !f.news && f.reviews
    ensures a.ShowFull? <==> f.query == "" && f.id > 0 && !f.news && !f.reviews && f.full
    ensures a.ShowDetails? <==> f.query == "" && f.id > 0 && !f.news && !f.reviews && !f.full
    ensures a.ShowNews? || a.ShowReviews? || a.ShowFull? || a.ShowDetails? ==> a.id == f.id
    ensures a.ShowNews? || a.ShowReviews? ==> a.page == f.page
    ensures !a.NoInput?
  {
    if f.query != "" then SearchManga(f.query, f.page)
    else if f.id > 0 then
      if f.news then ShowNews(f.id, f.page)
      else if f.reviews then ShowReviews(f.id, f.page)
      else if f.full then ShowFull(f.id)
      else ShowDetails(f.id)
    else Idle
  }

  /** The prompt's target, as the flags hold it. */
  function TargetOf(f: MangaFlags): Target
  {
    Target(f.id, f.query)
  }

  /**
   * `main`: the optional prompt, with its writes to `*id` and `*query`,
   * then the dispatch. `line` is what the scanner read, None when it read nothing.
   */
  method Run(f: MangaFlags, line: Option<string>) returns (a: MangaAction)
    ensures !Prompts(TargetOf(f)) ==> a == Route(f)
    ensures Prompts(TargetOf(f)) && line.None? ==> a == NoInput
    ensures Prompts(TargetOf(f)) && line.Some? ==>
      var t := Answer(TargetOf(f), TrimSpace(line.value));
      a == Route(f.(id := t.id, query := t.query))
  {
    var r := Prompt(TargetOf(f), line);
    match r {
      case None => a := NoInput;
      case Some(t) => a := Route(f.(id := t.id, query := t.query));
    }
  }

  /** Typing a positive id at the prompt shows that manga under the flags' priority. */
  lemma TypedIdIsShown(f: MangaFlags, n: int)
    requires Prompts(TargetOf(f)) && 0 < n <= MaxInt
    ensures var t := Answer(TargetOf(f), TrimSpace(Itoa(n)));
      var a := Route(f.(id := t.id, query := t.query));
      (a.ShowNews? || a.ShowReviews? || a.ShowFull? || a.ShowDetails?) && a.id == n
  {
    TypedIdAnswers(TargetOf(f), n);
  }

  /** A blank answer becomes an empty query and, with id still 0, nothing is fetched. */
  lemma BlankAnswerIsIdle(f: MangaFlags, line: string)
    requires Prompts(TargetOf(f))
    requires forall i :: 0 <= i < |line| ==> IsSpace(line[i])
    ensures var t := Answer(TargetOf(f), TrimSpace(line));
      Route(f.(id := t.id, query := t.query)) == Idle
  {
  }

  /** The details route asks the library for that manga, with a positive id. */
  lemma DetailsFetchesManga<T>(f: MangaFlags, dispatch: Request -> Reply<T>)
    requires Route(f).ShowDetails?
    ensures f.id > 0
    ensures MangaService.ByID(f.id, dispatch).sent == [Get("/manga/" + Itoa(f.id), None)]
  {
  }
}
