/**
 * The lookupUser example program (examples/lookupUser/main.go): read a
 * username, trim it, refuse an empty one before anything else happens, then
 * fetch the profile.
 */
module LookupUser {
  import opened Wrappers
  import opened Strings
  import opened Client
  import UserService

  /** `na`: "N/A" stands in for a missing value. */
  function Na(s: string): (r: string)
    ensures r != ""
    ensures s != "" ==> r == s
    ensures s == "" ==> r == "N/A"
  {
    if s == "" then "N/A" else s
  }

  /** Why the program stopped with log.Fatal. */
  datatype Abort = ReadFailed | EmptyUsername | RequestFailed(error: Error)

  /**
   * One run: the requests handed to the dispatcher, whether the client was
   * created, and the profile fetched or why the run stopped.
   */
  datatype Session<U> = Session(sent: seq<Request>, created: bool, outcome: Result<U, Abort>)

  /**
   * `main` up to printing: `line` is what the scanner read, None when it read
   * nothing. Both input failures stop the program before the client exists.
   */
  function Lookup<U>(line: Option<string>, dispatch: Request -> Reply<U>): (s: Session<U>)
    ensures line.None? ==> s == Session([], false, Err(ReadFailed))
    ensures line.Some? && TrimSpace(line.value) == "" ==> s == Session([], false, Err(EmptyUsername))
    ensures line.Some? && TrimSpace(line.value) != "" ==>
      var req := Get("/users/" + TrimSpace(line.value) + "/full", None);
      && s.created && s.sent == [req]
      && match dispatch(req)
         case Failed(e) => s.outcome == Err(RequestFailed(e))
         case Decoded(u) => s.outcome == Ok(u)
  {
    match line
    case None => Session([], false, Err(ReadFailed))
    case Some(text) =>
      var username := TrimSpace(text);
      if username == "" then Session([], false, Err(EmptyUsername))
      else
        var c := UserService.ByID(username, dispatch);
        match c.result.err
        case Some(e) => Session(c.sent, true, Err(RequestFailed(e)))
        case None => Session(c.sent, true, Ok(c.result.data.value))
  }

  /** No request is made exactly when nothing was read or the line is all white space. */
  lemma NoRequestIffBlank<U>(line: Option<string>, dispatch: Request -> Reply<U>)
    ensures Lookup(line, dispatch).sent == [] <==>
      line.None? || forall i :: 0 <= i < |line.value| ==> IsSpace(line.value[i])
  {
  }

  /** The username the profile request carries is never empty and has no white space around it. */
  lemma RequestedNameIsTrimmed<U>(text: string, dispatch: Request -> Reply<U>)
    requires Lookup(Some(text), dispatch).sent != []
    ensures var p := Lookup(Some(text), dispatch).sent[0].path;
      |p| > 12 && var u := p[7..|p| - 5];
      u == TrimSpace(text) && !IsSpace(u[0]) && !IsSpace(u[|u| - 1])
  {
  }

  /** A name typed with white space around it is looked up as the bare name. */
  lemma PaddedNameIsLookedUp<U>(left: string, name: string, right: string, dispatch: Request -> Reply<U>)
    requires forall i :: 0 <= i < |left| ==> IsSpace(left[i])
    requires forall i :: 0 <= i < |right| ==> IsSpace(right[i])
    requires |name| > 0 && !IsSpace(name[0]) && !IsSpace(name[|name| - 1])
    ensures Lookup(Some(left + name + right), dispatch).sent == [Get("/users/" + name + "/full", None)]
  {
    TrimSpacePadded(left, name, right);
  }
}
