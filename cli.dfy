/** Helpers every example program shares: the id-or-query rule and byte-wise truncation. */
module Cli {
  import opened Wrappers
  import opened Decimal
  import opened Strings

  /** Go strings are byte strings: `len` and slicing count bytes. */
  newtype byte = b: int | 0 <= b < 0x100

  type Bytes = seq<byte>

  /** The three '.' bytes appended to a cut string. */
  const Ellipsis: Bytes := [0x2E, 0x2E, 0x2E]

  /** The ways the interactive prompt's answer is read. */
  datatype Input = IdInput(id: int) | QueryInput(query: string)

  /**
   * `if num, err := strconv.Atoi(input); err == nil { *id = num } else { *query = input }`:
   * integer input means an id, anything else a query (the empty answer included).
   */
  function Interpret(input: string): (i: Input)
    ensures i.IdInput? <==> Atoi(input).Some?
    ensures i.IdInput? ==> Atoi(input) == Some(i.id)
    ensures i.IdInput? ==> MinInt <= i.id <= MaxInt
    ensures i.QueryInput? ==> i.query == input
    ensures |input| == 0 || !(IsDigit(input[0]) || input[0] == '+' || input[0] == '-') ==> i == QueryInput(input)
  {
    match Atoi(input)
    case Some(n) => IdInput(n)
    case None => QueryInput(input)
  }

  /** An id typed back as the program would print it is read as that id. */
  lemma RenderedIdIsId(n: int)
    requires MinInt <= n <= MaxInt
    ensures Interpret(Itoa(n)) == IdInput(n)
  {
    AtoiItoa(n);
  }

  /** The `-id` and `-search` flags that mangaInfo, characterInfo and animeInfo all have. */
  datatype Target = Target(id: int, query: string)

  /** The programs prompt only when neither an id nor a query was given. */
  predicate Prompts(t: Target)
  {
    t.id == 0 && t.query == ""
  }

  /** The flags after `*id = num` or `*query = input`. */
  function Answer(t: Target, input: string): Target
  {
    match Interpret(input)
    case IdInput(n) => t.(id := n)
    case QueryInput(q) => t.(query := q)
  }

  /**
   * The prompt block at the top of each `main`: when both flags are at their
   * zero values, read one line (None when the scanner reads nothing, which is
   * fatal), trim it and store it in `*id` or `*query`.
   */
  method Prompt(t: Target, line: Option<string>) returns (r: Option<Target>)
    ensures !Prompts(t) ==> r == Some(t)
    ensures Prompts(t) && line.None? ==> r == None
    ensures Prompts(t) && line.Some? ==> r == Some(Answer(t, TrimSpace(line.value)))
  {
    var id, query := t.id, t.query;
    if id == 0 && query == "" {
      if line.None? {
        return None;
      }
      var input := TrimSpace(line.value);
      match Atoi(input) {
        case Some(n) => id := n;
        case None => query := input;
      }
    }
    r := Some(Target(id, query));
  }

  /** Typing an id, as it would be printed, sets the id and leaves the query empty. */
  lemma TypedIdAnswers(t: Target, n: int)
    requires Prompts(t) && MinInt <= n <= MaxInt
    ensures Answer(t, TrimSpace(Itoa(n))) == Target(n, "")
  {
    ItoaIsTrimmed(n);
    RenderedIdIsId(n);
  }

  /** A blank line sets nothing: id 0 and an empty query remain. */
  lemma BlankAnswers(t: Target, line: string)
    requires Prompts(t)
    requires forall i :: 0 <= i < |line| ==> IsSpace(line[i])
    ensures Answer(t, TrimSpace(line)) == Target(0, "")
  {
  }

  /** A jikan.Resource (a named link to another entry); the programs read only its name. */
  datatype Resource = Resource(name: string)

  /** A printed id has no white space around it, so trimming leaves it as it is. */
  lemma ItoaIsTrimmed(n: int)
    ensures TrimSpace(Itoa(n)) == Itoa(n)
  {
    var s := Itoa(n);
    var last := s[|s| - 1];
    if n < 0 {
      var d := s[1..];
      assert last == d[|d| - 1];
      assert IsDigit(last);
    } else {
      assert IsDigit(last);
    }
    assert !IsSpace(s[0]) && !IsSpace(last);
    assert TrimLeft(s) == s;
    assert TrimRight(s) == s;
  }

  /**
   * `truncate(s, maxLen)`: short strings unchanged; a longer one cut to exactly
   * `maxLen` bytes, its first `maxLen - 3` kept and "..." at the end. Go would
   * panic slicing `s[:maxLen-3]` for a long `s` and `maxLen < 3`; every caller
   * passes 30 or more.
   */
  function Truncate(s: Bytes, maxLen: int): (t: Bytes)
    requires |s| <= maxLen || maxLen >= 3
    ensures |s| <= maxLen ==> t == s
    ensures |s| > maxLen ==> |t| == maxLen && t[..maxLen - 3] == s[..maxLen - 3] && t[maxLen - 3..] == Ellipsis
    ensures |t| <= maxLen && |t| <= |s|
  {
    if |s| <= maxLen then s else s[..maxLen - 3] + Ellipsis
  }

  /** Because the result already fits, truncating it again changes nothing. */
  lemma TruncateIdempotent(s: Bytes, maxLen: int)
    requires |s| <= maxLen || maxLen >= 3
    ensures Truncate(Truncate(s, maxLen), maxLen) == Truncate(s, maxLen)
  {
  }
}
