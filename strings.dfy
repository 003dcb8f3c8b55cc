/** The parts of Go's `strings` package that the programs rely on. */
module Strings {

  /**
   * strings.Join: the elements in order with `sep` between neighbours; no
   * separator before the first or after the last.
   */
  function Join(xs: seq<string>, sep: string): string
    decreases |xs|
  {
    if |xs| == 0 then ""
    else if |xs| == 1 then xs[0]
    else xs[0] + sep + Join(xs[1..], sep)
  }

  /** Where element `k` starts in Join(xs, sep): the elements before it, each with its separator. */
  function Offset(xs: seq<string>, sep: string, k: nat): nat
    requires k <= |xs|
    decreases k
  {
    if k == 0 then 0 else |xs[0]| + |sep| + Offset(xs[1..], sep, k - 1)
  }

  /** A joined list of two or more: the first element, a separator, the rest joined. */
  lemma JoinCons(xs: seq<string>, sep: string)
    requires |xs| > 1
    ensures Join(xs, sep) == xs[0] + (sep + Join(xs[1..], sep))
  {
  }

  /** A slice past the first part of a concatenation is a slice of the second. */
  lemma SliceRight(a: string, b: string, i: int, j: int)
    requires |a| <= i <= j <= |a| + |b|
    ensures (a + b)[i..j] == b[i - |a|..j - |a|]
  {
  }

  /** Element `k` of a joined string sits at its offset. */
  lemma {:induction false} JoinElement(xs: seq<string>, sep: string, k: nat)
    requires k < |xs|
    ensures Offset(xs, sep, k) + |xs[k]| <= |Join(xs, sep)|
    ensures Join(xs, sep)[Offset(xs, sep, k)..Offset(xs, sep, k) + |xs[k]|] == xs[k]
    decreases k
  {
    if |xs| > 1 {
      JoinCons(xs, sep);
      var head := xs[0] + sep;
      var rest := Join(xs[1..], sep);
      assert Join(xs, sep) == head + rest;
      if k > 0 {
        JoinElement(xs[1..], sep, k - 1);
        var o := Offset(xs[1..], sep, k - 1);
        assert xs[1..][k - 1] == xs[k];
        SliceRight(head, rest, |head| + o, |head| + o + |xs[k]|);
      }
    }
  }

  /** A separator follows every element but the last. */
  lemma {:induction false} JoinSeparator(xs: seq<string>, sep: string, k: nat)
    requires k + 1 < |xs|
    ensures Offset(xs, sep, k) + |xs[k]| + |sep| <= |Join(xs, sep)|
    ensures Join(xs, sep)[Offset(xs, sep, k) + |xs[k]|..Offset(xs, sep, k) + |xs[k]| + |sep|] == sep
    decreases k
  {
    JoinCons(xs, sep);
    var head := xs[0] + sep;
    var rest := Join(xs[1..], sep);
    assert Join(xs, sep) == head + rest;
    if k > 0 {
      JoinSeparator(xs[1..], sep, k - 1);
      var o := Offset(xs[1..], sep, k - 1);
      assert xs[1..][k - 1] == xs[k];
      SliceRight(head, rest, |head| + o + |xs[k]|, |head| + o + |xs[k]| + |sep|);
    }
  }

  /** The last element ends the joined string. */
  lemma {:induction false} JoinEnd(xs: seq<string>, sep: string)
    requires |xs| > 0
    ensures Offset(xs, sep, |xs| - 1) + |xs[|xs| - 1]| == |Join(xs, sep)|
    decreases |xs|
  {
    if |xs| > 1 {
      JoinCons(xs, sep);
      JoinEnd(xs[1..], sep);
      assert xs[1..][|xs| - 2] == xs[|xs| - 1];
    }
  }

  /**
   * The layout of a joined string: element `k` sits at its offset, a separator
   * follows every element but the last, and the last element ends the string.
   */
  lemma JoinLayout(xs: seq<string>, sep: string, k: nat)
    requires k < |xs|
    ensures Offset(xs, sep, k) + |xs[k]| <= |Join(xs, sep)|
    ensures Join(xs, sep)[Offset(xs, sep, k)..Offset(xs, sep, k) + |xs[k]|] == xs[k]
    ensures k + 1 < |xs| ==> Offset(xs, sep, k) + |xs[k]| + |sep| <= |Join(xs, sep)|
    ensures k + 1 < |xs| ==> Join(xs, sep)[Offset(xs, sep, k) + |xs[k]|..Offset(xs, sep, k) + |xs[k]| + |sep|] == sep
    ensures k + 1 == |xs| ==> Offset(xs, sep, k) + |xs[k]| == |Join(xs, sep)|
  {
    JoinElement(xs, sep, k);
    if k + 1 < |xs| {
      JoinSeparator(xs, sep, k);
    } else {
      JoinEnd(xs, sep);
    }
  }

  /** unicode.IsSpace: the code points strings.TrimSpace removes. */
  predicate IsSpace(c: char)
  {
    var u := c as int;
    (0x09 <= u <= 0x0D) || u == 0x20 || u == 0x85 || u == 0xA0 || u == 0x1680
    || (0x2000 <= u <= 0x200A) || u == 0x2028 || u == 0x2029 || u == 0x202F
    || u == 0x205F || u == 0x3000
  }

  /** Drops leading white space: what remains is a suffix of `s` that starts with a non-space. */
  function TrimLeft(s: string): (t: string)
    ensures |t| <= |s| && t == s[|s| - |t|..]
    ensures |t| > 0 ==> !IsSpace(t[0])
    ensures forall i :: 0 <= i < |s| - |t| ==> IsSpace(s[i])
    decreases |s|
  {
    if |s| > 0 && IsSpace(s[0]) then TrimLeft(s[1..]) else s
  }

  /** Drops trailing white space: what remains is a prefix of `s` that ends with a non-space. */
  function TrimRight(s: string): (t: string)
    ensures |t| <= |s| && t == s[..|t|]
    ensures |t| > 0 ==> !IsSpace(t[|t| - 1])
    ensures forall i :: |t| <= i < |s| ==> IsSpace(s[i])
    decreases |s|
  {
    if |s| > 0 && IsSpace(s[|s| - 1]) then TrimRight(s[..|s| - 1]) else s
  }

  /** strings.TrimSpace. */
  function TrimSpace(s: string): (t: string)
    ensures |t| <= |s|
    ensures t == "" <==> forall i :: 0 <= i < |s| ==> IsSpace(s[i])
    ensures |t| > 0 ==> !IsSpace(t[0]) && !IsSpace(t[|t| - 1])
  {
    var l := TrimLeft(s);
    var t := TrimRight(l);
    t
  }

  /** Trimming a trimmed string changes nothing. */
  lemma TrimSpaceIdempotent(s: string)
    ensures TrimSpace(TrimSpace(s)) == TrimSpace(s)
  {
    var t := TrimSpace(s);
    if |t| > 0 {
      assert TrimLeft(t) == t;
      assert TrimRight(t) == t;
    }
  }

  /** Trimming a word padded with white space on either side gives the word. */
  lemma TrimSpacePadded(left: string, word: string, right: string)
    requires forall i :: 0 <= i < |left| ==> IsSpace(left[i])
    requires forall i :: 0 <= i < |right| ==> IsSpace(right[i])
    requires |word| > 0 && !IsSpace(word[0]) && !IsSpace(word[|word| - 1])
    ensures TrimSpace(left + word + right) == word
  {
    assert left + word + right == left + (word + right);
    TrimLeftPadded(left, word + right);
    TrimRightPadded(word, right);
  }

  lemma {:induction false} TrimLeftPadded(pad: string, rest: string)
    requires forall i :: 0 <= i < |pad| ==> IsSpace(pad[i])
    requires |rest| > 0 && !IsSpace(rest[0])
    ensures TrimLeft(pad + rest) == rest
    decreases |pad|
  {
    if pad != [] {
      assert (pad + rest)[1..] == pad[1..] + rest;
      TrimLeftPadded(pad[1..], rest);
    } else {
      assert pad + rest == rest;
    }
  }

  lemma {:induction false} TrimRightPadded(rest: string, pad: string)
    requires forall i :: 0 <= i < |pad| ==> IsSpace(pad[i])
    requires |rest| > 0 && !IsSpace(rest[|rest| - 1])
    ensures TrimRight(rest + pad) == rest
    decreases |pad|
  {
    if pad != [] {
      assert (rest + pad)[..|rest + pad| - 1] == rest + pad[..|pad| - 1];
      TrimRightPadded(rest, pad[..|pad| - 1]);
    } else {
      assert rest + pad == rest;
    }
  }
}
