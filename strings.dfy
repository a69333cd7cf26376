/** The few string operations of Go's `strings` package that the core uses. */
module Strings {

  /** strings.TrimPrefix: `s` without the leading `prefix`, or `s` itself when
      it does not start with `prefix`. */
  function TrimPrefix(s: string, prefix: string): (r: string)
    ensures |r| <= |s|
    ensures prefix <= s ==> |r| == |s| - |prefix|
    ensures !(prefix <= s) ==> r == s
  {
    if prefix <= s then s[|prefix|..] else s
  }

  /** What is trimmed is exactly the prefix: putting it back gives the input,
      so the result is a suffix of `s`. */
  lemma TrimPrefixRejoins(s: string, prefix: string)
    ensures prefix <= s ==> prefix + TrimPrefix(s, prefix) == s
    ensures TrimPrefix(s, prefix) == s[|s| - |TrimPrefix(s, prefix)|..]
  {
    if prefix <= s {
      assert s == s[..|prefix|] + s[|prefix|..];
    }
  }

  /** Trimming a prefix undoes prepending it. */
  lemma TrimPrefixOfConcat(prefix: string, rest: string)
    ensures TrimPrefix(prefix + rest, prefix) == rest
  {
    assert prefix <= prefix + rest;
    assert (prefix + rest)[|prefix|..] == rest;
  }

  /** A tail of a tail of `a` is a tail of `a`. */
  lemma SuffixOfSuffix(a: string, b: string, c: string)
    requires |b| <= |a| && b == a[|a| - |b|..]
    requires |c| <= |b| && c == b[|b| - |c|..]
    ensures c == a[|a| - |c|..]
  {
    forall k | 0 <= k < |c|
      ensures c[k] == a[|a| - |c| + k]
    {
      assert c[k] == b[|b| - |c| + k];
      assert b[|b| - |c| + k] == a[|a| - |b| + (|b| - |c| + k)];
    }
  }

  /** strings.Join: the elements in order with `sep` between neighbours. */
  function Join(elems: seq<string>, sep: string): (joined: string)
    ensures |joined| >= TotalLength(elems)
  {
    if |elems| == 0 then ""
    else if |elems| == 1 then elems[0]
    else elems[0] + sep + Join(elems[1..], sep)
  }

  /** Total length of the elements of `elems`. */
  function TotalLength(elems: seq<string>): nat
  {
    if elems == [] then 0 else |elems[0]| + TotalLength(elems[1..])
  }

  /** A joined string holds every element once and exactly one separator
      between each pair of neighbours: nothing is added or dropped. */
  lemma {:induction false} JoinLength(elems: seq<string>, sep: string)
    requires elems != []
    ensures |Join(elems, sep)| == TotalLength(elems) + (|elems| - 1) * |sep|
  {
    if |elems| > 1 {
      JoinLength(elems[1..], sep);
      assert (|elems| - 1) * |sep| == (|elems| - 2) * |sep| + |sep|;
    }
  }

  /** Joining two non-empty lists puts one separator between their joins. */
  lemma {:induction false} JoinConcat(front: seq<string>, back: seq<string>, sep: string)
    requires front != [] && back != []
    ensures Join(front + back, sep) == Join(front, sep) + sep + Join(back, sep)
  {
    if |front| == 1 {
      assert (front + back)[1..] == back;
    } else {
      assert (front + back)[1..] == front[1..] + back;
      JoinConcat(front[1..], back, sep);
    }
  }

  /** Every element can be found in the joined string: `at` is where. */
  lemma JoinHoldsElement(elems: seq<string>, sep: string, i: int) returns (at: nat)
    requires 0 <= i < |elems|
    ensures at + |elems[i]| <= |Join(elems, sep)|
    ensures Join(elems, sep)[at..at + |elems[i]|] == elems[i]
  {
    var tail := elems[i..];
    assert Join(tail, sep)[..|elems[i]|] == elems[i];
    if i == 0 {
      assert tail == elems;
      at := 0;
    } else {
      assert elems == elems[..i] + tail;
      JoinConcat(elems[..i], tail, sep);
      var lead := Join(elems[..i], sep) + sep;
      assert Join(elems, sep) == lead + Join(tail, sep);
      at := |lead|;
      assert Join(elems, sep)[at..at + |elems[i]|] == Join(tail, sep)[..|elems[i]|];
    }
  }
}
