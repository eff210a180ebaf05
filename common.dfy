/** Vocabulary shared by the whole model: Java's nullable values, the
    exceptions the application throws, the few java.lang.String operations
    it relies on, and order-preserving filtering of lists. */
module Common {

  /** A Java reference that may be null. */
  datatype Option<+T> = None | Some(value: T)

  /** The exceptions that cross method boundaries in the application.
      `message` is what `getMessage()` returns (null included). */
  datatype Exception =
    | IllegalArgument(message: Option<string>)
    | IllegalState(message: Option<string>)
    | RestClient(message: Option<string>)
    | UsernameNotFound(message: Option<string>)
    | NullPointer

  /** Throwable.getMessage(). */
  function MessageOf(e: Exception): Option<string>
  {
    if e.NullPointer? then None else e.message
  }

  /** A value or the exception thrown instead of returning it. */
  datatype Result<+T> = Success(value: T) | Failure(error: Exception)

  /** How `"..." + s` renders a possibly-null string in Java. */
  function Show(s: Option<string>): string
  {
    if s.Some? then s.value else "null"
  }

  // ---------------------------------------------------------------------
  // java.lang.String
  // ---------------------------------------------------------------------

  /** Character.isWhitespace: the Unicode space, line and paragraph
      separators except the three no-break spaces, plus the ASCII controls
      U+0009..U+000D and U+001C..U+001F. */
  predicate IsWhitespace(c: char)
  {
    || ('\U{0009}' <= c <= '\U{000D}')
    || ('\U{001C}' <= c <= '\U{0020}')
    || c == '\U{1680}'
    || ('\U{2000}' <= c <= '\U{2006}')
    || ('\U{2008}' <= c <= '\U{200A}')
    || c == '\U{2028}' || c == '\U{2029}'
    || c == '\U{205F}' || c == '\U{3000}'
  }

  /** String.isBlank: empty or whitespace only. */
  predicate IsBlank(s: string)
  {
    forall i :: 0 <= i < |s| ==> IsWhitespace(s[i])
  }

  /** `s != null && !s.isBlank()`, the test every webhook URL goes through. */
  predicate HasText(s: Option<string>)
  {
    s.Some? && !IsBlank(s.value)
  }

  /** String.contains. */
  predicate Contains(s: string, part: string)
  {
    exists i :: 0 <= i <= |s| && part <= s[i..]
  }

  /** Character.toUpperCase on the letters the application meets: ASCII and
      the Polish letters of its role names and messages. */
  function UpperChar(c: char): char
  {
    if 'a' <= c <= 'z' then (c as int - 32) as char
    else if c == '\U{00F3}' then '\U{00D3}'                       // ó
    else if c in {'\U{0105}', '\U{0107}', '\U{0119}', '\U{0142}', '\U{0144}',
                  '\U{015B}', '\U{017A}', '\U{017C}'} then (c as int - 1) as char
    else c
  }

  /** Character.toLowerCase, the inverse mapping of UpperChar. */
  function LowerChar(c: char): char
  {
    if 'A' <= c <= 'Z' then (c as int + 32) as char
    else if c == '\U{00D3}' then '\U{00F3}'
    else if c in {'\U{0104}', '\U{0106}', '\U{0118}', '\U{0141}', '\U{0143}',
                  '\U{015A}', '\U{0179}', '\U{017B}'} then (c as int + 1) as char
    else c
  }

  /** String.toUpperCase, character by character. */
  function ToUpper(s: string): (r: string)
    ensures |r| == |s|
    ensures forall i :: 0 <= i < |s| ==> r[i] == UpperChar(s[i])
  {
    seq(|s|, i requires 0 <= i < |s| => UpperChar(s[i]))
  }

  /** String.toLowerCase, character by character. */
  function ToLower(s: string): (r: string)
    ensures |r| == |s|
    ensures forall i :: 0 <= i < |s| ==> r[i] == LowerChar(s[i])
  {
    seq(|s|, i requires 0 <= i < |s| => LowerChar(s[i]))
  }

  // ---------------------------------------------------------------------
  // Lists: the stream `filter(...).collect(toList())` and sublists
  // ---------------------------------------------------------------------

  /** The elements of `s` that satisfy `p`, in their original order. */
  function Filter<T>(s: seq<T>, p: T -> bool): seq<T>
  {
    if s == [] then [] else
    var rest := Filter(s[..|s| - 1], p);
    if p(s[|s| - 1]) then rest + [s[|s| - 1]] else rest
  }

  /** Removing a key just added to a map that lacked it restores the map. */
  lemma AddThenRemove<K, V>(m: map<K, V>, k: K, v: V)
    requires k !in m
    ensures m[k := v] - {k} == m
  {
    assert forall x :: x in m[k := v] - {k} <==> x in m;
  }

  /** `a` is `b` with some elements removed, the others kept in order. */
  predicate IsSubsequence<T(==)>(a: seq<T>, b: seq<T>)
  {
    if a == [] then true
    else if b == [] then false
    else if a[|a| - 1] == b[|b| - 1] then IsSubsequence(a[..|a| - 1], b[..|b| - 1])
    else IsSubsequence(a, b[..|b| - 1])
  }

  /** A subsequence keeps being one when its last element is dropped. */
  lemma {:induction false} SubsequenceDropLast<T>(a: seq<T>, b: seq<T>)
    requires a != [] && IsSubsequence(a, b)
    ensures IsSubsequence(a[..|a| - 1], b)
    decreases |b|
  {
    var a' := a[..|a| - 1];
    if a' != [] && a'[|a'| - 1] == b[|b| - 1] {
      if a[|a| - 1] == b[|b| - 1] {
        SubsequenceDropLast(a', b[..|b| - 1]);
      } else {
        SubsequenceDropLast(a, b[..|b| - 1]);
        SubsequenceDropLast(a', b[..|b| - 1]);
      }
    } else if a' != [] && a[|a| - 1] != b[|b| - 1] {
      SubsequenceDropLast(a, b[..|b| - 1]);
    }
  }

  /** Appending to the longer list keeps a subsequence one. */
  lemma SubsequenceOfLonger<T>(a: seq<T>, b: seq<T>, x: T)
    requires IsSubsequence(a, b)
    ensures IsSubsequence(a, b + [x])
  {
    assert (b + [x])[..|b|] == b;
    if a != [] && a[|a| - 1] == x {
      SubsequenceDropLast(a, b);
    }
  }

  /** Filtering keeps exactly the elements that pass, in their order. */
  lemma {:induction false} FilterSpec<T>(s: seq<T>, p: T -> bool)
    ensures forall x :: x in Filter(s, p) <==> x in s && p(x)
    ensures IsSubsequence(Filter(s, p), s)
    ensures |Filter(s, p)| <= |s|
    decreases |s|
  {
    if s != [] {
      var init, last := s[..|s| - 1], s[|s| - 1];
      assert s == init + [last];
      FilterSpec(init, p);
      if p(last) {
        assert IsSubsequence(Filter(s, p), s) by {
          assert Filter(s, p)[..|Filter(s, p)| - 1] == Filter(init, p);
        }
      } else {
        SubsequenceOfLonger(Filter(init, p), init, last);
      }
    }
  }

  /** Filtering a prefix one element longer. */
  lemma FilterStep<T>(s: seq<T>, i: nat, p: T -> bool)
    requires i < |s|
    ensures Filter(s[..i + 1], p) == if p(s[i]) then Filter(s[..i], p) + [s[i]] else Filter(s[..i], p)
  {
    assert s[..i + 1][..i] == s[..i];
  }

  lemma FilterMember<T>(s: seq<T>, p: T -> bool, x: T)
    requires x in Filter(s, p)
    ensures x in s
  {
    FilterSpec(s, p);
  }

  /** Filtering keeps any order the list is sorted by. */
  lemma {:induction false} FilterKeepsSorted<T>(s: seq<T>, p: T -> bool, leq: (T, T) -> bool)
    requires forall i, j :: 0 <= i < j < |s| ==> leq(s[i], s[j])
    ensures forall i, j :: 0 <= i < j < |Filter(s, p)| ==> leq(Filter(s, p)[i], Filter(s, p)[j])
    decreases |s|
  {
    if s != [] {
      var init, last := s[..|s| - 1], s[|s| - 1];
      FilterKeepsSorted(init, p, leq);
      var f := Filter(init, p);
      if p(last) {
        forall i | 0 <= i < |f|
          ensures leq(f[i], last)
        {
          FilterMember(init, p, f[i]);
          var k :| 0 <= k < |init| && init[k] == f[i];
          assert s[k] == f[i];
        }
      }
    }
  }
}
