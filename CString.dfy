/** C string comparison as the device dispatcher uses it: `strncmp(a, b, n) == 0`.
    A C character array is modelled as a sequence of characters that reads as
    NUL ('\0') past its end, so a shorter sequence behaves like a terminated string. */
module CString {

  /** The character at position i, NUL past the end of the array. */
  function CharAt(s: seq<char>, i: nat): char
  {
    if i < |s| then s[i] else '\0'
  }

  /** `strncmp(a + i, b + i, n - i) == 0`: compare position by position,
      stop with "equal" at a NUL common to both strings or after n characters. */
  function StrnEqFrom(a: seq<char>, b: seq<char>, i: nat, n: nat): bool
    decreases n - i
  {
    if n <= i then true
    else if CharAt(a, i) != CharAt(b, i) then false
    else if CharAt(a, i) == '\0' then true
    else StrnEqFrom(a, b, i + 1, n)
  }

  /** `strncmp(a, b, n) == 0` */
  function StrnEq(a: seq<char>, b: seq<char>, n: nat): bool
  {
    StrnEqFrom(a, b, 0, n)
  }

  /** Reference definition: the characters of s from position i that strncmp
      looks at, that is, up to the first NUL and never at or beyond position n. */
  function CPrefixFrom(s: seq<char>, i: nat, n: nat): (r: seq<char>)
    ensures i + |r| <= n || r == []
    ensures forall k :: 0 <= k < |r| ==> r[k] == CharAt(s, i + k) && r[k] != '\0'
    decreases n - i
  {
    if n <= i || CharAt(s, i) == '\0' then []
    else [CharAt(s, i)] + CPrefixFrom(s, i + 1, n)
  }

  /** The visible prefix of s: at most n characters, stopping at the first NUL. */
  function CPrefix(s: seq<char>, n: nat): seq<char>
  {
    CPrefixFrom(s, 0, n)
  }

  /** strncmp reports equality exactly when the two visible prefixes coincide. */
  lemma {:induction false} StrnEqFromIsPrefixEquality(a: seq<char>, b: seq<char>, i: nat, n: nat)
    ensures StrnEqFrom(a, b, i, n) <==> CPrefixFrom(a, i, n) == CPrefixFrom(b, i, n)
    decreases n - i
  {
    if n <= i {
    } else if CharAt(a, i) != CharAt(b, i) {
      var pa, pb := CPrefixFrom(a, i, n), CPrefixFrom(b, i, n);
      if CharAt(a, i) != '\0' && CharAt(b, i) != '\0' {
        assert pa[0] != pb[0];
      } else {
        assert |pa| != |pb|;
      }
    } else if CharAt(a, i) == '\0' {
    } else {
      StrnEqFromIsPrefixEquality(a, b, i + 1, n);
      var c := CharAt(a, i);
      var ta, tb := CPrefixFrom(a, i + 1, n), CPrefixFrom(b, i + 1, n);
      assert CPrefixFrom(a, i, n) == [c] + ta;
      assert CPrefixFrom(b, i, n) == [c] + tb;
      if [c] + ta == [c] + tb {
        assert ta == ([c] + ta)[1..];
        assert tb == ([c] + tb)[1..];
      }
    }
  }

  lemma StrnEqIsPrefixEquality(a: seq<char>, b: seq<char>, n: nat)
    ensures StrnEq(a, b, n) <==> CPrefix(a, n) == CPrefix(b, n)
  {
    StrnEqFromIsPrefixEquality(a, b, 0, n);
  }

  /** Equal-prefix comparison is an equivalence: symmetric and transitive. */
  lemma StrnEqSymmetric(a: seq<char>, b: seq<char>, n: nat)
    ensures StrnEq(a, b, n) == StrnEq(b, a, n)
  {
    StrnEqIsPrefixEquality(a, b, n);
    StrnEqIsPrefixEquality(b, a, n);
  }

  lemma StrnEqTransitive(a: seq<char>, b: seq<char>, c: seq<char>, n: nat)
    requires StrnEq(a, b, n) && StrnEq(b, c, n)
    ensures StrnEq(a, c, n)
  {
    StrnEqIsPrefixEquality(a, b, n);
    StrnEqIsPrefixEquality(b, c, n);
    StrnEqIsPrefixEquality(a, c, n);
  }

  /** Characters at or beyond position n never take part in the comparison. */
  lemma {:induction false} StrnEqIgnoresTail(a: seq<char>, b: seq<char>, t: seq<char>, i: nat, n: nat)
    requires n <= |a|
    ensures StrnEqFrom(a + t, b, i, n) == StrnEqFrom(a, b, i, n)
    decreases n - i
  {
    if n <= i {
    } else {
      assert CharAt(a + t, i) == CharAt(a, i);
      StrnEqIgnoresTail(a, b, t, i + 1, n);
    }
  }
}
