/**
 * The few Python `str` operations the core relies on: `isspace`, `strip`,
 * `split(sep, 1)`, substring `in`, and the `x or y` idiom on optional strings.
 */
module PyText {
  import opened Wrappers

  /** `c.isspace()`: the characters Python treats as whitespace. */
  predicate IsSpace(c: char) {
    || c == ' '
    || ('\t' <= c <= '\r')
    || ('\U{1c}' <= c <= '\U{1f}')
    || c == '\U{85}' || c == '\U{a0}' || c == '\U{1680}'
    || ('\U{2000}' <= c <= '\U{200a}')
    || c == '\U{2028}' || c == '\U{2029}' || c == '\U{202f}' || c == '\U{205f}' || c == '\U{3000}'
  }

  /** Every character of `s` is whitespace (vacuously true of ""). */
  predicate AllSpace(s: string) {
    forall i :: 0 <= i < |s| ==> IsSpace(s[i])
  }

  /** `s.lstrip()` */
  function TrimStart(s: string): (r: string)
    decreases |s|
  {
    if s != [] && IsSpace(s[0]) then TrimStart(s[1..]) else s
  }

  /** `s.rstrip()` */
  function TrimEnd(s: string): (r: string)
    decreases |s|
  {
    if s != [] && IsSpace(s[|s| - 1]) then TrimEnd(s[..|s| - 1]) else s
  }

  /** `lstrip` removes a prefix of whitespace and stops at the first other character. */
  lemma {:induction false} TrimStartFacts(s: string)
    ensures |TrimStart(s)| <= |s| && TrimStart(s) == s[|s| - |TrimStart(s)|..]
    ensures AllSpace(s[..|s| - |TrimStart(s)|])
    ensures TrimStart(s) == [] || !IsSpace(TrimStart(s)[0])
    decreases |s|
  {
    if s != [] && IsSpace(s[0]) {
      TrimStartFacts(s[1..]);
      var k := |s| - |TrimStart(s)|;
      assert s[1..][..k - 1] == s[1..k];
      assert forall i :: 0 < i < k ==> s[i] == s[1..k][i - 1];
    }
  }

  /** `rstrip` removes a suffix of whitespace and stops at the last other character. */
  lemma {:induction false} TrimEndFacts(s: string)
    ensures |TrimEnd(s)| <= |s| && TrimEnd(s) == s[..|TrimEnd(s)|]
    ensures AllSpace(s[|TrimEnd(s)|..])
    ensures TrimEnd(s) == [] || !IsSpace(TrimEnd(s)[|TrimEnd(s)| - 1])
    decreases |s|
  {
    if s != [] && IsSpace(s[|s| - 1]) {
      var s' := s[..|s| - 1];
      TrimEndFacts(s');
      var k := |TrimEnd(s)|;
      assert s'[..k] == s[..k];
      assert forall i :: k <= i < |s| - 1 ==> s[i] == s'[k..][i - k];
    }
  }

  /** `s.strip()`: `s` without its leading and trailing whitespace. */
  function Strip(s: string): (r: string)
    ensures r == [] <==> AllSpace(s)
    ensures r == [] || (!IsSpace(r[0]) && !IsSpace(r[|r| - 1]))
    ensures exists i, j :: 0 <= i <= j <= |s| && r == s[i..j] && AllSpace(s[..i]) && AllSpace(s[j..])
  {
    StripParts(s);
    StripSlice(s);
    TrimEnd(TrimStart(s))
  }

  lemma StripParts(s: string)
    ensures TrimEnd(TrimStart(s)) == [] <==> AllSpace(s)
    ensures TrimEnd(TrimStart(s)) == [] ||
              (!IsSpace(TrimEnd(TrimStart(s))[0]) && !IsSpace(TrimEnd(TrimStart(s))[|TrimEnd(TrimStart(s))| - 1]))
  {
    var t := TrimStart(s);
    var r := TrimEnd(t);
    TrimStartFacts(s);
    TrimEndFacts(t);
    var lo := |s| - |t|;
    if r == [] {
      assert t == [];
      forall i | 0 <= i < |s| ensures IsSpace(s[i]) {
        assert s[i] == s[..lo][i];
      }
    } else {
      assert r[0] == t[0];
      assert s[lo] == t[0];
    }
  }

  /** `strip` keeps a slice of `s`, with only whitespace on either side of it. */
  lemma StripSlice(s: string)
    ensures |TrimStart(s)| <= |s|
    ensures var lo := |s| - |TrimStart(s)|;
            var hi := lo + |TrimEnd(TrimStart(s))|;
            hi <= |s| && TrimEnd(TrimStart(s)) == s[lo..hi] && AllSpace(s[..lo]) && AllSpace(s[hi..])
  {
    var t := TrimStart(s);
    var r := TrimEnd(t);
    TrimStartFacts(s);
    TrimEndFacts(t);
    var lo, hi := |s| - |t|, |s| - |t| + |r|;
    assert t == s[lo..];
    assert r == t[..|r|] == s[lo..hi];
    assert forall i :: 0 <= i < |s| - hi ==> s[hi..][i] == t[|r|..][i];
  }

  /** A text that starts and ends with non-whitespace is its own `strip`, even after one leading space. */
  lemma StripTrimmed(s: string)
    requires s != [] && !IsSpace(s[0]) && !IsSpace(s[|s| - 1])
    ensures Strip(s) == s && Strip(" " + s) == s
  {
    assert (" " + s)[1..] == s;
  }

  /** Python's truth value of a string: `if s.strip():` holds exactly for a non-blank `s`. */
  predicate IsBlank(s: string) {
    Strip(s) == []
  }

  /** The index of the first `c` in `s`, if there is one. */
  function IndexOf(s: string, c: char): (r: Option<nat>)
    ensures r.None? <==> c !in s
    ensures r.Some? ==> r.value < |s| && s[r.value] == c && c !in s[..r.value]
    decreases |s|
  {
    if s == [] then None
    else if s[0] == c then Some(0)
    else match IndexOf(s[1..], c)
      case None => None
      case Some(i) => assert s[1..][..i] == s[1..i + 1]; Some(i + 1)
  }

  /** The first `c` after text without one. */
  lemma {:induction false} IndexOfAfter(head: string, c: char, tail: string)
    requires c !in head
    ensures IndexOf(head + [c] + tail, c) == Some(|head|)
    decreases |head|
  {
    if head != [] {
      assert (head + [c] + tail)[1..] == head[1..] + [c] + tail;
      IndexOfAfter(head[1..], c, tail);
    }
  }

  /**
   * `s.split(sep, 1)` unpacked into two names: the text before the first
   * `sep` and everything after it. `None` when `sep` does not occur, where
   * the two-way unpack raises `ValueError`.
   */
  function SplitOnce(s: string, sep: char): (r: Option<(string, string)>)
    ensures r.None? <==> sep !in s
    ensures r.Some? ==> r.value.0 + [sep] + r.value.1 == s && sep !in r.value.0
  {
    match IndexOf(s, sep)
    case None => None
    case Some(i) => assert s == s[..i] + [sep] + s[i + 1..]; Some((s[..i], s[i + 1..]))
  }

  /** Splitting is unique: the first separator is the one after a separator-free head. */
  lemma SplitOnceOf(head: string, sep: char, tail: string)
    requires sep !in head
    ensures SplitOnce(head + [sep] + tail, sep) == Some((head, tail))
  {
    var s := head + [sep] + tail;
    assert s[|head|] == sep;
    var f := SplitOnce(s, sep).value.0;
    assert |f| == |head|;
    var g := SplitOnce(s, sep).value.1;
    assert f == s[..|head|] == head;
    assert s == f + [sep] + g;
    assert g == s[|head| + 1..] == tail;
  }

  /** `sub` occurs in `s` starting at index `i`. */
  predicate OccursAt(s: string, sub: string, i: nat) {
    i + |sub| <= |s| && s[i..i + |sub|] == sub
  }

  /** `sub in s` for strings. */
  function Contains(s: string, sub: string): bool
    decreases |s|
  {
    if |sub| > |s| then false
    else if s[..|sub|] == sub then true
    else Contains(s[1..], sub)
  }

  /** `Contains` is exactly "occurs at some index". */
  lemma {:induction false} ContainsIff(s: string, sub: string)
    ensures Contains(s, sub) <==> exists i: nat :: OccursAt(s, sub, i)
    decreases |s|
  {
    if |sub| > |s| {
    } else if s[..|sub|] == sub {
      assert OccursAt(s, sub, 0);
    } else {
      ContainsIff(s[1..], sub);
      if Contains(s[1..], sub) {
        var i: nat :| OccursAt(s[1..], sub, i);
        assert s[1..][i..i + |sub|] == s[i + 1..i + 1 + |sub|];
        assert OccursAt(s, sub, i + 1);
      } else {
        forall i: nat | OccursAt(s, sub, i) ensures false {
          if i > 0 {
            assert s[1..][i - 1..i - 1 + |sub|] == s[i..i + |sub|];
            assert OccursAt(s[1..], sub, i - 1);
          }
        }
      }
    }
  }

  /**
   * Python's `x or fallback` where `x` is an optional string: `None` and the
   * empty string are falsy and give `fallback`, any other string gives itself.
   */
  function OrElse(x: Option<string>, fallback: string): (r: string)
    ensures r == fallback || (x.Some? && r == x.value)
    ensures r == fallback <== (x.None? || x.value == "")
    ensures x.Some? && x.value != "" ==> r == x.value
  {
    if x.Some? && x.value != "" then x.value else fallback
  }
}
