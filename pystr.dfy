/**
 * Python's `str.strip()` with no argument, as the prompt handler applies it
 * to the text area's contents before deciding whether there is anything to send.
 */
module PyStr {

  /** Python's `str.isspace()` for a single character: the ASCII whitespace
      and separator controls, NEL, NO-BREAK SPACE and the Unicode spaces and
      line/paragraph separators. */
  predicate IsSpace(c: char) {
    c == ' ' || ('\t' <= c <= '\r') || ('\U{1C}' <= c <= '\U{1F}')
    || c == '\U{85}' || c == '\U{A0}' || c == '\U{1680}'
    || ('\U{2000}' <= c <= '\U{200A}')
    || c == '\U{2028}' || c == '\U{2029}' || c == '\U{202F}' || c == '\U{205F}'
    || c == '\U{3000}'
  }

  /** True when every character of `s` is whitespace (so also for ""). */
  predicate AllSpace(s: string) {
    forall k :: 0 <= k < |s| ==> IsSpace(s[k])
  }

  /** `s` without its leading whitespace. */
  function TrimStart(s: string): string {
    if s != [] && IsSpace(s[0]) then TrimStart(s[1..]) else s
  }

  /** `s` without its trailing whitespace. */
  function TrimEnd(s: string): string {
    if s != [] && IsSpace(s[|s| - 1]) then TrimEnd(s[..|s| - 1]) else s
  }

  /** `s.strip()`. */
  function Strip(s: string): string {
    TrimEnd(TrimStart(s))
  }

  /** TrimStart keeps a suffix of `s`, everything it removes is whitespace,
      and what it keeps does not start with whitespace. */
  lemma {:induction false} TrimStartSpec(s: string)
    ensures |TrimStart(s)| <= |s| && TrimStart(s) == s[|s| - |TrimStart(s)|..]
    ensures AllSpace(s[..|s| - |TrimStart(s)|])
    ensures TrimStart(s) != [] ==> !IsSpace(TrimStart(s)[0])
  {
    if s != [] && IsSpace(s[0]) {
      TrimStartSpec(s[1..]);
      var r := TrimStart(s);
      forall k | 0 <= k < |s| - |r| ensures IsSpace(s[k]) {
        if k > 0 { assert s[k] == s[1..][..|s| - 1 - |r|][k - 1]; }
      }
    }
  }

  /** TrimEnd keeps a prefix of `s`, everything it removes is whitespace,
      and what it keeps does not end with whitespace. */
  lemma {:induction false} TrimEndSpec(s: string)
    ensures |TrimEnd(s)| <= |s| && TrimEnd(s) == s[..|TrimEnd(s)|]
    ensures AllSpace(s[|TrimEnd(s)|..])
    ensures TrimEnd(s) != [] ==> !IsSpace(TrimEnd(s)[|TrimEnd(s)| - 1])
  {
    if s != [] && IsSpace(s[|s| - 1]) {
      var s' := s[..|s| - 1];
      TrimEndSpec(s');
      var r := TrimEnd(s);
      forall k | |r| <= k < |s| ensures IsSpace(s[k]) {
        if k < |s| - 1 { assert s'[|r|..][k - |r|] == s[k]; }
      }
      assert s'[..|r|] == s[..|r|];
    }
  }

  /** When s[..i] is whitespace and s[i] (if any) is not, TrimStart cuts exactly i characters. */
  lemma {:induction false} TrimStartAt(s: string, i: nat)
    requires i <= |s| && AllSpace(s[..i])
    requires i < |s| ==> !IsSpace(s[i])
    ensures TrimStart(s) == s[i..]
  {
    if i > 0 {
      assert s[..i][0] == s[0];
      assert s[1..][..i - 1] == s[1..i];
      assert forall k :: 0 <= k < i - 1 ==> s[1..i][k] == s[..i][k + 1];
      TrimStartAt(s[1..], i - 1);
      assert s[1..][i - 1..] == s[i..];
    }
  }

  /** When s[j..] is whitespace and s[j - 1] (if any) is not, TrimEnd keeps exactly j characters. */
  lemma {:induction false} TrimEndAt(s: string, j: nat)
    requires j <= |s| && AllSpace(s[j..])
    requires 0 < j ==> !IsSpace(s[j - 1])
    ensures TrimEnd(s) == s[..j]
  {
    if j < |s| {
      var s' := s[..|s| - 1];
      assert s[j..][|s| - 1 - j] == s[|s| - 1];
      assert forall k :: 0 <= k < |s'| - j ==> s'[j..][k] == s[j..][k];
      TrimEndAt(s', j);
      assert s'[..j] == s[..j];
    }
  }

  /** A text made only of whitespace strips to the empty string. */
  lemma {:induction false} StripAllSpace(s: string)
    requires AllSpace(s)
    ensures Strip(s) == []
  {
    assert s[..|s|] == s;
    TrimStartAt(s, |s|);
  }

  /** The non-empty case of StripUnique: s[i..j] starts and ends with a
      non-space and only whitespace surrounds it. */
  lemma {:induction false} StripInfix(s: string, i: nat, j: nat)
    requires i < j <= |s|
    requires AllSpace(s[..i]) && AllSpace(s[j..])
    requires !IsSpace(s[i]) && !IsSpace(s[j - 1])
    ensures Strip(s) == s[i..j]
  {
    var t := s[i..];
    TrimStartAt(s, i);
    assert t[j - i..] == s[j..];
    assert t[j - i - 1] == s[j - 1];
    TrimEndAt(t, j - i);
    assert TrimEnd(t) == s[i..j] by {
      assert |t[..j - i]| == j - i;
      forall k | 0 <= k < j - i ensures t[..j - i][k] == s[i..j][k] {
        assert t[k] == s[i + k];
      }
    }
  }

  /** Strip is THE infix of `s` surrounded only by whitespace and neither
      starting nor ending with whitespace: any such infix s[i..j] is Strip(s). */
  lemma {:induction false} StripUnique(s: string, i: nat, j: nat)
    requires i <= j <= |s|
    requires AllSpace(s[..i]) && AllSpace(s[j..])
    requires i < j ==> !IsSpace(s[i]) && !IsSpace(s[j - 1])
    ensures Strip(s) == s[i..j]
  {
    if i == j {
      forall k | 0 <= k < |s| ensures IsSpace(s[k]) {
        if k < i { assert s[..i][k] == s[k]; } else { assert s[j..][k - j] == s[k]; }
      }
      StripAllSpace(s);
    } else {
      StripInfix(s, i, j);
    }
  }

  /** The stripped text is empty exactly when the text is all whitespace. */
  lemma StripEmptyIff(s: string)
    ensures Strip(s) == [] <==> AllSpace(s)
  {
    var t := TrimStart(s);
    var p := |s| - |t|;
    TrimStartSpec(s);
    TrimEndSpec(t);
    if Strip(s) == [] {
      assert t[0..] == t;
      assert s == s[..p] + t;
    }
    if AllSpace(s) {
      StripAllSpace(s);
    }
  }

  /** The stripped text neither starts nor ends with whitespace. */
  lemma StripShape(s: string)
    ensures Strip(s) != [] ==> !IsSpace(Strip(s)[0]) && !IsSpace(Strip(s)[|Strip(s)| - 1])
  {
    var t := TrimStart(s);
    var u := TrimEnd(t);
    TrimStartSpec(s);
    TrimEndSpec(t);
    if u != [] {
      assert u[0] == t[0];
    }
  }

  /** Stripping twice is stripping once. */
  lemma StripIdempotent(s: string)
    ensures Strip(Strip(s)) == Strip(s)
  {
    var r := Strip(s);
    StripShape(s);
    assert r[..0] == [] && r[|r|..] == [];
    StripUnique(r, 0, |r|);
    assert r[0..|r|] == r;
  }
}
