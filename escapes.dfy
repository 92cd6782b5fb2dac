/**
 * Normalisation of escaped line breaks: every literal two-character text backslash-`n`
 * in a configuration value becomes a real newline character, so that multi-line keys
 * can be stored on one line of an environment file.
 */
module Escapes {

  /** The escaped line break (a backslash followed by `n`) starts at position `i` of `s`. */
  predicate EscapeAt(s: string, i: int) {
    0 <= i && i + 1 < |s| && s[i] == '\\' && s[i + 1] == 'n'
  }

  /** No escaped line break occurs anywhere in `s`. */
  predicate EscapeFree(s: string) {
    forall i | 0 <= i < |s| :: !EscapeAt(s, i)
  }

  /**
   * `s` with every escaped line break replaced by a newline, occurrences found by
   * scanning left to right without overlap (the semantics of `replaceAll`).
   */
  function Unescape(s: string): (r: string)
    ensures |r| <= |s|
  {
    if |s| < 2 then s
    else if s[0] == '\\' && s[1] == 'n' then "\n" + Unescape(s[2..])
    else [s[0]] + Unescape(s[1..])
  }

  /** The number of positions of `s` at which an escaped line break starts. */
  function EscapeCount(s: string): nat {
    if |s| < 2 then 0
    else (if EscapeAt(s, 0) then 1 else 0) + EscapeCount(s[1..])
  }

  /** Every occurrence is replaced: each one shortens the value by exactly one character. */
  lemma {:induction false} UnescapeLength(s: string)
    ensures |Unescape(s)| == |s| - EscapeCount(s)
  {
    if |s| < 2 {
    } else if s[0] == '\\' && s[1] == 'n' {
      UnescapeLength(s[2..]);
      assert !EscapeAt(s[1..], 0);
      assert s[1..][1..] == s[2..];
    } else {
      UnescapeLength(s[1..]);
    }
  }

  lemma EscapeFreeCons(c: char, t: string)
    requires EscapeFree(t)
    requires c != '\\' || t == [] || t[0] != 'n'
    ensures EscapeFree([c] + t)
  {
    var s := [c] + t;
    forall i ensures !EscapeAt(s, i) {
      if 1 <= i {
        assert !EscapeAt(t, i - 1);
      }
    }
  }

  /** The result of the normalisation holds no escaped line break. */
  lemma {:induction false} UnescapeRemovesAll(s: string)
    ensures EscapeFree(Unescape(s))
  {
    if |s| < 2 {
      assert forall i :: !EscapeAt(s, i);
    } else if s[0] == '\\' && s[1] == 'n' {
      UnescapeRemovesAll(s[2..]);
      EscapeFreeCons('\n', Unescape(s[2..]));
    } else {
      UnescapeRemovesAll(s[1..]);
      var t := s[1..];
      if s[0] == '\\' && Unescape(t) != [] {
        UnescapeHead(t);
      }
      EscapeFreeCons(s[0], Unescape(t));
    }
  }

  /** The normalisation keeps the first character unless an escaped line break starts there. */
  lemma UnescapeHead(s: string)
    requires Unescape(s) != []
    ensures Unescape(s)[0] == (if EscapeAt(s, 0) then '\n' else s[0])
  {
  }

  /** A value is left unchanged exactly when it holds no escaped line break. */
  lemma {:induction false} UnescapeFixedPoint(s: string)
    ensures Unescape(s) == s <==> EscapeFree(s)
  {
    if |s| < 2 {
      assert forall i :: !EscapeAt(s, i);
    } else if s[0] == '\\' && s[1] == 'n' {
      assert EscapeAt(s, 0);
      assert |Unescape(s)| < |s| by { UnescapeLength(s); UnescapeLength(s[2..]); }
    } else {
      UnescapeFixedPoint(s[1..]);
      if EscapeFree(s) {
        forall i ensures !EscapeAt(s[1..], i) {
          assert !EscapeAt(s, i + 1);
        }
      }
      if EscapeFree(s[1..]) {
        EscapeFreeCons(s[0], s[1..]);
        assert [s[0]] + s[1..] == s;
      }
    }
  }

  /** Normalising twice is the same as normalising once. */
  lemma {:induction false} UnescapeIdempotent(s: string)
    ensures Unescape(Unescape(s)) == Unescape(s)
  {
    UnescapeRemovesAll(s);
    UnescapeFixedPoint(Unescape(s));
  }

  /** A value without any backslash is returned unchanged. */
  lemma {:induction false} UnescapeWithoutBackslash(s: string)
    requires forall i | 0 <= i < |s| :: s[i] != '\\'
    ensures Unescape(s) == s
  {
    forall i ensures !EscapeAt(s, i) {
    }
    UnescapeFixedPoint(s);
  }

  /** The normalisation changes a value only by introducing a newline character. */
  lemma {:induction false} UnescapeChangesOnlyByNewline(s: string)
    ensures Unescape(s) == s || '\n' in Unescape(s)
  {
    if |s| < 2 {
    } else if s[0] == '\\' && s[1] == 'n' {
      assert Unescape(s)[0] == '\n';
    } else {
      UnescapeChangesOnlyByNewline(s[1..]);
      assert Unescape(s) == [s[0]] + Unescape(s[1..]);
    }
  }
}
