/**
 * The pieces of Go's `strings` package that the logging policy relies on:
 * splitting on a comma and lower-casing a level name.
 */
module GoStrings {

  const Comma: char := ','

  /** Number of commas in `s`. */
  function CommaCount(s: string): nat
    decreases |s|
  {
    if |s| == 0 then 0
    else (if s[0] == Comma then 1 else 0) + CommaCount(s[1..])
  }

  /**
   * `strings.Split(s, ",")`: the text between consecutive commas, in order.
   * Empty pieces are kept, so the empty string splits into one empty piece
   * and "a,,b" into three pieces.
   */
  function Split(s: string): (parts: seq<string>)
    ensures |parts| == CommaCount(s) + 1
    ensures forall i :: 0 <= i < |parts| ==> Comma !in parts[i]
    decreases |s|
  {
    if |s| == 0 then [""]
    else
      var rest := Split(s[1..]);
      if s[0] == Comma then [""] + rest
      else [[s[0]] + rest[0]] + rest[1..]
  }

  /** `strings.Join(parts, ",")`. */
  function Join(parts: seq<string>): string
    decreases |parts|
  {
    if |parts| == 0 then ""
    else if |parts| == 1 then parts[0]
    else parts[0] + [Comma] + Join(parts[1..])
  }

  /** Splitting loses nothing: joining the pieces back gives the original text. */
  lemma {:induction false} JoinSplit(s: string)
    ensures Join(Split(s)) == s
    decreases |s|
  {
    if |s| > 0 {
      var rest := Split(s[1..]);
      JoinSplit(s[1..]);
      if s[0] == Comma {
        assert Split(s) == [""] + rest;
        assert s == [Comma] + s[1..];
      } else if |rest| == 1 {
        assert Split(s) == [[s[0]] + rest[0]];
        assert s == [s[0]] + s[1..];
      } else {
        var parts := Split(s);
        assert parts == [[s[0]] + rest[0]] + rest[1..];
        assert parts[1..] == rest[1..];
        assert Join(rest) == rest[0] + [Comma] + Join(rest[1..]);
        assert s == [s[0]] + s[1..];
      }
    }
  }

  /** A comma-free prefix is glued onto the first piece of what follows it. */
  lemma {:induction false} SplitPrefix(p: string, s: string)
    requires Comma !in p
    ensures Split(p + s) == [p + Split(s)[0]] + Split(s)[1..]
    decreases |p|
  {
    if |p| > 0 {
      SplitPrefix(p[1..], s);
      assert (p + s)[1..] == p[1..] + s;
      assert p[0] != Comma;
      assert [p[0]] + (p[1..] + Split(s)[0]) == p + Split(s)[0];
    } else {
      var parts := Split(s);
      assert p + s == s;
      assert p + parts[0] == parts[0];
      assert parts == [parts[0]] + parts[1..];
    }
  }

  /** Comma-free pieces are recovered exactly by splitting their join. */
  lemma {:induction false} SplitJoin(parts: seq<string>)
    requires |parts| >= 1
    requires forall i :: 0 <= i < |parts| ==> Comma !in parts[i]
    ensures Split(Join(parts)) == parts
    decreases |parts|
  {
    if |parts| == 1 {
      SplitPrefix(parts[0], "");
      assert parts[0] + "" == parts[0];
    } else {
      var tail := Join(parts[1..]);
      SplitJoin(parts[1..]);
      assert Split([Comma] + tail) == [""] + Split(tail) by {
        assert ([Comma] + tail)[1..] == tail;
      }
      assert Join(parts) == parts[0] + ([Comma] + tail);
      SplitPrefix(parts[0], [Comma] + tail);
      assert parts[0] + "" == parts[0];
      assert parts == [parts[0]] + parts[1..];
    }
  }

  /**
   * Go's `unicode.ToLower` restricted to what matters for ASCII keys:
   * ASCII capitals, and the two non-ASCII code points whose lower-case form
   * is ASCII (U+0130 to 'i', the Kelvin sign U+212A to 'k'). Every other
   * code point is kept; Go would map some of them to other non-ASCII code
   * points, which cannot change whether an ASCII key matches.
   */
  function FoldChar(c: char): char {
    if 'A' <= c <= 'Z' then (c as int + 32) as char
    else if c == '\U{130}' then 'i'
    else if c == '\U{212A}' then 'k'
    else c
  }

  /** `strings.ToLower`, code point by code point. */
  function ToLower(s: string): (r: string)
    ensures |r| == |s|
    ensures forall i :: 0 <= i < |s| ==> r[i] == FoldChar(s[i])
  {
    seq(|s|, i requires 0 <= i < |s| => FoldChar(s[i]))
  }

  /** `k` consists of ASCII lower-case letters only. */
  predicate LowerLetters(k: string) {
    forall i :: 0 <= i < |k| ==> 'a' <= k[i] <= 'z'
  }

  /**
   * `c` is a way of writing the lower-case letter `l` in some letter case:
   * `l` itself, its ASCII capital, or, for 'i' and 'k', the non-ASCII
   * capitals U+0130 and U+212A that Go folds onto them.
   */
  predicate CaseVariantChar(c: char, l: char) {
    || c == l
    || c as int == l as int - 32
    || (c == '\U{130}' && l == 'i')
    || (c == '\U{212A}' && l == 'k')
  }

  /** `s` spells the lower-case word `k` in some mix of letter cases. */
  predicate CaseVariant(s: string, k: string) {
    |s| == |k| && forall i :: 0 <= i < |s| ==> CaseVariantChar(s[i], k[i])
  }

  /** Lower-casing a string gives the lower-case word `k` exactly when it spells `k` in some letter case. */
  lemma ToLowerMatches(s: string, k: string)
    requires LowerLetters(k)
    ensures ToLower(s) == k <==> CaseVariant(s, k)
  {
    if |s| == |k| {
      forall i | 0 <= i < |s|
        ensures FoldChar(s[i]) == k[i] <==> CaseVariantChar(s[i], k[i])
      {
        assert 'a' <= k[i] <= 'z';
      }
      if CaseVariant(s, k) {
        assert forall i :: 0 <= i < |s| ==> ToLower(s)[i] == k[i];
      }
    }
  }
}
