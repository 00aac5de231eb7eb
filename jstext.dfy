/**
 * JavaScript strings as the application sees them: sequences of UTF-16 code
 * units, which is what `length`, indexing, `substring`, `split`, `startsWith`
 * and `replace` count and compare. Only the string operations the modelled
 * code calls are defined here, each with the semantics JavaScript gives it.
 */
module JsText {

  /** One UTF-16 code unit. */
  newtype CodeUnit = x: int | 0 <= x < 0x1_0000

  type JsString = seq<CodeUnit>

  const Space: CodeUnit := 0x20
  const Hyphen: CodeUnit := 0x2D

  /** The code units of a string literal written in the model; only ASCII literals are used. */
  function Str(s: string): (r: JsString)
    ensures |r| == |s|
  {
    seq(|s|, i requires 0 <= i < |s| => (s[i] as int % 0x1_0000) as CodeUnit)
  }

  /** `s.startsWith(prefix)` */
  predicate StartsWith(s: JsString, prefix: JsString) {
    prefix <= s
  }

  /** `s.endsWith(suffix)` */
  predicate EndsWith(s: JsString, suffix: JsString) {
    |suffix| <= |s| && s[|s| - |suffix|..] == suffix
  }

  /** `s.length > n ? s.substring(0, n) + "..." : s`, the card description shortening. */
  function Truncate(s: JsString, n: nat): (r: JsString)
    ensures |s| <= n ==> r == s
    ensures |s| > n ==> |r| == n + 3 && r[..n] == s[..n] && r[n..] == Str("...")
    ensures |r| <= n + 3
  {
    if |s| > n then s[..n] + Str("...") else s
  }

  /** `s.indexOf(u)` for a one-unit needle: the first position of `u`, or -1. */
  function IndexOf(s: JsString, u: CodeUnit): (i: int)
    ensures -1 <= i < |s|
    ensures i == -1 <==> u !in s
    ensures 0 <= i ==> s[i] == u && u !in s[..i]
  {
    if s == [] then -1
    else if s[0] == u then 0
    else
      var j := IndexOf(s[1..], u);
      if j < 0 then -1
      else assert s[..j + 1] == [s[0]] + s[1..][..j]; j + 1
  }

  /** `s.replace(from, to)` with one-unit string arguments: only the first occurrence is replaced. */
  function ReplaceFirst(s: JsString, from: CodeUnit, to: CodeUnit): (r: JsString)
    ensures |r| == |s|
    ensures from !in s ==> r == s
    ensures from in s ==> r == s[..IndexOf(s, from)] + [to] + s[IndexOf(s, from) + 1..]
  {
    if s == [] then []
    else if s[0] == from then [to] + s[1..]
    else [s[0]] + ReplaceFirst(s[1..], from, to)
  }

  /** `s.split(sep)` for a one-unit separator; like JavaScript, it always yields at least one part. */
  function Split(s: JsString, sep: CodeUnit): (parts: seq<JsString>)
    ensures |parts| >= 1
    ensures forall k :: 0 <= k < |parts| ==> sep !in parts[k]
  {
    if s == [] then [[]]
    else
      var rest := Split(s[1..], sep);
      if s[0] == sep then [[]] + rest
      else [[s[0]] + rest[0]] + rest[1..]
  }

  /**
   * `parts.join(sep)` for a one-unit separator. The program itself only
   * joins with `""` (`Concat`); this exists to state the split/join round
   * trip (`JoinSplit`, `SplitJoin`).
   */
  function Join(parts: seq<JsString>, sep: CodeUnit): JsString {
    if |parts| == 0 then []
    else if |parts| == 1 then parts[0]
    else parts[0] + [sep] + Join(parts[1..], sep)
  }

  /** `parts.join("")` */
  function Concat(parts: seq<JsString>): JsString {
    if parts == [] then [] else parts[0] + Concat(parts[1..])
  }

  /** `s.toUpperCase()` restricted to ASCII: `a`..`z` become `A`..`Z`, every other unit is kept. */
  function ToUpperAscii(s: JsString): (r: JsString)
    ensures |r| == |s|
    ensures forall i :: 0 <= i < |s| ==> (r[i] == s[i] <==> !(0x61 <= s[i] <= 0x7A))
    ensures forall i :: 0 <= i < |s| ==> 0x61 <= s[i] <= 0x7A ==> r[i] as int == s[i] as int - 0x20
  {
    seq(|s|, i requires 0 <= i < |s| => if 0x61 <= s[i] <= 0x7A then s[i] - 0x20 else s[i])
  }

  /** Splitting and joining again on the same separator gives back the string. */
  lemma {:induction false} JoinSplit(s: JsString, sep: CodeUnit)
    ensures Join(Split(s, sep), sep) == s
  {
    if s != [] {
      var rest := Split(s[1..], sep);
      JoinSplit(s[1..], sep);
      if s[0] == sep {
        assert Split(s, sep) == [[]] + rest;
        assert ([[]] + rest)[1..] == rest;
      } else {
        var parts := [[s[0]] + rest[0]] + rest[1..];
        assert Split(s, sep) == parts;
        if |rest| == 1 {
          assert Join(parts, sep) == [s[0]] + rest[0];
        } else {
          assert parts[1..] == rest[1..];
          assert Join(rest, sep) == rest[0] + [sep] + Join(rest[1..], sep);
        }
      }
    }
  }

  /** Conversely, parts that do not contain the separator are recovered by splitting their join. */
  lemma {:induction false} SplitJoin(parts: seq<JsString>, sep: CodeUnit)
    requires |parts| >= 1
    requires forall k :: 0 <= k < |parts| ==> sep !in parts[k]
    ensures Split(Join(parts, sep), sep) == parts
  {
    if |parts| == 1 {
      NoSeparatorSplit(parts[0], sep);
    } else {
      var tail := Join(parts[1..], sep);
      SplitJoin(parts[1..], sep);
      SplitPrefix(parts[0], [sep] + tail, sep);
      assert Join(parts, sep) == parts[0] + ([sep] + tail);
      assert ([sep] + tail)[1..] == tail;
      assert Split([sep] + tail, sep) == [[]] + parts[1..];
      assert parts[0] + [] == parts[0];
      assert parts == [parts[0]] + parts[1..];
    }
  }

  /** A string without the separator splits into itself alone. */
  lemma {:induction false} NoSeparatorSplit(s: JsString, sep: CodeUnit)
    requires sep !in s
    ensures Split(s, sep) == [s]
  {
    if s != [] {
      NoSeparatorSplit(s[1..], sep);
      assert [s[0]] + s[1..] == s;
    }
  }

  /** A separator-free prefix glues onto the first part of what follows it. */
  lemma {:induction false} SplitPrefix(w: JsString, t: JsString, sep: CodeUnit)
    requires sep !in w
    ensures Split(w + t, sep) == [w + Split(t, sep)[0]] + Split(t, sep)[1..]
  {
    if w != [] {
      SplitPrefix(w[1..], t, sep);
      assert (w + t)[1..] == w[1..] + t;
      assert [w[0]] + (w[1..] + Split(t, sep)[0]) == w + Split(t, sep)[0];
    } else {
      var parts := Split(t, sep);
      assert w + t == t && w + parts[0] == parts[0];
      assert parts == [parts[0]] + parts[1..];
    }
  }
}
