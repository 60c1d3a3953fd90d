/** The few JavaScript built-ins the modelled handlers rely on, stated over
    Dafny strings and lists: `find`, `indexOf`, `includes`, `replace` with a string pattern,
    `trim`, `slice(0, n)` and truthiness of an optional string, and the
    prefix-and-suffix split used to invert the models' message builders. */
module JsSemantics {

  /** A JavaScript value that may be `null`/`undefined` (None) or present. */
  datatype Option<T> = None | Some(value: T)

  /** `p` occurs in `s` starting at index `i`. */
  predicate OccursAt(s: string, p: string, i: int)
  {
    0 <= i && i + |p| <= |s| && s[i..i + |p|] == p
  }

  /** `s.indexOf(p, from)`: the least index at or after `from` where `p`
      occurs, or -1 when there is none. */
  function IndexOfFrom(s: string, p: string, from: nat): (r: int)
    decreases |s| - from
    ensures r == -1 || (from <= r && OccursAt(s, p, r))
    ensures r == -1 ==> forall i :: from <= i ==> !OccursAt(s, p, i)
    ensures r != -1 ==> forall i :: from <= i < r ==> !OccursAt(s, p, i)
  {
    if from + |p| > |s| then -1
    else if s[from..from + |p|] == p then from
    else IndexOfFrom(s, p, from + 1)
  }

  /** `s.indexOf(p)`. */
  function IndexOf(s: string, p: string): int
  {
    IndexOfFrom(s, p, 0)
  }

  /** `s.includes(p)`: a substring test. */
  function Includes(s: string, p: string): (b: bool)
    ensures b <==> exists i :: OccursAt(s, p, i)
  {
    IndexOf(s, p) >= 0
  }

  /** `s.replace(pattern, replacement)` with a string pattern and a
      replacement that contains no `$` (so no `$&`, `$$`, ... substitution
      applies): only the first occurrence is replaced, and the replacement
      text is not searched again. */
  function ReplaceFirst(s: string, pattern: string, replacement: string): (r: string)
    ensures (forall i :: !OccursAt(s, pattern, i)) ==> r == s
    ensures forall k {:trigger OccursAt(s, pattern, k)} ::
      OccursAt(s, pattern, k) && (forall i :: 0 <= i < k ==> !OccursAt(s, pattern, i)) ==>
        r == s[..k] + replacement + s[k + |pattern|..]
  {
    var k := IndexOf(s, pattern);
    if k < 0 then s else s[..k] + replacement + s[k + |pattern|..]
  }

  /** The second postcondition of `ReplaceFirst` for one given index. */
  lemma ReplaceFirstAtFirstOccurrence(s: string, pattern: string, replacement: string, k: int)
    requires OccursAt(s, pattern, k)
    requires forall i :: 0 <= i < k ==> !OccursAt(s, pattern, i)
    ensures ReplaceFirst(s, pattern, replacement) == s[..k] + replacement + s[k + |pattern|..]
  {
  }

  /** The index of the first element that satisfies `p`, or `|xs|` when
      none does. */
  function FirstMatchIndex<T>(xs: seq<T>, p: T -> bool): (k: nat)
    ensures k <= |xs|
    ensures forall j :: 0 <= j < k ==> !p(xs[j])
    ensures k < |xs| ==> p(xs[k])
  {
    if xs == [] || p(xs[0]) then 0
    else
      var k := FirstMatchIndex(xs[1..], p);
      assert forall j :: 1 <= j < |xs| ==> xs[j] == xs[1..][j - 1];
      1 + k
  }

  /** `xs.find(p)`: the first element in list order that satisfies `p`, or
      None (`undefined`) when there is none. */
  function Find<T>(xs: seq<T>, p: T -> bool): (r: Option<T>)
    ensures r.None? <==> forall i :: 0 <= i < |xs| ==> !p(xs[i])
    ensures r.Some? ==> exists i :: 0 <= i < |xs| && xs[i] == r.value && p(xs[i])
                                    && forall j :: 0 <= j < i ==> !p(xs[j])
  {
    var k := FirstMatchIndex(xs, p);
    if k < |xs| then Some(xs[k]) else None
  }

  /** Once some element satisfies `p`, whatever is appended after the list
      never changes what `find` returns. */
  lemma {:induction false} FindIgnoresLater<T>(xs: seq<T>, later: seq<T>, p: T -> bool)
    requires Find(xs, p).Some?
    ensures Find(xs + later, p) == Find(xs, p)
  {
    var all := xs + later;
    assert all[0] == xs[0];
    if !p(xs[0]) {
      assert all[1..] == xs[1..] + later;
      FindIgnoresLater(xs[1..], later, p);
    }
  }

  /** The characters `String.prototype.trim` removes: the WhiteSpace and
      LineTerminator code points of ECMAScript. */
  predicate IsJsWhitespace(c: char)
  {
    c == '\t' || c == '\n' || c == '\U{B}' || c == '\U{C}' || c == '\r' || c == ' '
    || c == '\U{A0}' || c == '\U{1680}' || ('\U{2000}' <= c <= '\U{200A}')
    || c == '\U{2028}' || c == '\U{2029}' || c == '\U{202F}' || c == '\U{205F}'
    || c == '\U{3000}' || c == '\U{FEFF}'
  }

  predicate AllWhitespace(s: string)
  {
    forall i :: 0 <= i < |s| ==> IsJsWhitespace(s[i])
  }

  /** Drops leading whitespace: the result is a suffix of `s`, everything
      dropped is whitespace, and it does not start with whitespace. */
  function TrimStart(s: string): (r: string)
    ensures |r| <= |s| && r == s[|s| - |r|..]
    ensures forall i :: 0 <= i < |s| - |r| ==> IsJsWhitespace(s[i])
    ensures r != [] ==> !IsJsWhitespace(r[0])
  {
    if s != [] && IsJsWhitespace(s[0]) then
      var r := TrimStart(s[1..]);
      assert forall i :: 1 <= i < |s| ==> s[i] == s[1..][i - 1];
      r
    else s
  }

  /** Drops trailing whitespace: the result is a prefix of `s`, everything
      dropped is whitespace, and it does not end with whitespace. */
  function TrimEnd(s: string): (r: string)
    ensures |r| <= |s| && r == s[..|r|]
    ensures forall i :: |r| <= i < |s| ==> IsJsWhitespace(s[i])
    ensures r != [] ==> !IsJsWhitespace(r[|r| - 1])
  {
    if s != [] && IsJsWhitespace(s[|s| - 1]) then TrimEnd(s[..|s| - 1]) else s
  }

  /** `s.trim()`. */
  function Trim(s: string): (r: string)
    ensures |r| <= |s|
    ensures r != [] ==> !IsJsWhitespace(r[0]) && !IsJsWhitespace(r[|r| - 1])
  {
    TrimEnd(TrimStart(s))
  }

  /** `!s.trim()` holds exactly when every character of `s` is whitespace. */
  lemma TrimEmptyIff(s: string)
    ensures Trim(s) == "" <==> AllWhitespace(s)
  {
    var t := TrimStart(s);
    if t == [] {
      assert s[..|s|] == s;
    } else {
      assert t[0] == s[|s| - |t|];
      assert t[0..] == t;
    }
  }

  /** `!s.trim()`: the string is empty or all whitespace. */
  function IsBlank(s: string): (b: bool)
    ensures b <==> AllWhitespace(s)
  {
    TrimEmptyIff(s);
    Trim(s) == ""
  }

  /** `s.slice(0, end)`: a negative end counts from the back, and the end is
      clamped to `[0, |s|]`. */
  function SliceTo(s: string, end: int): (r: string)
    ensures 0 <= end ==> |r| == if end < |s| then end else |s|
    ensures end < 0 ==> |r| == if |s| + end < 0 then 0 else |s| + end
    ensures r == s[..|r|]
  {
    var e := if end < 0 then (if |s| + end < 0 then 0 else |s| + end)
             else (if end < |s| then end else |s|);
    s[..e]
  }

  /** The text between `prefix` and `suffix` when `s` is made of the three,
      or None; the inverse the models use to read a value back out of a
      message built around it. */
  function Unwrap(s: string, prefix: string, suffix: string): (r: Option<string>)
    ensures r.Some? ==> prefix + r.value + suffix == s
  {
    if |prefix| + |suffix| <= |s| && s[..|prefix|] == prefix && s[|s| - |suffix|..] == suffix then
      var middle := s[|prefix|..|s| - |suffix|];
      assert s == s[..|prefix|] + middle + s[|s| - |suffix|..];
      Some(middle)
    else None
  }

  /** Unwrapping what was wrapped gives back the wrapped text. */
  lemma UnwrapWrap(prefix: string, x: string, suffix: string)
    ensures Unwrap(prefix + x + suffix, prefix, suffix) == Some(x)
  {
    var s := prefix + x + suffix;
    assert s[..|prefix|] == prefix;
    assert s[|s| - |suffix|..] == suffix;
    assert s[|prefix|..|s| - |suffix|] == x;
  }

  /** Regrouping a wrapped text: the delimiters next to the value belong
      with it. */
  lemma Enclose(before: string, open: string, x: string, close: string, after: string)
    ensures (before + open) + x + (close + after) == before + (open + x + close) + after
  {
  }

  /** `!x` for a value that is a string, `null` or `undefined`. */
  function IsFalsy(x: Option<string>): (b: bool)
    ensures !b <==> x.Some? && |x.value| > 0
  {
    x == None || x == Some("")
  }
}
