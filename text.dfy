/** JavaScript's `String.prototype.trim` and the string splitting the model needs. */
module Text {

  /**
   * The characters ECMAScript's `trim` removes: the WhiteSpace set (tab,
   * vertical tab, form feed, the byte-order mark and the space separators)
   * and the LineTerminator set (line feed, carriage return, U+2028, U+2029).
   */
  predicate IsJsWhitespace(c: char) {
    c == '\t' || c == '\n' || c == '\U{B}' || c == '\U{C}' || c == '\r' ||
    c == ' ' || c == '\U{A0}' || c == '\U{1680}' ||
    ('\U{2000}' <= c <= '\U{200A}') ||
    c == '\U{2028}' || c == '\U{2029}' || c == '\U{202F}' || c == '\U{205F}' ||
    c == '\U{3000}' || c == '\U{FEFF}'
  }

  /** `s.trimStart()`. */
  function TrimStart(s: string): string {
    if s != [] && IsJsWhitespace(s[0]) then TrimStart(s[1..]) else s
  }

  /** `s.trimEnd()`. */
  function TrimEnd(s: string): string {
    if s != [] && IsJsWhitespace(s[|s| - 1]) then TrimEnd(s[..|s| - 1]) else s
  }

  /** `s.trim()`. */
  function Trim(s: string): string {
    TrimEnd(TrimStart(s))
  }

  /** `trimStart` drops a leading run of whitespace and stops at the first other character. */
  lemma {:induction false} TrimStartShape(s: string)
    ensures |TrimStart(s)| <= |s| && TrimStart(s) == s[|s| - |TrimStart(s)|..]
    ensures TrimStart(s) != [] ==> !IsJsWhitespace(TrimStart(s)[0])
    ensures forall i :: 0 <= i < |s| - |TrimStart(s)| ==> IsJsWhitespace(s[i])
  {
    if s != [] && IsJsWhitespace(s[0]) {
      var rest := s[1..];
      TrimStartShape(rest);
      var t := TrimStart(rest);
      assert TrimStart(s) == t;
      assert rest[|rest| - |t|..] == s[|s| - |t|..];
      forall i | 0 <= i < |s| - |t| ensures IsJsWhitespace(s[i]) {
        if i > 0 {
          assert s[i] == rest[i - 1];
        }
      }
    }
  }

  /** `trimEnd` drops a trailing run of whitespace and stops at the last other character. */
  lemma {:induction false} TrimEndShape(s: string)
    ensures |TrimEnd(s)| <= |s| && TrimEnd(s) == s[..|TrimEnd(s)|]
    ensures TrimEnd(s) != [] ==> !IsJsWhitespace(TrimEnd(s)[|TrimEnd(s)| - 1])
    ensures forall i :: |TrimEnd(s)| <= i < |s| ==> IsJsWhitespace(s[i])
  {
    if s != [] && IsJsWhitespace(s[|s| - 1]) {
      TrimEndShape(s[..|s| - 1]);
    }
  }

  /** A non-empty trimmed string starts and ends with a non-whitespace character. */
  lemma TrimEnds(s: string)
    ensures Trim(s) != [] ==> !IsJsWhitespace(Trim(s)[0]) && !IsJsWhitespace(Trim(s)[|Trim(s)| - 1])
  {
    var t := TrimStart(s);
    TrimStartShape(s);
    TrimEndShape(t);
    if Trim(s) != [] {
      assert Trim(s)[0] == t[0];
    }
  }

  /** `s.trim().length > 0` holds exactly when `s` has a non-whitespace character. */
  lemma TrimNonEmpty(s: string)
    ensures |Trim(s)| > 0 <==> exists k :: 0 <= k < |s| && !IsJsWhitespace(s[k])
  {
    var t := TrimStart(s);
    TrimStartShape(s);
    TrimEndShape(t);
    if |Trim(s)| > 0 {
      var k := |s| - |t|;
      assert s[k] == t[0];
    } else {
      forall k | 0 <= k < |s| ensures IsJsWhitespace(s[k]) {
        if k >= |s| - |t| {
          assert s[k] == t[k - (|s| - |t|)];
        }
      }
    }
  }

  lemma {:induction false} TrimStartFixed(s: string)
    requires s == [] || !IsJsWhitespace(s[0])
    ensures TrimStart(s) == s
  {
  }

  lemma {:induction false} TrimEndFixed(s: string)
    requires s == [] || !IsJsWhitespace(s[|s| - 1])
    ensures TrimEnd(s) == s
  {
  }

  /** Trimming a trimmed string changes nothing. */
  lemma TrimIdempotent(s: string)
    ensures Trim(Trim(s)) == Trim(s)
  {
    var t := Trim(s);
    TrimEnds(s);
    TrimStartFixed(t);
    TrimEndFixed(t);
  }

  /** The text after the last occurrence of `sep`, or all of `s` when `sep` does not occur. */
  function AfterLast(s: string, sep: char): (r: string)
    ensures sep !in r
  {
    if s == [] then []
    else if s[|s| - 1] == sep then []
    else AfterLast(s[..|s| - 1], sep) + [s[|s| - 1]]
  }

  /** `AfterLast` yields a suffix that is either all of `s` or preceded by `sep`. */
  lemma {:induction false} AfterLastSuffix(s: string, sep: char)
    ensures var r := AfterLast(s, sep);
      |r| <= |s| && r == s[|s| - |r|..] && (|r| < |s| ==> s[|s| - |r| - 1] == sep)
  {
    if s != [] && s[|s| - 1] != sep {
      var init := s[..|s| - 1];
      AfterLastSuffix(init, sep);
      var r0 := AfterLast(init, sep);
      var k := |init| - |r0|;
      assert AfterLast(s, sep) == r0 + [s[|s| - 1]];
      assert s[k..] == init[k..] + [s[|s| - 1]];
      assert k > 0 ==> s[k - 1] == init[k - 1];
    }
  }

  /** Without `sep`, the last segment is the whole text. */
  lemma AfterLastWhole(s: string, sep: char)
    requires sep !in s
    ensures AfterLast(s, sep) == s
  {
    AfterLastSuffix(s, sep);
  }

  /** The text before the first occurrence of `sep`, or all of `s`. */
  function BeforeFirst(s: string, sep: char): (r: string)
    ensures sep !in r
    ensures |r| <= |s| && r == s[..|r|]
    ensures |r| < |s| ==> s[|r|] == sep
  {
    if s == [] then []
    else if s[0] == sep then []
    else [s[0]] + BeforeFirst(s[1..], sep)
  }

  /** Without `sep`, the first segment is the whole text. */
  lemma {:induction false} BeforeFirstWhole(s: string, sep: char)
    requires sep !in s
    ensures BeforeFirst(s, sep) == s
  {
    if s != [] {
      BeforeFirstWhole(s[1..], sep);
    }
  }

  /** `AfterLast` reads back the last segment of anything built as `prefix + [sep] + last`. */
  lemma {:induction false} AfterLastOfJoin(prefix: string, sep: char, last: string)
    requires sep !in last
    ensures AfterLast(prefix + [sep] + last, sep) == last
    decreases |last|
  {
    var s := prefix + [sep] + last;
    if last == [] {
    } else {
      var init := last[..|last| - 1];
      assert s[..|s| - 1] == prefix + [sep] + init;
      AfterLastOfJoin(prefix, sep, init);
      assert last == init + [last[|last| - 1]];
    }
  }

  /** `BeforeFirst` reads back the first segment of anything built as `first + [sep] + rest`. */
  lemma {:induction false} BeforeFirstOfJoin(first: string, sep: char, rest: string)
    requires sep !in first
    ensures BeforeFirst(first + [sep] + rest, sep) == first
  {
    var s := first + [sep] + rest;
    if first != [] {
      assert s[1..] == first[1..] + [sep] + rest;
      BeforeFirstOfJoin(first[1..], sep, rest);
    }
  }
}
