/** The JavaScript string operations the core relies on: `trim`, `split` on a
    character or on white space, `join`, `filter(Boolean)` and a one-shot
    `replace` of a literal pattern. Strings are sequences of Unicode scalar
    values; JavaScript counts UTF-16 code units, which differs only for
    characters outside the Basic Multilingual Plane. */
module Text {

  /** JavaScript white space: the characters `trim` removes, `\s` matches and
      `parseInt` skips (ECMAScript WhiteSpace and LineTerminator, with every
      character of Unicode category Zs). */
  predicate IsSpace(c: char) {
    || c == ' ' || c == '\t' || c == '\n' || c == '\r'
    || c == '\U{000B}' || c == '\U{000C}' || c == '\U{00A0}' || c == '\U{1680}'
    || ('\U{2000}' <= c <= '\U{200A}')
    || c == '\U{2028}' || c == '\U{2029}' || c == '\U{202F}' || c == '\U{205F}'
    || c == '\U{3000}' || c == '\U{FEFF}'
  }

  /** No white space anywhere in `s`. */
  predicate NoSpace(s: string) {
    forall i :: 0 <= i < |s| ==> !IsSpace(s[i])
  }

  /** Neither the first nor the last character of `s` is white space. */
  predicate NoSpaceAtEnds(s: string) {
    s == [] || (!IsSpace(s[0]) && !IsSpace(s[|s| - 1]))
  }

  /** `s.trimStart()`: drops the white space at the front and nothing else. */
  function TrimStart(s: string): (r: string)
    ensures |r| <= |s| && r == s[|s| - |r|..]
    ensures r == [] || !IsSpace(r[0])
    ensures forall i :: 0 <= i < |s| - |r| ==> IsSpace(s[i])
    ensures s != [] && IsSpace(s[0]) ==> |r| < |s|
  {
    if s != [] && IsSpace(s[0]) then TrimStart(s[1..]) else s
  }

  /** `s.trimEnd()`: drops the white space at the back and nothing else. */
  function TrimEnd(s: string): (r: string)
    ensures |r| <= |s| && r == s[..|r|]
    ensures r == [] || !IsSpace(r[|r| - 1])
    ensures forall i :: |r| <= i < |s| ==> IsSpace(s[i])
  {
    if s != [] && IsSpace(s[|s| - 1]) then TrimEnd(s[..|s| - 1]) else s
  }

  /** Where `Trim(s)` starts inside `s`. */
  function TrimOffset(s: string): nat {
    |s| - |TrimStart(s)|
  }

  /** `s.trim()`: the slice of `s` left after removing white space at both ends. */
  function Trim(s: string): (r: string)
    ensures NoSpaceAtEnds(r)
    ensures TrimOffset(s) + |r| <= |s| && r == s[TrimOffset(s)..TrimOffset(s) + |r|]
    ensures forall i :: 0 <= i < TrimOffset(s) ==> IsSpace(s[i])
    ensures forall i :: TrimOffset(s) + |r| <= i < |s| ==> IsSpace(s[i])
  {
    TrimEnd(TrimStart(s))
  }

  /** Nothing but white space: what `!s.trim()` tests. */
  predicate Blank(s: string) {
    forall i :: 0 <= i < |s| ==> IsSpace(s[i])
  }

  /** A string is blank exactly when trimming leaves nothing of it. */
  lemma BlankIsAllSpace(s: string)
    ensures Blank(s) <==> Trim(s) == ""
  {
    var r := Trim(s);
    if r != "" {
      assert !IsSpace(s[TrimOffset(s)]);
    }
  }

  /** Trimming a string without white space at its ends changes nothing. */
  lemma TrimmedIsFixed(s: string)
    requires NoSpaceAtEnds(s)
    ensures Trim(s) == s
  {
  }

  /** Trimming keeps every character that is not white space, as often as it occurs. */
  lemma TrimKeepsText(s: string, c: char)
    requires !IsSpace(c)
    ensures multiset(Trim(s))[c] == multiset(s)[c]
  {
    var a, r := TrimOffset(s), Trim(s);
    forall i | 0 <= i < a || a + |r| <= i < |s|
      ensures s[i] != c
    {
      assert IsSpace(s[i]);
    }
    CountInside(s, a, a + |r|, c);
  }

  /** A character that occurs only between `lo` and `hi` occurs there as
      often as in the whole string. */
  lemma CountInside(s: string, lo: nat, hi: nat, c: char)
    requires lo <= hi <= |s|
    requires forall i :: 0 <= i < lo || hi <= i < |s| ==> s[i] != c
    ensures multiset(s[lo..hi])[c] == multiset(s)[c]
  {
    assert s == s[..lo] + s[lo..hi] + s[hi..];
    assert c !in s[..lo] && c !in s[hi..];
  }

  /** `s.split(sep)` for a one-character separator: always at least one piece,
      and no piece contains the separator. */
  function SplitOn(s: string, sep: char): (r: seq<string>)
    ensures |r| >= 1
    ensures forall i :: 0 <= i < |r| ==> sep !in r[i]
  {
    if s == [] then [""]
    else
      var rest := SplitOn(s[1..], sep);
      if s[0] == sep then [""] + rest else [[s[0]] + rest[0]] + rest[1..]
  }

  /** A string without the separator splits into itself. */
  lemma {:induction false} SplitWithoutSeparator(s: string, sep: char)
    requires sep !in s
    ensures SplitOn(s, sep) == [s]
  {
    if s != [] {
      SplitWithoutSeparator(s[1..], sep);
      assert [s[0]] + s[1..] == s;
    }
  }

  /** Splitting `a + sep + b`, where `a` has no separator, yields `a` followed by the pieces of `b`. */
  lemma {:induction false} SplitAfterPiece(a: string, sep: char, b: string)
    requires sep !in a
    ensures SplitOn(a + [sep] + b, sep) == [a] + SplitOn(b, sep)
  {
    var s := a + [sep] + b;
    if a == [] {
      assert s[1..] == b;
    } else {
      assert s[1..] == a[1..] + [sep] + b;
      SplitAfterPiece(a[1..], sep, b);
      assert [a[0]] + a[1..] == a;
    }
  }

  /** `parts.join(sep)`. */
  function JoinWith(parts: seq<string>, sep: string): string {
    if |parts| == 0 then ""
    else if |parts| == 1 then parts[0]
    else parts[0] + sep + JoinWith(parts[1..], sep)
  }

  /** Joining one more piece puts the separator and the piece at the end. */
  lemma {:induction false} JoinAppend(parts: seq<string>, x: string, sep: string)
    requires parts != []
    ensures JoinWith(parts + [x], sep) == JoinWith(parts, sep) + sep + x
    decreases |parts|
  {
    if |parts| > 1 {
      assert (parts + [x])[1..] == parts[1..] + [x];
      JoinAppend(parts[1..], x, sep);
    }
  }

  /** Splitting undoes joining, when no piece contains the separator. */
  lemma {:induction false} SplitJoin(parts: seq<string>, sep: char)
    requires |parts| >= 1
    requires forall i :: 0 <= i < |parts| ==> sep !in parts[i]
    ensures SplitOn(JoinWith(parts, [sep]), sep) == parts
  {
    if |parts| == 1 {
      SplitWithoutSeparator(parts[0], sep);
    } else {
      SplitJoin(parts[1..], sep);
      SplitAfterPiece(parts[0], sep, JoinWith(parts[1..], [sep]));
    }
  }

  /** `parts.filter(Boolean)`: drops the empty strings, keeps the rest in order. */
  function Compact(parts: seq<string>): (r: seq<string>)
    ensures |r| <= |parts|
    ensures forall i :: 0 <= i < |r| ==> r[i] != "" && r[i] in parts
  {
    if parts == [] then []
    else if parts[0] == "" then Compact(parts[1..])
    else [parts[0]] + Compact(parts[1..])
  }

  /** Filtering a list without empty strings changes nothing. */
  lemma {:induction false} CompactWithoutEmpty(parts: seq<string>)
    requires forall i :: 0 <= i < |parts| ==> parts[i] != ""
    ensures Compact(parts) == parts
  {
    if parts != [] {
      CompactWithoutEmpty(parts[1..]);
    }
  }

  /** Filtering a concatenation filters each part: a piece is kept or dropped
      on its own, and the kept ones stay in order. */
  lemma {:induction false} CompactAppend(a: seq<string>, b: seq<string>)
    ensures Compact(a + b) == Compact(a) + Compact(b)
    decreases |a|
  {
    if a == [] {
      assert a + b == b;
    } else {
      assert (a + b)[0] == a[0] && (a + b)[1..] == a[1..] + b;
      CompactAppend(a[1..], b);
      if a[0] != "" {
        assert [a[0]] + (Compact(a[1..]) + Compact(b)) == [a[0]] + Compact(a[1..]) + Compact(b);
      }
    }
  }

  /** One piece is kept exactly when it is non-empty. */
  lemma CompactOne(x: string)
    ensures Compact([x]) == (if x == "" then [] else [x])
  {
  }

  /** The concatenation of all the pieces. */
  function Concat(parts: seq<string>): string {
    if parts == [] then "" else parts[0] + Concat(parts[1..])
  }

  /** The characters of `s` that are not white space, in order. */
  function RemoveSpaces(s: string): (r: string)
    ensures NoSpace(r)
  {
    if s == [] then ""
    else if IsSpace(s[0]) then RemoveSpaces(s[1..])
    else [s[0]] + RemoveSpaces(s[1..])
  }

  /** `s.split(/\s+/)`: the pieces between maximal runs of white space; a
      leading or trailing run gives an empty first or last piece. */
  function SplitWords(s: string): (r: seq<string>)
    ensures |r| >= 1
    ensures forall i :: 0 <= i < |r| ==> NoSpace(r[i])
    decreases |s|
  {
    if s == [] then [""]
    else if IsSpace(s[0]) then [""] + SplitWords(TrimStart(s))
    else
      var rest := SplitWords(s[1..]);
      [[s[0]] + rest[0]] + rest[1..]
  }

  /** When `s` does not end in white space, no piece after the first is empty. */
  lemma {:induction false} LaterWordsNonEmpty(s: string)
    requires s == [] || !IsSpace(s[|s| - 1])
    ensures forall i :: 1 <= i < |SplitWords(s)| ==> SplitWords(s)[i] != ""
    decreases |s|
  {
    if s == [] {
    } else if IsSpace(s[0]) {
      var t := TrimStart(s);
      assert t != [];
      assert t[|t| - 1] == s[|s| - 1];
      LaterWordsNonEmpty(t);
    } else {
      LaterWordsNonEmpty(s[1..]);
    }
  }

  /** Splitting a non-empty string without white space at its ends gives only
      non-empty words, none containing white space. */
  lemma WordsOfTrimmed(s: string)
    requires s != [] && NoSpaceAtEnds(s)
    ensures forall i :: 0 <= i < |SplitWords(s)| ==> SplitWords(s)[i] != "" && NoSpace(SplitWords(s)[i])
  {
    LaterWordsNonEmpty(s);
  }

  /** Concatenating the pieces of the first one with the rest. */
  lemma ConcatCons(w: string, rest: seq<string>)
    requires rest != []
    ensures Concat([w + rest[0]] + rest[1..]) == w + Concat(rest)
  {
    assert ([w + rest[0]] + rest[1..])[1..] == rest[1..];
  }

  /** Dropping leading white space does not change the non-space characters. */
  lemma {:induction false} RemoveSpacesTrimStart(s: string)
    ensures RemoveSpaces(TrimStart(s)) == RemoveSpaces(s)
  {
    if s != [] && IsSpace(s[0]) {
      RemoveSpacesTrimStart(s[1..]);
    }
  }

  /** The words, put back together, are exactly the non-space characters of
      the input, in order: splitting loses and reorders nothing. */
  lemma {:induction false} WordsCoverText(s: string)
    ensures Concat(SplitWords(s)) == RemoveSpaces(s)
    decreases |s|
  {
    if s == [] {
    } else if IsSpace(s[0]) {
      WordsCoverText(TrimStart(s));
      RemoveSpacesTrimStart(s);
      assert ([""] + SplitWords(TrimStart(s)))[1..] == SplitWords(TrimStart(s));
    } else {
      WordsCoverText(s[1..]);
      ConcatCons([s[0]], SplitWords(s[1..]));
    }
  }

  /** Dropping the white space in front of a string that starts with a
      non-space character leaves exactly that string. */
  lemma {:induction false} TrimStartBlank(sep: string, b: string)
    requires Blank(sep)
    requires b == [] || !IsSpace(b[0])
    ensures TrimStart(sep + b) == b
    decreases |sep|
  {
    if sep != [] {
      assert (sep + b)[1..] == sep[1..] + b;
      TrimStartBlank(sep[1..], b);
    }
  }

  /** A word followed by a run of white space splits off as the first piece. */
  lemma {:induction false} SplitAfterWord(w: string, sep: string, b: string)
    requires NoSpace(w) && sep != [] && Blank(sep)
    requires b == [] || !IsSpace(b[0])
    ensures SplitWords(w + sep + b) == [w] + SplitWords(b)
    decreases |w|
  {
    var s := w + sep + b;
    if w == [] {
      assert s == sep + b;
      TrimStartBlank(sep, b);
    } else {
      assert s[0] == w[0] && s[1..] == w[1..] + sep + b;
      SplitAfterWord(w[1..], sep, b);
      assert [w[0]] + w[1..] == w;
    }
  }

  /** A string without white space is one piece. */
  lemma {:induction false} SplitOneWord(w: string)
    requires NoSpace(w)
    ensures SplitWords(w) == [w]
    decreases |w|
  {
    if w != [] {
      SplitOneWord(w[1..]);
      assert [w[0]] + w[1..] == w;
    }
  }

  /** Splitting undoes joining: non-empty words joined by runs of white space
      split back into exactly those words, so every piece is a whole word. */
  lemma {:induction false} SplitJoinWords(ws: seq<string>, sep: string)
    requires |ws| >= 1
    requires forall i :: 0 <= i < |ws| ==> ws[i] != "" && NoSpace(ws[i])
    requires sep != [] && Blank(sep)
    ensures SplitWords(JoinWith(ws, sep)) == ws
    decreases |ws|
  {
    if |ws| == 1 {
      SplitOneWord(ws[0]);
    } else {
      var rest := JoinWith(ws[1..], sep);
      SplitJoinWords(ws[1..], sep);
      assert rest[0] == ws[1][0] by {
        if |ws| > 2 {
          assert rest == ws[1] + (sep + JoinWith(ws[2..], sep));
        }
      }
      SplitAfterWord(ws[0], sep, rest);
    }
  }

  /** `s.replace(p, '')` for a pattern without special characters: removes the
      first occurrence of `p`, if any. */
  function RemoveFirst(s: string, p: string): string
    decreases |s|
  {
    if p == [] || |s| < |p| then s
    else if s[..|p|] == p then s[|p|..]
    else [s[0]] + RemoveFirst(s[1..], p)
  }

  /** A string that starts with the pattern loses exactly that prefix. */
  lemma RemoveFirstPrefix(p: string, s: string)
    requires p != []
    ensures RemoveFirst(p + s, p) == s
  {
    assert (p + s)[..|p|] == p;
  }
}
