/** The JavaScript string built-ins the storefront's components rely on,
    over ASCII: `split`, `join`, `filter(Boolean)` on strings, `trim`,
    `toLowerCase` and `includes`. */
module JsStrings {

  predicate IsDigit(c: char) { '0' <= c <= '9' }

  predicate AllDigits(s: string) { forall i :: 0 <= i < |s| ==> IsDigit(s[i]) }

  /** The ASCII characters `String.prototype.trim` removes: space, tab,
      line feed, vertical tab, form feed and carriage return. */
  predicate IsWhitespace(c: char) {
    c == ' ' || c == '\t' || c == '\n' || c == '\r' || c == 11 as char || c == 12 as char
  }

  /** `t` occurs in `s` starting at position `i`. */
  predicate OccursAt(s: string, t: string, i: int) {
    0 <= i <= |s| - |t| && s[i..i + |t|] == t
  }

  // ---------------------------------------------------------------------
  // length

  /** The code units one character takes in UTF-16: two for a character
      beyond U+FFFF (a surrogate pair), one otherwise. */
  function Utf16Units(c: char): nat {
    if c as int >= 0x1_0000 then 2 else 1
  }

  /** `s.length`: JavaScript counts UTF-16 code units, so every character
      counts once or twice. */
  function Utf16Length(s: string): (n: nat)
    ensures |s| <= n <= 2 * |s|
  {
    if |s| == 0 then 0 else Utf16Units(s[0]) + Utf16Length(s[1..])
  }

  /** On characters up to U+FFFF the JavaScript length is the number of
      characters. */
  lemma {:induction false} Utf16LengthBasic(s: string)
    requires forall i :: 0 <= i < |s| ==> s[i] as int < 0x1_0000
    ensures Utf16Length(s) == |s|
  {
    if |s| > 0 {
      Utf16LengthBasic(s[1..]);
    }
  }

  // ---------------------------------------------------------------------
  // split / join

  /** `s.split(sep)`: the pieces between separators, in order; the empty
      string splits into one empty piece, and adjacent separators give an
      empty piece between them. */
  function Split(s: string, sep: char): (parts: seq<string>)
    ensures |parts| >= 1
    ensures forall p :: p in parts ==> sep !in p
    decreases |s|
  {
    if |s| == 0 then [""]
    else
      var rest := Split(s[1..], sep);
      if s[0] == sep then [""] + rest
      else [[s[0]] + rest[0]] + rest[1..]
  }

  /** `parts.join(sep)`; the empty list joins to the empty string. */
  function Join(parts: seq<string>, sep: char): string
    decreases |parts|
  {
    if |parts| == 0 then ""
    else if |parts| == 1 then parts[0]
    else parts[0] + [sep] + Join(parts[1..], sep)
  }

  /** `parts.filter(Boolean)` (equivalently `filter(p => p.length > 0)`):
      the non-empty strings, in order. */
  function NonEmpty(parts: seq<string>): (r: seq<string>)
    ensures |r| <= |parts|
    ensures forall p :: p in r <==> p in parts && p != ""
  {
    if |parts| == 0 then []
    else if parts[0] == "" then NonEmpty(parts[1..])
    else [parts[0]] + NonEmpty(parts[1..])
  }

  lemma {:induction false} SplitWithoutSeparator(a: string, sep: char)
    requires sep !in a
    ensures Split(a, sep) == [a]
    decreases |a|
  {
    if |a| > 0 {
      assert sep !in a[1..];
      SplitWithoutSeparator(a[1..], sep);
      assert [a[0]] + a[1..] == a;
    }
  }

  /** Splitting at the first separator peels off the piece before it. */
  lemma {:induction false} SplitAfterPiece(a: string, sep: char, b: string)
    requires sep !in a
    ensures Split(a + [sep] + b, sep) == [a] + Split(b, sep)
    decreases |a|
  {
    if |a| == 0 {
      assert a + [sep] + b == [sep] + b;
      assert ([sep] + b)[1..] == b;
    } else {
      var s := a + [sep] + b;
      assert s[0] == a[0] && s[1..] == a[1..] + [sep] + b;
      assert sep !in a[1..];
      SplitAfterPiece(a[1..], sep, b);
      assert [a[0]] + a[1..] == a;
    }
  }

  /** Round trip: splitting a join gives the pieces back when no piece
      contains the separator. */
  lemma {:induction false} SplitJoin(parts: seq<string>, sep: char)
    requires |parts| >= 1
    requires forall p :: p in parts ==> sep !in p
    ensures Split(Join(parts, sep), sep) == parts
    decreases |parts|
  {
    if |parts| == 1 {
      SplitWithoutSeparator(parts[0], sep);
    } else {
      assert parts[0] in parts;
      SplitAfterPiece(parts[0], sep, Join(parts[1..], sep));
      assert forall p :: p in parts[1..] ==> p in parts;
      SplitJoin(parts[1..], sep);
      assert [parts[0]] + parts[1..] == parts;
    }
  }

  /** The other round trip: joining the pieces of a split restores the string. */
  lemma {:induction false} JoinSplit(s: string, sep: char)
    ensures Join(Split(s, sep), sep) == s
    decreases |s|
  {
    if |s| > 0 {
      var rest := Split(s[1..], sep);
      JoinSplit(s[1..], sep);
      if s[0] == sep {
        assert Split(s, sep) == [""] + rest;
        assert ([""] + rest)[1..] == rest;
        assert [sep] + s[1..] == s;
      } else {
        var parts := Split(s, sep);
        assert parts == [[s[0]] + rest[0]] + rest[1..];
        if |rest| == 1 {
          assert rest == [rest[0]];
          assert [s[0]] + s[1..] == s;
        } else {
          assert parts[1..] == rest[1..];
          assert Join(rest, sep) == rest[0] + [sep] + Join(rest[1..], sep);
          assert Join(parts, sep) == [s[0]] + rest[0] + [sep] + Join(rest[1..], sep);
          assert [s[0]] + s[1..] == s;
        }
      }
    }
  }

  /** `filter(Boolean)` keeps a list in which no string is empty as it is. */
  lemma {:induction false} NonEmptyKeepsNonEmpty(parts: seq<string>)
    requires "" !in parts
    ensures NonEmpty(parts) == parts
    decreases |parts|
  {
    if |parts| > 0 {
      assert parts[0] in parts;
      assert "" !in parts[1..] by {
        forall p | p in parts[1..] ensures p != "" { assert p in parts; }
      }
      NonEmptyKeepsNonEmpty(parts[1..]);
      assert [parts[0]] + parts[1..] == parts;
    }
  }

  /** `filter(Boolean)` distributes over concatenation, so it keeps order. */
  lemma {:induction false} NonEmptyAppend(a: seq<string>, b: seq<string>)
    ensures NonEmpty(a + b) == NonEmpty(a) + NonEmpty(b)
    decreases |a|
  {
    if |a| > 0 {
      assert (a + b)[0] == a[0] && (a + b)[1..] == a[1..] + b;
      NonEmptyAppend(a[1..], b);
    } else {
      assert a + b == b;
    }
  }

  // ---------------------------------------------------------------------
  // trim

  function TrimStart(s: string): (r: string)
    ensures |r| <= |s| && r == s[|s| - |r|..]
    ensures |r| > 0 ==> !IsWhitespace(r[0])
    ensures forall i :: 0 <= i < |s| - |r| ==> IsWhitespace(s[i])
    decreases |s|
  {
    if |s| > 0 && IsWhitespace(s[0]) then TrimStart(s[1..]) else s
  }

  function TrimEnd(s: string): (r: string)
    ensures |r| <= |s| && r == s[..|r|]
    ensures |r| > 0 ==> !IsWhitespace(r[|r| - 1])
    ensures forall i :: |r| <= i < |s| ==> IsWhitespace(s[i])
    decreases |s|
  {
    if |s| > 0 && IsWhitespace(s[|s| - 1]) then TrimEnd(s[..|s| - 1]) else s
  }

  /** `s.trim()`: the longest middle part of `s` that neither starts nor
      ends with whitespace; everything cut off on either side is whitespace. */
  function Trim(s: string): (r: string)
    ensures |r| <= |s|
    ensures exists i :: OccursAt(s, r, i) && CutIsWhitespace(s, i, i + |r|)
    ensures |r| > 0 ==> !IsWhitespace(r[0]) && !IsWhitespace(r[|r| - 1])
  {
    var t := TrimStart(s);
    var r := TrimEnd(t);
    PrefixOfSuffix(s, t, r);
    r
  }

  /** A prefix `r` of a suffix `t` of `s` is a run of `s` starting where
      `t` starts; what follows `r` in `t` is what follows it in `s`. */
  lemma PrefixOfSuffix(s: string, t: string, r: string)
    requires |t| <= |s| && t == s[|s| - |t|..]
    requires |r| <= |t| && r == t[..|r|]
    requires forall k :: 0 <= k < |s| - |t| ==> IsWhitespace(s[k])
    requires forall k :: |r| <= k < |t| ==> IsWhitespace(t[k])
    ensures OccursAt(s, r, |s| - |t|) && CutIsWhitespace(s, |s| - |t|, |s| - |t| + |r|)
  {
    var i := |s| - |t|;
    assert r == s[i..i + |r|];
    forall k | i + |r| <= k < |s|
      ensures IsWhitespace(s[k])
    {
      assert s[k] == t[k - i];
    }
  }

  /** Every character of `s` outside positions `lo` to `hi` is whitespace. */
  predicate CutIsWhitespace(s: string, lo: int, hi: int) {
    (forall k :: 0 <= k < lo && k < |s| ==> IsWhitespace(s[k])) &&
    (forall k :: hi <= k < |s| && 0 <= k ==> IsWhitespace(s[k]))
  }

  /** A string made only of whitespace (the empty one included) trims to "". */
  lemma {:induction false} TrimAllWhitespace(s: string)
    requires forall i :: 0 <= i < |s| ==> IsWhitespace(s[i])
    ensures TrimStart(s) == "" && Trim(s) == ""
    decreases |s|
  {
    if |s| > 0 {
      assert IsWhitespace(s[0]);
      TrimAllWhitespace(s[1..]);
    }
  }

  /** `trim` leaves a string with no outer whitespace untouched. */
  lemma TrimNoOuterWhitespace(s: string)
    requires |s| > 0 ==> !IsWhitespace(s[0]) && !IsWhitespace(s[|s| - 1])
    ensures Trim(s) == s
  {
  }

  // ---------------------------------------------------------------------
  // toLowerCase / includes

  /** ASCII `toLowerCase` of one character. */
  function LowerChar(c: char): (r: char)
    ensures 'A' <= c <= 'Z' ==> 'a' <= r <= 'z' && r as int - 'a' as int == c as int - 'A' as int
    ensures !('A' <= c <= 'Z') ==> r == c
  {
    if 'A' <= c <= 'Z' then (c as int + 32) as char else c
  }

  /** `s.toLowerCase()`, character by character. */
  function ToLower(s: string): (r: string)
    ensures |r| == |s|
    ensures forall i :: 0 <= i < |s| ==> r[i] == LowerChar(s[i])
  {
    if |s| == 0 then "" else [LowerChar(s[0])] + ToLower(s[1..])
  }

  /** `s.includes(t)`, by trying each starting position in turn. */
  predicate Includes(s: string, t: string)
    decreases |s|
  {
    t <= s || (|s| > 0 && Includes(s[1..], t))
  }

  /** `includes` holds exactly when `t` occurs at some position of `s`. */
  lemma IncludesIffOccurs(s: string, t: string)
    ensures Includes(s, t) <==> exists i :: OccursAt(s, t, i)
  {
    if Includes(s, t) {
      IncludesHasOccurrence(s, t);
    }
    if exists i :: OccursAt(s, t, i) {
      var i :| OccursAt(s, t, i);
      OccurrenceIncludes(s, t, i);
    }
  }

  /** When `includes` holds, the search stopped at an occurrence. */
  lemma {:induction false} IncludesHasOccurrence(s: string, t: string)
    requires Includes(s, t)
    ensures exists i :: OccursAt(s, t, i)
    decreases |s|
  {
    if t <= s {
      assert OccursAt(s, t, 0);
    } else {
      IncludesHasOccurrence(s[1..], t);
      var i :| OccursAt(s[1..], t, i);
      assert s[1..][i..i + |t|] == s[i + 1..i + 1 + |t|];
      assert OccursAt(s, t, i + 1);
    }
  }

  /** An occurrence at position `i` is found after `i` steps of the search. */
  lemma {:induction false} OccurrenceIncludes(s: string, t: string, i: int)
    requires OccursAt(s, t, i)
    ensures Includes(s, t)
    decreases i
  {
    if i == 0 {
      assert s[..|t|] == t;
    } else {
      assert s[1..][i - 1..i - 1 + |t|] == s[i..i + |t|];
      OccurrenceIncludes(s[1..], t, i - 1);
    }
  }

  /** Every string includes the empty string. */
  lemma IncludesEmpty(s: string)
    ensures Includes(s, "")
  {
  }
}
