/** String helpers shared by the JavaScript and Go models: whitespace,
    trimming (`String.prototype.trim`, `strings.TrimSpace`), counting
    whitespace-separated words (`strings.Fields`), splitting on a separator
    character (`strings.Split`), JavaScript's UTF-16 length and prefix
    truncation (`length`, `substring(0, n)`). */
module Text {

  /** The whitespace characters recognised by `\s`, `trim()` and
      `unicode.IsSpace`, restricted to ASCII: tab, line feed, vertical tab,
      form feed, carriage return and space. */
  predicate IsSpace(c: char) {
    c == '\t' || c == '\n' || c == '\U{B}' || c == '\U{C}' || c == '\r' || c == ' '
  }

  predicate AllSpace(s: string) {
    forall i :: 0 <= i < |s| ==> IsSpace(s[i])
  }

  /** `s` without its leading whitespace. */
  function TrimStart(s: string): (r: string)
    ensures |r| <= |s| && r == s[|s| - |r|..]
    ensures AllSpace(s[..|s| - |r|])
    ensures r == [] || !IsSpace(r[0])
  {
    if s != [] && IsSpace(s[0]) then TrimStart(s[1..]) else s
  }

  /** `s` without its trailing whitespace. */
  function TrimEnd(s: string): (r: string)
    ensures |r| <= |s| && r == s[..|r|]
    ensures AllSpace(s[|r|..])
    ensures r == [] || !IsSpace(r[|r| - 1])
  {
    if s != [] && IsSpace(s[|s| - 1]) then TrimEnd(s[..|s| - 1]) else s
  }

  /** `s.trim()` / `strings.TrimSpace(s)`: the slice of `s` left after
      dropping whitespace at both ends. */
  function Trim(s: string): (r: string)
    ensures |r| <= |s|
    ensures r == [] || (!IsSpace(r[0]) && !IsSpace(r[|r| - 1]))
    ensures r == [] <==> AllSpace(s)
  {
    var t := TrimStart(s);
    var r := TrimEnd(t);
    assert r == [] ==> AllSpace(s) by {
      if r == [] {
        assert t == [] by { assert AllSpace(t[|r|..]); assert t[|r|..] == t; }
        assert s[..|s| - |t|] == s;
      }
    }
    r
  }

  /** Text with no whitespace at either end is its own trim. */
  lemma TrimUnchanged(s: string)
    requires s == [] || (!IsSpace(s[0]) && !IsSpace(s[|s| - 1]))
    ensures Trim(s) == s
  {
    assert TrimStart(s) == s;
    assert TrimEnd(s) == s;
  }

  /** A word starts at `i`: a non-whitespace character at the start of `s`
      or right after whitespace. */
  predicate StartsWordAt(s: string, i: nat)
    requires i < |s|
  {
    !IsSpace(s[i]) && (i == 0 || IsSpace(s[i - 1]))
  }

  /** The number of maximal runs of non-whitespace characters in `s`:
      `len(strings.Fields(s))`. */
  function WordCount(s: string): nat
  {
    if s == [] then 0
    else WordCount(s[..|s| - 1]) + (if StartsWordAt(s, |s| - 1) then 1 else 0)
  }

  /** Text has no words exactly when it is empty or all whitespace. */
  lemma {:induction false} WordCountZero(s: string)
    ensures WordCount(s) == 0 <==> AllSpace(s)
  {
    if s != [] {
      var init := s[..|s| - 1];
      WordCountZero(init);
      if AllSpace(s) {
        assert AllSpace(init);
      } else if AllSpace(init) {
        assert !IsSpace(s[|s| - 1]);
        assert StartsWordAt(s, |s| - 1);
      } else {
        assert WordCount(init) > 0;
      }
    }
  }

  /** Non-empty text without whitespace is a single word. */
  lemma {:induction false} WordCountNoSpace(s: string)
    requires s != [] && forall i :: 0 <= i < |s| ==> !IsSpace(s[i])
    ensures WordCount(s) == 1
  {
    var init := s[..|s| - 1];
    if init != [] {
      WordCountNoSpace(init);
      assert !StartsWordAt(s, |s| - 1);
    } else {
      assert StartsWordAt(s, 0);
    }
  }

  /** Appending text never removes a word. */
  lemma {:induction false} WordCountPrefix(s: string, t: string)
    ensures WordCount(s) <= WordCount(s + t)
  {
    if t != [] {
      var t' := t[..|t| - 1];
      WordCountPrefix(s, t');
      assert (s + t)[..|s + t| - 1] == s + t';
    } else {
      assert s + t == s;
    }
  }

  /** Whitespace in front of text does not change its word count. */
  lemma {:induction false} WordCountSpacePrefix(sp: string, s: string)
    requires AllSpace(sp)
    ensures WordCount(sp + s) == WordCount(s)
  {
    if s == [] {
      assert sp + s == sp;
      WordCountZero(sp);
    } else {
      var s' := s[..|s| - 1];
      WordCountSpacePrefix(sp, s');
      assert (sp + s)[..|sp + s| - 1] == sp + s';
      var n := |sp + s| - 1;
      if |s| > 1 {
        assert (sp + s)[n - 1] == s[|s| - 2];
      } else if |sp| > 0 {
        assert IsSpace((sp + s)[n - 1]);
      }
      assert StartsWordAt(sp + s, n) == StartsWordAt(s, |s| - 1);
    }
  }

  /** Whitespace after text does not change its word count. */
  lemma {:induction false} WordCountSpaceSuffix(s: string, sp: string)
    requires AllSpace(sp)
    ensures WordCount(s + sp) == WordCount(s)
  {
    if sp == [] {
      assert s + sp == s;
    } else {
      var sp' := sp[..|sp| - 1];
      WordCountSpaceSuffix(s, sp');
      assert (s + sp)[..|s + sp| - 1] == s + sp';
      assert IsSpace(sp[|sp| - 1]);
    }
  }

  lemma WordCountTrimStart(s: string)
    ensures WordCount(TrimStart(s)) == WordCount(s)
  {
    var t := TrimStart(s);
    var a := |s| - |t|;
    assert s == s[..a] + t;
    WordCountSpacePrefix(s[..a], t);
  }

  lemma WordCountTrimEnd(t: string)
    ensures WordCount(TrimEnd(t)) == WordCount(t)
  {
    var r := TrimEnd(t);
    assert t == r + t[|r|..];
    WordCountSpaceSuffix(r, t[|r|..]);
  }

  /** Trimming keeps every word. */
  lemma WordCountTrim(s: string)
    ensures WordCount(Trim(s)) == WordCount(s)
  {
    WordCountTrimStart(s);
    WordCountTrimEnd(TrimStart(s));
  }

  /** The number of occurrences of `c` in `s`. */
  function Count(s: string, c: char): nat
  {
    if s == [] then 0 else Count(s[..|s| - 1], c) + (if s[|s| - 1] == c then 1 else 0)
  }

  /** `strings.Split(s, string(sep))`: the pieces between occurrences of
      `sep`, one more piece than there are separators. */
  function Split(s: string, sep: char): (parts: seq<string>)
    ensures |parts| == Count(s, sep) + 1
    ensures forall i :: 0 <= i < |parts| ==> sep !in parts[i]
  {
    if s == [] then [[]]
    else
      var p := Split(s[..|s| - 1], sep);
      var c := s[|s| - 1];
      if c == sep then p + [[]] else p[..|p| - 1] + [p[|p| - 1] + [c]]
  }

  /** The pieces joined back with the separator. */
  function Join(parts: seq<string>, sep: char): string
    requires parts != []
  {
    if |parts| == 1 then parts[0] else Join(parts[..|parts| - 1], sep) + [sep] + parts[|parts| - 1]
  }

  /** Opening a new empty piece adds the separator. */
  lemma JoinEmptyPiece(parts: seq<string>, sep: char)
    requires parts != []
    ensures Join(parts + [[]], sep) == Join(parts, sep) + [sep]
  {
    assert (parts + [[]])[..|parts|] == parts;
  }

  /** Extending the last piece by a character extends the joined text by
      that character. */
  lemma JoinExtendLast(parts: seq<string>, sep: char, c: char)
    requires parts != []
    ensures Join(parts[..|parts| - 1] + [parts[|parts| - 1] + [c]], sep) == Join(parts, sep) + [c]
  {
    var q := parts[..|parts| - 1] + [parts[|parts| - 1] + [c]];
    if |parts| > 1 {
      assert q[..|q| - 1] == parts[..|parts| - 1];
    }
  }

  /** The inductive step of `SplitJoin` when the last character is the
      separator. */
  lemma SplitJoinSep(init: string, sep: char)
    requires Join(Split(init, sep), sep) == init
    ensures Join(Split(init + [sep], sep), sep) == init + [sep]
  {
    assert (init + [sep])[..|init|] == init;
    var p := Split(init, sep);
    assert Split(init + [sep], sep) == p + [[]];
    JoinEmptyPiece(p, sep);
  }

  /** The inductive step of `SplitJoin` when the last character is not the
      separator. */
  lemma SplitJoinOther(init: string, sep: char, c: char)
    requires c != sep
    requires Join(Split(init, sep), sep) == init
    ensures Join(Split(init + [c], sep), sep) == init + [c]
  {
    assert (init + [c])[..|init|] == init;
    var p := Split(init, sep);
    assert Split(init + [c], sep) == p[..|p| - 1] + [p[|p| - 1] + [c]];
    JoinExtendLast(p, sep, c);
  }

  /** Splitting loses nothing: joining the pieces with the separator gives
      the original text back. */
  lemma {:induction false} SplitJoin(s: string, sep: char)
    ensures Join(Split(s, sep), sep) == s
  {
    if s != [] {
      var init, c := s[..|s| - 1], s[|s| - 1];
      SplitJoin(init, sep);
      assert s == init + [c];
      if c == sep {
        SplitJoinSep(init, sep);
      } else {
        SplitJoinOther(init, sep, c);
      }
    }
  }

  /** The UTF-16 code units JavaScript stores for one character: two (a
      surrogate pair) above U+FFFF, one otherwise. */
  function Utf16Units(c: char): (n: nat)
    ensures 1 <= n <= 2
    ensures n == 1 <==> c as int < 0x1_0000
  {
    if c as int < 0x1_0000 then 1 else 2
  }

  /** `s.length` in JavaScript: the number of UTF-16 code units. */
  function Utf16Length(s: string): (n: nat)
    ensures |s| <= n <= 2 * |s|
  {
    if s == [] then 0 else Utf16Units(s[0]) + Utf16Length(s[1..])
  }

  /** Every character of `s` is in the Basic Multilingual Plane. */
  predicate InBmp(s: string) {
    forall i :: 0 <= i < |s| ==> s[i] as int < 0x1_0000
  }

  /** Every character of `s` is outside the Basic Multilingual Plane. */
  predicate Astral(s: string) {
    forall i :: 0 <= i < |s| ==> s[i] as int >= 0x1_0000
  }

  /** Text of Basic Multilingual Plane pieces stays in that plane. */
  lemma InBmpAppend(a: string, b: string)
    requires InBmp(a) && InBmp(b)
    ensures InBmp(a + b)
  {
    assert forall i :: 0 <= i < |a + b| ==> (a + b)[i] == if i < |a| then a[i] else b[i - |a|];
  }

  /** JavaScript's length is the character count exactly when no character
      needs a surrogate pair. */
  lemma {:induction false} Utf16LengthBmp(s: string)
    ensures Utf16Length(s) == |s| <==> InBmp(s)
  {
    if s != [] {
      Utf16LengthBmp(s[1..]);
      assert forall i :: 1 <= i < |s| ==> s[i] == s[1..][i - 1];
    }
  }

  /** Characters outside the Basic Multilingual Plane count twice. */
  lemma {:induction false} Utf16LengthAstral(s: string)
    requires Astral(s)
    ensures Utf16Length(s) == 2 * |s|
  {
    if s != [] {
      assert Astral(s[1..]) by {
        assert forall i :: 1 <= i < |s| ==> s[i] == s[1..][i - 1];
      }
      Utf16LengthAstral(s[1..]);
    }
  }

  /** Code units add up over concatenation. */
  lemma {:induction false} Utf16LengthAppend(s: string, t: string)
    ensures Utf16Length(s + t) == Utf16Length(s) + Utf16Length(t)
  {
    if s == [] {
      assert s + t == t;
    } else {
      Utf16LengthAppend(s[1..], t);
      assert (s + t)[1..] == s[1..] + t;
    }
  }

  /** How many whole characters of `s` fit in `n` UTF-16 code units. */
  function CutLength(s: string, n: nat): (k: nat)
    ensures k <= |s|
  {
    if s == [] || Utf16Units(s[0]) > n then 0
    else CutLength(s[1..], n - Utf16Units(s[0])) + 1
  }

  /** Dropping the first character of a non-empty prefix. */
  lemma Utf16LengthPrefix(s: string, k: nat)
    requires k < |s|
    ensures Utf16Length(s[..k + 1]) == Utf16Units(s[0]) + Utf16Length(s[1..][..k])
  {
    var p := s[..k + 1];
    assert p[0] == s[0] && p[1..] == s[1..][..k];
  }

  /** The cut fits in `n` code units. */
  lemma {:induction false} CutLengthFits(s: string, n: nat)
    ensures Utf16Length(s[..CutLength(s, n)]) <= n
  {
    if s != [] && Utf16Units(s[0]) <= n {
      var k := CutLength(s[1..], n - Utf16Units(s[0]));
      CutLengthFits(s[1..], n - Utf16Units(s[0]));
      Utf16LengthPrefix(s, k);
    } else {
      assert s[..0] == [];
    }
  }

  /** The cut is the longest prefix that fits: one more character would
      not. */
  lemma {:induction false} CutLengthLongest(s: string, n: nat)
    ensures CutLength(s, n) < |s| ==>
      Utf16Length(s[..CutLength(s, n)]) + Utf16Units(s[CutLength(s, n)]) > n
  {
    if s != [] && Utf16Units(s[0]) <= n {
      var k := CutLength(s[1..], n - Utf16Units(s[0]));
      CutLengthLongest(s[1..], n - Utf16Units(s[0]));
      Utf16LengthPrefix(s, k);
      if k < |s| - 1 {
        assert s[k + 1] == s[1..][k];
      }
    } else if s != [] {
      assert s[..0] == [];
    }
  }

  /** Text that fits is kept whole. */
  lemma {:induction false} CutLengthAll(s: string, n: nat)
    ensures Utf16Length(s) <= n ==> CutLength(s, n) == |s|
  {
    if s != [] && Utf16Length(s) <= n {
      CutLengthAll(s[1..], n - Utf16Units(s[0]));
    }
  }

  /** `s.substring(0, n)` on whole characters: the longest prefix of `s`
      that fits in `n` code units. */
  function TakeUnits(s: string, n: nat): (r: string)
    ensures r <= s && |r| <= n
    ensures Utf16Length(r) <= n
    ensures |r| < |s| ==> Utf16Length(r) + Utf16Units(s[|r|]) > n
    ensures Utf16Length(s) <= n ==> r == s
  {
    CutLengthFits(s, n);
    CutLengthLongest(s, n);
    CutLengthAll(s, n);
    assert s[..|s|] == s;
    s[..CutLength(s, n)]
  }

  lemma InBmpTail(s: string)
    requires s != [] && InBmp(s)
    ensures s[0] as int < 0x1_0000 && InBmp(s[1..])
  {
    assert forall i :: 1 <= i < |s| ==> s[i] == s[1..][i - 1];
  }

  lemma AstralTail(s: string)
    requires s != [] && Astral(s)
    ensures s[0] as int >= 0x1_0000 && Astral(s[1..])
  {
    assert forall i :: 1 <= i < |s| ==> s[i] == s[1..][i - 1];
  }

  /** Without surrogate pairs `n` code units hold `n` characters. */
  lemma {:induction false} CutLengthBmp(s: string, n: nat)
    requires InBmp(s)
    ensures CutLength(s, n) == if |s| <= n then |s| else n
  {
    if s != [] && n > 0 {
      InBmpTail(s);
      CutLengthBmp(s[1..], n - 1);
    }
  }

  /** With only surrogate pairs `2 * k` code units hold `k` characters. */
  lemma {:induction false} CutLengthAstral(s: string, k: nat)
    requires Astral(s)
    ensures CutLength(s, 2 * k) == if |s| <= k then |s| else k
  {
    if s != [] && k > 0 {
      AstralTail(s);
      CutLengthAstral(s[1..], k - 1);
    }
  }

  /** Without surrogate pairs the cut is the plain prefix of `n` characters. */
  lemma TakeUnitsBmp(s: string, n: nat)
    ensures InBmp(s) ==> TakeUnits(s, n) == if |s| <= n then s else s[..n]
  {
    if InBmp(s) {
      CutLengthBmp(s, n);
      assert s[..|s|] == s;
    }
  }

  /** With only surrogate pairs a cut at `2 * k` code units keeps `k`
      characters. */
  lemma TakeUnitsAstral(s: string, k: nat)
    requires Astral(s)
    ensures TakeUnits(s, 2 * k) == if |s| <= k then s else s[..k]
  {
    CutLengthAstral(s, k);
    assert s[..|s|] == s;
  }

  /** `s.substring(0, n) + (s.length > n ? '...' : '')`, with JavaScript's
      length in code units. */
  function Ellipsize(s: string, n: nat): (r: string)
    ensures |r| <= n + 3
    ensures Utf16Length(s) <= n ==> r == s
    ensures Utf16Length(s) > n ==> r == TakeUnits(s, n) + "..."
  {
    TakeUnits(s, n) + (if Utf16Length(s) > n then "..." else "")
  }
}
