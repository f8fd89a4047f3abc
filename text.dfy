/**
 * The string operations of JavaScript that the portfolio code relies on,
 * restricted to what it uses: ASCII case mapping (`toLowerCase`,
 * `toUpperCase`), the regular-expression classes `\s` and `\w`,
 * `includes`, `startsWith`, `trim`, `split`, `replace` with a global
 * pattern, `new Set` over a list, and number-to-text conversion.
 */
module Text {

  /* ---------- characters ---------- */

  predicate IsUpper(c: char) { 'A' <= c <= 'Z' }

  predicate IsLower(c: char) { 'a' <= c <= 'z' }

  predicate IsDigit(c: char) { '0' <= c <= '9' }

  /** The class `\w` of a JavaScript regular expression without the `u` flag. */
  predicate IsWordChar(c: char) { IsUpper(c) || IsLower(c) || IsDigit(c) || c == '_' }

  /**
   * The class `\s` of a JavaScript regular expression, which is also the set
   * of characters `String.prototype.trim` removes: tab, line feed, vertical
   * tab, form feed, carriage return, space, no-break space, the Unicode space
   * separators, the line and paragraph separators and the byte order mark.
   */
  predicate IsSpace(c: char) {
    var n := c as int;
    (9 <= n <= 13) || n == 32 || n == 0xA0 || n == 0x1680 || (0x2000 <= n <= 0x200A)
    || n == 0x2028 || n == 0x2029 || n == 0x202F || n == 0x205F || n == 0x3000 || n == 0xFEFF
  }

  function ToLowerChar(c: char): (r: char)
    ensures IsUpper(c) ==> IsLower(r) && r as int == c as int + 32
    ensures !IsUpper(c) ==> r == c
  {
    if IsUpper(c) then (c as int + 32) as char else c
  }

  function ToUpperChar(c: char): (r: char)
    ensures IsLower(c) ==> IsUpper(r) && r as int == c as int - 32
    ensures !IsLower(c) ==> r == c
  {
    if IsLower(c) then (c as int - 32) as char else c
  }

  /** Upper-casing a character never changes what it lower-cases to. */
  lemma LowerOfUpper(c: char)
    ensures ToLowerChar(ToUpperChar(c)) == ToLowerChar(c)
    ensures IsWordChar(ToUpperChar(c)) == IsWordChar(c)
  {
  }

  /* ---------- pointwise maps ---------- */

  /** `Array.from(s, f).join('')`; ToLower, ReplaceChar and the title functions are built on it. */
  function MapChars(f: char -> char, s: string): (r: string)
    ensures |r| == |s|
    ensures forall i :: 0 <= i < |s| ==> r[i] == f(s[i])
  {
    seq(|s|, i requires 0 <= i < |s| => f(s[i]))
  }

  function ToLower(s: string): (r: string)
    ensures |r| == |s|
    ensures forall i :: 0 <= i < |s| ==> r[i] == ToLowerChar(s[i])
  {
    MapChars(ToLowerChar, s)
  }

  /** `s.replace(/a/g, b)` for a pattern of one character and a replacement of one character. */
  function ReplaceChar(s: string, a: char, b: char): (r: string)
    ensures |r| == |s|
    ensures forall i :: 0 <= i < |s| ==> r[i] == (if s[i] == a then b else s[i])
  {
    MapChars(c => if c == a then b else c, s)
  }

  /** After replacing every `a` by a different character, no `a` is left. */
  lemma ReplaceCharRemoves(s: string, a: char, b: char)
    requires a != b
    ensures a !in ReplaceChar(s, a, b)
  {
    var r := ReplaceChar(s, a, b);
    forall i | 0 <= i < |r| ensures r[i] != a {
    }
  }

  /* ---------- substrings ---------- */

  predicate IsInfixAt(s: string, k: string, i: int) {
    0 <= i && i + |k| <= |s| && s[i..i + |k|] == k
  }

  /** `s.startsWith(k)`. */
  predicate StartsWith(s: string, k: string) {
    |k| <= |s| && s[..|k|] == k
  }

  /** `s.includes(k)`: `k` starts at some position of `s`. */
  predicate Contains(s: string, k: string)
    decreases |s|
  {
    StartsWith(s, k) || (s != [] && Contains(s[1..], k))
  }

  /** `Contains` is the existence of an occurrence. */
  lemma {:induction false} ContainsIff(s: string, k: string)
    ensures Contains(s, k) <==> exists i :: 0 <= i <= |s| - |k| && IsInfixAt(s, k, i)
    decreases |s|
  {
    assert StartsWith(s, k) == IsInfixAt(s, k, 0);
    if s != [] {
      ContainsIff(s[1..], k);
      forall i | 1 <= i <= |s| ensures IsInfixAt(s, k, i) == IsInfixAt(s[1..], k, i - 1) {
        if i + |k| <= |s| {
          var t := s[1..];
          assert t[i - 1..i - 1 + |k|] == s[i..i + |k|];
        }
      }
      if exists i :: 0 <= i <= |s| - |k| && IsInfixAt(s, k, i) {
        var i :| 0 <= i <= |s| - |k| && IsInfixAt(s, k, i);
        if i > 0 {
          assert IsInfixAt(s[1..], k, i - 1);
        }
      }
      if Contains(s[1..], k) {
        var j :| 0 <= j <= |s[1..]| - |k| && IsInfixAt(s[1..], k, j);
        assert IsInfixAt(s, k, j + 1);
      }
    }
  }

  lemma ContainsTransitive(s: string, k: string, k': string)
    requires Contains(s, k) && Contains(k, k')
    ensures Contains(s, k')
  {
    ContainsIff(s, k);
    ContainsIff(k, k');
    ContainsIff(s, k');
    var i :| 0 <= i <= |s| - |k| && IsInfixAt(s, k, i);
    var j :| 0 <= j <= |k| - |k'| && IsInfixAt(k, k', j);
    forall t | 0 <= t < |k'| ensures s[i + j + t] == k'[t] {
      assert k'[t] == k[j + t] == s[i + j + t];
    }
    assert s[i + j..i + j + |k'|] == k';
    assert IsInfixAt(s, k', i + j);
  }

  /** A pointwise map carries an occurrence of `k` in `s` to an occurrence of the mapped `k`. */
  lemma ContainsMapped(f: char -> char, s: string, k: string)
    requires Contains(s, k)
    ensures Contains(MapChars(f, s), MapChars(f, k))
  {
    var ms, mk := MapChars(f, s), MapChars(f, k);
    ContainsIff(s, k);
    ContainsIff(ms, mk);
    var i :| 0 <= i <= |s| - |k| && IsInfixAt(s, k, i);
    assert ms[i..i + |k|] == mk;
    assert IsInfixAt(ms, mk, i);
  }

  /** A text lacking one of the characters of `k` does not contain `k`. */
  lemma ContainsNeedsChar(s: string, k: string, c: char)
    requires c in k && c !in s
    ensures !Contains(s, k)
  {
    ContainsIff(s, k);
    var j :| 0 <= j < |k| && k[j] == c;
    forall i | 0 <= i <= |s| - |k| ensures !IsInfixAt(s, k, i) {
      assert s[i..i + |k|][j] == s[i + j] != c;
    }
  }

  lemma ContainsSelf(s: string)
    ensures Contains(s, s)
  {
    assert s[..|s|] == s;
  }

  /**
   * `s.split(pat)[0]` for a non-empty pattern: the text before the first
   * occurrence of `pat`, or all of `s` when there is none.
   */
  function BeforeFirst(s: string, pat: string): (r: string)
    requires |pat| > 0
    ensures r <= s
    ensures forall i :: 0 <= i < |r| ==> !IsInfixAt(s, pat, i)
    ensures r == s || IsInfixAt(s, pat, |r|)
    decreases |s|
  {
    if |s| < |pat| then s
    else if s[..|pat|] == pat then []
    else
      var rest := BeforeFirst(s[1..], pat);
      assert forall i :: 1 <= i <= |s| ==> IsInfixAt(s, pat, i) == IsInfixAt(s[1..], pat, i - 1);
      [s[0]] + rest
  }

  /** The part before the first occurrence holds no occurrence of the pattern. */
  lemma BeforeFirstHasNoOccurrence(s: string, pat: string)
    requires |pat| > 0
    ensures !Contains(BeforeFirst(s, pat), pat)
  {
    var r := BeforeFirst(s, pat);
    ContainsIff(r, pat);
    if Contains(r, pat) {
      var i :| 0 <= i <= |r| - |pat| && IsInfixAt(r, pat, i);
      assert s[i..i + |pat|] == r[i..i + |pat|];
      assert IsInfixAt(s, pat, i);
      assert false;
    }
  }

  /* ---------- trim ---------- */

  function TrimStart(s: string): (r: string)
    ensures |r| <= |s| && r == s[|s| - |r|..]
    ensures forall i :: 0 <= i < |s| - |r| ==> IsSpace(s[i])
    ensures r == [] || !IsSpace(r[0])
  {
    if |s| > 0 && IsSpace(s[0]) then TrimStart(s[1..]) else s
  }

  function TrimEnd(s: string): (r: string)
    ensures r <= s
    ensures forall i :: |r| <= i < |s| ==> IsSpace(s[i])
    ensures r == [] || !IsSpace(r[|r| - 1])
  {
    if |s| > 0 && IsSpace(s[|s| - 1]) then TrimEnd(s[..|s| - 1]) else s
  }

  /** `s.trim()`: `s` without its leading and trailing white space. */
  function Trim(s: string): (r: string)
  {
    TrimEnd(TrimStart(s))
  }

  /** `s.trim()` is empty exactly when `s` is all white space. */
  lemma TrimEmptyIffBlank(s: string)
    ensures Trim(s) == [] <==> forall i :: 0 <= i < |s| ==> IsSpace(s[i])
  {
    var t := TrimStart(s);
    if Trim(s) == [] {
      assert t == [];
    }
  }

  /** The trimmed text is a stretch of the original with non-blank ends. */
  lemma TrimShape(s: string)
    ensures exists i :: 0 <= i <= |s| - |Trim(s)| && IsInfixAt(s, Trim(s), i)
    ensures Trim(s) == [] || (!IsSpace(Trim(s)[0]) && !IsSpace(Trim(s)[|Trim(s)| - 1]))
  {
    var t := TrimStart(s);
    var r := TrimEnd(t);
    assert r == Trim(s);
    var i := |s| - |t|;
    assert t == s[i..];
    assert s[i..i + |r|] == t[..|r|] == r;
    assert IsInfixAt(s, r, i);
    if r != [] {
      assert r[0] == t[0];
    }
  }

  /** Text without white space is left alone by `trim`. */
  lemma TrimNoSpace(s: string)
    requires forall i :: 0 <= i < |s| ==> !IsSpace(s[i])
    ensures Trim(s) == s
  {
  }

  /* ---------- split and join ---------- */

  function IndexOfChar(s: string, c: char): (i: nat)
    requires c in s
    ensures i < |s| && s[i] == c && c !in s[..i]
  {
    if s[0] == c then 0 else 1 + IndexOfChar(s[1..], c)
  }

  /** `s.split(sep)` for a separator of one character. */
  function Split(s: string, sep: char): (r: seq<string>)
    ensures |r| >= 1
    decreases |s|
  {
    if sep !in s then [s]
    else
      var i := IndexOfChar(s, sep);
      [s[..i]] + Split(s[i + 1..], sep)
  }

  /** No piece of a split holds the separator. */
  lemma {:induction false} SplitPieces(s: string, sep: char)
    ensures forall p :: p in Split(s, sep) ==> sep !in p
    decreases |s|
  {
    if sep in s {
      var i := IndexOfChar(s, sep);
      SplitPieces(s[i + 1..], sep);
    }
  }

  /** `parts.join(sep)`. */
  function Join(parts: seq<string>, sep: char): string
    requires |parts| >= 1
  {
    if |parts| == 1 then parts[0] else parts[0] + [sep] + Join(parts[1..], sep)
  }

  /** Joining the pieces of a split with the same separator gives the text back. */
  lemma {:induction false} SplitJoin(s: string, sep: char)
    ensures Join(Split(s, sep), sep) == s
    decreases |s|
  {
    if sep in s {
      var i := IndexOfChar(s, sep);
      var rest := s[i + 1..];
      SplitJoin(rest, sep);
      JoinCons(s[..i], Split(rest, sep), sep);
      assert s == s[..i] + [sep] + rest;
    }
  }

  /** The last piece of a split is the last piece of splitting what follows the first separator. */
  lemma SplitLast(s: string, sep: char, i: nat)
    requires sep in s && i == IndexOfChar(s, sep)
    ensures Last(Split(s, sep)) == Last(Split(s[i + 1..], sep))
  {
    var rest := Split(s[i + 1..], sep);
    var whole := Split(s, sep);
    assert whole == [s[..i]] + rest;
    assert |whole| == 1 + |rest|;
    assert whole[|whole| - 1] == ([s[..i]] + rest)[|rest|];
    assert ([s[..i]] + rest)[|rest|] == rest[|rest| - 1];
  }

  /** The last element of a non-empty list, as `pop()` returns it. */
  function Last(xs: seq<string>): string
    requires |xs| >= 1
  {
    xs[|xs| - 1]
  }

  /** Joining a piece in front of at least one other adds the piece and a separator. */
  lemma JoinCons(a: string, tail: seq<string>, sep: char)
    requires |tail| >= 1
    ensures Join([a] + tail, sep) == a + [sep] + Join(tail, sep)
  {
    assert ([a] + tail)[1..] == tail;
  }

  /* ---------- replace with a longer text ---------- */

  /** `s.replace(/c/g, rep)`. */
  function ReplaceAll(s: string, c: char, rep: string): (r: string)
    ensures c !in rep ==> c !in r
  {
    if s == [] then []
    else (if s[0] == c then rep else [s[0]]) + ReplaceAll(s[1..], c, rep)
  }

  /** Each replaced character grows the text by the replacement's length less one. */
  lemma {:induction false} ReplaceAllLength(s: string, c: char, rep: string)
    ensures |ReplaceAll(s, c, rep)| == |s| + (|rep| - 1) * multiset(s)[c]
  {
    if s != [] {
      var t := s[1..];
      ReplaceAllLength(t, c, rep);
      var k := |rep| - 1;
      var n := multiset(t)[c];
      var m := |ReplaceAll(t, c, rep)|;
      assert m == |t| + k * n;
      assert s == [s[0]] + t;
      if s[0] == c {
        assert |ReplaceAll(s, c, rep)| == |rep| + m;
        assert multiset(s)[c] == n + 1;
        assert k * (n + 1) == k * n + k;
      } else {
        assert |ReplaceAll(s, c, rep)| == 1 + m;
        assert multiset(s)[c] == n;
      }
    }
  }

  /** Replacing in a concatenation replaces in each part, so every `c` becomes `rep` in its own place. */
  lemma {:induction false} ReplaceAllAppend(a: string, b: string, c: char, rep: string)
    ensures ReplaceAll(a + b, c, rep) == ReplaceAll(a, c, rep) + ReplaceAll(b, c, rep)
    decreases |a|
  {
    if a == [] {
      assert a + b == b;
    } else {
      ReplaceAllAppend(a[1..], b, c, rep);
      assert (a + b)[0] == a[0];
      assert (a + b)[1..] == a[1..] + b;
    }
  }

  /** One character: `c` becomes `rep`, any other character stays. */
  lemma ReplaceAllOne(x: char, c: char, rep: string)
    ensures ReplaceAll([x], c, rep) == if x == c then rep else [x]
  {
    assert [x][1..] == [];
  }

  /** Text without `c` is left alone. */
  lemma {:induction false} ReplaceAllAbsent(s: string, c: char, rep: string)
    requires c !in s
    ensures ReplaceAll(s, c, rep) == s
  {
    if s != [] {
      ReplaceAllAbsent(s[1..], c, rep);
    }
  }

  /* ---------- sets of strings built by insertion ---------- */

  predicate NoDuplicates<T(==)>(xs: seq<T>) {
    forall i, j :: 0 <= i < j < |xs| ==> xs[i] != xs[j]
  }

  /** The two halves of a list without duplicates have none, and share no element. */
  lemma NoDuplicatesAppend<T>(a: seq<T>, b: seq<T>)
    requires NoDuplicates(a + b)
    ensures NoDuplicates(a) && NoDuplicates(b)
    ensures forall x :: x in a ==> x !in b
  {
    forall i, j | 0 <= i < j < |a| ensures a[i] != a[j] {
      assert (a + b)[i] == a[i] && (a + b)[j] == a[j];
    }
    forall i, j | 0 <= i < j < |b| ensures b[i] != b[j] {
      assert (a + b)[|a| + i] == b[i] && (a + b)[|a| + j] == b[j];
    }
    forall x | x in a ensures x !in b {
      var i :| 0 <= i < |a| && a[i] == x;
      forall j | 0 <= j < |b| ensures b[j] != x {
        assert (a + b)[i] == x && (a + b)[|a| + j] == b[j];
      }
    }
  }

  /** Two lists without duplicates that share no element concatenate to one without duplicates. */
  lemma NoDuplicatesConcat<T>(a: seq<T>, b: seq<T>)
    requires NoDuplicates(a) && NoDuplicates(b)
    requires forall x :: x in a ==> x !in b
    ensures NoDuplicates(a + b)
  {
    forall i, j | 0 <= i < j < |a + b| ensures (a + b)[i] != (a + b)[j] {
      if j < |a| {
        assert (a + b)[i] == a[i] && (a + b)[j] == a[j];
      } else if i >= |a| {
        assert (a + b)[i] == b[i - |a|] && (a + b)[j] == b[j - |a|];
      } else {
        assert (a + b)[i] == a[i] && (a + b)[j] == b[j - |a|];
        assert a[i] in a;
      }
    }
  }

  /** `set.add(x)` on an insertion-ordered JavaScript `Set`, seen as the list of its elements. */
  function Add(xs: seq<string>, x: string): seq<string> {
    if x in xs then xs else xs + [x]
  }

  /** `add` keeps the elements without repeats, in order, and adds exactly `x`. */
  lemma AddFacts(xs: seq<string>, x: string)
    ensures NoDuplicates(xs) ==> NoDuplicates(Add(xs, x))
    ensures forall y :: y in Add(xs, x) <==> y in xs || y == x
    ensures xs <= Add(xs, x)
  {
  }

  /** `[...new Set(xs)]`: each element once, in order of first occurrence. */
  function Dedup(xs: seq<string>): (r: seq<string>)
    ensures NoDuplicates(r)
    ensures forall y :: y in r <==> y in xs
    ensures |r| <= |xs|
  {
    if xs == [] then []
    else
      var init := Dedup(xs[..|xs| - 1]);
      AddFacts(init, xs[|xs| - 1]);
      Add(init, xs[|xs| - 1])
  }

  /** Adding one more element to the list adds it to the deduplication, as `set.add` does. */
  lemma DedupSnoc(xs: seq<string>, x: string)
    ensures Dedup(xs + [x]) == Add(Dedup(xs), x)
  {
    assert (xs + [x])[..|xs|] == xs;
  }

  /** Elements are found in order: the deduplicated prefix is a prefix of the deduplicated whole. */
  lemma {:induction false} DedupPrefix(xs: seq<string>, k: nat)
    requires k <= |xs|
    ensures Dedup(xs[..k]) <= Dedup(xs)
    decreases |xs| - k
  {
    if k < |xs| {
      DedupPrefix(xs[..|xs| - 1], k);
      assert xs[..|xs| - 1][..k] == xs[..k];
    } else {
      assert xs[..k] == xs;
    }
  }

  /** A list without duplicates is its own deduplication. */
  lemma {:induction false} DedupIdentity(xs: seq<string>)
    requires NoDuplicates(xs)
    ensures Dedup(xs) == xs
  {
    if xs != [] {
      var init := xs[..|xs| - 1];
      DedupIdentity(init);
      assert xs[|xs| - 1] !in init;
      assert init + [xs[|xs| - 1]] == xs;
    }
  }

  /** Removing the empty strings: the `.filter(Boolean)` of a list of strings. */
  function Compact(xs: seq<string>): (r: seq<string>)
    ensures forall t :: t in r <==> t in xs && t != []
    ensures |r| <= |xs|
  {
    if xs == [] then []
    else (if xs[0] == [] then [] else [xs[0]]) + Compact(xs[1..])
  }

  lemma {:induction false} CompactAppend(xs: seq<string>, ys: seq<string>)
    ensures Compact(xs + ys) == Compact(xs) + Compact(ys)
  {
    if xs != [] {
      assert (xs + ys)[1..] == xs[1..] + ys;
      CompactAppend(xs[1..], ys);
    } else {
      assert xs + ys == ys;
    }
  }

  lemma {:induction false} CompactIdentity(xs: seq<string>)
    requires forall i :: 0 <= i < |xs| ==> xs[i] != []
    ensures Compact(xs) == xs
  {
    if xs != [] {
      CompactIdentity(xs[1..]);
    }
  }

  /* ---------- numbers as text ---------- */

  function DigitChar(d: nat): (c: char)
    requires d < 10
    ensures IsDigit(c)
  {
    (d + '0' as int) as char
  }

  /** The decimal text of a natural number, as `${n}` writes it. */
  function NatToString(n: nat): (r: string)
    ensures |r| >= 1
    ensures forall i :: 0 <= i < |r| ==> IsDigit(r[i])
    ensures |r| > 1 ==> r[0] != '0'
  {
    if n < 10 then [DigitChar(n)] else NatToString(n / 10) + [DigitChar(n % 10)]
  }

  /** `${i}` for an integer. */
  function IntToString(i: int): (r: string)
    ensures |r| >= 1
    ensures r[0] == '-' <==> i < 0
  {
    if i < 0 then "-" + NatToString(-i) else NatToString(i)
  }

  /** The number a string of decimal digits denotes. */
  function DecimalValue(s: string): nat
    requires forall i :: 0 <= i < |s| ==> IsDigit(s[i])
  {
    if s == [] then 0
    else
      var last := s[|s| - 1];
      assert IsDigit(last);
      10 * DecimalValue(s[..|s| - 1]) + (last as int - '0' as int)
  }

  /** `${i}` is a minus sign exactly for a negative number, followed by digits that read back as its magnitude. */
  lemma IntToStringRoundTrip(i: int)
    ensures i >= 0 ==> AllDigits(IntToString(i)) && DecimalValue(IntToString(i)) == i
    ensures i < 0 ==> AllDigits(IntToString(i)[1..]) && DecimalValue(IntToString(i)[1..]) == -i
  {
    if i < 0 {
      var d := NatToString(-i);
      assert IntToString(i) == "-" + d;
      assert IntToString(i)[1..] == d;
      assert AllDigits(d);
      NatToStringRoundTrip(-i);
    } else {
      assert IntToString(i) == NatToString(i);
      NatToStringRoundTrip(i);
    }
  }

  predicate AllDigits(s: string) {
    forall k :: 0 <= k < |s| ==> IsDigit(s[k])
  }

  /** The decimal text reads back as the number it was written from. */
  lemma {:induction false} NatToStringRoundTrip(n: nat)
    ensures DecimalValue(NatToString(n)) == n
  {
    if n >= 10 {
      NatToStringRoundTrip(n / 10);
      var s := NatToString(n);
      assert s[..|s| - 1] == NatToString(n / 10);
    }
  }

  /* ---------- \b\w capitalisation ---------- */

  /**
   * `s.replace(/\b\w/g, l => l.toUpperCase())`, scanning left to right;
   * `prevWord` tells whether the character before `s` is a word character.
   */
  function CapitalizeFrom(s: string, prevWord: bool): (r: string)
    ensures |r| == |s|
  {
    if s == [] then []
    else
      var c := s[0];
      [if IsWordChar(c) && !prevWord then ToUpperChar(c) else c] + CapitalizeFrom(s[1..], IsWordChar(c))
  }

  /** Upper-case every word character that starts a word (a match of `\b\w`). */
  function CapitalizeWords(s: string): (r: string)
    ensures |r| == |s|
  {
    CapitalizeFrom(s, false)
  }

  /** A `\b\w` match: a word character at the start or after a non-word character. */
  predicate WordStart(s: string, i: nat)
    requires i < |s|
  {
    IsWordChar(s[i]) && (i == 0 || !IsWordChar(s[i - 1]))
  }

  lemma {:induction false} CapitalizeFromAt(s: string, prevWord: bool, i: nat)
    requires i < |s|
    ensures CapitalizeFrom(s, prevWord)[i] ==
      if IsWordChar(s[i]) && !(if i == 0 then prevWord else IsWordChar(s[i - 1]))
      then ToUpperChar(s[i]) else s[i]
  {
    if i > 0 {
      CapitalizeFromAt(s[1..], IsWordChar(s[0]), i - 1);
      assert s[1..][i - 1] == s[i];
      if i > 1 {
        assert s[1..][i - 2] == s[i - 1];
      }
    }
  }

  /** A word-initial character is the upper case of the original; every other character is unchanged. */
  lemma CapitalizeWordsAt(s: string, i: nat)
    requires i < |s|
    ensures WordStart(s, i) ==> CapitalizeWords(s)[i] == ToUpperChar(s[i])
    ensures !WordStart(s, i) ==> CapitalizeWords(s)[i] == s[i]
  {
    CapitalizeFromAt(s, false, i);
  }

  /** Capitalisation changes no character's lower case, so case-insensitive matches survive it. */
  lemma CapitalizeWordsLower(s: string)
    ensures ToLower(CapitalizeWords(s)) == ToLower(s)
  {
    var r := CapitalizeWords(s);
    forall i | 0 <= i < |s| ensures ToLower(r)[i] == ToLower(s)[i] {
      CapitalizeWordsAt(s, i);
      LowerOfUpper(s[i]);
    }
  }
}
