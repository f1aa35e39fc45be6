/**
 * String operations of the JavaScript runtime that the pages rely on, restricted
 * to what the model needs: lower-casing of the Latin letters (Basic Latin,
 * Latin-1 and Latin Extended-A), `includes`, code-unit string
 * comparison, `split` on a class of single characters, `join` and the decimal
 * rendering of a natural number in a template literal.
 */
module Text {

  predicate IsDigit(c: char)
  {
    '0' <= c <= '9'
  }

  /**
   * The capital letters of Basic Latin, Latin-1 and Latin Extended-A that
   * String.prototype.toLowerCase turns into one other character. U+0130 (capital
   * I with dot above) is not among them: it becomes two characters.
   */
  predicate IsUpper(c: char)
  {
    || 'A' <= c <= 'Z'
    || ('\U{C0}' <= c <= '\U{DE}' && c != '\U{D7}')
    || ('\U{100}' <= c <= '\U{137}' && c as int % 2 == 0 && c != '\U{130}')
    || ('\U{139}' <= c <= '\U{148}' && c as int % 2 == 1)
    || ('\U{14A}' <= c <= '\U{177}' && c as int % 2 == 0)
    || c == '\U{178}'
    || ('\U{179}' <= c <= '\U{17E}' && c as int % 2 == 1)
  }

  /**
   * String.prototype.toLowerCase on one character of the Latin blocks: A-Z and
   * U+00C0-U+00DE (but the multiplication sign) move 32 code points up, U+0178
   * becomes U+00FF and the capitals of Latin Extended-A are followed by their
   * small letter. Every other character is left as it is.
   */
  function LowerChar(c: char): (r: char)
    ensures !IsUpper(r)
    ensures !IsUpper(c) ==> r == c
    ensures IsUpper(c) ==> r != c
  {
    if 'A' <= c <= 'Z' || ('\U{C0}' <= c <= '\U{DE}' && c != '\U{D7}') then (c as int + 32) as char
    else if c == '\U{178}' then '\U{FF}'
    else if IsUpper(c) then (c as int + 1) as char
    else c
  }

  function Lower(s: string): (r: string)
    ensures |r| == |s|
    ensures forall i :: 0 <= i < |s| ==> r[i] == LowerChar(s[i])
    ensures forall i :: 0 <= i < |r| ==> !IsUpper(r[i])
  {
    seq(|s|, i requires 0 <= i < |s| => LowerChar(s[i]))
  }

  lemma LowerIdempotent(s: string)
    ensures Lower(Lower(s)) == Lower(s)
  {
  }

  /** String.prototype.includes: `needle` occurs in `hay` as a contiguous block. */
  predicate Contains(hay: string, needle: string)
    decreases |hay|
  {
    |needle| <= |hay| && (hay[..|needle|] == needle || Contains(hay[1..], needle))
  }

  /** `needle` occurs in `hay` starting at position `i`. */
  ghost predicate OccursAt(hay: string, needle: string, i: int)
  {
    0 <= i && i + |needle| <= |hay| && hay[i..i + |needle|] == needle
  }

  /** The recursive test agrees with the definition by an occurrence position. */
  lemma {:induction false} ContainsIff(hay: string, needle: string)
    ensures Contains(hay, needle) <==> exists i :: OccursAt(hay, needle, i)
    decreases |hay|
  {
    if |needle| <= |hay| {
      if hay[..|needle|] == needle {
        assert OccursAt(hay, needle, 0);
      } else {
        ContainsIff(hay[1..], needle);
        if exists i :: OccursAt(hay, needle, i) {
          var i :| OccursAt(hay, needle, i);
          assert hay[1..][i - 1..i - 1 + |needle|] == hay[i..i + |needle|];
          assert OccursAt(hay[1..], needle, i - 1);
        }
        if Contains(hay[1..], needle) {
          var j :| OccursAt(hay[1..], needle, j);
          assert hay[1..][j..j + |needle|] == hay[j + 1..j + 1 + |needle|];
          assert OccursAt(hay, needle, j + 1);
        }
      }
    }
  }

  /** A needle holding a character the haystack lacks does not occur in it. */
  lemma MissingChar(hay: string, needle: string, c: char)
    requires c in needle && c !in hay
    ensures !Contains(hay, needle)
  {
    ContainsIff(hay, needle);
    var k :| 0 <= k < |needle| && needle[k] == c;
    forall i ensures !OccursAt(hay, needle, i) {
      if 0 <= i && i + |needle| <= |hay| {
        assert hay[i..i + |needle|][k] == hay[i + k];
        assert hay[i + k] in hay;
      }
    }
  }

  /** The empty string occurs in every string, so `x.includes('')` always holds. */
  lemma ContainsEmpty(hay: string)
    ensures Contains(hay, "")
  {
  }

  /** JavaScript's `a <= b` on strings: lexicographic order on characters. */
  predicate LexLe(a: string, b: string)
  {
    if a == [] then true
    else if b == [] then false
    else if a[0] != b[0] then a[0] < b[0]
    else LexLe(a[1..], b[1..])
  }

  lemma {:induction false} LexLeReflexive(a: string)
    ensures LexLe(a, a)
  {
    if a != [] {
      LexLeReflexive(a[1..]);
    }
  }

  lemma {:induction false} LexLeTotal(a: string, b: string)
    ensures LexLe(a, b) || LexLe(b, a)
  {
    if a != [] && b != [] && a[0] == b[0] {
      LexLeTotal(a[1..], b[1..]);
    }
  }

  lemma {:induction false} LexLeAntisymmetric(a: string, b: string)
    requires LexLe(a, b) && LexLe(b, a)
    ensures a == b
  {
    if a != [] && b != [] {
      LexLeAntisymmetric(a[1..], b[1..]);
      assert a == [a[0]] + a[1..] && b == [b[0]] + b[1..];
    }
  }

  lemma {:induction false} LexLeTransitive(a: string, b: string, c: string)
    requires LexLe(a, b) && LexLe(b, c)
    ensures LexLe(a, c)
  {
    if a != [] && b != [] && c != [] && a[0] == b[0] && b[0] == c[0] {
      LexLeTransitive(a[1..], b[1..], c[1..]);
    }
  }

  /** String.prototype.split with a one-character class as separator. */
  function Split(s: string, seps: set<char>): (r: seq<string>)
    ensures |r| >= 1
    ensures forall i, j :: 0 <= i < |r| && 0 <= j < |r[i]| ==> r[i][j] !in seps
  {
    if s == [] then [[]]
    else
      var rest := Split(s[1..], seps);
      if s[0] in seps then [[]] + rest
      else [[s[0]] + rest[0]] + rest[1..]
  }

  /** Array.prototype.join with the separator `sep`. */
  function Join(parts: seq<string>, sep: string): string
  {
    if |parts| == 0 then ""
    else if |parts| == 1 then parts[0]
    else parts[0] + sep + Join(parts[1..], sep)
  }

  ghost predicate Free(s: string, seps: set<char>)
  {
    forall j :: 0 <= j < |s| ==> s[j] !in seps
  }

  /** A separator-free prefix glues onto the first part of the split of the rest. */
  lemma {:induction false} SplitFreePrefix(a: string, t: string, seps: set<char>)
    requires Free(a, seps)
    ensures Split(a + t, seps) == [a + Split(t, seps)[0]] + Split(t, seps)[1..]
  {
    if a != [] {
      assert (a + t)[1..] == a[1..] + t;
      SplitFreePrefix(a[1..], t, seps);
      assert [a[0]] + (a[1..] + Split(t, seps)[0]) == a + Split(t, seps)[0];
    } else {
      var r := Split(t, seps);
      assert a + t == t;
      assert a + r[0] == r[0];
      assert r == [r[0]] + r[1..];
    }
  }

  /**
   * Splitting on a class of separators what was joined with one of them gives
   * the parts back, when no part holds a separator.
   */
  lemma {:induction false} SplitJoin(parts: seq<string>, c: char, seps: set<char>)
    requires c in seps
    requires |parts| >= 1
    requires forall i :: 0 <= i < |parts| ==> Free(parts[i], seps)
    ensures Split(Join(parts, [c]), seps) == parts
  {
    if |parts| == 1 {
      SplitFreePrefix(parts[0], "", seps);
      assert parts[0] + "" == parts[0];
      assert Split("", seps) == [""];
    } else {
      SplitJoin(parts[1..], c, seps);
      var rest := Join(parts[1..], [c]);
      assert parts[0] + [c] + rest == parts[0] + ([c] + rest);
      SplitFreePrefix(parts[0], [c] + rest, seps);
      assert ([c] + rest)[1..] == rest;
      assert Split([c] + rest, seps) == [[]] + Split(rest, seps);
      assert parts[0] + [] == parts[0];
      assert parts == [parts[0]] + parts[1..];
    }
  }

  /** Joining separator-free parts with a separator-free glue gives a separator-free string. */
  lemma {:induction false} JoinFree(parts: seq<string>, sep: string, seps: set<char>)
    requires forall i :: 0 <= i < |parts| ==> Free(parts[i], seps)
    requires Free(sep, seps)
    ensures Free(Join(parts, sep), seps)
  {
    if |parts| > 1 {
      JoinFree(parts[1..], sep, seps);
      var rest := Join(parts[1..], sep);
      forall j | 0 <= j < |parts[0] + sep + rest| ensures (parts[0] + sep + rest)[j] !in seps {
        if j < |parts[0]| {
          assert (parts[0] + sep + rest)[j] == parts[0][j];
        } else if j < |parts[0]| + |sep| {
          assert (parts[0] + sep + rest)[j] == sep[j - |parts[0]|];
        } else {
          assert (parts[0] + sep + rest)[j] == rest[j - |parts[0]| - |sep|];
        }
      }
    }
  }

  /** The number of characters of `s` that belong to `cs`. */
  function CountIn(s: string, cs: set<char>): nat
  {
    if s == [] then 0 else (if s[0] in cs then 1 else 0) + CountIn(s[1..], cs)
  }

  /** Splitting yields one part more than there are separators. */
  lemma {:induction false} SplitCount(s: string, seps: set<char>)
    ensures |Split(s, seps)| == 1 + CountIn(s, seps)
  {
    if s != [] {
      SplitCount(s[1..], seps);
    }
  }

  /** `s` ends with `suffix` (String.prototype.endsWith). */
  predicate EndsWith(s: string, suffix: string)
  {
    |suffix| <= |s| && s[|s| - |suffix|..] == suffix
  }

  function DigitChar(d: nat): char
    requires d < 10
  {
    (('0' as int) + d) as char
  }

  /** The decimal rendering of `n` that a template literal `${n}` produces. */
  function NatToString(n: nat): (r: string)
    ensures |r| >= 1
    ensures forall i :: 0 <= i < |r| ==> IsDigit(r[i])
  {
    if n < 10 then [DigitChar(n)] else NatToString(n / 10) + [DigitChar(n % 10)]
  }

  /** The value of a string of decimal digits. */
  function DigitsValue(s: string): nat
    requires forall i :: 0 <= i < |s| ==> IsDigit(s[i])
  {
    if s == [] then 0
    else DigitsValue(s[..|s| - 1]) * 10 + DigitValue(s[|s| - 1])
  }

  function DigitValue(c: char): nat
    requires IsDigit(c)
  {
    c as int - '0' as int
  }

  /** Reading back the decimal rendering of `n` gives `n`. */
  lemma {:induction false} NatToStringRoundTrip(n: nat)
    ensures DigitsValue(NatToString(n)) == n
  {
    if n >= 10 {
      NatToStringRoundTrip(n / 10);
      var r := NatToString(n);
      assert r[..|r| - 1] == NatToString(n / 10);
    }
  }
}
