/** String helpers standing in for the JavaScript string methods the pages
    call: `toLowerCase`, `includes`, `startsWith`, and the decimal rendering
    of a number inside a template literal. Strings are `seq<char>`. */
module Text {

  /** Capital letters that `toLowerCase` folds in this model: ASCII A-Z and
      the Latin-1 capitals U+00C0..U+00DE except the multiplication sign
      U+00D7 (this covers the accented capitals of French text). */
  predicate IsUpper(c: char) {
    ('A' <= c <= 'Z') || ('\U{C0}' <= c <= '\U{DE}' && c != '\U{D7}')
  }

  /** The lower-case partner of a capital: 32 code points further on. */
  function LowerChar(c: char): (r: char)
    ensures !IsUpper(r)
    ensures !IsUpper(c) ==> r == c
    ensures IsUpper(c) ==> r as int == c as int + 32
  {
    if IsUpper(c) then (c as int + 32) as char else c
  }

  /** Per-character lowercasing of a whole string. */
  function Lower(s: string): (r: string)
    ensures |r| == |s|
    ensures forall i :: 0 <= i < |r| ==> !IsUpper(r[i])
    ensures forall i :: 0 <= i < |s| && !IsUpper(s[i]) ==> r[i] == s[i]
  {
    seq(|s|, i requires 0 <= i < |s| => LowerChar(s[i]))
  }

  /** Lowercasing twice is lowercasing once. */
  lemma LowerIdempotent(s: string)
    ensures Lower(Lower(s)) == Lower(s)
  {
    var once := Lower(s);
    forall i | 0 <= i < |once|
      ensures Lower(once)[i] == once[i]
    {
      assert !IsUpper(once[i]);
    }
  }

  /** `s.startsWith(prefix)`. */
  predicate StartsWith(s: string, prefix: string) {
    |prefix| <= |s| && s[..|prefix|] == prefix
  }

  /** `needle` occurs in `hay` starting at position `i`. */
  predicate OccursAt(hay: string, needle: string, i: int) {
    0 <= i && i + |needle| <= |hay| && hay[i..i + |needle|] == needle
  }

  /** `hay.includes(needle)`, computed by trying every start position. */
  function Includes(hay: string, needle: string): bool
    decreases |hay|
  {
    if StartsWith(hay, needle) then true
    else if |hay| == 0 then false
    else Includes(hay[1..], needle)
  }

  /** `Includes` holds exactly when the needle occurs at some position. */
  lemma {:induction false} IncludesSpec(hay: string, needle: string)
    ensures Includes(hay, needle) <==> exists i :: OccursAt(hay, needle, i)
    decreases |hay|
  {
    if StartsWith(hay, needle) {
      assert OccursAt(hay, needle, 0);
    } else if |hay| == 0 {
    } else {
      IncludesSpec(hay[1..], needle);
      if Includes(hay[1..], needle) {
        var i :| OccursAt(hay[1..], needle, i);
        assert hay[1..][i..i + |needle|] == hay[i + 1..i + 1 + |needle|];
        assert OccursAt(hay, needle, i + 1);
      } else {
        forall i | 1 <= i
          ensures OccursAt(hay, needle, i) ==> OccursAt(hay[1..], needle, i - 1)
        {
          if OccursAt(hay, needle, i) {
            assert hay[1..][i - 1..i - 1 + |needle|] == hay[i..i + |needle|];
          }
        }
      }
    }
  }

  /** Every string includes the empty string. */
  lemma IncludesEmpty(hay: string)
    ensures Includes(hay, "")
  {
    IncludesSpec(hay, "");
    assert OccursAt(hay, "", 0);
  }

  /** `hay.toLowerCase().includes(query.toLowerCase())`, the search test of
      the admin lists. */
  predicate IncludesIgnoringCase(hay: string, query: string) {
    Includes(Lower(hay), Lower(query))
  }

  /** The empty query is found in every field. */
  lemma EmptyQueryFound(hay: string)
    ensures IncludesIgnoringCase(hay, "")
  {
    assert Lower("") == "";
    IncludesEmpty(Lower(hay));
  }

  /** The search does not see the case of the query: a query and its
      lowercase form find the same fields. */
  lemma QueryCaseIrrelevant(hay: string, query: string)
    ensures IncludesIgnoringCase(hay, query) == IncludesIgnoringCase(hay, Lower(query))
  {
    LowerIdempotent(query);
  }

  /** A decimal digit character. */
  predicate IsDigit(c: char) {
    '0' <= c <= '9'
  }

  function DigitChar(d: nat): (c: char)
    requires d < 10
    ensures IsDigit(c)
  {
    ('0' as int + d) as char
  }

  function DigitValue(c: char): (d: nat)
    requires IsDigit(c)
    ensures d < 10
  {
    c as int - '0' as int
  }

  /** Decimal rendering of a natural number, as `${n}` produces it. */
  function NatToString(n: nat): (s: string)
    ensures |s| > 0
    ensures forall i :: 0 <= i < |s| ==> IsDigit(s[i])
  {
    if n < 10 then [DigitChar(n)] else NatToString(n / 10) + [DigitChar(n % 10)]
  }

  /** Reads a run of decimal digits back into a number. */
  function ParseNat(s: string): nat
    requires forall i :: 0 <= i < |s| ==> IsDigit(s[i])
  {
    if |s| == 0 then 0 else ParseNat(s[..|s| - 1]) * 10 + DigitValue(s[|s| - 1])
  }

  /** Parsing undoes rendering. */
  lemma {:induction false} ParseNatToString(n: nat)
    ensures ParseNat(NatToString(n)) == n
  {
    var s := NatToString(n);
    if n < 10 {
    } else {
      ParseNatToString(n / 10);
      assert s[..|s| - 1] == NatToString(n / 10);
    }
  }
}
