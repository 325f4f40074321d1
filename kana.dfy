/** Character classification and kana conversion (CharacterExtensions.kt and
    StringExtensions.kt). A Kotlin `Char` is a UTF-16 code unit; every range
    used here lies in the Basic Multilingual Plane, so a Dafny `char` stands
    for it. */
module Kana {

  // ---------------------------------------------------------------------------
  // Char.isHiragana / Char.isKatakana / Char.isKanji
  // ---------------------------------------------------------------------------

  predicate IsHiragana(c: char)
  {
    '\U{3040}' <= c <= '\U{309F}'
  }

  predicate IsKatakana(c: char)
  {
    '\U{30A0}' <= c <= '\U{30FF}'
  }

  /** `Char.isKanji`: true for every character outside the eight excluded blocks
      (hiragana, katakana, ASCII, full-width digits, full-width Latin upper and
      lower case, half-width katakana, half-width Hangul). It is a blacklist,
      so CJK punctuation, Hangul syllables or Latin-1 letters count as kanji too. */
  predicate IsKanji(c: char)
  {
    !('\U{3040}' <= c <= '\U{309F}') &&
    !('\U{30A0}' <= c <= '\U{30FF}') &&
    !('\U{0000}' <= c <= '\U{007F}') &&
    !('\U{FF10}' <= c <= '\U{FF19}') &&
    !('\U{FF21}' <= c <= '\U{FF3A}') &&
    !('\U{FF41}' <= c <= '\U{FF5A}') &&
    !('\U{FF66}' <= c <= '\U{FF9D}') &&
    !('\U{FFA0}' <= c <= '\U{FFDC}')
  }

  lemma HiraganaKatakanaDisjoint(c: char)
    ensures !(IsHiragana(c) && IsKatakana(c))
  {
  }

  lemma KanjiIsNotKana(c: char)
    ensures IsKanji(c) ==> !IsHiragana(c) && !IsKatakana(c)
  {
  }

  /** The excluded blocks, spelled out one at a time. */
  lemma NotKanji(c: char)
    ensures c <= '\U{007F}' ==> !IsKanji(c)
    ensures '\U{FF10}' <= c <= '\U{FF19}' ==> !IsKanji(c)
    ensures ('\U{FF21}' <= c <= '\U{FF3A}' || '\U{FF41}' <= c <= '\U{FF5A}') ==> !IsKanji(c)
    ensures '\U{FF66}' <= c <= '\U{FF9D}' ==> !IsKanji(c)
    ensures '\U{FFA0}' <= c <= '\U{FFDC}' ==> !IsKanji(c)
  {
  }

  /** Because the test is a blacklist, an ideograph and an ideographic comma
      both count as kanji. */
  lemma KanjiExamples()
    ensures IsKanji('\U{4E00}') && IsKanji('\U{5B66}')
    ensures IsKanji('\U{3001}') && IsKanji('\U{3002}')
    ensures !IsKanji('a') && !IsKanji('\U{3042}') && !IsKanji('\U{30A2}')
  {
  }

  // ---------------------------------------------------------------------------
  // String.convertKatakanaToHiragana
  // ---------------------------------------------------------------------------

  /** The katakana that have a hiragana counterpart 0x60 code points lower. */
  predicate IsConvertibleKatakana(c: char)
  {
    '\U{30A1}' <= c <= '\U{30F6}'
  }

  function KatakanaToHiraganaChar(c: char): (h: char)
    ensures IsConvertibleKatakana(c) ==> h as int == c as int - 0x60 && IsHiragana(h)
    ensures !IsConvertibleKatakana(c) ==> h == c
  {
    if IsConvertibleKatakana(c) then (c as int - 0x60) as char else c
  }

  function ConvertKatakanaToHiragana(s: string): (r: string)
    decreases |s|
  {
    if s == [] then []
    else [KatakanaToHiraganaChar(s[0])] + ConvertKatakanaToHiragana(s[1..])
  }

  /** The conversion is position-wise: same length, each character shifted down
      by 0x60 when it lies in U+30A1..U+30F6 and kept otherwise. */
  lemma {:induction false} ConvertPointwise(s: string)
    ensures |ConvertKatakanaToHiragana(s)| == |s|
    ensures forall k :: 0 <= k < |s| ==>
      ConvertKatakanaToHiragana(s)[k] == KatakanaToHiraganaChar(s[k])
    decreases |s|
  {
    if s != [] {
      ConvertPointwise(s[1..]);
      var r := ConvertKatakanaToHiragana(s);
      forall k | 0 <= k < |s| ensures r[k] == KatakanaToHiraganaChar(s[k]) {
        if k > 0 { assert r[k] == ConvertKatakanaToHiragana(s[1..])[k - 1]; }
      }
    }
  }

  /** Every shifted character lands in U+3041..U+3096, which is hiragana and
      outside the convertible range, so nothing convertible is left. */
  lemma ConvertedHasNoConvertibleKatakana(s: string)
    ensures forall k :: 0 <= k < |ConvertKatakanaToHiragana(s)| ==>
      !IsConvertibleKatakana(ConvertKatakanaToHiragana(s)[k])
  {
    ConvertPointwise(s);
  }

  lemma {:induction false} ConvertIdempotent(s: string)
    ensures ConvertKatakanaToHiragana(ConvertKatakanaToHiragana(s)) == ConvertKatakanaToHiragana(s)
  {
    var r := ConvertKatakanaToHiragana(s);
    ConvertPointwise(s);
    ConvertPointwise(r);
    assert ConvertKatakanaToHiragana(r) == r;
  }

  // ---------------------------------------------------------------------------
  // String.removeSymbols
  // ---------------------------------------------------------------------------

  /** The regular expression `[-.]` deletes every '-' and every '.'. */
  function RemoveSymbols(s: string): (r: string)
    ensures |r| <= |s|
    ensures '-' !in r && '.' !in r
    ensures forall c :: c in r <==> c in s && c != '-' && c != '.'
    decreases |s|
  {
    if s == [] then []
    else (if s[0] == '-' || s[0] == '.' then [] else [s[0]]) + RemoveSymbols(s[1..])
  }

  /** A string that has neither symbol is left as it is. */
  lemma {:induction false} RemoveSymbolsKeeps(s: string)
    requires '-' !in s && '.' !in s
    ensures RemoveSymbols(s) == s
    decreases |s|
  {
    if s != [] {
      assert s[0] in s;
      assert forall c :: c in s[1..] ==> c in s;
      RemoveSymbolsKeeps(s[1..]);
    }
  }

  lemma RemoveSymbolsIdempotent(s: string)
    ensures RemoveSymbols(RemoveSymbols(s)) == RemoveSymbols(s)
  {
    RemoveSymbolsKeeps(RemoveSymbols(s));
  }

  /** Deletion keeps the order of what remains: removing symbols from a
      concatenation removes them from each part. */
  lemma {:induction false} RemoveSymbolsConcat(a: string, b: string)
    ensures RemoveSymbols(a + b) == RemoveSymbols(a) + RemoveSymbols(b)
    decreases |a|
  {
    if a == [] {
      assert a + b == b;
    } else {
      assert (a + b)[0] == a[0];
      assert (a + b)[1..] == a[1..] + b;
      RemoveSymbolsConcat(a[1..], b);
    }
  }

  // ---------------------------------------------------------------------------
  // String.isKatakana / String.isJapanese
  // ---------------------------------------------------------------------------

  /** `String.isKatakana()`: some character lies in U+30A0..U+30FF. */
  predicate HasKatakana(s: string)
  {
    exists k :: 0 <= k < |s| && IsKatakana(s[k])
  }

  /** `String.isJapanese()`: some character is kana (U+3040..U+30FF) or a
      unified ideograph (U+4E00..U+9FFF). */
  predicate IsJapanese(s: string)
  {
    exists k :: 0 <= k < |s| && (('\U{3040}' <= s[k] <= '\U{30FF}') || ('\U{4E00}' <= s[k] <= '\U{9FFF}'))
  }

  lemma KatakanaIsJapanese(s: string)
    ensures HasKatakana(s) ==> IsJapanese(s)
    ensures !HasKatakana("") && !IsJapanese("")
  {
    if HasKatakana(s) {
      var k :| 0 <= k < |s| && IsKatakana(s[k]);
      assert '\U{3040}' <= s[k] <= '\U{30FF}';
    }
  }

  /** After conversion a string may still count as katakana: U+30A0, U+30F7..U+30FF
      (the long-vowel mark U+30FC among them) are left unconverted. */
  lemma LongVowelMarkStaysKatakana()
    ensures HasKatakana(ConvertKatakanaToHiragana("\U{30FC}"))
  {
    var r := ConvertKatakanaToHiragana("\U{30FC}");
    assert r[0] == '\U{30FC}';
  }
}
