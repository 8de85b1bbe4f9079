/**
 * The dokaben transliteration: every character that has a themed glyph is
 * replaced by its token string (":dokaben_ka:" and the like), every other
 * character is kept.  The converted buffer is the second candidate.
 */
module Dokaben {
  import opened JavaChars
  import opened Tables

  // dokaben_convert_array, one map per row of puts; the keys of the blocks are
  // pairwise different, so their union is the table.

  /** The vowels a i u e o and their small forms. */
  const GlyphsVowel: map<JChar, string> := map[
    0x30A2 := ":dokaben_a:",
    0x30A4 := ":dokaben_i:",
    0x30A6 := ":dokaben_u:",
    0x30A8 := ":dokaben_e:",
    0x30AA := ":dokaben_o:",
    0x30A1 := ":dokaben_a_small:",
    0x30A3 := ":dokaben_i_small:",
    0x30A5 := ":dokaben_u_small:",
    0x30A7 := ":dokaben_e_small:",
    0x30A9 := ":dokaben_o_small:"
  ]

  /** The ka and ga rows. */
  const GlyphsKa: map<JChar, string> := map[
    0x30AB := ":dokaben_ka:",
    0x30AD := ":dokaben_ki:",
    0x30AF := ":dokaben_ku:",
    0x30B1 := ":dokaben_ke:",
    0x30B3 := ":dokaben_ko:",
    0x30AC := ":dokaben_ga:",
    0x30AE := ":dokaben_gi:",
    0x30B0 := ":dokaben_gu:",
    0x30B2 := ":dokaben_ge:",
    0x30B4 := ":dokaben_go:"
  ]

  /** The sa and za rows. */
  const GlyphsSa: map<JChar, string> := map[
    0x30B5 := ":dokaben_sa:",
    0x30B7 := ":dokaben_si:",
    0x30B9 := ":dokaben_su:",
    0x30BB := ":dokaben_se:",
    0x30BD := ":dokaben_so:",
    0x30B6 := ":dokaben_za:",
    0x30B8 := ":dokaben_zi:",
    0x30BA := ":dokaben_zu:",
    0x30BC := ":dokaben_ze:",
    0x30BE := ":dokaben_zo:"
  ]

  /** The ta and da rows. */
  const GlyphsTa: map<JChar, string> := map[
    0x30BF := ":dokaben_ta:",
    0x30C1 := ":dokaben_ti:",
    0x30C4 := ":dokaben_tu:",
    0x30C6 := ":dokaben_te:",
    0x30C8 := ":dokaben_to:",
    0x30C0 := ":dokaben_da:",
    0x30C2 := ":dokaben_di:",
    0x30C5 := ":dokaben_du:",
    0x30C7 := ":dokaben_de:",
    0x30C9 := ":dokaben_do:"
  ]

  /** The na row. */
  const GlyphsNa: map<JChar, string> := map[
    0x30CA := ":dokaben_na:",
    0x30CB := ":dokaben_ni:",
    0x30CC := ":dokaben_nu:",
    0x30CD := ":dokaben_ne:",
    0x30CE := ":dokaben_no:"
  ]

  /** The ha, ba and pa rows. */
  const GlyphsHa: map<JChar, string> := map[
    0x30CF := ":dokaben_ha:",
    0x30D2 := ":dokaben_hi:",
    0x30D5 := ":dokaben_hu:",
    0x30D8 := ":dokaben_he:",
    0x30DB := ":dokaben_ho:",
    0x30D0 := ":dokaben_ba:",
    0x30D3 := ":dokaben_bi:",
    0x30D6 := ":dokaben_bu:",
    0x30D9 := ":dokaben_be:",
    0x30DC := ":dokaben_bo:",
    0x30D1 := ":dokaben_pa:",
    0x30D4 := ":dokaben_pi:",
    0x30D7 := ":dokaben_pu:",
    0x30DA := ":dokaben_pe:",
    0x30DD := ":dokaben_po:"
  ]

  /** The ma, ya and ra rows. */
  const GlyphsMaYaRa: map<JChar, string> := map[
    0x30DE := ":dokaben_ma:",
    0x30DF := ":dokaben_mi:",
    0x30E0 := ":dokaben_mu:",
    0x30E1 := ":dokaben_me:",
    0x30E2 := ":dokaben_mo:",
    0x30E4 := ":dokaben_ya:",
    0x30E6 := ":dokaben_yu:",
    0x30E8 := ":dokaben_yo:",
    0x30E9 := ":dokaben_ra:",
    0x30EA := ":dokaben_ri:",
    0x30EB := ":dokaben_ru:",
    0x30EC := ":dokaben_re:",
    0x30ED := ":dokaben_ro:"
  ]

  /** Small tsu/ya/yu/yo, wa, wo, n, the long vowel mark, ! and ?. */
  const GlyphsRest: map<JChar, string> := map[
    0x30C3 := ":dokaben_tu_small:",
    0x30E3 := ":dokaben_ya_small:",
    0x30E5 := ":dokaben_yu_small:",
    0x30E7 := ":dokaben_yo_small:",
    0x30EF := ":dokaben_wa:",
    0x30F2 := ":dokaben_wo:",
    0x30F3 := ":dokaben_n:",
    0x30FC := ":dokaben_-:",
    0xFF01 := ":dokaben_bikkuri:",
    0xFF1F := ":dokaben_hatena:"
  ]

  const Glyphs: map<JChar, string> :=
    GlyphsVowel + GlyphsKa + GlyphsSa + GlyphsTa + GlyphsNa + GlyphsHa + GlyphsMaYaRa + GlyphsRest

  /** The shape of every token: a colon, the prefix "dokaben_", a name, a colon. */
  predicate IsToken(t: string)
  {
    |t| >= 11 && t[0] == ':' && t[..9] == ":dokaben_" && t[|t| - 1] == ':'
  }

  lemma GlyphsVowelAreTokens(c: JChar)
    requires c in GlyphsVowel
    ensures IsToken(GlyphsVowel[c])
  {
    if c == 0x30A2 {
    } else if c == 0x30A4 {
    } else if c == 0x30A6 {
    } else if c == 0x30A8 {
    } else if c == 0x30AA {
    } else if c == 0x30A1 {
    } else if c == 0x30A3 {
    } else if c == 0x30A5 {
    } else if c == 0x30A7 {
    } else if c == 0x30A9 {
    }
  }

  lemma GlyphsKaAreTokens(c: JChar)
    requires c in GlyphsKa
    ensures IsToken(GlyphsKa[c])
  {
    if c == 0x30AB {
    } else if c == 0x30AD {
    } else if c == 0x30AF {
    } else if c == 0x30B1 {
    } else if c == 0x30B3 {
    } else if c == 0x30AC {
    } else if c == 0x30AE {
    } else if c == 0x30B0 {
    } else if c == 0x30B2 {
    } else if c == 0x30B4 {
    }
  }

  lemma GlyphsSaAreTokens(c: JChar)
    requires c in GlyphsSa
    ensures IsToken(GlyphsSa[c])
  {
    if c == 0x30B5 {
    } else if c == 0x30B7 {
    } else if c == 0x30B9 {
    } else if c == 0x30BB {
    } else if c == 0x30BD {
    } else if c == 0x30B6 {
    } else if c == 0x30B8 {
    } else if c == 0x30BA {
    } else if c == 0x30BC {
    } else if c == 0x30BE {
    }
  }

  lemma GlyphsTaAreTokens(c: JChar)
    requires c in GlyphsTa
    ensures IsToken(GlyphsTa[c])
  {
    if c == 0x30BF {
    } else if c == 0x30C1 {
    } else if c == 0x30C4 {
    } else if c == 0x30C6 {
    } else if c == 0x30C8 {
    } else if c == 0x30C0 {
    } else if c == 0x30C2 {
    } else if c == 0x30C5 {
    } else if c == 0x30C7 {
    } else if c == 0x30C9 {
    }
  }

  lemma GlyphsNaAreTokens(c: JChar)
    requires c in GlyphsNa
    ensures IsToken(GlyphsNa[c])
  {
    if c == 0x30CA {
    } else if c == 0x30CB {
    } else if c == 0x30CC {
    } else if c == 0x30CD {
    } else if c == 0x30CE {
    }
  }

  lemma GlyphsHaAreTokens(c: JChar)
    requires c in GlyphsHa
    ensures IsToken(GlyphsHa[c])
  {
    if c == 0x30CF {
    } else if c == 0x30D2 {
    } else if c == 0x30D5 {
    } else if c == 0x30D8 {
    } else if c == 0x30DB {
    } else if c == 0x30D0 {
    } else if c == 0x30D3 {
    } else if c == 0x30D6 {
    } else if c == 0x30D9 {
    } else if c == 0x30DC {
    } else if c == 0x30D1 {
    } else if c == 0x30D4 {
    } else if c == 0x30D7 {
    } else if c == 0x30DA {
    } else if c == 0x30DD {
    }
  }

  lemma GlyphsMaYaRaAreTokens(c: JChar)
    requires c in GlyphsMaYaRa
    ensures IsToken(GlyphsMaYaRa[c])
  {
    if c == 0x30DE {
    } else if c == 0x30DF {
    } else if c == 0x30E0 {
    } else if c == 0x30E1 {
    } else if c == 0x30E2 {
    } else if c == 0x30E4 {
    } else if c == 0x30E6 {
    } else if c == 0x30E8 {
    } else if c == 0x30E9 {
    } else if c == 0x30EA {
    } else if c == 0x30EB {
    } else if c == 0x30EC {
    } else if c == 0x30ED {
    }
  }

  lemma GlyphsRestAreTokens(c: JChar)
    requires c in GlyphsRest
    ensures IsToken(GlyphsRest[c])
  {
    if c == 0x30C3 {
    } else if c == 0x30E3 {
    } else if c == 0x30E5 {
    } else if c == 0x30E7 {
    } else if c == 0x30EF {
    } else if c == 0x30F2 {
    } else if c == 0x30F3 {
    } else if c == 0x30FC {
    } else if c == 0xFF01 {
    } else if c == 0xFF1F {
    }
  }

  lemma GlyphIsToken(c: JChar)
    requires c in Glyphs
    ensures IsToken(Glyphs[c])
  {
    if c in GlyphsRest { GlyphsRestAreTokens(c); }
    else if c in GlyphsMaYaRa { GlyphsMaYaRaAreTokens(c); }
    else if c in GlyphsHa { GlyphsHaAreTokens(c); }
    else if c in GlyphsNa { GlyphsNaAreTokens(c); }
    else if c in GlyphsTa { GlyphsTaAreTokens(c); }
    else if c in GlyphsSa { GlyphsSaAreTokens(c); }
    else if c in GlyphsKa { GlyphsKaAreTokens(c); }
    else { GlyphsVowelAreTokens(c); }
  }

  /**
   * The table covers the katakana from small a to ro (U+30A1..U+30ED) without a
   * gap, and wa, wo, n, the long vowel mark, ! and ?.
   */
  lemma KanaHaveGlyphs(c: JChar)
    requires 0x30A1 <= c <= 0x30ED || c in {0x30EF, 0x30F2, 0x30F3, 0x30FC, 0xFF01, 0xFF1F}
    ensures c in Glyphs
  {
    if c <= 0x30AA {
      VowelKeys(c);
    } else if c <= 0x30B4 {
      KaKeys(c);
    } else if c <= 0x30BE {
      SaKeys(c);
    } else if c <= 0x30C9 && c != 0x30C3 {
      TaKeys(c);
    } else if c <= 0x30CE && c != 0x30C3 {
      NaKeys(c);
    } else if c <= 0x30DD && c != 0x30C3 {
      HaKeys(c);
    } else if c <= 0x30ED && c !in {0x30C3, 0x30E3, 0x30E5, 0x30E7} {
      MaYaRaKeys(c);
    } else {
      RestKeys(c);
    }
  }

  // Which keys each block holds.

  lemma VowelKeys(c: JChar)
    requires 0x30A1 <= c <= 0x30AA
    ensures c in GlyphsVowel && c in Glyphs
  {
  }

  lemma KaKeys(c: JChar)
    requires 0x30AB <= c <= 0x30B4
    ensures c in GlyphsKa && c in Glyphs
  {
  }

  lemma SaKeys(c: JChar)
    requires 0x30B5 <= c <= 0x30BE
    ensures c in GlyphsSa && c in Glyphs
  {
  }

  lemma TaKeys(c: JChar)
    requires 0x30BF <= c <= 0x30C9 && c != 0x30C3
    ensures c in GlyphsTa && c in Glyphs
  {
  }

  lemma NaKeys(c: JChar)
    requires 0x30CA <= c <= 0x30CE
    ensures c in GlyphsNa && c in Glyphs
  {
  }

  lemma HaKeys(c: JChar)
    requires 0x30CF <= c <= 0x30DD
    ensures c in GlyphsHa && c in Glyphs
  {
  }

  lemma MaYaRaKeys(c: JChar)
    requires 0x30DE <= c <= 0x30ED && c !in {0x30E3, 0x30E5, 0x30E7}
    ensures c in GlyphsMaYaRa && c in Glyphs
  {
  }

  lemma RestKeys(c: JChar)
    requires c in {0x30C3, 0x30E3, 0x30E5, 0x30E7, 0x30EF, 0x30F2, 0x30F3, 0x30FC, 0xFF01, 0xFF1F}
    ensures c in GlyphsRest && c in Glyphs
  {
  }

  /** Every syllable the grid gives has a glyph. */
  lemma ResolveHasGlyph(key: int, dir: Slot)
    requires IsRowKey(key) && Resolve(key, dir) != 0
    ensures Resolve(key, dir) as JChar in Glyphs
  {
    ResolveCodes(key, dir);
    KanaHaveGlyphs(Resolve(key, dir) as JChar);
  }

  /**
   * Every key of the dakuten table has a glyph; since every replacement is a key
   * again (Tables.DakutenCycles), the dakuten key never leaves the table.
   */
  lemma DakutenHasGlyphs(k: JChar)
    requires k in Dakuten
    ensures k in Glyphs
  {
    DakutenRange(k);
    KanaHaveGlyphs(k);
  }

  /** Every key and replacement of the kigou table, and the ? it appends, have glyphs. */
  lemma KigouHasGlyphs(k: JChar)
    requires k in Kigou
    ensures k in Glyphs && Kigou[k] in Glyphs && QuestionMark in Glyphs
  {
    KigouEffective();
    assert k in {0xFF01, 0xFF1F} && Kigou[k] in {0xFF01, 0x30FC};
    RestKeys(k);
    RestKeys(Kigou[k]);
    RestKeys(QuestionMark);
  }

  /** What one character becomes: its token when the table has it, itself otherwise. */
  function Glyph(c: JChar): (g: JString)
    ensures c !in Glyphs ==> g == [c]
    ensures c in Glyphs ==> |g| >= 11 && g[0] == Colon && g[|g| - 1] == Colon
  {
    if c in Glyphs then
      GlyphIsToken(c);
      Units(Glyphs[c])
    else
      [c]
  }

  /** The characters of `s` replaced by `f` of each, concatenated in order. */
  function FlatMap(f: JChar -> JString, s: JString): JString
  {
    if s == [] then [] else FlatMap(f, s[..|s| - 1]) + f(s[|s| - 1])
  }

  /**
   * The converted string: the glyphs of the characters, in order.  Built from the
   * last character, the way dokabenConvert extends its result.
   */
  function Transliterate(s: JString): JString
  {
    FlatMap(Glyph, s)
  }

  /** dokabenConvert: the loop over the characters of `s`, appending each glyph to `out`. */
  method DokabenConvert(s: JString) returns (out: JString)
    ensures out == Transliterate(s)
  {
    out := [];
    var i := 0;
    while i < |s|
      invariant 0 <= i <= |s|
      invariant out == Transliterate(s[..i])
    {
      assert s[..i + 1][..i] == s[..i];
      out := out + Glyph(s[i]);
      i := i + 1;
    }
    assert s[..|s|] == s;
  }

  /** No character of `s` has a glyph. */
  predicate NoGlyphs(s: JString)
  {
    forall i :: 0 <= i < |s| ==> s[i] !in Glyphs
  }

  /** A flat map distributes over concatenation, whatever the function. */
  lemma {:induction false} FlatMapConcat(f: JChar -> JString, a: JString, b: JString)
    ensures FlatMap(f, a + b) == FlatMap(f, a) + FlatMap(f, b)
    decreases |b|
  {
    if b == [] {
      assert a + b == a;
    } else {
      var b' := b[..|b| - 1];
      assert (a + b)[..|a + b| - 1] == a + b';
      assert (a + b)[|a + b| - 1] == b[|b| - 1];
      FlatMapConcat(f, a, b');
    }
  }

  /** The conversion works character by character: it distributes over concatenation. */
  lemma TransliterateConcat(a: JString, b: JString)
    ensures Transliterate(a + b) == Transliterate(a) + Transliterate(b)
  {
    FlatMapConcat(Glyph, a, b);
  }

  /** Each character of `s` is replaced, in place, by its glyph. */
  lemma TransliterateAt(s: JString, i: nat)
    requires i < |s|
    ensures Transliterate(s) == Transliterate(s[..i]) + Glyph(s[i]) + Transliterate(s[i + 1..])
  {
    assert s == s[..i] + [s[i]] + s[i + 1..];
    TransliterateConcat(s[..i] + [s[i]], s[i + 1..]);
    TransliterateConcat(s[..i], [s[i]]);
    assert [s[i]][..0] == [];
  }

  /** A glyph is one code unit exactly for the characters outside the table, and
      at least eleven for those in it. */
  lemma GlyphLength(c: JChar)
    ensures |Glyph(c)| == 1 <==> c !in Glyphs
    ensures c in Glyphs ==> |Glyph(c)| >= 11
  {
  }

  lemma NoGlyphsSnoc(s: JString)
    requires s != []
    ensures NoGlyphs(s) <==> NoGlyphs(s[..|s| - 1]) && s[|s| - 1] !in Glyphs
  {
    var p := s[..|s| - 1];
    if NoGlyphs(p) && s[|s| - 1] !in Glyphs {
      forall i | 0 <= i < |s|
        ensures s[i] !in Glyphs
      {
        if i < |p| {
          assert s[i] == p[i];
        }
      }
    }
  }

  /**
   * The conversion never shortens the text, keeps its length exactly when no
   * character has a glyph, and otherwise adds at least ten code units.
   */
  lemma {:induction false} TransliterateLength(s: JString)
    ensures |Transliterate(s)| >= |s|
    ensures |Transliterate(s)| == |s| <==> NoGlyphs(s)
    ensures !NoGlyphs(s) ==> |Transliterate(s)| >= |s| + 10
  {
    if s != [] {
      var p := s[..|s| - 1];
      var c := s[|s| - 1];
      assert Transliterate(s) == Transliterate(p) + Glyph(c);
      TransliterateLength(p);
      GlyphLength(c);
      NoGlyphsSnoc(s);
    }
  }

  /** A text without glyph characters comes back unchanged. */
  lemma {:induction false} TransliterateUnmapped(s: JString)
    requires NoGlyphs(s)
    ensures Transliterate(s) == s
  {
    if s != [] {
      TransliterateUnmapped(s[..|s| - 1]);
    }
  }
}
