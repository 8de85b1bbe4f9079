/**
 * The static tables of SoftKeyboard, built once in onCreate: the 10 x 5 syllable
 * grid, the key-to-row index, the dakuten (voicing / small-kana) map and the
 * kigou (punctuation) map.
 */
module Tables {
  import opened JavaChars

  /** A swipe direction as stored in mSwipeDirection: center, left, up, right, down. */
  type Slot = d: int | 0 <= d < 5

  const Center: Slot := 0

  /** dokaben_keycode_array: one row per key, one column per direction; 0 is an unset slot. */
  const Grid: seq<seq<int>> := [
    [0x30A2, 0x30A4, 0x30A6, 0x30A8, 0x30AA],  // a i u e o
    [0x30AB, 0x30AD, 0x30AF, 0x30B1, 0x30B3],  // ka ki ku ke ko
    [0x30B5, 0x30B7, 0x30B9, 0x30BB, 0x30BD],  // sa shi su se so
    [0x30BF, 0x30C1, 0x30C4, 0x30C6, 0x30C8],  // ta chi tsu te to
    [0x30CA, 0x30CB, 0x30CC, 0x30CD, 0x30CE],  // na ni nu ne no
    [0x30CF, 0x30D2, 0x30D5, 0x30D8, 0x30DB],  // ha hi fu he ho
    [0x30DE, 0x30DF, 0x30E0, 0x30E1, 0x30E2],  // ma mi mu me mo
    [0x30E4, 0,      0x30E6, 0,      0x30E8],  // ya - yu - yo
    [0x30E9, 0x30EA, 0x30EB, 0x30EC, 0x30ED],  // ra ri ru re ro
    [0x30EF, 0x30F2, 0x30F3, 0x30FC, 0]        // wa wo n (long vowel mark) -
  ]

  /**
   * dokaben_keycode_array_index: the key code of each row key to its row.  The
   * ideographic comma U+3001 is given row 10, which the grid does not have; it
   * lies outside the swipe range, so onRelease never looks it up.
   */
  const RowIndex: map<int, int> := map[
    0x30A2 := 0, 0x30AB := 1, 0x30B5 := 2, 0x30BF := 3, 0x30CA := 4,
    0x30CF := 5, 0x30DE := 6, 0x30E4 := 7, 0x30E9 := 8, 0x30EF := 9,
    0x3001 := 10
  ]

  /** The key codes that onKey leaves to onRelease (0x30A2..0x30FF). */
  predicate InSwipeRange(code: int)
  {
    0x30A2 <= code <= 0x30FF
  }

  /** The row keys that onRelease can resolve without throwing. */
  predicate IsRowKey(key: int)
  {
    InSwipeRange(key) && key in RowIndex
  }

  /**
   * The code point onRelease hands to handleCharacter for a key held in the swipe
   * range and released after a swipe in direction `dir`.  Unset slots give 0.
   */
  function Resolve(key: int, dir: Slot): (c: int)
    requires IsRowKey(key)
    ensures c == 0 <==> (key == 0x30E4 && (dir == 1 || dir == 3)) || (key == 0x30EF && dir == 4)
    ensures c != 0 ==> InSwipeRange(c)
    ensures dir == Center ==> c == key
  {
    Grid[RowIndex[key]][dir]
  }

  /** Every row key is in the swipe range and the range holds no other key of the index. */
  lemma RowKeys(key: int)
    ensures IsRowKey(key) <==>
      key in {0x30A2, 0x30AB, 0x30B5, 0x30BF, 0x30CA, 0x30CF, 0x30DE, 0x30E4, 0x30E9, 0x30EF}
  {
  }

  /** The first key code of the next row, or 0x3100 past the last row. */
  function NextRowKey(key: int): int
    requires IsRowKey(key)
  {
    if RowIndex[key] < 9 then Grid[RowIndex[key] + 1][Center] else 0x3100
  }

  /** Every character of a row lies between the row's key and the next row's key. */
  lemma ResolveInRowRange(key: int, dir: Slot)
    requires IsRowKey(key) && Resolve(key, dir) != 0
    ensures key <= Resolve(key, dir) < NextRowKey(key)
  {
    RowKeys(key);
    if dir == 0 {
    } else if dir == 1 {
    } else if dir == 2 {
    } else if dir == 3 {
    } else {
    }
  }

  /**
   * The katakana block's letters in the sense of Character.isLetter: U+30A1 to
   * U+30FF except the middle dot U+30FB, which is punctuation.
   */
  predicate IsKatakanaLetter(code: int)
  {
    0x30A1 <= code <= 0x30FF && code != 0x30FB
  }

  /** Every set cell of the grid is a katakana letter. */
  lemma ResolveIsLetter(key: int, dir: Slot)
    requires IsRowKey(key) && Resolve(key, dir) != 0
    ensures IsKatakanaLetter(Resolve(key, dir))
  {
    RowKeys(key);
    if dir == 0 {
    } else if dir == 1 {
    } else if dir == 2 {
    } else if dir == 3 {
    } else {
    }
  }

  /** The set cells are the letters from a to ro, and wa, wo, n and the long vowel mark. */
  lemma ResolveCodes(key: int, dir: Slot)
    requires IsRowKey(key) && Resolve(key, dir) != 0
    ensures 0x30A2 <= Resolve(key, dir) <= 0x30ED || Resolve(key, dir) in {0x30EF, 0x30F2, 0x30F3, 0x30FC}
  {
    RowKeys(key);
    ResolveInRowRange(key, dir);
    if key == 0x30EF {
      if dir == 0 {
      } else if dir == 1 {
      } else if dir == 2 {
      } else if dir == 3 {
      }
    }
  }

  /** Within a row the set slots increase from center to down. */
  lemma ResolveIncreasingInRow(key: int, d1: Slot, d2: Slot)
    requires IsRowKey(key) && d1 < d2 && Resolve(key, d1) != 0 && Resolve(key, d2) != 0
    ensures Resolve(key, d1) < Resolve(key, d2)
  {
    RowKeys(key);
  }

  /** The row keys are listed in increasing order. */
  lemma RowKeysIncreasing(k1: int, k2: int)
    requires IsRowKey(k1) && IsRowKey(k2) && k1 < k2
    ensures NextRowKey(k1) <= k2
  {
    RowKeys(k1);
    RowKeys(k2);
  }

  /** Two different (key, direction) pairs never yield the same character. */
  lemma {:induction false} ResolveInjective(k1: int, d1: Slot, k2: int, d2: Slot)
    requires IsRowKey(k1) && IsRowKey(k2)
    requires Resolve(k1, d1) != 0 && Resolve(k1, d1) == Resolve(k2, d2)
    ensures k1 == k2 && d1 == d2
  {
    ResolveInRowRange(k1, d1);
    ResolveInRowRange(k2, d2);
    if k1 < k2 {
      RowKeysIncreasing(k1, k2);
    } else if k2 < k1 {
      RowKeysIncreasing(k2, k1);
    } else if d1 < d2 {
      ResolveIncreasingInRow(k1, d1, d2);
    } else if d2 < d1 {
      ResolveIncreasingInRow(k1, d2, d1);
    }
  }

  /** The ka key swiped up gives ku (U+30AF). */
  lemma KaUpIsKu()
    ensures Resolve(0x30AB, 2) == 0x30AF
  {
  }

  /**
   * dakuten_convert_array: the replacement the dakuten key makes for the character
   * before the cursor.  The puts come in five blocks, kept here as five maps.
   */
  const DakutenKa: map<JChar, JChar> := map[  // the ka row
    0x30AB := 0x30AC, 0x30AC := 0x30AB,  // ka ga
    0x30AD := 0x30AE, 0x30AE := 0x30AD,  // ki gi
    0x30AF := 0x30B0, 0x30B0 := 0x30AF,  // ku gu
    0x30B1 := 0x30B2, 0x30B2 := 0x30B1,  // ke ge
    0x30B3 := 0x30B4, 0x30B4 := 0x30B3  // ko go
  ]

  const DakutenSa: map<JChar, JChar> := map[  // the sa row
    0x30B5 := 0x30B6, 0x30B6 := 0x30B5,  // sa za
    0x30B7 := 0x30B8, 0x30B8 := 0x30B7,  // shi ji
    0x30B9 := 0x30BA, 0x30BA := 0x30B9,  // su zu
    0x30BB := 0x30BC, 0x30BC := 0x30BB,  // se ze
    0x30BD := 0x30BE, 0x30BE := 0x30BD  // so zo
  ]

  const DakutenTa: map<JChar, JChar> := map[  // the ta row
    0x30BF := 0x30C0, 0x30C0 := 0x30BF,  // ta da
    0x30C1 := 0x30C2, 0x30C2 := 0x30C1,  // chi di
    0x30C4 := 0x30C3, 0x30C3 := 0x30C5, 0x30C5 := 0x30C4,  // tsu, small tsu, du
    0x30C6 := 0x30C7, 0x30C7 := 0x30C6,  // te de
    0x30C8 := 0x30C9, 0x30C9 := 0x30C8  // to do
  ]

  const DakutenHa: map<JChar, JChar> := map[  // the ha row
    0x30CF := 0x30D0, 0x30D0 := 0x30D1, 0x30D1 := 0x30CF,  // ha ba pa
    0x30D2 := 0x30D3, 0x30D3 := 0x30D4, 0x30D4 := 0x30D2,  // hi bi pi
    0x30D5 := 0x30D6, 0x30D6 := 0x30D7, 0x30D7 := 0x30D5,  // fu bu pu
    0x30D8 := 0x30D9, 0x30D9 := 0x30DA, 0x30DA := 0x30D8,  // he be pe
    0x30DB := 0x30DC, 0x30DC := 0x30DD, 0x30DD := 0x30DB  // ho bo po
  ]

  const DakutenSmall: map<JChar, JChar> := map[  // vowels and ya/yu/yo
    0x30A2 := 0x30A1, 0x30A1 := 0x30A2,  // a, small a
    0x30A4 := 0x30A3, 0x30A3 := 0x30A4,  // i, small i
    0x30A6 := 0x30A5, 0x30A5 := 0x30A6,  // u, small u
    0x30A8 := 0x30A7, 0x30A7 := 0x30A8,  // e, small e
    0x30AA := 0x30A9, 0x30A9 := 0x30AA,  // o, small o
    0x30E4 := 0x30E3, 0x30E3 := 0x30E4,  // ya, small ya
    0x30E6 := 0x30E5, 0x30E5 := 0x30E6,  // yu, small yu
    0x30E8 := 0x30E7, 0x30E7 := 0x30E8   // yo, small yo
  ]

  const Dakuten: map<JChar, JChar> := DakutenKa + DakutenSa + DakutenTa + DakutenHa + DakutenSmall

  /**
   * The keys of Dakuten that lie on a cycle of length three: small tsu, tsu, du
   * (U+30C3..U+30C5) and the ha, ba, pa rows (U+30CF..U+30DD).
   */
  predicate OnTripleCycle(k: JChar)
  {
    0x30C3 <= k <= 0x30C5 || 0x30CF <= k <= 0x30DD
  }

  /** The blocks' keys lie in disjoint ranges, so a lookup in the union is a lookup in one block. */
  lemma DakutenBlockRanges(k: JChar)
    ensures k in DakutenKa ==> 0x30AB <= k <= 0x30B4
    ensures k in DakutenSa ==> 0x30B5 <= k <= 0x30BE
    ensures k in DakutenTa ==> 0x30BF <= k <= 0x30C9
    ensures k in DakutenHa ==> 0x30CF <= k <= 0x30DD
    ensures k in DakutenSmall ==> 0x30A1 <= k <= 0x30AA || 0x30E3 <= k <= 0x30E8
  {
    if k in DakutenKa { DakutenKaCycles(k); }
    if k in DakutenSa { DakutenSaCycles(k); }
    if k in DakutenTa { DakutenTaCycles(k); }
    if k in DakutenHa { DakutenHaCycles(k); }
    if k in DakutenSmall { DakutenSmallCycles(k); }
  }

  /** A lookup in the union is a lookup in the block that holds the key. */
  lemma DakutenBlockLookup(k: JChar)
    ensures k in DakutenKa ==> k in Dakuten && Dakuten[k] == DakutenKa[k]
    ensures k in DakutenSa ==> k in Dakuten && Dakuten[k] == DakutenSa[k]
    ensures k in DakutenTa ==> k in Dakuten && Dakuten[k] == DakutenTa[k]
    ensures k in DakutenHa ==> k in Dakuten && Dakuten[k] == DakutenHa[k]
    ensures k in DakutenSmall ==> k in Dakuten && Dakuten[k] == DakutenSmall[k]
  {
    DakutenBlockRanges(k);
  }

  // The five blocks, one lemma each: where the keys lie and how they cycle.

  lemma DakutenKaCycles(k: JChar)
    requires k in DakutenKa
    ensures 0x30AB <= k <= 0x30B4
    ensures DakutenKa[k] in DakutenKa && DakutenKa[k] != k && DakutenKa[DakutenKa[k]] == k
  {
    if k == 0x30AB {
    } else if k == 0x30AC {
    } else if k == 0x30AD {
    } else if k == 0x30AE {
    } else if k == 0x30AF {
    } else if k == 0x30B0 {
    } else if k == 0x30B1 {
    } else if k == 0x30B2 {
    } else if k == 0x30B3 {
    } else if k == 0x30B4 {
    }
  }

  lemma DakutenSaCycles(k: JChar)
    requires k in DakutenSa
    ensures 0x30B5 <= k <= 0x30BE
    ensures DakutenSa[k] in DakutenSa && DakutenSa[k] != k && DakutenSa[DakutenSa[k]] == k
  {
    if k == 0x30B5 {
    } else if k == 0x30B6 {
    } else if k == 0x30B7 {
    } else if k == 0x30B8 {
    } else if k == 0x30B9 {
    } else if k == 0x30BA {
    } else if k == 0x30BB {
    } else if k == 0x30BC {
    } else if k == 0x30BD {
    } else if k == 0x30BE {
    }
  }

  lemma DakutenSmallCycles(k: JChar)
    requires k in DakutenSmall
    ensures 0x30A1 <= k <= 0x30AA || 0x30E3 <= k <= 0x30E8
    ensures DakutenSmall[k] in DakutenSmall && DakutenSmall[k] != k && DakutenSmall[DakutenSmall[k]] == k
  {
    if k == 0x30A2 {
    } else if k == 0x30A1 {
    } else if k == 0x30A4 {
    } else if k == 0x30A3 {
    } else if k == 0x30A6 {
    } else if k == 0x30A5 {
    } else if k == 0x30A8 {
    } else if k == 0x30A7 {
    } else if k == 0x30AA {
    } else if k == 0x30A9 {
    } else if k == 0x30E4 {
    } else if k == 0x30E3 {
    } else if k == 0x30E6 {
    } else if k == 0x30E5 {
    } else if k == 0x30E8 {
    } else if k == 0x30E7 {
    }
  }

  lemma DakutenTaCycles(k: JChar)
    requires k in DakutenTa
    ensures 0x30BF <= k <= 0x30C9
    ensures DakutenTa[k] in DakutenTa && DakutenTa[k] != k
    ensures OnTripleCycle(DakutenTa[k]) == OnTripleCycle(k)
    ensures !OnTripleCycle(k) ==> DakutenTa[DakutenTa[k]] == k
    ensures OnTripleCycle(k) ==> DakutenTa[DakutenTa[k]] != k && DakutenTa[DakutenTa[DakutenTa[k]]] == k
  {
    if k == 0x30BF {
    } else if k == 0x30C0 {
    } else if k == 0x30C1 {
    } else if k == 0x30C2 {
    } else if k == 0x30C4 {
    } else if k == 0x30C3 {
    } else if k == 0x30C5 {
    } else if k == 0x30C6 {
    } else if k == 0x30C7 {
    } else if k == 0x30C8 {
    } else if k == 0x30C9 {
    }
  }

  lemma DakutenHaCycles(k: JChar)
    requires k in DakutenHa
    ensures 0x30CF <= k <= 0x30DD
    ensures DakutenHa[k] in DakutenHa && DakutenHa[k] != k
    ensures DakutenHa[DakutenHa[k]] != k && DakutenHa[DakutenHa[DakutenHa[k]]] == k
  {
    if k == 0x30CF {
    } else if k == 0x30D0 {
    } else if k == 0x30D1 {
    } else if k == 0x30D2 {
    } else if k == 0x30D3 {
    } else if k == 0x30D4 {
    } else if k == 0x30D5 {
    } else if k == 0x30D6 {
    } else if k == 0x30D7 {
    } else if k == 0x30D8 {
    } else if k == 0x30D9 {
    } else if k == 0x30DA {
    } else if k == 0x30DB {
    } else if k == 0x30DC {
    } else if k == 0x30DD {
    }
  }

  lemma DakutenCycles(k: JChar)
    requires k in Dakuten
    ensures Dakuten[k] in Dakuten && Dakuten[k] != k
    ensures Dakuten[Dakuten[k]] in Dakuten
    ensures OnTripleCycle(Dakuten[k]) == OnTripleCycle(k)
    ensures !OnTripleCycle(k) ==> Dakuten[Dakuten[k]] == k
    ensures OnTripleCycle(k) ==> Dakuten[Dakuten[k]] != k && Dakuten[Dakuten[Dakuten[k]]] == k
  {
    DakutenBlockRanges(k);
    if k in DakutenKa {
      DakutenKaCycles(k);
      DakutenKaCycles(DakutenKa[k]);
      DakutenBlockLookup(k);
      DakutenBlockLookup(DakutenKa[k]);
    } else if k in DakutenSa {
      DakutenSaCycles(k);
      DakutenSaCycles(DakutenSa[k]);
      DakutenBlockLookup(k);
      DakutenBlockLookup(DakutenSa[k]);
    } else if k in DakutenTa {
      var v := DakutenTa[k];
      DakutenTaCycles(k);
      DakutenTaCycles(v);
      DakutenBlockLookup(k);
      DakutenBlockLookup(v);
      DakutenBlockLookup(DakutenTa[v]);
    } else if k in DakutenHa {
      var v := DakutenHa[k];
      DakutenHaCycles(k);
      DakutenHaCycles(v);
      DakutenBlockLookup(k);
      DakutenBlockLookup(v);
      DakutenBlockLookup(DakutenHa[v]);
    } else {
      DakutenSmallCycles(k);
      DakutenSmallCycles(DakutenSmall[k]);
      DakutenBlockLookup(k);
      DakutenBlockLookup(DakutenSmall[k]);
    }
  }

  /** The dakuten key works inside the katakana from small a to yo, both ways. */
  lemma DakutenRange(k: JChar)
    requires k in Dakuten
    ensures 0x30A1 <= k <= 0x30E8 && 0x30A1 <= Dakuten[k] <= 0x30E8
  {
    DakutenCycles(k);
    DakutenBlockRanges(k);
    DakutenBlockRanges(Dakuten[k]);
  }

  /** Hence the dakuten map is a permutation of its keys: no two keys share an image. */
  lemma {:induction false} DakutenInjective(a: JChar, b: JChar)
    requires a in Dakuten && b in Dakuten && Dakuten[a] == Dakuten[b]
    ensures a == b
  {
    DakutenCycles(a);
    DakutenCycles(b);
    DakutenCycles(Dakuten[a]);
  }

  /**
   * kigou_convert_array as built: three puts, the third overwriting the key of the
   * second.
   */
  const Kigou: map<JChar, JChar> :=
    map[][0xFF1F := 0xFF01][0xFF01 := 0xFF1F][0xFF01 := 0x30FC]

  /** The fullwidth question mark that handleKigou appends when there is nothing to convert. */
  const QuestionMark: JChar := 0xFF1F

  /**
   * The effective kigou map is {? -> !, ! -> long vowel mark}: the put of ! -> ? is lost,
   * so repeated presses run ? -> ! -> (long vowel mark), which is not a key.
   */
  lemma KigouEffective()
    ensures Kigou == map[0xFF1F := 0xFF01, 0xFF01 := 0x30FC]
    ensures Kigou[Kigou[QuestionMark]] == 0x30FC && 0x30FC !in Kigou
  {
  }
}
