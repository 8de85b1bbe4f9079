# DokabenKeyboard input transducer in Dafny

DokabenKeyboard is an Android input method for katakana. Each key stands for one
consonant row. Pressing a key, optionally flinging it in one of four directions,
and releasing it picks a syllable from a 10×5 grid. The syllable goes into a
composing buffer. The candidate bar offers the buffer and its "dokaben" form. In
that form every syllable of the grid and every character the dakuten and kigou
keys produce (！ and ？ included) is replaced by a `:dokaben_…:` emoji token.
Characters outside the glyph table, such as ヴ, ヵ or ヶ, are kept as they are.
Three more keys work on the buffer:

- the dakuten key cycles the last syllable through its voiced and small forms;
- the kigou key steps ？ → ！ → ー, then appends ？ again;
- the dokaben key commits the transliterated text.

This project models that core and proves its properties:

- `swipe_listener.dfy` (`SwipeListener`): the touch listener's fling classifier, with its thresholds.
- `tables.dfy` (`Tables`): the fixed tables of the service.
  - the syllable grid and its row index;
  - the dakuten table, proved to be a permutation made of 2-cycles and 3-cycles;
  - the kigou table, whose effective contents differ from its literal puts.
- `dokaben.dfy` (`Dokaben`): the dokaben glyph table and `dokabenConvert`.
  - The conversion is a loop, proved against the specification function `Transliterate`.
- `composing.dfy` (`Composing`): the buffer edits of backspace, dakuten and kigou as functions, and the host calls as values (`HostAction`).
- `keys.dfy` (`Keys`): three pure decisions:
  - onKey's routing of a key code;
  - the key events of `sendKey`;
  - the prediction and completion modes `onStartInput` derives from the editor's input type.
- `session.dfy` (`Session`, `Scenarios`):
  - the service as a class, `SoftKeyboard`, whose handlers update the buffer, the candidate list, the caps-lock state and the press/swipe state in place;
  - every call the service makes on its host is appended to the field `log`.

Two parts of the code are not visible to the model, so each becomes a value given to the constructor:

- `Character.isLetter` becomes the function `isLetter`;
- the key codes of `DokabenFlingKeyboardView` become the `ViewCodes` record.

What a handler reads from the host becomes a parameter:

- the character before the cursor;
- the selection;
- the text length;
- the clock.

Java `char` is the 16-bit `JChar`, and `(char)` casts reduce modulo 2^16.

The class invariant `SoftKeyboard.Valid` holds two facts, and every handler keeps it:

- the candidate list is either empty or holds a non-empty text followed by its dokaben form;
- prediction and completion are never on together.

Some behaviour of the code worth knowing, all modelled as written:

- **Empty grid cell.** An empty cell is passed on as code 0. Because 0 is not a letter, U+0000 is committed.
- **updateCandidates with an empty buffer.** It hides the suggestions but keeps the candidate list.
- **onFinishInput.** It drops the buffer without committing it.
- **handleDokaben.** It commits the transliteration but keeps the composing buffer.

## Model

| member | source | states |
|---|---|---|
| JavaChars.ToChar | DokabenKeyboard/src/main/java/com/takashyx/softkeyboard/SoftKeyboard.java:713 | the `(char)` cast: identity on 0..0xFFFF, otherwise congruent modulo 2^16 |
| JavaChars.Units | DokabenKeyboard/src/main/java/com/takashyx/softkeyboard/SoftKeyboard.java:207-289 | a string literal as code units: one unit per character, exact for BMP characters |
| SwipeListener.OnFling | DokabenKeyboard/src/main/java/com/takashyx/softkeyboard/OnSwipeTouchListener.java:47-85 | never handled; no start event gives no callback; each of left/right/up/down fires iff its axis wins (\|vx\| > \|vy\| for horizontal) and its distance and speed strictly exceed 10 |
| SwipeListener.TieGoesVertical | DokabenKeyboard/src/main/java/com/takashyx/softkeyboard/OnSwipeTouchListener.java:57-79 | equal speeds never give a horizontal swipe |
| SwipeListener.ThresholdsAreExclusive | DokabenKeyboard/src/main/java/com/takashyx/softkeyboard/OnSwipeTouchListener.java:59-78 | a distance or a speed of exactly 10 on the axis the speeds select gives no swipe |
| SwipeListener.MirrorXSwapsLeftRight | DokabenKeyboard/src/main/java/com/takashyx/softkeyboard/OnSwipeTouchListener.java:57-66 | mirroring the x axis exchanges left and right and nothing else |
| SwipeListener.MirrorYSwapsUpDown | DokabenKeyboard/src/main/java/com/takashyx/softkeyboard/OnSwipeTouchListener.java:68-79 | mirroring the y axis exchanges up and down and nothing else |
| SwipeListener.TransposeSwapsAxes | DokabenKeyboard/src/main/java/com/takashyx/softkeyboard/OnSwipeTouchListener.java:57-79 | swapping the axes (speeds of different size) exchanges left/up and right/down |
| Tables.Resolve | DokabenKeyboard/src/main/java/com/takashyx/softkeyboard/SoftKeyboard.java:1018 | the grid cell for a row key and direction is 0 exactly for ya-left, ya-right and wa-down, otherwise in the katakana range; the center is the key itself |
| Tables.RowKeys | DokabenKeyboard/src/main/java/com/takashyx/softkeyboard/SoftKeyboard.java:124-135 | the keys onRelease can resolve are exactly the ten row keys |
| Tables.ResolveInRowRange | DokabenKeyboard/src/main/java/com/takashyx/softkeyboard/SoftKeyboard.java:93-107 | every syllable of a row lies between its key and the next row's key |
| Tables.ResolveIsLetter | DokabenKeyboard/src/main/java/com/takashyx/softkeyboard/SoftKeyboard.java:93-107 | every set cell is a katakana letter (so isLetter accepts it) |
| Tables.ResolveCodes | DokabenKeyboard/src/main/java/com/takashyx/softkeyboard/SoftKeyboard.java:93-107 | every set cell is a letter from ア to ロ, or ワ, ヲ, ン or ー |
| Tables.ResolveIncreasingInRow | DokabenKeyboard/src/main/java/com/takashyx/softkeyboard/SoftKeyboard.java:93-107 | set cells increase from center to down |
| Tables.RowKeysIncreasing | DokabenKeyboard/src/main/java/com/takashyx/softkeyboard/SoftKeyboard.java:124-135 | the rows are listed in increasing key order |
| Tables.ResolveInjective | DokabenKeyboard/src/main/java/com/takashyx/softkeyboard/SoftKeyboard.java:93-107 | different (key, direction) pairs never give the same syllable |
| Tables.KaUpIsKu | DokabenKeyboard/src/main/java/com/takashyx/softkeyboard/SoftKeyboard.java:96 | ka swiped up is ku |
| Tables.DakutenBlockRanges | DokabenKeyboard/src/main/java/com/takashyx/softkeyboard/SoftKeyboard.java:137-203 | each block of the dakuten table covers its own code range |
| Tables.DakutenBlockLookup | DokabenKeyboard/src/main/java/com/takashyx/softkeyboard/SoftKeyboard.java:137-203 | a lookup in the whole table is the lookup in the key's block |
| Tables.DakutenKaCycles | DokabenKeyboard/src/main/java/com/takashyx/softkeyboard/SoftKeyboard.java:138-147 | the ka row pairs each kana with its voiced form |
| Tables.DakutenSaCycles | DokabenKeyboard/src/main/java/com/takashyx/softkeyboard/SoftKeyboard.java:149-158 | the sa row pairs each kana with its voiced form |
| Tables.DakutenTaCycles | DokabenKeyboard/src/main/java/com/takashyx/softkeyboard/SoftKeyboard.java:160-170 | the ta row pairs, and tsu → small tsu → du → tsu |
| Tables.DakutenHaCycles | DokabenKeyboard/src/main/java/com/takashyx/softkeyboard/SoftKeyboard.java:172-186 | the ha row cycles plain → voiced → half-voiced → plain |
| Tables.DakutenSmallCycles | DokabenKeyboard/src/main/java/com/takashyx/softkeyboard/SoftKeyboard.java:188-203 | vowels and ya/yu/yo pair with their small forms |
| Tables.DakutenCycles | DokabenKeyboard/src/main/java/com/takashyx/softkeyboard/SoftKeyboard.java:137-203 | every key maps to another key; a 2-cycle off the tsu/ha keys, a 3-cycle (and not a 2-cycle) on them |
| Tables.DakutenRange | DokabenKeyboard/src/main/java/com/takashyx/softkeyboard/SoftKeyboard.java:137-203 | the dakuten table maps U+30A1..U+30E8 into itself |
| Tables.DakutenInjective | DokabenKeyboard/src/main/java/com/takashyx/softkeyboard/SoftKeyboard.java:137-203 | no two keys map to the same character |
| Tables.KigouEffective | DokabenKeyboard/src/main/java/com/takashyx/softkeyboard/SoftKeyboard.java:291-294 | the later put for ！ wins: the table is {？→！, ！→ー}, and ー is not a key |
| Dokaben.GlyphsVowelAreTokens | DokabenKeyboard/src/main/java/com/takashyx/softkeyboard/SoftKeyboard.java:207-216 | every vowel glyph is a `:dokaben_…:` token |
| Dokaben.GlyphsKaAreTokens | DokabenKeyboard/src/main/java/com/takashyx/softkeyboard/SoftKeyboard.java:217-226 | every ka-row glyph is a token |
| Dokaben.GlyphsSaAreTokens | DokabenKeyboard/src/main/java/com/takashyx/softkeyboard/SoftKeyboard.java:227-236 | every sa-row glyph is a token |
| Dokaben.GlyphsTaAreTokens | DokabenKeyboard/src/main/java/com/takashyx/softkeyboard/SoftKeyboard.java:237-246 | every ta-row glyph is a token |
| Dokaben.GlyphsNaAreTokens | DokabenKeyboard/src/main/java/com/takashyx/softkeyboard/SoftKeyboard.java:247-251 | every na-row glyph is a token |
| Dokaben.GlyphsHaAreTokens | DokabenKeyboard/src/main/java/com/takashyx/softkeyboard/SoftKeyboard.java:252-266 | every ha-row glyph is a token |
| Dokaben.GlyphsMaYaRaAreTokens | DokabenKeyboard/src/main/java/com/takashyx/softkeyboard/SoftKeyboard.java:267-279 | every ma/ya/ra-row glyph is a token |
| Dokaben.GlyphsRestAreTokens | DokabenKeyboard/src/main/java/com/takashyx/softkeyboard/SoftKeyboard.java:280-289 | the small kana, wa/wo/n, the long mark, ！ and ？ map to tokens |
| Dokaben.GlyphIsToken | DokabenKeyboard/src/main/java/com/takashyx/softkeyboard/SoftKeyboard.java:206-289 | every glyph of the table is a token of at least 11 units |
| Dokaben.VowelKeys | DokabenKeyboard/src/main/java/com/takashyx/softkeyboard/SoftKeyboard.java:207-216 | the block holds the vowels and small vowels U+30A1..U+30AA, and so does the whole table |
| Dokaben.KaKeys | DokabenKeyboard/src/main/java/com/takashyx/softkeyboard/SoftKeyboard.java:217-226 | the block holds U+30AB..U+30B4, and so does the whole table |
| Dokaben.SaKeys | DokabenKeyboard/src/main/java/com/takashyx/softkeyboard/SoftKeyboard.java:227-236 | the block holds U+30B5..U+30BE, and so does the whole table |
| Dokaben.TaKeys | DokabenKeyboard/src/main/java/com/takashyx/softkeyboard/SoftKeyboard.java:237-246 | the block holds U+30BF..U+30C9 except small tsu, and so does the whole table |
| Dokaben.NaKeys | DokabenKeyboard/src/main/java/com/takashyx/softkeyboard/SoftKeyboard.java:247-251 | the block holds U+30CA..U+30CE, and so does the whole table |
| Dokaben.HaKeys | DokabenKeyboard/src/main/java/com/takashyx/softkeyboard/SoftKeyboard.java:252-266 | the block holds U+30CF..U+30DD, and so does the whole table |
| Dokaben.MaYaRaKeys | DokabenKeyboard/src/main/java/com/takashyx/softkeyboard/SoftKeyboard.java:267-279 | the block holds U+30DE..U+30ED except small ya, yu and yo, and so does the whole table |
| Dokaben.RestKeys | DokabenKeyboard/src/main/java/com/takashyx/softkeyboard/SoftKeyboard.java:280-289 | the block holds small tsu, ya, yu, yo, then ワ, ヲ, ン, ー, ！ and ？, and so does the whole table |
| Dokaben.KanaHaveGlyphs | DokabenKeyboard/src/main/java/com/takashyx/softkeyboard/SoftKeyboard.java:206-289 | the glyph table covers U+30A1..U+30ED without a gap, plus ワ, ヲ, ン, ー, ！ and ？ |
| Dokaben.ResolveHasGlyph | DokabenKeyboard/src/main/java/com/takashyx/softkeyboard/SoftKeyboard.java:93-107 | every syllable the grid gives has a glyph |
| Dokaben.DakutenHasGlyphs | DokabenKeyboard/src/main/java/com/takashyx/softkeyboard/SoftKeyboard.java:137-203 | every key of the dakuten table has a glyph; as every replacement is a key again (DakutenCycles), every replacement has one too |
| Dokaben.KigouHasGlyphs | DokabenKeyboard/src/main/java/com/takashyx/softkeyboard/SoftKeyboard.java:291-294 | every key of the kigou table, its replacement and the appended ？ have a glyph |
| Dokaben.Glyph | DokabenKeyboard/src/main/java/com/takashyx/softkeyboard/SoftKeyboard.java:970-975 | a character outside the table is kept; one in it becomes a colon-delimited token |
| Dokaben.DokabenConvert | DokabenKeyboard/src/main/java/com/takashyx/softkeyboard/SoftKeyboard.java:967-978 | the loop builds exactly the concatenation of the glyphs of the characters |
| Dokaben.FlatMapConcat | DokabenKeyboard/src/main/java/com/takashyx/softkeyboard/SoftKeyboard.java:967-978 | converting character by character distributes over concatenation, for any per-character map |
| Dokaben.TransliterateConcat | DokabenKeyboard/src/main/java/com/takashyx/softkeyboard/SoftKeyboard.java:967-978 | the conversion distributes over concatenation |
| Dokaben.TransliterateAt | DokabenKeyboard/src/main/java/com/takashyx/softkeyboard/SoftKeyboard.java:967-978 | each character is replaced in place by its glyph |
| Dokaben.GlyphLength | DokabenKeyboard/src/main/java/com/takashyx/softkeyboard/SoftKeyboard.java:970-975 | a glyph has one unit exactly for characters outside the table |
| Dokaben.TransliterateLength | DokabenKeyboard/src/main/java/com/takashyx/softkeyboard/SoftKeyboard.java:967-978 | the output is never shorter, equally long iff no character is in the table, else at least 10 units longer |
| Dokaben.TransliterateUnmapped | DokabenKeyboard/src/main/java/com/takashyx/softkeyboard/SoftKeyboard.java:967-978 | text without table characters comes back unchanged |
| Composing.KeyDownUp | DokabenKeyboard/src/main/java/com/takashyx/softkeyboard/SoftKeyboard.java:694-699 | a key-down event followed by the key-up event of the same key |
| Composing.CommitClearsSuggestions | DokabenKeyboard/src/main/java/com/takashyx/softkeyboard/SoftKeyboard.java:656-662 | committing a non-empty buffer commits it with the cursor after it, then clears the suggestions unless completions are on |
| Composing.Backspaced | DokabenKeyboard/src/main/java/com/takashyx/softkeyboard/SoftKeyboard.java:816-830 | backspace removes exactly the last character and keeps the prefix |
| Composing.ReplaceLast | DokabenKeyboard/src/main/java/com/takashyx/softkeyboard/SoftKeyboard.java:883-895 | the dakuten edit keeps the length and prefix, replaces the last character only when the preceding character is a key and the buffer is non-empty |
| Composing.KigouEdit | DokabenKeyboard/src/main/java/com/takashyx/softkeyboard/SoftKeyboard.java:897-911 | the kigou edit replaces the last character when the preceding one is a key and the buffer is non-empty, otherwise appends ？ (length + 1) |
| Composing.AtEndReplacesLast | DokabenKeyboard/src/main/java/com/takashyx/softkeyboard/SoftKeyboard.java:883-895 | with the cursor at the buffer's end, a press replaces the last character by its table value |
| Composing.AtEndIterates | DokabenKeyboard/src/main/java/com/takashyx/softkeyboard/SoftKeyboard.java:883-895 | repeated presses follow the table from the last character |
| Composing.AtEndCycle | DokabenKeyboard/src/main/java/com/takashyx/softkeyboard/SoftKeyboard.java:883-895 | a press always changes the buffer; 2-cycles restore it after two presses, 3-cycles after three |
| Composing.DakutenCycleFacts | DokabenKeyboard/src/main/java/com/takashyx/softkeyboard/SoftKeyboard.java:137-203 | any table equal to the dakuten table maps each key to a different key, back in two steps exactly off tsu and the ha row, and in three steps on them |
| Composing.DakutenAtEndCycles | DokabenKeyboard/src/main/java/com/takashyx/softkeyboard/SoftKeyboard.java:883-895 | repeated dakuten presses restore the buffer after two presses, or three for tsu and the ha row |
| Composing.KigouAtEndSequence | DokabenKeyboard/src/main/java/com/takashyx/softkeyboard/SoftKeyboard.java:897-911 | at the buffer's end the kigou key goes ？ → ！ → ー and then appends a new ？ |
| Keys.IsWordSeparator | DokabenKeyboard/src/main/java/com/takashyx/softkeyboard/SoftKeyboard.java:980-983 | a code is a separator exactly when the char its low 16 bits make occurs in the separator string |
| Keys.WordSeparatorByCharCast | DokabenKeyboard/src/main/java/com/takashyx/softkeyboard/SoftKeyboard.java:980-983 | codes that differ by 2^16 are separators alike, because the code is cast to a char |
| Keys.Route | DokabenKeyboard/src/main/java/com/takashyx/softkeyboard/SoftKeyboard.java:721-772 | separators come first; each fixed key code takes its own branch, and the first one in the if/else-if order of lines 733-768 wins when two key codes coincide; katakana-range codes are ignored; all other codes go to handleCharacter |
| Keys.SendKeyActions | DokabenKeyboard/src/main/java/com/takashyx/softkeyboard/SoftKeyboard.java:704-717 | whatever the code, the editor receives the code cast to a char (as decoded by Delivered); only newline and the digits go as key events, and never as DEL |
| Keys.DigitKeys | DokabenKeyboard/src/main/java/com/takashyx/softkeyboard/SoftKeyboard.java:704-717 | a digit goes as its own key in KEYCODE_0..KEYCODE_9, never ENTER or DEL, and distinct digits as distinct keys |
| Keys.InputFlags | DokabenKeyboard/src/main/java/com/takashyx/softkeyboard/SoftKeyboard.java:388-432 | prediction is on iff text class and not password/e-mail/URI/filter and not auto-complete; completion iff auto-complete text in fullscreen; never both |
| Session.SlotOf | DokabenKeyboard/src/main/java/com/takashyx/softkeyboard/SoftKeyboard.java:326-344 | each swipe callback stores a non-center direction |
| Session.SlotOfInjective | DokabenKeyboard/src/main/java/com/takashyx/softkeyboard/SoftKeyboard.java:326-344 | different swipes store different directions |
| Session.NextShift | DokabenKeyboard/src/main/java/com/takashyx/softkeyboard/SoftKeyboard.java:943-951 | caps lock toggles (and the time resets to 0) iff the last press is less than 800 ms ago, otherwise the time is recorded |
| Session.DoubleTapToggles | DokabenKeyboard/src/main/java/com/takashyx/softkeyboard/SoftKeyboard.java:943-951 | two presses less than 800 ms apart toggle caps lock |
| Session.SlowTapsKeep | DokabenKeyboard/src/main/java/com/takashyx/softkeyboard/SoftKeyboard.java:943-951 | presses 800 ms or more apart never toggle |
| Session.ToggleStartsNewPair | DokabenKeyboard/src/main/java/com/takashyx/softkeyboard/SoftKeyboard.java:943-951 | after a toggle, the next press starts a new pair |
| Session.SoftKeyboard.constructor | DokabenKeyboard/src/main/java/com/takashyx/softkeyboard/SoftKeyboard.java:119-122 | an empty buffer and candidate list, no prediction or completion, nothing pressed, caps lock off |
| Session.SoftKeyboard.UpdateCandidates | DokabenKeyboard/src/main/java/com/takashyx/softkeyboard/SoftKeyboard.java:791-802 | with completion off, a non-empty buffer shows [buffer, its dokaben form], an empty one clears the bar and keeps the list; with completion on nothing happens |
| Session.SoftKeyboard.CommitTyped | DokabenKeyboard/src/main/java/com/takashyx/softkeyboard/SoftKeyboard.java:656-662 | a non-empty buffer is committed and emptied; an empty one does nothing |
| Session.SoftKeyboard.HandleCharacter | DokabenKeyboard/src/main/java/com/takashyx/softkeyboard/SoftKeyboard.java:841-857 | a letter with prediction on is appended and shown; anything else is committed as one char and the buffer is unchanged |
| Session.SoftKeyboard.HandleBackspace | DokabenKeyboard/src/main/java/com/takashyx/softkeyboard/SoftKeyboard.java:816-830 | longer than 1: drop the last char and show the rest; length 1: empty and commit ""; empty: send DEL |
| Session.SoftKeyboard.HandleDakuten | DokabenKeyboard/src/main/java/com/takashyx/softkeyboard/SoftKeyboard.java:883-895 | the dakuten edit and a refresh when it applies, otherwise nothing |
| Session.SoftKeyboard.HandleKigou | DokabenKeyboard/src/main/java/com/takashyx/softkeyboard/SoftKeyboard.java:897-911 | the kigou edit, then always show the buffer and refresh |
| Session.SoftKeyboard.HandleDokaben | DokabenKeyboard/src/main/java/com/takashyx/softkeyboard/SoftKeyboard.java:913-919 | commits the dokaben form of the buffer with the cursor after it |
| Session.SoftKeyboard.HandleCursorLeft | DokabenKeyboard/src/main/java/com/takashyx/softkeyboard/SoftKeyboard.java:859-869 | a collapsed selection not at 0 moves one left and the candidates refresh |
| Session.SoftKeyboard.HandleCursorRight | DokabenKeyboard/src/main/java/com/takashyx/softkeyboard/SoftKeyboard.java:871-881 | a collapsed selection not at the end moves one right and the candidates refresh |
| Session.SoftKeyboard.CheckToggleCapsLock | DokabenKeyboard/src/main/java/com/takashyx/softkeyboard/SoftKeyboard.java:943-951 | caps lock and last shift time become NextShift of their old values |
| Session.SoftKeyboard.HandleClose | DokabenKeyboard/src/main/java/com/takashyx/softkeyboard/SoftKeyboard.java:921-925 | commit the buffer, then ask the host to hide the keyboard |
| Session.SoftKeyboard.SendKey | DokabenKeyboard/src/main/java/com/takashyx/softkeyboard/SoftKeyboard.java:704-717 | the host receives exactly SendKeyActions of the code |
| Session.SoftKeyboard.OnKey | DokabenKeyboard/src/main/java/com/takashyx/softkeyboard/SoftKeyboard.java:721-772 | each route has the effect of its handler; only the shift key touches caps lock; katakana-range and options keys change nothing |
| Session.SoftKeyboard.OnUpdateSelection | DokabenKeyboard/src/main/java/com/takashyx/softkeyboard/SoftKeyboard.java:483-500 | a selection away from the composing end drops the buffer uncommitted and finishes composing; otherwise nothing |
| Session.SoftKeyboard.OnStartInput | DokabenKeyboard/src/main/java/com/takashyx/softkeyboard/SoftKeyboard.java:375-447 | the buffer is dropped, the candidates refreshed under the old mode, then the mode is set by InputFlags |
| Session.SoftKeyboard.OnFinishInput | DokabenKeyboard/src/main/java/com/takashyx/softkeyboard/SoftKeyboard.java:453-470 | the buffer is dropped without commit, the bar refreshed and the candidates view hidden |
| Session.SoftKeyboard.OnPress | DokabenKeyboard/src/main/java/com/takashyx/softkeyboard/SoftKeyboard.java:1008-1012 | records the key, resets the direction to center and marks pressing |
| Session.SoftKeyboard.OnKeySwipe | DokabenKeyboard/src/main/java/com/takashyx/softkeyboard/SoftKeyboard.java:326-344 | the swipe callback stores the swiped direction |
| Session.SoftKeyboard.OnTouchFling | DokabenKeyboard/src/main/java/com/takashyx/softkeyboard/OnSwipeTouchListener.java:47-85 | the classified swipe, if any, becomes the stored direction; the fling is never reported handled |
| Session.SoftKeyboard.OnRelease | DokabenKeyboard/src/main/java/com/takashyx/softkeyboard/SoftKeyboard.java:1014-1024 | a katakana-range key sends the grid cell of its row and stored direction to handleCharacter (0 included); afterwards direction center and not pressing |
| Scenarios.StartTextField | DokabenKeyboard/src/main/java/com/takashyx/softkeyboard/SoftKeyboard.java:375-432 | a plain text field turns prediction on |
| Scenarios.PressSwipeRelease | DokabenKeyboard/src/main/java/com/takashyx/softkeyboard/SoftKeyboard.java:1008-1024 | press, swipe and release on a row key composes exactly that cell's syllable, or commits NUL for an empty cell |
| Scenarios.DakutenTwice | DokabenKeyboard/src/main/java/com/takashyx/softkeyboard/SoftKeyboard.java:883-895 | two dakuten presses with the cursor at the end: the first replaces only the last character by its table value, the second restores the buffer exactly when the table maps that value back |

## Left out

- Scenarios.DakutenTwice: stated for any table whose cycle facts hold at the last character, not for `kb.dakuten == Dakuten` directly; with the literal table in the same proof as the heap the solver runs out of resource, so Composing.DakutenCycleFacts gives the service table's facts on their own.
- Android lifecycle and UI are not modelled. This covers view and keyboard creation (`onInitializeInterface`, `onCreateInputView`, `onCreateCandidatesView`, `setDokabenKeyboard`, `onStartInputView`), `mInputView.closing()`, the enter-key label and the candidate view's internals. The model only records the host calls.
- `setSuggestions` also shows the candidates view when the extract view is visible. This is UI state; `ShowSuggestions`/`ClearSuggestions` stand for the call.
- Hard-key handling is not modelled: `onKeyDown`, `onKeyUp` and `translateKeyDown`, the meta state, and the Alt+Space demo. These depend on library key-event behaviour.
- `updateShiftKeyState` is not modelled, because it depends on the host's `getCursorCapsMode`. Neither is the keyboard's shifted flag that `handleShift` sets.
- Session.SoftKeyboard.OnKey: the shift key is modelled as `checkToggleCapsLock` alone, assuming the input view exists. Without the view, `handleShift` returns before toggling.
- The completion path is not modelled: `onDisplayCompletions`, `pickSuggestionManually`, `pickDefaultCandidate` and `onText`. `mCompletionOn` is a plain flag.
- `switchToNextInputMethod` and `requestHideSelf` are recorded as host calls only. `getToken` is window plumbing.
- `Character.isLetter` is not implemented. `isLetter` is a constructor parameter; the scenarios use katakana letters.
- The debug string that onKey builds from `keyCodes` is not modelled. It is dead code: the `Log.i` call that would use it is commented out (SoftKeyboard.java:729). Its loop would throw on a null `keyCodes`, which only the left-out hard-key paths pass.
- The null input connection is modelled only in `onUpdateSelection`, as `connected`. The other handlers assume a connection.
- `getTextBeforeCursor` is assumed non-null.
- `getExtractedText` and its `text` are assumed non-null in `handleCursorLeft` and `handleCursorRight` (SoftKeyboard.java:861, 873, 877); the host's selection and text length are given as `Host` fields.
- Session.SoftKeyboard.OnTouchFling: coordinates and speeds are reals, not IEEE floats, so NaN and rounding are not modelled. The only exception modelled is a missing start event.
- `mLastShiftTime` is an unbounded integer, so the Java `long` overflow of `mLastShiftTime + 800` is not modelled.
- Session.SoftKeyboard.OnRelease: requires a katakana-range key to be a row key. Otherwise the Java code throws when it unboxes the missing index entry.
- Scenarios.PressSwipeRelease: states the composing buffer after the release, not the candidate list or the host log. Those follow from OnRelease's contract.
- The `、` entry of the row index (row 10) is not reachable from onRelease, because U+3001 lies outside the katakana range. The grid has no row 10.
