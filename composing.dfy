/**
 * The composing-buffer edits of SoftKeyboard as functions of the buffer, and the
 * calls the service makes on its host (the input connection and the candidate
 * view), recorded as values.
 */
module Composing {
  import opened JavaChars
  import opened Tables
  import opened Dokaben

  /** One call the service makes on the host. */
  datatype HostAction =
    | CommitText(text: JString, newCursorPosition: int)  // InputConnection.commitText
    | SetComposingText(text: JString)                    // InputConnection.setComposingText(text, 1)
    | FinishComposingText                                // InputConnection.finishComposingText
    | KeyDown(keyCode: int)                              // sendKeyEvent(ACTION_DOWN, keyCode)
    | KeyUp(keyCode: int)                                // sendKeyEvent(ACTION_UP, keyCode)
    | SetSelection(start: int, end: int)                 // InputConnection.setSelection
    | ShowSuggestions(suggestions: seq<JString>)         // setSuggestions(list, true, true)
    | ClearSuggestions                                   // setSuggestions(null, false, false)
    | HideCandidatesView                                 // setCandidatesViewShown(false)
    | RequestHideSelf                                    // requestHideSelf(0)
    | SwitchInputMethod                                  // switchToNextInputMethod

  /** keyDownUp: a key-down event followed by the key-up event of the same key. */
  function KeyDownUp(keyCode: int): (acts: seq<HostAction>)
    ensures |acts| == 2 && acts[0].KeyDown? && acts[1].KeyUp?
    ensures acts[0].keyCode == acts[1].keyCode == keyCode
  {
    [KeyDown(keyCode), KeyUp(keyCode)]
  }

  /** The two candidates shown for a non-empty buffer: the text itself and its dokaben form. */
  function CandidatesFor(buf: JString): seq<JString>
  {
    [buf, Transliterate(buf)]
  }

  /** The calls updateCandidates makes on the candidate view. */
  function SuggestionActions(buf: JString, completionOn: bool): seq<HostAction>
  {
    if completionOn then []
    else if |buf| > 0 then [ShowSuggestions(CandidatesFor(buf))]
    else [ClearSuggestions]
  }

  /** The calls commitTyped makes for the buffer `buf`. */
  function CommitActions(buf: JString, completionOn: bool): seq<HostAction>
  {
    if |buf| > 0 then [CommitText(buf, |buf|)] + SuggestionActions([], completionOn) else []
  }

  /** After commitTyped the candidate bar is cleared, unless the editor supplies completions. */
  lemma CommitClearsSuggestions(buf: JString, completionOn: bool)
    requires buf != []
    ensures CommitActions(buf, completionOn) ==
      if completionOn then [CommitText(buf, |buf|)] else [CommitText(buf, |buf|), ClearSuggestions]
  {
  }

  /** handleBackspace's edit of the buffer: it drops exactly the last character. */
  function Backspaced(buf: JString): (r: JString)
    ensures |r| == if buf == [] then 0 else |buf| - 1
    ensures r == buf[..|r|]
  {
    if |buf| > 1 then buf[..|buf| - 1] else []
  }

  /**
   * The text before the cursor that the host reports is a single character that
   * is a key of `table` (HashMap.containsKey on a one-character String).
   */
  predicate PrecededByKey(before: JString, table: map<JChar, JChar>)
  {
    |before| == 1 && before[0] in table
  }

  /**
   * The replace-last edit of handleDakuten and handleKigou: when the character
   * before the cursor is a key of `table` and the buffer is not empty, the
   * buffer's last character is replaced by that key's value; otherwise the
   * buffer is left as it is.
   */
  function ReplaceLast(buf: JString, before: JString, table: map<JChar, JChar>): (r: JString)
    ensures |r| == |buf|
    ensures buf != [] ==> r[..|buf| - 1] == buf[..|buf| - 1]
    ensures PrecededByKey(before, table) && buf != [] ==> r[|buf| - 1] == table[before[0]]
    ensures !PrecededByKey(before, table) || buf == [] ==> r == buf
  {
    if PrecededByKey(before, table) && |buf| > 0 then
      buf[..|buf| - 1] + [table[before[0]]]
    else
      buf
  }

  /**
   * handleKigou's edit: the replace-last edit when it applies; in every other
   * case a fullwidth ? is appended.
   */
  function KigouEdit(buf: JString, before: JString, table: map<JChar, JChar>): (r: JString)
    ensures PrecededByKey(before, table) && buf != [] ==> r == ReplaceLast(buf, before, table)
    ensures !PrecededByKey(before, table) || buf == [] ==>
      |r| == |buf| + 1 && r[..|buf|] == buf && r[|buf|] == QuestionMark
  {
    if PrecededByKey(before, table) && |buf| > 0 then
      buf[..|buf| - 1] + [table[before[0]]]
    else
      buf + [QuestionMark]
  }

  /** handleKigou's edit of the buffer. */
  function WithKigou(buf: JString, before: JString): JString
  {
    KigouEdit(buf, before, Kigou)
  }

  /** A replace-last key pressed while the cursor sits at the end of the composing
      text, so that the host's preceding character is the buffer's last one. */
  function AtEnd(buf: JString, table: map<JChar, JChar>): JString
  {
    if buf == [] then buf else ReplaceLast(buf, [buf[|buf| - 1]], table)
  }

  lemma AtEndReplacesLast(buf: JString, table: map<JChar, JChar>)
    requires buf != [] && buf[|buf| - 1] in table
    ensures AtEnd(buf, table) == buf[..|buf| - 1] + [table[buf[|buf| - 1]]]
  {
  }

  function DakutenAtEnd(buf: JString): JString
  {
    AtEnd(buf, Dakuten)
  }

  function KigouAtEnd(buf: JString): JString
  {
    if buf == [] then WithKigou(buf, []) else WithKigou(buf, [buf[|buf| - 1]])
  }

  /** Up to three presses at the end of the buffer, for a key whose images stay in the table. */
  lemma AtEndIterates(buf: JString, table: map<JChar, JChar>)
    requires buf != [] && buf[|buf| - 1] in table
    requires table[buf[|buf| - 1]] in table && table[table[buf[|buf| - 1]]] in table
    ensures AtEnd(buf, table) == buf[..|buf| - 1] + [table[buf[|buf| - 1]]]
    ensures AtEnd(AtEnd(buf, table), table) == buf[..|buf| - 1] + [table[table[buf[|buf| - 1]]]]
    ensures AtEnd(AtEnd(AtEnd(buf, table), table), table) ==
      buf[..|buf| - 1] + [table[table[table[buf[|buf| - 1]]]]]
  {
    var n := |buf|;
    var p := buf[..n - 1];
    var k := buf[n - 1];
    AtEndReplacesLast(buf, table);
    var b1 := p + [table[k]];
    assert b1[n - 1] == table[k] && b1[..n - 1] == p;
    AtEndReplacesLast(b1, table);
    var b2 := p + [table[table[k]]];
    assert b2[n - 1] == table[table[k]] && b2[..n - 1] == p;
    AtEndReplacesLast(b2, table);
  }

  /** Two buffers that differ only in their last character differ. */
  lemma LastDiffers(p: JString, x: JChar, y: JChar)
    requires x != y
    ensures p + [x] != p + [y]
  {
    assert (p + [x])[|p|] != (p + [y])[|p|];
  }

  /**
   * Presses at the end of the buffer follow the orbit of its last character
   * under `table`: a 2-cycle restores the buffer after two presses, a 3-cycle
   * after three and not two.
   */
  lemma AtEndCycle(buf: JString, table: map<JChar, JChar>)
    requires buf != [] && buf[|buf| - 1] in table
    requires table[buf[|buf| - 1]] != buf[|buf| - 1]
    requires table[buf[|buf| - 1]] in table && table[table[buf[|buf| - 1]]] in table
    ensures AtEnd(buf, table) != buf
    ensures table[table[buf[|buf| - 1]]] == buf[|buf| - 1] ==> AtEnd(AtEnd(buf, table), table) == buf
    ensures table[table[buf[|buf| - 1]]] != buf[|buf| - 1] ==> AtEnd(AtEnd(buf, table), table) != buf
    ensures table[table[table[buf[|buf| - 1]]]] == buf[|buf| - 1] ==>
      AtEnd(AtEnd(AtEnd(buf, table), table), table) == buf
  {
    var p := buf[..|buf| - 1];
    var k := buf[|buf| - 1];
    AtEndIterates(buf, table);
    assert buf == p + [k];
    LastDiffers(p, table[k], k);
    if table[table[k]] != k {
      LastDiffers(p, table[table[k]], k);
    }
  }

  /** DakutenCycles, read off any table equal to the dakuten table. */
  lemma DakutenCycleFacts(t: map<JChar, JChar>, k: JChar)
    requires t == Dakuten && k in t
    ensures t[k] in t && t[k] != k && t[t[k]] in t
    ensures !OnTripleCycle(k) <==> t[t[k]] == k
    ensures OnTripleCycle(k) ==> t[t[t[k]]] == k
  {
    DakutenCycles(k);
  }

  /**
   * With the cursor at the end of the composing text, repeated dakuten presses
   * cycle the last character: back to the start after two presses for the pairs,
   * after three (and not two) for tsu and the ha row.
   */
  lemma {:induction false} DakutenAtEndCycles(buf: JString)
    requires buf != [] && buf[|buf| - 1] in Dakuten
    ensures DakutenAtEnd(buf) != buf
    ensures !OnTripleCycle(buf[|buf| - 1]) ==> DakutenAtEnd(DakutenAtEnd(buf)) == buf
    ensures OnTripleCycle(buf[|buf| - 1]) ==>
      DakutenAtEnd(DakutenAtEnd(buf)) != buf && DakutenAtEnd(DakutenAtEnd(DakutenAtEnd(buf))) == buf
  {
    DakutenCycles(buf[|buf| - 1]);
    AtEndCycle(buf, Dakuten);
  }

  /**
   * With the cursor at the end of the composing text, the kigou key turns a
   * trailing ? into !, a trailing ! into the long vowel mark, and otherwise appends ?.
   */
  lemma KigouAtEndSequence(buf: JString)
    ensures KigouAtEnd(buf + [QuestionMark]) == buf + [0xFF01]
    ensures KigouAtEnd(buf + [0xFF01]) == buf + [0x30FC]
    ensures KigouAtEnd(buf + [0x30FC]) == buf + [0x30FC, QuestionMark]
  {
    KigouEffective();
    assert (buf + [QuestionMark])[..|buf|] == buf;
    assert (buf + [0xFF01])[..|buf|] == buf;
  }
}
