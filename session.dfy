/**
 * The input method service: the composing buffer, the candidate list and the
 * press/swipe/release state, updated in place by the handlers of SoftKeyboard.
 * Every call the service makes on its host is appended to `log`; what it reads
 * from the host is passed in as a parameter.
 */
module Session {
  import opened Wrappers
  import opened JavaChars
  import opened Tables
  import opened Dokaben
  import opened Composing
  import opened Keys
  import opened SwipeListener

  /** The value each swipe callback of the touch listener stores in mSwipeDirection. */
  function SlotOf(s: Swipe): (d: Slot)
    ensures d != Center
  {
    match s
    case Left => 1
    case Up => 2
    case Right => 3
    case Down => 4
  }

  /** Each swipe selects its own column of the syllable grid. */
  lemma SlotOfInjective(a: Swipe, b: Swipe)
    ensures SlotOf(a) == SlotOf(b) ==> a == b
  {
  }

  /** Two shift presses closer together than this toggle caps lock. */
  const DoubleTapMillis: int := 800

  /** checkToggleCapsLock on (mCapsLock, mLastShiftTime) at time `now`. */
  function NextShift(capsLock: bool, lastShiftTime: int, now: int): (r: (bool, int))
    ensures r.0 != capsLock <==> lastShiftTime + DoubleTapMillis > now
    ensures r.0 != capsLock ==> r.1 == 0
    ensures r.0 == capsLock ==> r.1 == now
  {
    if lastShiftTime + DoubleTapMillis > now then (!capsLock, 0) else (capsLock, now)
  }

  /** A second press less than 800 ms after a first, unpaired one toggles caps lock. */
  lemma DoubleTapToggles(capsLock: bool, lastShiftTime: int, t1: int, t2: int)
    requires lastShiftTime + DoubleTapMillis <= t1 <= t2 < t1 + DoubleTapMillis
    ensures NextShift(capsLock, lastShiftTime, t1) == (capsLock, t1)
    ensures NextShift(capsLock, t1, t2) == (!capsLock, 0)
  {
  }

  /** Presses 800 ms or more apart never toggle; exactly 800 ms is already too slow. */
  lemma SlowTapsKeep(capsLock: bool, lastShiftTime: int, now: int)
    requires lastShiftTime + DoubleTapMillis <= now
    ensures NextShift(capsLock, lastShiftTime, now) == (capsLock, now)
  {
  }

  /** Once a toggle has reset the time to 0, a later press (at a clock reading of
      800 or more) starts a new pair instead of toggling back. */
  lemma ToggleStartsNewPair(capsLock: bool, now: int)
    requires now >= DoubleTapMillis
    ensures NextShift(capsLock, 0, now) == (capsLock, now)
  {
  }

  /** What a key handler reads from the host at the moment the key arrives. */
  datatype Host = Host(
    textBeforeCursor: JString,  // getTextBeforeCursor(1, 0)
    selectionStart: int,        // getExtractedText(..).selectionStart
    selectionEnd: int,          // getExtractedText(..).selectionEnd
    textLength: int,            // getExtractedText(..).text.length()
    now: int)                   // System.currentTimeMillis()

  class SoftKeyboard {
    /** mWordSeparators, loaded from the resources in onCreate. */
    const separators: JString
    /** Character.isLetter, which this model takes as given. */
    const isLetter: int -> bool
    /** The key codes of DokabenFlingKeyboardView. */
    const view: ViewCodes
    /** dakuten_convert_array, filled in onCreate. */
    const dakuten: map<JChar, JChar>
    /** kigou_convert_array, filled in onCreate. */
    const kigou: map<JChar, JChar>

    var composing: JString        // mComposing
    var predictionOn: bool        // mPredictionOn
    var completionOn: bool        // mCompletionOn
    var candidates: seq<JString>  // mCandidateList
    var log: seq<HostAction>      // every call made on the host, oldest first
    var keyDownKeyCode: int       // mKeyDownKeyCode
    var swipeDirection: Slot      // mSwipeDirection
    var pressing: bool            // mPressing
    var capsLock: bool            // mCapsLock
    var lastShiftTime: int        // mLastShiftTime

    /**
     * The candidate list is empty or holds a non-empty text followed by its
     * dokaben form, and the service never both predicts and shows completions.
     */
    predicate Valid()
      reads this
    {
      && (candidates == [] || (|candidates| == 2 && candidates[0] != [] && candidates[1] == Transliterate(candidates[0])))
      && !(predictionOn && completionOn)
    }

    constructor (separators: JString, isLetter: int -> bool, view: ViewCodes)
      ensures Valid()
      ensures this.separators == separators && this.isLetter == isLetter && this.view == view
      ensures dakuten == Dakuten && kigou == Kigou
      ensures composing == [] && !predictionOn && !completionOn && candidates == [] && log == []
      ensures keyDownKeyCode == 0 && swipeDirection == Center && !pressing
      ensures !capsLock && lastShiftTime == 0
    {
      this.separators := separators;
      this.isLetter := isLetter;
      this.view := view;
      dakuten := Dakuten;
      kigou := Kigou;
      composing := [];
      predictionOn := false;
      completionOn := false;
      candidates := [];
      log := [];
      keyDownKeyCode := 0;
      swipeDirection := Center;
      pressing := false;
      capsLock := false;
      lastShiftTime := 0;
    }

    // ---- the effect of each handler on (composing, candidates, log) ----

    /** updateCandidates has run on the buffer as it now stands, between the
        host calls `before` and `after`. */
    twostate predicate Refreshed(before: seq<HostAction>, after: seq<HostAction>)
      reads this
    {
      && candidates == (if !completionOn && |composing| > 0 then CandidatesFor(composing) else old(candidates))
      && log == old(log) + before + SuggestionActions(composing, completionOn) + after
    }

    /** The buffer and the candidates are as before and `acts` went to the host. */
    twostate predicate Emitted(acts: seq<HostAction>)
      reads this
    {
      composing == old(composing) && candidates == old(candidates) && log == old(log) + acts
    }

    twostate predicate CharacterHandled(code: int)
      reads this
    {
      if isLetter(code) && predictionOn then
        composing == old(composing) + [ToChar(code)] && Refreshed([SetComposingText(composing)], [])
      else
        Emitted([CommitText([ToChar(code)], 1)])
    }

    twostate predicate BackspaceHandled()
      reads this
    {
      && composing == Backspaced(old(composing))
      && if |old(composing)| > 1 then Refreshed([SetComposingText(composing)], [])
         else if |old(composing)| == 1 then Refreshed([CommitText([], 0)], [])
         else Emitted(KeyDownUp(KeycodeDel))
    }

    twostate predicate Committed()
      reads this
    {
      composing == [] && candidates == old(candidates) && log == old(log) + CommitActions(old(composing), completionOn)
    }

    twostate predicate DakutenHandled(before: JString)
      reads this
    {
      if PrecededByKey(before, dakuten) && |old(composing)| > 0 then
        composing == ReplaceLast(old(composing), before, dakuten) && Refreshed([SetComposingText(composing)], [])
      else
        Emitted([])
    }

    twostate predicate KigouHandled(before: JString)
      reads this
    {
      composing == KigouEdit(old(composing), before, kigou) && Refreshed([SetComposingText(composing)], [])
    }

    twostate predicate CursorLeftHandled(selStart: int, selEnd: int)
      reads this
    {
      if selStart == selEnd && selStart != 0 then
        composing == old(composing) && Refreshed([SetSelection(selStart - 1, selEnd - 1)], [])
      else
        Emitted([])
    }

    twostate predicate CursorRightHandled(selStart: int, selEnd: int, textLength: int)
      reads this
    {
      if selStart == selEnd && selStart != textLength then
        composing == old(composing) && Refreshed([SetSelection(selStart + 1, selEnd + 1)], [])
      else
        Emitted([])
    }

    // ---- the handlers ----

    /** updateCandidates */
    method UpdateCandidates()
      requires Valid()
      modifies this`candidates, this`log
      ensures Valid() && Refreshed([], [])
    {
      if !completionOn {
        if |composing| > 0 {
          var converted := DokabenConvert(composing);
          candidates := [composing, converted];
          log := log + [ShowSuggestions(candidates)];
        } else {
          log := log + [ClearSuggestions];
        }
      }
    }

    /** commitTyped */
    method CommitTyped()
      requires Valid()
      modifies this`composing, this`candidates, this`log
      ensures Valid() && Committed()
    {
      if |composing| > 0 {
        log := log + [CommitText(composing, |composing|)];
        composing := [];
        UpdateCandidates();
      }
    }

    /** handleCharacter */
    method HandleCharacter(code: int)
      requires Valid()
      modifies this`composing, this`candidates, this`log
      ensures Valid() && CharacterHandled(code)
    {
      if isLetter(code) && predictionOn {
        composing := composing + [ToChar(code)];
        log := log + [SetComposingText(composing)];
        UpdateCandidates();
      } else {
        log := log + [CommitText([ToChar(code)], 1)];
      }
    }

    /** handleBackspace */
    method HandleBackspace()
      requires Valid()
      modifies this`composing, this`candidates, this`log
      ensures Valid() && BackspaceHandled()
    {
      var length := |composing|;
      if length > 1 {
        composing := composing[..length - 1];
        log := log + [SetComposingText(composing)];
        UpdateCandidates();
      } else if length > 0 {
        composing := [];
        log := log + [CommitText([], 0)];
        UpdateCandidates();
      } else {
        log := log + KeyDownUp(KeycodeDel);
      }
    }

    /** handleDakuten, given the one character the host reports before the cursor */
    method HandleDakuten(before: JString)
      requires Valid()
      modifies this`composing, this`candidates, this`log
      ensures Valid() && DakutenHandled(before)
    {
      var m := composing;
      if PrecededByKey(before, dakuten) && |m| > 0 {
        composing := m[..|m| - 1] + [dakuten[before[0]]];
        log := log + [SetComposingText(composing)];
        UpdateCandidates();
      }
    }

    /** handleKigou, given the one character the host reports before the cursor */
    method HandleKigou(before: JString)
      requires Valid()
      modifies this`composing, this`candidates, this`log
      ensures Valid() && KigouHandled(before)
    {
      composing := KigouEdit(composing, before, kigou);
      log := log + [SetComposingText(composing)];
      UpdateCandidates();
    }

    /** handleDokaben: the dokaben form of the buffer is committed; the buffer stays. */
    method HandleDokaben()
      modifies this`log
      ensures log == old(log) + [CommitText(Transliterate(composing), |Transliterate(composing)|)]
    {
      var s := DokabenConvert(composing);
      log := log + [CommitText(s, |s|)];
    }

    /** handleCursorLeft, given the selection the host reports */
    method HandleCursorLeft(selStart: int, selEnd: int)
      requires Valid()
      modifies this`candidates, this`log
      ensures Valid() && CursorLeftHandled(selStart, selEnd)
    {
      if selStart == selEnd && selStart != 0 {
        log := log + [SetSelection(selStart - 1, selEnd - 1)];
        UpdateCandidates();
      }
    }

    /** handleCursorRight, given the selection and text length the host reports */
    method HandleCursorRight(selStart: int, selEnd: int, textLength: int)
      requires Valid()
      modifies this`candidates, this`log
      ensures Valid() && CursorRightHandled(selStart, selEnd, textLength)
    {
      if selStart == selEnd && selStart != textLength {
        log := log + [SetSelection(selStart + 1, selEnd + 1)];
        UpdateCandidates();
      }
    }

    /** checkToggleCapsLock at time `now` */
    method CheckToggleCapsLock(now: int)
      modifies this`capsLock, this`lastShiftTime
      ensures (capsLock, lastShiftTime) == NextShift(old(capsLock), old(lastShiftTime), now)
    {
      if lastShiftTime + DoubleTapMillis > now {
        capsLock := !capsLock;
        lastShiftTime := 0;
      } else {
        lastShiftTime := now;
      }
    }

    /** handleClose */
    method HandleClose()
      requires Valid()
      modifies this`composing, this`candidates, this`log
      ensures Valid()
      ensures composing == [] && candidates == old(candidates)
      ensures log == old(log) + CommitActions(old(composing), completionOn) + [RequestHideSelf]
    {
      CommitTyped();
      log := log + [RequestHideSelf];
    }

    /** sendKey */
    method SendKey(code: int)
      modifies this`log
      ensures log == old(log) + SendKeyActions(code)
    {
      if code == '\n' as int {
        log := log + KeyDownUp(KeycodeEnter);
      } else if '0' as int <= code <= '9' as int {
        log := log + KeyDownUp(code - '0' as int + KeycodeZero);
      } else {
        log := log + [CommitText([ToChar(code)], 1)];
      }
    }

    /** onKey: one key code from the keyboard view, dispatched by Route. */
    method OnKey(code: int, host: Host)
      requires Valid()
      modifies this`composing, this`candidates, this`log, this`capsLock, this`lastShiftTime
      ensures Valid()
      ensures match Route(code, separators, view)
        case Separator =>
          && composing == [] && candidates == old(candidates)
          && log == old(log) + CommitActions(old(composing), completionOn) + SendKeyActions(code)
        case Delete => BackspaceHandled()
        case Cancel =>
          && composing == [] && candidates == old(candidates)
          && log == old(log) + CommitActions(old(composing), completionOn) + [RequestHideSelf]
        case LanguageSwitch => Emitted([SwitchInputMethod])
        case CursorLeft => CursorLeftHandled(host.selectionStart, host.selectionEnd)
        case CursorRight => CursorRightHandled(host.selectionStart, host.selectionEnd, host.textLength)
        case DakutenKey => DakutenHandled(host.textBeforeCursor)
        case KigouKey => KigouHandled(host.textBeforeCursor)
        case DokabenKey => Emitted([CommitText(Transliterate(composing), |Transliterate(composing)|)])
        case Character => CharacterHandled(code)
        case _ => Emitted([])  // shift, options and the katakana keys
      ensures Route(code, separators, view) == Shift ==>
        (capsLock, lastShiftTime) == NextShift(old(capsLock), old(lastShiftTime), host.now)
      ensures Route(code, separators, view) != Shift ==>
        capsLock == old(capsLock) && lastShiftTime == old(lastShiftTime)
    {
      var route := Route(code, separators, view);
      match route {
        case Separator =>
          if |composing| > 0 {
            CommitTyped();
          }
          SendKey(code);
        case Delete =>
          HandleBackspace();
        case Shift =>
          CheckToggleCapsLock(host.now);
        case Cancel =>
          HandleClose();
        case LanguageSwitch =>
          log := log + [SwitchInputMethod];
        case Options =>
        case CursorLeft =>
          HandleCursorLeft(host.selectionStart, host.selectionEnd);
        case CursorRight =>
          HandleCursorRight(host.selectionStart, host.selectionEnd, host.textLength);
        case DakutenKey =>
          HandleDakuten(host.textBeforeCursor);
        case KigouKey =>
          HandleKigou(host.textBeforeCursor);
        case DokabenKey =>
          HandleDokaben();
        case SwipeKey =>
        case Character =>
          HandleCharacter(code);
      }
    }

    /** onUpdateSelection: moving the cursor away from the end of the composing
        region drops the buffer without committing it. */
    method OnUpdateSelection(newSelStart: int, newSelEnd: int, candidatesEnd: int, connected: bool)
      requires Valid()
      modifies this`composing, this`candidates, this`log
      ensures Valid()
      ensures if |old(composing)| > 0 && (newSelStart != candidatesEnd || newSelEnd != candidatesEnd) then
          composing == [] && Refreshed([], if connected then [FinishComposingText] else [])
        else
          Emitted([])
    {
      if |composing| > 0 && (newSelStart != candidatesEnd || newSelEnd != candidatesEnd) {
        composing := [];
        UpdateCandidates();
        if connected {
          log := log + [FinishComposingText];
        }
      }
    }

    /** onStartInput: the buffer is dropped and the input mode chosen from the editor's input type. */
    method OnStartInput(inputType: bv32, fullscreen: bool)
      requires Valid()
      modifies this`composing, this`candidates, this`log, this`predictionOn, this`completionOn
      ensures Valid()
      ensures composing == [] && candidates == old(candidates)
      ensures log == old(log) + SuggestionActions([], old(completionOn))
      ensures InputMode(predictionOn, completionOn) == InputFlags(inputType, fullscreen)
    {
      composing := [];
      UpdateCandidates();
      var mode := InputFlags(inputType, fullscreen);
      predictionOn := mode.prediction;
      completionOn := mode.completion;
    }

    /** onFinishInput: the buffer is dropped without being committed. */
    method OnFinishInput()
      requires Valid()
      modifies this`composing, this`candidates, this`log
      ensures Valid()
      ensures composing == [] && Refreshed([], [HideCandidatesView])
    {
      composing := [];
      UpdateCandidates();
      log := log + [HideCandidatesView];
    }

    /** onPress */
    method OnPress(code: int)
      modifies this`keyDownKeyCode, this`swipeDirection, this`pressing
      ensures keyDownKeyCode == code && swipeDirection == Center && pressing
    {
      keyDownKeyCode := code;
      swipeDirection := Center;
      pressing := true;
    }

    /** The onKeySwipe callbacks installed on the touch listener. */
    method OnKeySwipe(s: Swipe)
      modifies this`swipeDirection
      ensures swipeDirection == SlotOf(s)
    {
      swipeDirection := SlotOf(s);
    }

    /** The touch listener's onFling, wired to the callbacks above. */
    method OnTouchFling(down: Option<Point>, up: Point, velocityX: real, velocityY: real) returns (handled: bool)
      modifies this`swipeDirection
      ensures !handled
      ensures OnFling(down, up, velocityX, velocityY).callback.None? ==> swipeDirection == old(swipeDirection)
      ensures OnFling(down, up, velocityX, velocityY).callback.Some? ==>
        swipeDirection == SlotOf(OnFling(down, up, velocityX, velocityY).callback.value)
    {
      var outcome := OnFling(down, up, velocityX, velocityY);
      if outcome.callback.Some? {
        OnKeySwipe(outcome.callback.value);
      }
      handled := outcome.handled;
    }

    /**
     * onRelease: a key of the katakana range sends the syllable in its grid row
     * and the swiped column (0 for an empty cell); its own argument is ignored.
     * A katakana-range key without a grid row makes the source throw.
     */
    method OnRelease(primaryCode: int)
      requires Valid()
      requires InSwipeRange(keyDownKeyCode) ==> keyDownKeyCode in RowIndex
      modifies this`composing, this`candidates, this`log, this`swipeDirection, this`pressing
      ensures Valid()
      ensures swipeDirection == Center && !pressing
      ensures InSwipeRange(keyDownKeyCode) ==> CharacterHandled(Resolve(keyDownKeyCode, old(swipeDirection)))
      ensures !InSwipeRange(keyDownKeyCode) ==> Emitted([])
    {
      if InSwipeRange(keyDownKeyCode) {
        var finalInput := Resolve(keyDownKeyCode, swipeDirection);
        HandleCharacter(finalInput);
      }
      swipeDirection := Center;
      pressing := false;
    }
  }
}

module Scenarios {
  import opened Wrappers
  import opened JavaChars
  import opened Tables
  import opened Composing
  import opened Keys
  import opened SwipeListener
  import opened Session

  /** The column a key release reads: the center without a swipe, else the swiped one. */
  function Column(swipe: Option<Swipe>): Slot
  {
    if swipe.Some? then SlotOf(swipe.value) else Center
  }

  /** The service created with katakana letters and started on a plain text field. */
  method StartTextField(separators: JString, view: ViewCodes) returns (kb: SoftKeyboard)
    ensures fresh(kb) && kb.Valid()
    ensures kb.predictionOn && !kb.completionOn
    ensures kb.composing == [] && kb.log == [ClearSuggestions]
    ensures kb.isLetter == IsKatakanaLetter
  {
    kb := new SoftKeyboard(separators, IsKatakanaLetter, view);
    kb.OnStartInput(TypeClassText, false);
    assert kb.predictionOn by {
      assert IsTextClass(TypeClassText) && !NoPredictionVariation(TypeClassText);
      assert !IsAutoComplete(TypeClassText);
    }
  }

  /** A key pressed and, optionally, swiped. */
  method PressAndSwipe(kb: SoftKeyboard, key: int, swipe: Option<Swipe>)
    modifies kb`keyDownKeyCode, kb`swipeDirection, kb`pressing
    ensures kb.keyDownKeyCode == key && kb.swipeDirection == Column(swipe) && kb.pressing
  {
    kb.OnPress(key);
    if swipe.Some? {
      kb.OnKeySwipe(swipe.value);
    }
  }

  /**
   * In a fresh plain text field, pressing a row key, swiping and releasing puts
   * the syllable of that grid cell into the composing buffer; an empty cell commits the NUL character instead.
   */
  method PressSwipeRelease(separators: JString, view: ViewCodes, key: int, swipe: Option<Swipe>)
    returns (kb: SoftKeyboard)
    requires IsRowKey(key)
    ensures kb.swipeDirection == Center && !kb.pressing
    ensures Resolve(key, Column(swipe)) != 0 ==>
      kb.composing == [Resolve(key, Column(swipe)) as JChar]
    ensures Resolve(key, Column(swipe)) == 0 ==>
      kb.composing == [] && kb.log == [ClearSuggestions, CommitText([0], 1)]
  {
    kb := StartTextField(separators, view);
    PressAndSwipe(kb, key, swipe);
    var c := Resolve(key, Column(swipe));
    assert kb.isLetter(c) <==> c != 0 by {
      if c != 0 {
        ResolveIsLetter(key, Column(swipe));
      }
    }
    assert c != 0 ==> ToChar(c) == c as JChar by {
      if c != 0 {
        assert InSwipeRange(c);
      }
    }
    kb.OnRelease(key);
    if c != 0 {
      assert kb.composing == [] + [ToChar(c)];
    }
  }

  /**
   * Pressing the dakuten key twice with the cursor after the buffer's last
   * character (ア → ァ → ア): the first press replaces the last character by
   * its table value, and the second gives the buffer back exactly when the
   * table maps that value back.  For the service's own table,
   * Composing.DakutenCycleFacts meets the precondition and says that this is
   * every key except tsu and the ha row.
   */
  method DakutenTwice(kb: SoftKeyboard) returns (once: JString)
    requires kb.Valid()
    requires kb.composing != [] && kb.composing[|kb.composing| - 1] in kb.dakuten
    requires var t, k := kb.dakuten, kb.composing[|kb.composing| - 1]; t[k] != k && t[k] in t && t[t[k]] in t
    modifies kb`composing, kb`candidates, kb`log
    ensures kb.Valid()
    ensures |once| == |old(kb.composing)| && once[..|once| - 1] == old(kb.composing)[..|once| - 1]
    ensures once[|once| - 1] == kb.dakuten[old(kb.composing)[|once| - 1]] != old(kb.composing)[|once| - 1]
    ensures var t, k := kb.dakuten, old(kb.composing)[|once| - 1]; t[t[k]] == k <==> kb.composing == old(kb.composing)
  {
    var t := kb.dakuten;
    var m := kb.composing;
    var k := m[|m| - 1];
    AtEndCycle(m, t);
    kb.HandleDakuten([k]);
    once := kb.composing;
    assert once == AtEnd(m, t);
    kb.HandleDakuten([once[|once| - 1]]);
    assert kb.composing == AtEnd(once, t);
  }}
