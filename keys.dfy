/**
 * Key codes and the pure decisions of SoftKeyboard: how onKey routes a code,
 * the key events sendKey produces, and the input mode onStartInput picks.
 */
module Keys {
  import opened Wrappers
  import opened JavaChars
  import opened Tables
  import opened Composing

  // android.inputmethodservice.Keyboard
  const KeycodeShift: int := -1
  const KeycodeCancel: int := -3
  const KeycodeDelete: int := -5

  // android.view.KeyEvent
  const KeycodeZero: int := 7
  const KeycodeEnter: int := 66
  const KeycodeDel: int := 67

  /**
   * The codes DokabenFlingKeyboardView gives its own keys. That class is not part
   * of this model, so the values are supplied when the service is created.
   */
  datatype ViewCodes = ViewCodes(
    languageSwitch: int, options: int, cursorLeft: int, cursorRight: int,
    dakuten: int, kigou: int, dokaben: int)

  /** The branch of onKey that a key code takes. */
  datatype KeyRoute =
    | Separator | Delete | Shift | Cancel | LanguageSwitch | Options
    | CursorLeft | CursorRight | DakutenKey | KigouKey | DokabenKey
    | SwipeKey | Character

  /**
   * isWordSeparator: the code, cast to a char, occurs in the separator string;
   * so only the code's low 16 bits matter.
   */
  predicate IsWordSeparator(code: int, separators: JString)
    ensures IsWordSeparator(code, separators) <==>
      exists i :: 0 <= i < |separators| && separators[i] as int == code % 0x1_0000
  {
    ToChar(code) in separators
  }

  /** Codes that agree modulo 2^16 are separators alike. */
  lemma WordSeparatorByCharCast(code: int, separators: JString)
    ensures IsWordSeparator(code + 0x1_0000, separators) == IsWordSeparator(code, separators)
  {
    assert ToChar(code + 0x1_0000) == ToChar(code);
  }

  /** The routes that belong to one fixed key, with that key's code. */
  predicate IsControl(r: KeyRoute)
  {
    !(r.Separator? || r.SwipeKey? || r.Character?)
  }

  function CodeOf(r: KeyRoute, view: ViewCodes): int
    requires IsControl(r)
  {
    match r
    case Delete => KeycodeDelete
    case Shift => KeycodeShift
    case Cancel => KeycodeCancel
    case LanguageSwitch => view.languageSwitch
    case Options => view.options
    case CursorLeft => view.cursorLeft
    case CursorRight => view.cursorRight
    case DakutenKey => view.dakuten
    case KigouKey => view.kigou
    case DokabenKey => view.dokaben
  }

  /** The position of a fixed-key branch in onKey's if/else-if chain. */
  function Rank(r: KeyRoute): nat
    requires IsControl(r)
  {
    match r
    case Delete => 0
    case Shift => 1
    case Cancel => 2
    case LanguageSwitch => 3
    case Options => 4
    case CursorLeft => 5
    case CursorRight => 6
    case DakutenKey => 7
    case KigouKey => 8
    case DokabenKey => 9
  }

  predicate IsControlCode(code: int, view: ViewCodes)
  {
    exists r: KeyRoute :: IsControl(r) && CodeOf(r, view) == code
  }

  /**
   * onKey's if/else-if chain: separators first, then the fixed keys in order,
   * then the katakana range (whose keys are handled on release), then the rest.
   */
  function Route(code: int, separators: JString, view: ViewCodes): (r: KeyRoute)
    ensures r == Separator <==> IsWordSeparator(code, separators)
    ensures IsControl(r) ==> CodeOf(r, view) == code && !IsWordSeparator(code, separators)
    ensures IsControl(r) ==>
      forall q: KeyRoute :: IsControl(q) && Rank(q) < Rank(r) ==> CodeOf(q, view) != code
    ensures IsControl(r) <==> !IsWordSeparator(code, separators) && IsControlCode(code, view)
    ensures r == SwipeKey <==>
      !IsWordSeparator(code, separators) && !IsControlCode(code, view) && InSwipeRange(code)
    ensures r == Character <==>
      !IsWordSeparator(code, separators) && !IsControlCode(code, view) && !InSwipeRange(code)
  {
    if IsWordSeparator(code, separators) then Separator
    else if code == KeycodeDelete then Delete
    else if code == KeycodeShift then Shift
    else if code == KeycodeCancel then Cancel
    else if code == view.languageSwitch then LanguageSwitch
    else if code == view.options then Options
    else if code == view.cursorLeft then CursorLeft
    else if code == view.cursorRight then CursorRight
    else if code == view.dakuten then DakutenKey
    else if code == view.kigou then KigouKey
    else if code == view.dokaben then DokabenKey
    else if InSwipeRange(code) then SwipeKey
    else
      assert !IsControlCode(code, view);
      Character
  }

  /**
   * The character the editor receives from a burst of host calls: a newline for
   * the ENTER key, the digit for a number key, the character of a one-character
   * commit with the cursor after it; nothing for anything else.
   */
  function Delivered(acts: seq<HostAction>): Option<JChar>
  {
    if |acts| == 2 && acts[0].KeyDown? && acts == KeyDownUp(acts[0].keyCode) then
      var k := acts[0].keyCode;
      if k == KeycodeEnter then Some('\n' as JChar)
      else if KeycodeZero <= k <= KeycodeZero + 9 then Some((k - KeycodeZero + '0' as int) as JChar)
      else None
    else if |acts| == 1 && acts[0].CommitText? && |acts[0].text| == 1 && acts[0].newCursorPosition == 1 then
      Some(acts[0].text[0])
    else
      None
  }

  predicate IsDigit(code: int)
  {
    '0' as int <= code <= '9' as int
  }

  /**
   * sendKey: whatever the route, the editor receives the code cast to a char;
   * only a newline and the digits go as key events.
   */
  function SendKeyActions(code: int): (acts: seq<HostAction>)
    ensures Delivered(acts) == Some(ToChar(code))
    ensures acts[0].KeyDown? <==> code == '\n' as int || IsDigit(code)
    ensures acts[0].KeyDown? ==> acts[0].keyCode != KeycodeDel
  {
    if code == '\n' as int then KeyDownUp(KeycodeEnter)
    else if IsDigit(code) then KeyDownUp(code - '0' as int + KeycodeZero)
    else [CommitText([ToChar(code)], 1)]
  }

  /**
   * A digit goes as its own number key, KEYCODE_0 to KEYCODE_9, never as ENTER
   * or DEL, and distinct digits as distinct keys.
   */
  lemma DigitKeys(a: int, b: int)
    requires IsDigit(a) && IsDigit(b)
    ensures KeycodeZero <= SendKeyActions(a)[0].keyCode <= KeycodeZero + 9
    ensures SendKeyActions(a)[0].keyCode !in {KeycodeEnter, KeycodeDel}
    ensures a != b ==> SendKeyActions(a)[0].keyCode != SendKeyActions(b)[0].keyCode
  {
  }

  // android.text.InputType
  const TypeMaskClass: bv32 := 0xF
  const TypeClassText: bv32 := 0x1
  const TypeMaskVariation: bv32 := 0xFF0
  const VariationUri: bv32 := 0x10
  const VariationEmailAddress: bv32 := 0x20
  const VariationPassword: bv32 := 0x80
  const VariationVisiblePassword: bv32 := 0x90
  const VariationFilter: bv32 := 0xB0
  const FlagAutoComplete: bv32 := 0x10000

  /** mPredictionOn and mCompletionOn as onStartInput sets them. */
  datatype InputMode = InputMode(prediction: bool, completion: bool)

  predicate IsTextClass(inputType: bv32)
  {
    inputType & TypeMaskClass == TypeClassText
  }

  /** Passwords, e-mail addresses, URIs and filters get no predictions. */
  predicate NoPredictionVariation(inputType: bv32)
  {
    var variation := inputType & TypeMaskVariation;
    variation == VariationPassword || variation == VariationVisiblePassword
    || variation == VariationEmailAddress || variation == VariationUri
    || variation == VariationFilter
  }

  predicate IsAutoComplete(inputType: bv32)
  {
    inputType & FlagAutoComplete != 0
  }

  function InputFlags(inputType: bv32, fullscreen: bool): (m: InputMode)
    ensures m.prediction <==>
      IsTextClass(inputType) && !NoPredictionVariation(inputType) && !IsAutoComplete(inputType)
    ensures m.completion <==> IsTextClass(inputType) && IsAutoComplete(inputType) && fullscreen
    ensures !(m.prediction && m.completion)
  {
    if !IsTextClass(inputType) then InputMode(false, false)
    else
      var prediction := !NoPredictionVariation(inputType);
      var m := InputMode(prediction, false);
      if IsAutoComplete(inputType) then InputMode(false, fullscreen) else m
  }
}
