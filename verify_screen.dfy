/**
 * The six-box verification-code entry of `app/user/verify/index.tsx`.
 *
 * The screen keeps a code array of six boxes and the index of the focused
 * box. Each handler (box press, text input, key press) is one transition of
 * that state; once every box is filled the screen submits the joined code.
 * The transitions are given as functions on `EntryState` and the `CodeEntry`
 * class performs them on its fields.
 */
module VerifyScreen {
  import opened Wrappers
  import opened Strings

  const BoxCount: nat := 6

  /** A box is empty or holds one decimal digit. */
  predicate IsBoxValue(v: string) {
    v == "" || (|v| == 1 && IsDigit(v[0]))
  }

  predicate WellFormedCode(code: seq<string>) {
    |code| == BoxCount && forall i :: 0 <= i < |code| ==> IsBoxValue(code[i])
  }

  datatype EntryState = EntryState(code: seq<string>, focus: int)

  predicate ValidEntry(s: EntryState) {
    WellFormedCode(s.code) && 0 <= s.focus < BoxCount
  }

  /** `useState(Array(6).fill(""))` and `useState(0)`. */
  function InitialEntry(): (r: EntryState)
    ensures ValidEntry(r)
    ensures forall i :: 0 <= i < BoxCount ==> r.code[i] == ""
    ensures r.focus == 0
  {
    EntryState(seq(BoxCount, _ => ""), 0)
  }

  /** `handleBoxPress(index)`: focuses the pressed box, the code is untouched. */
  function PressBox(s: EntryState, index: int): (r: EntryState)
    requires ValidEntry(s) && 0 <= index < BoxCount
    ensures ValidEntry(r)
    ensures r.code == s.code && r.focus == index
  {
    s.(focus := index)
  }

  /**
   * `handleCodeChange(text)`: input without digits changes nothing; otherwise
   * the last digit of the input goes into the focused box, no other box
   * changes, and the focus moves one box right unless it is on the last box.
   */
  function TypeText(s: EntryState, text: string): (r: EntryState)
    requires ValidEntry(s)
    ensures ValidEntry(r)
    ensures DigitsOnly(text) == [] ==> r == s
    ensures DigitsOnly(text) != [] ==>
      && r.code[s.focus] == [DigitsOnly(text)[|DigitsOnly(text)| - 1]]
      && (forall i :: 0 <= i < BoxCount && i != s.focus ==> r.code[i] == s.code[i])
      && r.focus == (if s.focus < BoxCount - 1 then s.focus + 1 else s.focus)
  {
    var digits := DigitsOnly(text);
    if digits == [] then s
    else
      var lastChar := digits[|digits| - 1..];
      EntryState(
        seq(|s.code|, i requires 0 <= i < |s.code| => if i == s.focus then lastChar else s.code[i]),
        if s.focus < BoxCount - 1 then s.focus + 1 else s.focus)
  }

  /**
   * `handleKeyPress(e)`: Backspace empties the focused box (if it holds a
   * digit) and moves the focus one box left unless it is on the first box;
   * any other key changes nothing.
   */
  function PressKey(s: EntryState, key: string): (r: EntryState)
    requires ValidEntry(s)
    ensures ValidEntry(r)
    ensures key != "Backspace" ==> r == s
    ensures key == "Backspace" ==>
      && r.code[s.focus] == ""
      && (forall i :: 0 <= i < BoxCount && i != s.focus ==> r.code[i] == s.code[i])
      && r.focus == (if s.focus > 0 then s.focus - 1 else 0)
  {
    if key != "Backspace" then s
    else
      var code := if s.code[s.focus] != "" then s.code[s.focus := ""] else s.code;
      EntryState(code, if s.focus > 0 then s.focus - 1 else s.focus)
  }

  /** `code.join("")`. */
  function JoinCode(code: seq<string>): string {
    if code == [] then "" else code[0] + JoinCode(code[1..])
  }

  lemma {:induction false} JoinFullBoxes(code: seq<string>)
    requires forall i :: 0 <= i < |code| ==> |code[i]| == 1
    ensures |JoinCode(code)| == |code|
    ensures forall i :: 0 <= i < |code| ==> JoinCode(code)[i] == code[i][0]
  {
    if code != [] {
      JoinFullBoxes(code[1..]);
      assert forall i :: 1 <= i < |code| ==> code[i] == code[1..][i - 1];
    }
  }

  /**
   * The completion effect: when every box is filled (`code.every(item => item !== "")`)
   * the screen verifies the joined code; otherwise it submits nothing.
   * The submitted code is six digits, the boxes' digits in order.
   */
  function SubmittedCode(code: seq<string>): (r: Option<string>)
    requires WellFormedCode(code)
    ensures r.Some? <==> forall i :: 0 <= i < BoxCount ==> code[i] != ""
    ensures r.Some? ==> |r.value| == BoxCount && AllDigits(r.value)
    ensures r.Some? ==> forall i :: 0 <= i < BoxCount ==> r.value[i] == code[i][0]
  {
    if forall i :: 0 <= i < |code| ==> code[i] != "" then
      JoinFullBoxes(code);
      Some(JoinCode(code))
    else None
  }

  /**
   * Typing six digits in a row from the initial state fills the boxes in order,
   * leaves the focus on the last box and submits exactly those six digits.
   */
  lemma SixDigitsSubmit(d: seq<char>)
    requires |d| == BoxCount && AllDigits(d)
    ensures var s := TypeText(TypeText(TypeText(TypeText(TypeText(TypeText(
              InitialEntry(), [d[0]]), [d[1]]), [d[2]]), [d[3]]), [d[4]]), [d[5]]);
      s.focus == BoxCount - 1 && SubmittedCode(s.code) == Some(d)
  {
    var s0 := InitialEntry();
    var s1 := TypeText(s0, [d[0]]);
    var s2 := TypeText(s1, [d[1]]);
    var s3 := TypeText(s2, [d[2]]);
    var s4 := TypeText(s3, [d[3]]);
    var s5 := TypeText(s4, [d[4]]);
    var s6 := TypeText(s5, [d[5]]);
    assert s6.code == [[d[0]], [d[1]], [d[2]], [d[3]], [d[4]], [d[5]]];
    assert SubmittedCode(s6.code).value == d;
  }

  /** The user events the screen handles. */
  datatype Event = BoxPress(index: int) | CodeChange(text: string) | KeyPress(key: string)

  /** Box presses come from the six rendered boxes. */
  predicate IsScreenEvent(e: Event) {
    e.BoxPress? ==> 0 <= e.index < BoxCount
  }

  function Step(s: EntryState, e: Event): (r: EntryState)
    requires ValidEntry(s) && IsScreenEvent(e)
    ensures ValidEntry(r)
  {
    match e
    case BoxPress(index) => PressBox(s, index)
    case CodeChange(text) => TypeText(s, text)
    case KeyPress(key) => PressKey(s, key)
  }

  /**
   * Any sequence of screen events keeps six boxes that each hold nothing or
   * one digit, and keeps the focus on one of the six boxes.
   */
  function Run(s: EntryState, events: seq<Event>): (r: EntryState)
    requires ValidEntry(s)
    requires forall i :: 0 <= i < |events| ==> IsScreenEvent(events[i])
    ensures ValidEntry(r)
    ensures |r.code| == BoxCount && 0 <= r.focus < BoxCount
    decreases |events|
  {
    if events == [] then s else Run(Step(s, events[0]), events[1..])
  }

  /**
   * The screen's state. `code` is replaced by a new array on every change,
   * as the handlers do with `setCode`.
   */
  class CodeEntry {
    var code: seq<string>
    var focusIndex: int

    function State(): EntryState
      reads this
    {
      EntryState(code, focusIndex)
    }

    ghost predicate Valid()
      reads this
    {
      ValidEntry(State())
    }

    constructor ()
      ensures Valid() && State() == InitialEntry()
    {
      code := seq(BoxCount, _ => "");
      focusIndex := 0;
    }

    method HandleBoxPress(index: int)
      requires Valid() && 0 <= index < BoxCount
      modifies this
      ensures Valid() && State() == PressBox(old(State()), index)
    {
      focusIndex := index;
    }

    method HandleCodeChange(text: string)
      requires Valid()
      modifies this
      ensures Valid() && State() == TypeText(old(State()), text)
    {
      var newText := DigitsOnly(text);
      if newText == [] {
        return;
      }
      var lastChar := newText[|newText| - 1..];
      var current, focus := code, focusIndex;
      code := seq(|current|, i requires 0 <= i < |current| => if i == focus then lastChar else current[i]);
      if focusIndex < BoxCount - 1 {
        focusIndex := focusIndex + 1;
      }
    }

    method HandleKeyPress(key: string)
      requires Valid()
      modifies this
      ensures Valid() && State() == PressKey(old(State()), key)
    {
      if key == "Backspace" {
        var newCode := code;
        if newCode[focusIndex] != "" {
          newCode := newCode[focusIndex := ""];
          code := newCode;
        }
        if focusIndex > 0 {
          focusIndex := focusIndex - 1;
        }
      }
    }
  }
}
