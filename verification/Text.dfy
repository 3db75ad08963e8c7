/** The string operations of Python that streaming and token counting rely on. */
module Text {

  /** What `str.strip` removes. */
  predicate IsSpace(c: char) {
    var code := c as int;
    || 0x09 <= code <= 0x0D || 0x1C <= code <= 0x20 || code == 0x85 || code == 0xA0 || code == 0x1680
    || 0x2000 <= code <= 0x200A || code == 0x2028 || code == 0x2029 || code == 0x202F || code == 0x205F || code == 0x3000
  }

  function StripLeft(text: string): string {
    if text != "" && IsSpace(text[0]) then StripLeft(text[1..]) else text
  }

  function StripRight(text: string): string {
    if text != "" && IsSpace(text[|text| - 1]) then StripRight(text[..|text| - 1]) else text
  }

  function Strip(text: string): string {
    StripRight(StripLeft(text))
  }

  predicate AllSpace(text: string) {
    forall i :: 0 <= i < |text| ==> IsSpace(text[i])
  }

  /** Neither end is a space. */
  predicate IsStripped(text: string) {
    text != "" ==> !IsSpace(text[0]) && !IsSpace(text[|text| - 1])
  }

  lemma {:induction false} LeftSplits(text: string) returns (left: string)
    ensures text == left + StripLeft(text) && AllSpace(left)
    ensures StripLeft(text) != "" ==> !IsSpace(StripLeft(text)[0])
  {
    if text != "" && IsSpace(text[0]) {
      var rest := LeftSplits(text[1..]);
      left := [text[0]] + rest;
    } else {
      left := "";
    }
  }

  lemma {:induction false} RightSplits(text: string) returns (right: string)
    ensures text == StripRight(text) + right && AllSpace(right)
    ensures StripRight(text) != "" ==> StripRight(text)[0] == text[0] && !IsSpace(StripRight(text)[|StripRight(text)| - 1])
  {
    if text != "" && IsSpace(text[|text| - 1]) {
      var rest := RightSplits(text[..|text| - 1]);
      right := rest + [text[|text| - 1]];
    } else {
      right := "";
    }
  }

  /** `strip` takes spaces off both ends and leaves a text with none there. */
  lemma StripSplits(text: string) returns (left: string, right: string)
    ensures text == left + Strip(text) + right && AllSpace(left) && AllSpace(right) && IsStripped(Strip(text))
  {
    left := LeftSplits(text);
    right := RightSplits(StripLeft(text));
  }

  lemma {:induction false} StripLeftSkips(left: string, text: string)
    requires AllSpace(left) && (text != "" ==> !IsSpace(text[0]))
    ensures StripLeft(left + text) == text
  {
    if left == "" {
      assert left + text == text;
    } else {
      assert (left + text)[1..] == left[1..] + text;
      StripLeftSkips(left[1..], text);
    }
  }

  lemma {:induction false} StripRightSkips(text: string, right: string)
    requires AllSpace(right) && (text != "" ==> !IsSpace(text[|text| - 1]))
    ensures StripRight(text + right) == text
  {
    if right == "" {
      assert text + right == text;
    } else {
      assert (text + right)[..|text + right| - 1] == text + right[..|right| - 1];
      StripRightSkips(text, right[..|right| - 1]);
    }
  }

  lemma {:induction false} StripLeftOfSpace(text: string)
    requires AllSpace(text)
    ensures StripLeft(text) == ""
  {
    if text != "" {
      StripLeftOfSpace(text[1..]);
    }
  }

  /** Spaces around a stripped text are all that `strip` removes, and it is the only text they surround. */
  lemma StripIs(left: string, text: string, right: string)
    requires AllSpace(left) && AllSpace(right) && IsStripped(text)
    ensures Strip(left + text + right) == text
  {
    if text == "" {
      assert left + text + right == left + right;
      StripLeftOfSpace(left + right);
    } else {
      assert left + text + right == left + (text + right);
      StripLeftSkips(left, text + right);
      StripRightSkips(text, right);
    }
  }

  predicate StartsWith(text: string, prefix: string) {
    prefix <= text
  }

  predicate EndsWith(text: string, suffix: string) {
    |suffix| <= |text| && text[|text| - |suffix|..] == suffix
  }
}
