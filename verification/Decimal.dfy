/** Decimal numbers. */
module Decimals {
  predicate IsDigit(c: char) { '0' <= c <= '9' }

  predicate AllDigits(text: string) { forall i :: 0 <= i < |text| ==> IsDigit(text[i]) }

  function DigitValue(c: char): (d: nat)
    requires IsDigit(c)
    ensures d < 10
  {
    c as int - '0' as int
  }

  // The number that digits stand for.
  function Value(text: string): nat
    requires AllDigits(text)
  {
    if text == "" then 0 else 10 * Value(text[..|text| - 1]) + DigitValue(text[|text| - 1])
  }

  // Each digit stands for its place among these, and is worth ten times as much with every digit after it.
  lemma ValueOfDigits(text: string, k: nat)
    requires k < 10 && AllDigits(text)
    ensures var c := "0123456789"[k]; IsDigit(c) && AllDigits(text + [c]) && Value(text + [c]) == 10 * Value(text) + k
    ensures Value("") == 0
  {
    var c := "0123456789"[k];
    assert (text + [c])[..|text|] == text && (text + [c])[|text|] == c;
  }

  function Digit(d: nat): (c: char)
    requires d < 10
    ensures IsDigit(c) && DigitValue(c) == d
  {
    '0' + d as char
  }

  // The number as it is usually written.
  function Shown(n: nat): (text: string)
    ensures text != "" && AllDigits(text)
  {
    if n < 10 then [Digit(n)] else Shown(n / 10) + [Digit(n % 10)]
  }

  lemma {:induction false} ShownValue(n: nat)
    ensures Value(Shown(n)) == n
  {
    if n < 10 {
      assert [Digit(n)][..0] == "";
    } else {
      ShownValue(n / 10);
      assert Shown(n)[..|Shown(n)| - 1] == Shown(n / 10);
    }
  }

  // More digits never make a number smaller.
  lemma {:induction false} ValueGrows(text: string, i: nat)
    requires AllDigits(text) && i <= |text|
    ensures Value(text[..i]) <= Value(text)
  {
    if i < |text| {
      var init := text[..|text| - 1];
      ValueGrows(init, i);
      assert init[..i] == text[..i];
    } else {
      assert text[..i] == text;
    }
  }
}

/** How the Windows updater reads which process to wait for. */
module UpdateProcess {
  import opened Words
  import opened Decimals

  const MAX_U32 := 0xFFFF_FFFF
  const MAX_U64 := 0xFFFF_FFFF_FFFF_FFFF

  // Exactly the texts of digits alone whose value is not zero and fits 64 bits are taken; no step wraps around.
  method ParsePositiveInteger(text: string) returns (ok: bool, result: U64)
    ensures ok <==> AllDigits(text) && 1 <= Value(text) <= MAX_U64
    ensures ok ==> result == Value(text)
  {
    result := 0;
    for i := 0 to |text|
      invariant AllDigits(text[..i]) && result == Value(text[..i])
    {
      var c := text[i];
      assert text[..i + 1][..i] == text[..i] && text[..i + 1][i] == c;
      if c < '0' || c > '9' {
        return false, result;
      }
      var digit := c as int - '0' as int;
      if result > (MAX_U64 - digit) / 10 {
        TooLong(text, i + 1);
        return false, result;
      }
      result := result * 10 + digit;
    }
    assert text[..|text|] == text;
    ok := result != 0;
  }

  lemma TooLong(text: string, i: nat)
    requires i <= |text| && AllDigits(text[..i]) && Value(text[..i]) > MAX_U64
    ensures !(AllDigits(text) && Value(text) <= MAX_U64)
  {
    if AllDigits(text) {
      ValueGrows(text, i);
    }
  }

  class Parent {
    var processId: U32
    var creationTime: U64

    constructor ()
      ensures processId == 0 && creationTime == 0
    {
      processId, creationTime := 0, 0;
    }

    // The process is taken only if both numbers are right; otherwise nothing changes.
    method ParseUpdateProcess(id: string, created: string) returns (ok: bool)
      modifies this
      ensures ok <==>
        && AllDigits(id) && 1 <= Value(id) <= MAX_U32
        && AllDigits(created) && 1 <= Value(created) <= MAX_U64
      ensures ok ==> processId == Value(id) && creationTime == Value(created)
      ensures !ok ==> processId == old(processId) && creationTime == old(creationTime)
    {
      var idOk, parsedId := ParsePositiveInteger(id);
      if !idOk || parsedId > MAX_U32 {
        return false;
      }
      var timeOk, parsedTime := ParsePositiveInteger(created);
      if !timeOk {
        return false;
      }
      processId, creationTime := parsedId, parsedTime;
      return true;
    }
  }
}
