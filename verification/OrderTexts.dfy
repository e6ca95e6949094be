/**
  The texts in which the market's flow names its orders (examples/live-market/app.js, provider.js and the number
  format of marketStore.js:22), and how such a text is read: which order it names and which total it states.
 */
module OrderTexts {
  import opened Wrappers

  // ---- writing ----

  function Digits(n: nat): string {
    if n < 10 then [('0' as int + n) as char] else Digits(n / 10) + Digits(n % 10)
  }

  function Decimal(n: int): string { if n < 0 then "-" + Digits(-n) else Digits(n) }

  function Zeros(n: nat): string { if n == 0 then "" else "0" + Zeros(n - 1) }

  /** An order number as the store prints it: the letter M and at least five digits. */
  function IdText(id: nat): string {
    var digits := Digits(id);
    "M" + (if |digits| < 5 then Zeros(5 - |digits|) else "") + digits
  }

  const HEAD := "END Order "
  const PLACED := " placed. KES "
  const WAS_CANCELLED := " was" + " cancelled. Start a new session to order again."
  const CANCELLED := " cancelled."

  function Ending(pickup: string): string { ". Pickup: " + pickup + ". Demo only." }

  function PlacedText(id: nat, total: int, pickup: string): string {
    HEAD + IdText(id) + (PLACED + (Decimal(total) + Ending(pickup)))
  }

  function CancelledText(id: nat): string { HEAD + IdText(id) + WAS_CANCELLED }

  function WithdrawnText(id: nat): string { HEAD + IdText(id) + CANCELLED }

  // ---- reading ----

  predicate IsDigit(c: char) { '0' <= c <= '9' }

  predicate AllDigits(text: string) { forall c <- text :: IsDigit(c) }

  /** The number a string of digits writes in base ten. */
  function Value(digits: string): int {
    if digits == "" then 0 else Value(digits[..|digits| - 1]) * 10 + (digits[|digits| - 1] as int - '0' as int)
  }

  /** The digits a text begins with. */
  function DigitRun(text: string): (run: string)
    ensures run <= text
  {
    if text == "" || !IsDigit(text[0]) then "" else [text[0]] + DigitRun(text[1..])
  }

  function ReadInt(text: string): int {
    if text != "" && text[0] == '-' then -Value(DigitRun(text[1..])) else Value(DigitRun(text))
  }

  /** The text behind the order number, where the text names an order. */
  function Tail(text: string): Option<string> {
    if HEAD <= text && |text| > |HEAD| && text[|HEAD|] == 'M' && DigitRun(text[|HEAD| + 1..]) != "" then
      Some(text[|HEAD| + 1 + |DigitRun(text[|HEAD| + 1..])|..])
    else None
  }

  /** The order a text names. */
  function Named(text: string): Option<int> {
    if Tail(text).Some? then Some(Value(DigitRun(text[|HEAD| + 1..]))) else None
  }

  /** The total it states. */
  function Stated(text: string): Option<int> {
    var tail := Tail(text);
    if tail.Some? && PLACED <= tail.value then Some(ReadInt(tail.value[|PLACED|..])) else None
  }

  // ---- what is written is what is read ----

  lemma {:induction false} ValueAppend(a: string, c: char)
    ensures Value(a + [c]) == Value(a) * 10 + (c as int - '0' as int)
  {
    assert (a + [c])[..|a|] == a;
  }

  lemma {:induction false} DigitsRead(n: nat)
    ensures Value(Digits(n)) == n && AllDigits(Digits(n)) && |Digits(n)| > 0
    ensures n > 0 ==> Digits(n)[0] != '0'
    ensures n < 10 <==> |Digits(n)| == 1
  {
    if n >= 10 {
      DigitsRead(n / 10);
      DigitsRead(n % 10);
      var last := Digits(n % 10);
      assert last == [('0' as int + n % 10) as char];
      ValueAppend(Digits(n / 10), last[0]);
    } else {
      ValueAppend("", ('0' as int + n) as char);
      assert "" + [('0' as int + n) as char] == Digits(n);
    }
  }

  lemma {:induction false} ZerosRead(n: nat, digits: string)
    ensures |Zeros(n)| == n && AllDigits(Zeros(n)) && Value(Zeros(n) + digits) == Value(digits)
    decreases n + |digits|
  {
    if digits != "" {
      var init, last := digits[..|digits| - 1], digits[|digits| - 1];
      ZerosRead(n, init);
      assert Zeros(n) + digits == (Zeros(n) + init) + [last];
      ValueAppend(Zeros(n) + init, last);
    } else {
      assert Zeros(n) + digits == Zeros(n);
      ZerosAre(n);
    }
  }

  lemma {:induction false} ZerosAre(n: nat)
    ensures |Zeros(n)| == n && AllDigits(Zeros(n)) && Value(Zeros(n)) == 0
    ensures n > 0 ==> Zeros(n)[..n - 1] == Zeros(n - 1) && Zeros(n)[n - 1] == '0'
  {
    if n > 1 {
      ZerosAre(n - 1);
      assert Zeros(n)[..n - 1] == "0" + Zeros(n - 1)[..n - 2] == "0" + Zeros(n - 2) == Zeros(n - 1);
    }
  }

  /** An order number is the letter M, then at least five digits that write it, with no zero in front of more than five. */
  lemma IdReads(id: nat)
    ensures var text := IdText(id);
      && |text| >= 6 && text[0] == 'M' && AllDigits(text[1..]) && Value(text[1..]) == id
      && (|text| > 6 ==> text[1] != '0')
  {
    DigitsRead(id);
    var digits := Digits(id);
    if |digits| < 5 {
      ZerosRead(5 - |digits|, digits);
      assert IdText(id)[1..] == Zeros(5 - |digits|) + digits;
    } else {
      assert IdText(id)[1..] == digits;
    }
  }

  lemma {:induction false} RunStops(digits: string, rest: string)
    requires AllDigits(digits) && (rest == "" || !IsDigit(rest[0]))
    ensures DigitRun(digits + rest) == digits
  {
    if digits == "" {
      assert digits + rest == rest;
    } else {
      assert (digits + rest)[1..] == digits[1..] + rest && (digits + rest)[0] == digits[0];
      RunStops(digits[1..], rest);
    }
  }

  /** A text that goes on with an order number and then no digit names that order. */
  lemma HeadReads(id: nat, rest: string)
    requires rest != "" && !IsDigit(rest[0])
    ensures Named(HEAD + IdText(id) + rest) == Some(id) && Tail(HEAD + IdText(id) + rest) == Some(rest)
  {
    var text := HEAD + IdText(id) + rest;
    IdReads(id);
    assert text[..|HEAD|] == HEAD && text[|HEAD|] == IdText(id)[0];
    assert text[|HEAD| + 1..] == IdText(id)[1..] + rest;
    RunStops(IdText(id)[1..], rest);
    assert text[|HEAD| + 1 + |IdText(id)[1..]|..] == rest;
  }

  lemma DecimalReads(n: int, rest: string)
    requires rest != "" && !IsDigit(rest[0])
    ensures ReadInt(Decimal(n) + rest) == n
  {
    DigitsRead(if n < 0 then -n else n);
    if n < 0 {
      assert (Decimal(n) + rest)[1..] == Digits(-n) + rest;
      RunStops(Digits(-n), rest);
    } else {
      RunStops(Digits(n), rest);
      assert IsDigit(Digits(n)[0]);
    }
  }

  lemma FirstLetters(pickup: string)
    ensures PLACED[0] == ' ' && PLACED[1] == 'p' && WAS_CANCELLED[0] == ' ' && WAS_CANCELLED[1] == 'w'
    ensures CANCELLED[0] == ' ' && CANCELLED[1] == 'c' && Ending(pickup) != "" && Ending(pickup)[0] == '.'
  {
    assert " was"[0] == ' ' && " was"[1] == 'w' && ". Pickup: "[0] == '.';
  }

  lemma Joined(front: string, back: string)
    requires front != ""
    ensures front <= front + back && (front + back)[|front|..] == back && (front + back)[0] == front[0]
  {
  }

  /** The answer to a placement names its order, states its total and ends with the pickup point. */
  lemma PlacedReads(id: nat, total: int, pickup: string)
    ensures var text := PlacedText(id, total, pickup);
      && Named(text) == Some(id) && Stated(text) == Some(total)
      && text[|text| - |Ending(pickup)|..] == Ending(pickup)
  {
    FirstLetters(pickup);
    var stated := Decimal(total) + Ending(pickup);
    DecimalReads(total, Ending(pickup));
    hide IdText, Decimal, Named, Stated, Tail, ReadInt, Ending, PLACED, HEAD;
    Joined(PLACED, stated);
    HeadReads(id, PLACED + stated);
    StatedIs(HEAD + IdText(id) + (PLACED + stated), PLACED + stated);
    LastJoined(HEAD + IdText(id), PLACED, Decimal(total), Ending(pickup));
  }

  lemma LastJoined(a: string, b: string, c: string, last: string)
    ensures var text := a + (b + (c + last)); text[|text| - |last|..] == last
  {
    assert a + (b + (c + last)) == (a + b + c) + last;
  }

  lemma StatedIs(text: string, rest: string)
    requires Tail(text) == Some(rest) && PLACED <= rest
    ensures Stated(text) == Some(ReadInt(rest[|PLACED|..]))
  {
  }

  /** So do the answers about a cancelled order. */
  lemma CancellationsRead(id: nat)
    ensures Named(CancelledText(id)) == Some(id) && Named(WithdrawnText(id)) == Some(id)
    ensures Stated(CancelledText(id)).None? && Stated(WithdrawnText(id)).None?
  {
    FirstLetters("");
    hide IdText, Named, HEAD;
    HeadReads(id, WAS_CANCELLED);
    HeadReads(id, CANCELLED);
    NotStated(CancelledText(id), WAS_CANCELLED);
    NotStated(WithdrawnText(id), CANCELLED);
  }

  lemma NotStated(text: string, rest: string)
    requires Tail(text) == Some(rest) && |rest| > 1 && |PLACED| > 1 && rest[1] != PLACED[1]
    ensures Stated(text).None?
  {
  }

  /** Answers about two orders are two texts, and so are answers with two totals. */
  lemma TextsDiffer(id: nat, other: nat, a: int, b: int, pickup: string, elsewhere: string)
    ensures PlacedText(id, a, pickup) == PlacedText(other, b, elsewhere) ==> id == other && a == b
    ensures CancelledText(id) == CancelledText(other) ==> id == other
    ensures WithdrawnText(id) == WithdrawnText(other) ==> id == other
    ensures PlacedText(id, a, pickup) == PlacedText(id, b, pickup) <==> a == b
  {
    PlacedReads(id, a, pickup);
    PlacedReads(other, b, elsewhere);
    PlacedReads(id, b, pickup);
    CancellationsRead(id);
    CancellationsRead(other);
    hide Named, Stated, PlacedText, CancelledText, WithdrawnText;
  }

  /** The first order ever is M00001. */
  lemma FirstOrder()
    ensures IdText(1) == "M00001"
  {
    assert Digits(1) == "1" && Zeros(1) == "0" && Zeros(2) == "00" && Zeros(3) == "000" && Zeros(4) == "0000";
  }
}
