// The wire format of the Fibonacci server (aserver.py): a request is the
// ASCII decimal text of an integer, read with int(req) (line 53); a response
// is str(result).encode('ascii') followed by one newline byte (line 56).
// int() is modelled for decimal digits with an optional sign and surrounding
// ASCII whitespace; its underscores between digits are not.
module Ascii {

  type Byte = b: int | 0 <= b < 256

  datatype Option<T> = None | Some(value: T)

  const Zero: Byte := 48
  const Newline: Byte := 10
  const Plus: Byte := 43
  const Minus: Byte := 45

  predicate IsDigit(b: Byte) {
    Zero <= b < Zero + 10
  }

  predicate AllDigits(bs: seq<Byte>) {
    forall i :: 0 <= i < |bs| ==> IsDigit(bs[i])
  }

  /** The bytes int() skips around a number: space, tab, newline, vertical
      tab, form feed and carriage return. */
  predicate IsSpace(b: Byte) {
    b == 32 || 9 <= b <= 13
  }

  /** Decimal text without leading zeros: what str() prints for a natural. */
  predicate Canonical(bs: seq<Byte>) {
    bs != [] && AllDigits(bs) && (|bs| == 1 || bs[0] != Zero)
  }

  /** str(n).encode('ascii') for a natural n. */
  function Digits(n: nat): (r: seq<Byte>)
    ensures Canonical(r)
    ensures n < 10 <==> |r| == 1
  {
    if n < 10 then [Zero + n] else Digits(n / 10) + [Zero + n % 10]
  }

  /** The number a string of decimal digits denotes (leading zeros allowed). */
  function ValueOf(bs: seq<Byte>): nat
    requires AllDigits(bs)
  {
    if bs == [] then 0
    else ValueOf(bs[..|bs| - 1]) * 10 + (bs[|bs| - 1] - Zero)
  }

  /** The number of whitespace bytes a byte string starts with. */
  function SpacesBefore(bs: seq<Byte>): (k: nat)
    ensures k <= |bs|
    ensures forall i :: 0 <= i < k ==> IsSpace(bs[i])
    ensures k < |bs| ==> !IsSpace(bs[k])
  {
    if bs != [] && IsSpace(bs[0]) then 1 + SpacesBefore(bs[1..]) else 0
  }

  /** The number of whitespace bytes a byte string ends with. */
  function SpacesAfter(bs: seq<Byte>): (k: nat)
    ensures k <= |bs|
    ensures forall i :: |bs| - k <= i < |bs| ==> IsSpace(bs[i])
    ensures k < |bs| ==> !IsSpace(bs[|bs| - 1 - k])
  {
    if bs != [] && IsSpace(bs[|bs| - 1]) then 1 + SpacesAfter(bs[..|bs| - 1]) else 0
  }

  /** bytes.strip(): the text between the leading and trailing whitespace. */
  function Strip(bs: seq<Byte>): seq<Byte> {
    var lo := SpacesBefore(bs);
    if lo == |bs| then [] else bs[lo..|bs| - SpacesAfter(bs)]
  }

  /** A sign, if any, then at least one decimal digit. */
  function Signed(t: seq<Byte>): Option<int> {
    if t != [] && (t[0] == Plus || t[0] == Minus) then
      var ds := t[1..];
      if ds != [] && AllDigits(ds) then
        var v: int := ValueOf(ds);
        Some(if t[0] == Minus then -v else v)
      else None
    else if t != [] && AllDigits(t) then Some(ValueOf(t))
    else None
  }

  /** int(req) on a byte string: whitespace around a signed decimal number is
      skipped; anything else makes Python raise ValueError. */
  function ParseInt(bs: seq<Byte>): (r: Option<int>)
    // A plain run of digits is read as the number it denotes.
    ensures bs != [] && AllDigits(bs) ==> r == Some(ValueOf(bs))
  {
    assert bs != [] && AllDigits(bs) ==> Strip(bs) == bs by {
      if bs != [] && AllDigits(bs) {
        assert IsDigit(bs[0]) && IsDigit(bs[|bs| - 1]);
        StripNothing(bs);
      }
    }
    Signed(Strip(bs))
  }

  /** A number is accepted only if the request holds nothing but digits,
      signs and whitespace, and at least one digit. */
  lemma ParseAccepts(bs: seq<Byte>)
    requires ParseInt(bs).Some?
    ensures forall i :: 0 <= i < |bs| ==> IsDigit(bs[i]) || IsSpace(bs[i]) || bs[i] == Plus || bs[i] == Minus
    ensures exists i :: 0 <= i < |bs| && IsDigit(bs[i])
  {
    var lo, hi := SpacesBefore(bs), |bs| - SpacesAfter(bs);
    var t := Strip(bs);
    SignedShape(t);
    StripBounds(bs);
    forall i | 0 <= i < |bs|
      ensures IsDigit(bs[i]) || IsSpace(bs[i]) || bs[i] == Plus || bs[i] == Minus
    {
      if lo <= i < hi {
        assert bs[i] == t[i - lo];
      }
    }
    assert bs[hi - 1] == t[|t| - 1];
  }

  /** Outside the stripped text there is only whitespace. */
  lemma StripBounds(bs: seq<Byte>)
    requires Strip(bs) != []
    ensures var lo, hi := SpacesBefore(bs), |bs| - SpacesAfter(bs);
      && lo < hi <= |bs| && Strip(bs) == bs[lo..hi]
      && (forall i :: 0 <= i < |bs| && !(lo <= i < hi) ==> IsSpace(bs[i]))
  {
    var lo, hi := SpacesBefore(bs), |bs| - SpacesAfter(bs);
    assert !IsSpace(bs[lo]);
  }

  /** Text that neither starts nor ends with whitespace is left as it is. */
  lemma StripNothing(bs: seq<Byte>)
    requires bs != [] && !IsSpace(bs[0]) && !IsSpace(bs[|bs| - 1])
    ensures Strip(bs) == bs
  {
    assert SpacesBefore(bs) == 0 && SpacesAfter(bs) == 0;
    assert bs[0..|bs|] == bs;
  }

  /** What Signed accepts: a sign or a digit, then digits, ending in a digit. */
  lemma SignedShape(t: seq<Byte>)
    requires Signed(t).Some?
    ensures t != [] && IsDigit(t[|t| - 1])
    ensures IsDigit(t[0]) || t[0] == Plus || t[0] == Minus
    ensures forall i :: 1 <= i < |t| ==> IsDigit(t[i])
  {
    if t[0] == Plus || t[0] == Minus {
      var ds := t[1..];
      assert forall i :: 1 <= i < |t| ==> t[i] == ds[i - 1];
    }
  }

  /** One response line: str(n).encode('ascii') + b'\n'. */
  function EncodeLine(n: nat): (r: seq<Byte>)
    ensures |r| >= 2 && r[|r| - 1] == Newline
    ensures forall i :: 0 <= i < |r| - 1 ==> IsDigit(r[i])
  {
    Digits(n) + [Newline]
  }

  lemma {:induction false} ValueOfDigits(n: nat)
    ensures ValueOf(Digits(n)) == n
  {
    if n >= 10 {
      var ds := Digits(n);
      assert ds[..|ds| - 1] == Digits(n / 10);
      ValueOfDigits(n / 10);
    }
  }

  /** Reading back what str() wrote gives the number back. */
  lemma ParseDigits(n: nat)
    ensures ParseInt(Digits(n)) == Some(n)
  {
    ValueOfDigits(n);
  }

  /** A request line as a line-oriented client sends it, digits and a
      newline, is read as the number. */
  lemma ParseLine(n: nat)
    ensures ParseInt(Digits(n) + [Newline]) == Some(n)
  {
    var ds := Digits(n);
    var bs := ds + [Newline];
    assert SpacesBefore(bs) == 0;
    assert SpacesAfter(bs) == 1 by {
      assert bs[..|bs| - 1] == ds;
      assert SpacesAfter(ds) == 0;
    }
    assert Strip(bs) == ds;
    ValueOfDigits(n);
  }

  /** A minus sign before the digits gives the negative number. */
  lemma ParseNegative(n: nat)
    ensures ParseInt([Minus] + Digits(n)) == Some(-(n as int))
  {
    var ds := Digits(n);
    var bs := [Minus] + ds;
    assert bs[|bs| - 1] == ds[|ds| - 1];
    StripNothing(bs);
    assert bs[1..] == ds;
    ValueOfDigits(n);
  }

  /** An empty request, or one of whitespace only, is not a number. */
  lemma ParseBlank(bs: seq<Byte>)
    requires forall i :: 0 <= i < |bs| ==> IsSpace(bs[i])
    ensures ParseInt(bs) == None
  {
    AllSpaces(bs);
  }

  lemma {:induction false} AllSpaces(bs: seq<Byte>)
    requires forall i :: 0 <= i < |bs| ==> IsSpace(bs[i])
    ensures SpacesBefore(bs) == |bs|
    decreases |bs|
  {
    if bs != [] {
      assert IsSpace(bs[0]);
      assert forall i :: 0 <= i < |bs| - 1 ==> bs[1..][i] == bs[i + 1];
      AllSpaces(bs[1..]);
    }
  }

  lemma {:induction false} LeadingDigitPositive(bs: seq<Byte>)
    requires bs != [] && AllDigits(bs) && bs[0] != Zero
    ensures ValueOf(bs) >= 1
    ensures |bs| > 1 ==> ValueOf(bs) >= 10
    decreases |bs|
  {
    if |bs| > 1 {
      var init := bs[..|bs| - 1];
      assert init[0] == bs[0];
      LeadingDigitPositive(init);
    }
  }

  /** Conversely, str() of the value of a canonical digit string gives the
      string back; so Digits is exactly the canonical decimal notation. */
  lemma {:induction false} DigitsOfValue(bs: seq<Byte>)
    requires Canonical(bs)
    ensures Digits(ValueOf(bs)) == bs
    decreases |bs|
  {
    if |bs| > 1 {
      var init := bs[..|bs| - 1];
      assert init[0] == bs[0];
      LeadingDigitPositive(bs);
      LeadingDigitPositive(init);
      var n := ValueOf(bs);
      assert n / 10 == ValueOf(init) && n % 10 == bs[|bs| - 1] - Zero;
      DigitsOfValue(init);
      assert bs == init + [bs[|bs| - 1]];
    }
  }

  /** Two naturals have the same decimal text only if they are equal. */
  lemma DigitsInjective(m: nat, n: nat)
    requires Digits(m) == Digits(n)
    ensures m == n
  {
    ValueOfDigits(m);
    ValueOfDigits(n);
  }
}
