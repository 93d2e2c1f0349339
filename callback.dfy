/**
 The callback data of the keyboard buttons: each button of cell (r, c)
 carries the text "rc" (two decimal digits), the conversation handler only
 lets the nine texts "00" .. "22" through, and a press is turned back into
 coordinates by converting each character with `int` and unpacking the two
 results.
 */
module Callback {

  /** Why `r, c = map(int, data)` raises ValueError: a character that is not
      a digit, or a number of characters other than two. */
  datatype DecodeError = NotADigit(at: nat) | NotEnoughValues | TooManyValues

  datatype Result<T> = Ok(value: T) | Err(error: DecodeError)

  predicate IsDigit(ch: char)
  {
    '0' <= ch <= '9'
  }

  function DigitChar(d: nat): (ch: char)
    requires d < 10
    ensures IsDigit(ch)
  {
    (48 + d) as char
  }

  /** `int` of a one-character decimal text. */
  function DigitValue(ch: char): (d: nat)
    requires IsDigit(ch)
    ensures d < 10 && DigitChar(d) == ch
  {
    ch as int - 48
  }

  /** The callback data of the button of cell (r, c): the digits of r and c
      written one after the other. */
  function Encode(r: nat, c: nat): (s: string)
    requires r < 10 && c < 10
    ensures |s| == 2 && IsDigit(s[0]) && IsDigit(s[1])
  {
    [DigitChar(r), DigitChar(c)]
  }

  predicate AllDigits(t: string)
  {
    forall k :: 0 <= k < |t| ==> IsDigit(t[k])
  }

  /** `r, c = map(int, data)`. The unpacking pulls at most three values from
      the lazy map, so the first non-digit among the first three characters
      raises before the count is checked. A text of exactly two digits, and
      only such a text, decodes, and re-encoding its result gives it back. */
  function Decode(s: string): (res: Result<(nat, nat)>)
    ensures res.Ok? <==> |s| == 2 && IsDigit(s[0]) && IsDigit(s[1])
    ensures res.Ok? ==> res.value.0 < 10 && res.value.1 < 10
                        && Encode(res.value.0, res.value.1) == s
    ensures res.Err? && res.error.NotADigit? ==>
              var i := res.error.at;
              i < 3 && i < |s| && !IsDigit(s[i]) && AllDigits(s[..i])
    ensures res == Err(NotEnoughValues) <==> |s| < 2 && AllDigits(s)
    ensures res == Err(TooManyValues) <==> |s| > 2 && AllDigits(s[..3])
  {
    if |s| >= 1 && !IsDigit(s[0]) then Err(NotADigit(0))
    else if |s| >= 2 && !IsDigit(s[1]) then Err(NotADigit(1))
    else if |s| >= 3 && !IsDigit(s[2]) then Err(NotADigit(2))
    else if |s| < 2 then Err(NotEnoughValues)
    else if |s| > 2 then Err(TooManyValues)
    else Ok((DigitValue(s[0]), DigitValue(s[1])))
  }

  /** Decoding the data of a button gives back that button's cell. */
  lemma DecodeEncode(r: nat, c: nat)
    requires r < 10 && c < 10
    ensures Decode(Encode(r, c)) == Ok((r, c))
  {
  }

  /** Different cells get different callback data. */
  lemma EncodeInjective(r: nat, c: nat, r': nat, c': nat)
    requires r < 10 && c < 10 && r' < 10 && c' < 10
    requires Encode(r, c) == Encode(r', c')
    ensures r == r' && c == c'
  {
  }

  /** The patterns "^rc$" of the nine game handlers, r and c in range(3),
      in the order the handler list is built. */
  function HandlerPatterns(): (ps: seq<string>)
    ensures |ps| == 9
  {
    seq(9, k requires 0 <= k < 9 => Encode(k / 3, k % 3))
  }

  /** A callback whose data one of the handlers accepts. */
  predicate HandlerAccepts(s: string)
  {
    s in HandlerPatterns()
  }

  /** The handlers accept exactly the data of the nine buttons, and every
      accepted text decodes to a cell of the board. */
  lemma {:induction false} HandlerAcceptsExactlyButtons(s: string)
    ensures HandlerAccepts(s) <==> exists r: nat, c: nat :: r < 3 && c < 3 && s == Encode(r, c)
    ensures HandlerAccepts(s) ==> Decode(s).Ok? && Decode(s).value.0 < 3 && Decode(s).value.1 < 3
  {
    if HandlerAccepts(s) {
      var k :| 0 <= k < 9 && HandlerPatterns()[k] == s;
      DecodeEncode(k / 3, k % 3);
    }
    if exists r: nat, c: nat :: r < 3 && c < 3 && s == Encode(r, c) {
      var r: nat, c: nat :| r < 3 && c < 3 && s == Encode(r, c);
      assert HandlerPatterns()[3 * r + c] == s;
    }
  }
}
