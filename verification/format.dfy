/**
  The two column formatters of update.py: `align`, which pads a counter to
  the twelve-character column of the card template, and `align_username`,
  which decorates or truncates the login name for the title line.
 */
module Format {
  import opened Wrappers
  import opened Decimal

  /** Width of the digit field that `align` pads to (one leading space comes on top). */
  const DigitField: nat := 11

  /** Python's `c * k`: `k` copies of `c`, and nothing when `k` is zero or negative. */
  function Repeat(c: char, k: int): (r: string)
    ensures |r| == if k <= 0 then 0 else k
    ensures forall i :: 0 <= i < |r| ==> r[i] == c
  {
    if k <= 0 then [] else seq(k, _ => c)
  }

  /**
    `align(number)`: one space, the decimal digits, then spaces up to the
    twelfth column. A number too wide for the column gets no padding.
   */
  function Align(n: nat): (r: string)
    ensures n < Pow10(DigitField) ==> |r| == 1 + DigitField
    ensures n >= Pow10(DigitField) ==> r == [' '] + NatToString(n)
    ensures |r| >= 1 + |NatToString(n)| && r[0] == ' '
    ensures r[1..1 + |NatToString(n)|] == NatToString(n)
    ensures forall i :: 1 + |NatToString(n)| <= i < |r| ==> r[i] == ' '
  {
    NatToStringLength(n, DigitField);
    var digits := NatToString(n);
    [' '] + digits + Repeat(' ', DigitField - |digits|)
  }

  /** Drops the spaces at the end of `s`. */
  function TrimRight(s: string): (r: string)
    ensures r <= s
    ensures r == [] || r[|r| - 1] != ' '
    ensures forall i :: |r| <= i < |s| ==> s[i] == ' '
  {
    if |s| > 0 && s[|s| - 1] == ' ' then TrimRight(s[..|s| - 1]) else s
  }

  /**
    Reads a counter back out of its column: a leading space, a decimal
    numeral as `str` writes it, and trailing spaces only.
   */
  function Unalign(s: string): (r: Option<nat>)
    ensures r.Some? ==> |s| >= 2 && s[0] == ' '
  {
    if |s| == 0 || s[0] != ' ' then None
    else
      var body := TrimRight(s[1..]);
      if Canonical(body) then Some(ParseDecimal(body)) else None
  }

  lemma {:induction false} TrimRightPadding(d: string, k: int)
    requires |d| > 0 && d[|d| - 1] != ' '
    ensures TrimRight(d + Repeat(' ', k)) == d
    decreases if k <= 0 then 0 else k
  {
    if k > 0 {
      var s := d + Repeat(' ', k);
      assert s[..|s| - 1] == d + Repeat(' ', k - 1);
      TrimRightPadding(d, k - 1);
    } else {
      assert d + Repeat(' ', k) == d;
    }
  }

  /** The column loses nothing: every aligned counter reads back as itself. */
  lemma UnalignAlign(n: nat)
    ensures Unalign(Align(n)) == Some(n)
  {
    var digits := NatToString(n);
    var s := Align(n);
    assert s[1..] == digits + Repeat(' ', DigitField - |digits|);
    assert IsDigit(digits[|digits| - 1]);
    TrimRightPadding(digits, DigitField - |digits|);
    ParseNatToString(n);
  }

  /** Two counters share a column text only if they are equal. */
  lemma AlignInjective(m: nat, n: nat)
    ensures Align(m) == Align(n) <==> m == n
  {
    if Align(m) == Align(n) {
      UnalignAlign(m);
      UnalignAlign(n);
    }
  }

  /** Width of the column `align` produces for `n`: twelve, unless the digits alone need more. */
  function ColumnWidth(n: nat): (w: nat)
    ensures w >= 1 + DigitField
  {
    NatToStringLength(n, DigitField);
    if n < Pow10(DigitField) then 1 + DigitField else 1 + |NatToString(n)|
  }

  /** `s` is a column of the right width that reads back as `n`. */
  predicate IsColumnOf(s: string, n: nat) {
    Unalign(s) == Some(n) && |s| == ColumnWidth(n)
  }

  /** Whatever reads back as `n` is a space, the numeral of `n`, and spaces. */
  lemma UnalignShape(s: string, n: nat)
    requires Unalign(s) == Some(n)
    ensures |s| >= 1 + |NatToString(n)|
    ensures s == [' '] + NatToString(n) + Repeat(' ', |s| - 1 - |NatToString(n)|)
  {
    var body := TrimRight(s[1..]);
    NatToStringParse(body);
    var pad := Repeat(' ', |s| - 1 - |body|);
    assert s[1..] == body + pad;
    assert s == [' '] + s[1..];
  }

  /** A column of the right width that reads back as `n` is `align(n)` and nothing else. */
  lemma ColumnIsAlign(s: string, n: nat)
    ensures IsColumnOf(s, n) <==> s == Align(n)
  {
    NatToStringLength(n, DigitField);
    if IsColumnOf(s, n) {
      UnalignShape(s, n);
    } else if s == Align(n) {
      UnalignAlign(n);
    }
  }

  /** Suffix appended by `align_username` to a name of the given length. */
  function Decoration(len: nat): string
    requires len <= 10
  {
    if len <= 5 then "@github.com"
    else if len <= 7 then "@github"
    else "@git"
  }

  /**
    `align_username(user_name)`: short names get an e-mail-like suffix,
    names longer than 16 characters are cut to 17, the rest pass unchanged.
   */
  function AlignUsername(name: string): (r: string)
    ensures 11 <= |r| <= 17
    ensures |name| <= 17 ==> name <= r
    ensures |name| >= 17 ==> r == name[..17]
    ensures 11 <= |name| <= 17 <==> r == name
  {
    if |name| <= 5 then name + "@github.com"
    else if |name| <= 7 then name + "@github"
    else if |name| <= 10 then name + "@git"
    else if |name| > 16 then name[..17]
    else name
  }

  /** The three decorated bands, each with its own suffix. */
  lemma AlignUsernameDecorates(name: string)
    requires |name| <= 10
    ensures AlignUsername(name) == name + Decoration(|name|)
    ensures |name| <= 5 ==> AlignUsername(name)[|name|..] == "@github.com"
    ensures 6 <= |name| <= 7 ==> AlignUsername(name)[|name|..] == "@github"
    ensures 8 <= |name| ==> AlignUsername(name)[|name|..] == "@git"
  {
  }

  /** Applying the formatter twice is the same as applying it once. */
  lemma AlignUsernameIdempotent(name: string)
    ensures AlignUsername(AlignUsername(name)) == AlignUsername(name)
  {
  }

  /** The formatter's outputs are exactly the strings of length 11 to 17. */
  lemma AlignUsernameRange(s: string)
    ensures (exists name :: AlignUsername(name) == s) <==> 11 <= |s| <= 17
  {
    if 11 <= |s| <= 17 {
      assert AlignUsername(s) == s;
    }
  }

  /** Two different names can share one decorated form. */
  lemma AlignUsernameNotInjective()
    ensures AlignUsername("abcde") == AlignUsername("abcde@github.com")
  {
  }

  /** `align(7)`: a space, the digit, ten spaces. */
  lemma AlignSeven()
    ensures Align(7) == " 7          "
  {
    assert NatToString(7) == "7";
  }
}
