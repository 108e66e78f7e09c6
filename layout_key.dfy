/** The cache key under which a gesture detector is kept for one keyboard layout:
    the keyboard id, its minimum width and its height, printed as "%s,%d,%d". */
module LayoutKey {
  import opened Wrappers

  /** The three properties of a keyboard that select its gesture detector. */
  datatype Keyboard = Keyboard(keyboardId: string, minWidth: int, height: int)

  predicate IsDigit(c: char) {
    '0' <= c <= '9'
  }

  function DigitChar(d: nat): (c: char)
    requires d < 10
    ensures IsDigit(c) && c as int - '0' as int == d
  {
    ('0' as int + d) as char
  }

  /** Decimal digits of `n`, most significant first, without leading zeros. */
  function NatToDecimal(n: nat): (s: string)
    ensures |s| > 0 && forall i :: 0 <= i < |s| ==> IsDigit(s[i])
  {
    if n < 10 then [DigitChar(n)] else NatToDecimal(n / 10) + [DigitChar(n % 10)]
  }

  /** `%d` under Locale.US: an optional minus sign, then ASCII digits, no grouping. */
  function IntToDecimal(n: int): (s: string) {
    if n < 0 then "-" + NatToDecimal(-n) else NatToDecimal(n)
  }

  /** The cache key of a keyboard, as getKeyForDetector formats it; it reads back
      as the keyboard it was made from. */
  function KeyForDetector(keyboard: Keyboard): (key: string)
    ensures ParseKey(key) == Some(keyboard)
  {
    FormattedKeyParses(keyboard);
    Formatted(keyboard)
  }

  /** "%s,%d,%d" applied to the id, the minimum width and the height. */
  function Formatted(keyboard: Keyboard): string {
    keyboard.keyboardId + "," + IntToDecimal(keyboard.minWidth) + "," + IntToDecimal(keyboard.height)
  }

  // ---------------------------------------------------------------------------
  // Reading a key back. Nothing in the keyboard reads keys; the parser exists to
  // show that the key determines the keyboard it was made from.

  function ParseNat(s: string): (r: Option<nat>) {
    if |s| == 0 || !IsDigit(s[|s| - 1]) then None
    else
      var last := s[|s| - 1] as int - '0' as int;
      if |s| == 1 then Some(last)
      else match ParseNat(s[..|s| - 1])
        case None => None
        case Some(v) => Some(v * 10 + last)
  }

  function ParseInt(s: string): (r: Option<int>) {
    if |s| > 0 && s[0] == '-' then
      match ParseNat(s[1..])
      case None => None
      case Some(v) => Some(0 - v as int)
    else
      match ParseNat(s)
      case None => None
      case Some(v) => Some(v as int)
  }

  /** Splits `s` around its last occurrence of `sep`. */
  function SplitAtLast(s: string, sep: char): (r: Option<(string, string)>) {
    if |s| == 0 then None
    else if s[|s| - 1] == sep then Some((s[..|s| - 1], ""))
    else match SplitAtLast(s[..|s| - 1], sep)
      case None => None
      case Some((front, back)) => Some((front, back + [s[|s| - 1]]))
  }

  /** The keyboard a key names: the two numbers are read from the right, so the
      keyboard id may itself contain commas. */
  function ParseKey(key: string): (r: Option<Keyboard>) {
    match SplitAtLast(key, ',')
    case None => None
    case Some((rest, heightText)) =>
      match SplitAtLast(rest, ',')
      case None => None
      case Some((id, widthText)) =>
        match (ParseInt(widthText), ParseInt(heightText))
        case (Some(w), Some(h)) => Some(Keyboard(id, w, h))
        case _ => None
  }

  lemma {:induction false} NatRoundTrip(n: nat)
    ensures ParseNat(NatToDecimal(n)) == Some(n)
  {
    if n >= 10 {
      var s := NatToDecimal(n);
      NatRoundTrip(n / 10);
      assert s[..|s| - 1] == NatToDecimal(n / 10);
    }
  }

  lemma IntRoundTrip(n: int)
    ensures ParseInt(IntToDecimal(n)) == Some(n)
  {
    NatRoundTrip(if n < 0 then -n else n);
    if n < 0 {
      assert IntToDecimal(n)[1..] == NatToDecimal(-n);
    } else {
      assert IsDigit(IntToDecimal(n)[0]);
    }
  }

  lemma {:induction false} SplitAtLastOf(front: string, sep: char, back: string)
    requires forall i :: 0 <= i < |back| ==> back[i] != sep
    ensures SplitAtLast(front + [sep] + back, sep) == Some((front, back))
  {
    var s := front + [sep] + back;
    if |back| == 0 {
      assert s[..|s| - 1] == front;
    } else {
      var shorter := back[..|back| - 1];
      SplitAtLastOf(front, sep, shorter);
      assert s[..|s| - 1] == front + [sep] + shorter;
      assert shorter + [back[|back| - 1]] == back;
    }
  }

  lemma NoCommaInDecimal(n: int)
    ensures forall i :: 0 <= i < |IntToDecimal(n)| ==> IntToDecimal(n)[i] != ','
  {
    var s := IntToDecimal(n);
    if n < 0 {
      forall i | 0 <= i < |s| ensures s[i] != ',' {
        if i > 0 { assert s[i] == NatToDecimal(-n)[i - 1]; }
      }
    }
  }

  /** The two numbers of a formatted key are read back from the right. */
  lemma FormattedKeyParses(keyboard: Keyboard)
    ensures ParseKey(Formatted(keyboard)) == Some(keyboard)
  {
    var id, w, h := keyboard.keyboardId, IntToDecimal(keyboard.minWidth), IntToDecimal(keyboard.height);
    NoCommaInDecimal(keyboard.minWidth);
    NoCommaInDecimal(keyboard.height);
    assert Formatted(keyboard) == (id + [','] + w) + [','] + h;
    SplitAtLastOf(id + [','] + w, ',', h);
    SplitAtLastOf(id, ',', w);
    IntRoundTrip(keyboard.minWidth);
    IntRoundTrip(keyboard.height);
  }

  /** Two keyboards share a detector only when id, minimum width and height all agree. */
  lemma KeyForDetectorInjective(a: Keyboard, b: Keyboard)
    ensures KeyForDetector(a) == KeyForDetector(b) <==> a == b
  {
  }
}
