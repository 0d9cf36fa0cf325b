/**
 * The budget field: an empty field means no limit (99999); anything else
 * must be a base-10 integer literal as Python's `int(text)` accepts it,
 * otherwise the request is rejected as an input error.
 */
module Budget {
  import opened Optional

  /** The budget used when the field is left empty. */
  const NoLimit: int := 99999

  /** The most digits `int()` converts from text (CPython's default `int_max_str_digits`). */
  const MaxStrDigits: nat := 4300

  predicate IsDigit(c: char)
  {
    '0' <= c <= '9'
  }

  /**
   * The whitespace `int()` skips around the literal: the ASCII space, tab,
   * line feed, vertical tab, form feed and carriage return, and every
   * character from U+0080 up that `str.isspace` accepts (those are turned
   * into spaces before the literal is read). The ASCII separators
   * U+001C..U+001F pass `str.isspace` but are kept as they are, so they are
   * not whitespace here.
   */
  predicate IsSpace(c: char)
  {
    || c == ' ' || '\t' <= c <= '\r'
    || c == '\U{85}' || c == '\U{A0}' || c == '\U{1680}' || '\U{2000}' <= c <= '\U{200A}'
    || c == '\U{2028}' || c == '\U{2029}' || c == '\U{202F}' || c == '\U{205F}' || c == '\U{3000}'
  }

  /** Drops leading whitespace. */
  function StripStart(s: string): (r: string)
    ensures |r| <= |s| && r == s[|s| - |r|..]
    ensures r == [] || !IsSpace(r[0])
  {
    if s != [] && IsSpace(s[0]) then StripStart(s[1..]) else s
  }

  /** Drops trailing whitespace. */
  function StripEnd(s: string): (r: string)
    ensures |r| <= |s| && r == s[..|r|]
    ensures r == [] || !IsSpace(r[|r| - 1])
  {
    if s != [] && IsSpace(s[|s| - 1]) then StripEnd(s[..|s| - 1]) else s
  }

  /** What `StripStart` drops is whitespace. */
  lemma {:induction false} StripStartDropsSpace(s: string)
    ensures forall i :: 0 <= i < |s| - |StripStart(s)| ==> IsSpace(s[i])
  {
    if s != [] && IsSpace(s[0]) {
      StripStartDropsSpace(s[1..]);
      forall i | 1 <= i < |s| - |StripStart(s)| ensures IsSpace(s[i]) {
        assert s[i] == s[1..][i - 1];
      }
    }
  }

  /** What `StripEnd` drops is whitespace. */
  lemma {:induction false} StripEndDropsSpace(s: string)
    ensures forall i :: |StripEnd(s)| <= i < |s| ==> IsSpace(s[i])
  {
    if s != [] && IsSpace(s[|s| - 1]) {
      StripEndDropsSpace(s[..|s| - 1]);
    }
  }

  /** `s.strip()`. */
  function Strip(s: string): string
  {
    StripEnd(StripStart(s))
  }

  /** A character that is not whitespace survives `strip`; `j` is where. */
  lemma StripKeeps(s: string, k: nat) returns (j: nat)
    requires k < |s| && !IsSpace(s[k])
    ensures j < |Strip(s)| && Strip(s)[j] == s[k]
  {
    var a := StripStart(s);
    StripStartDropsSpace(s);
    j := k - (|s| - |a|);
    assert a[j] == s[k];
    StripEndDropsSpace(a);
  }

  /**
   * A run of digits in which single underscores may separate two digits:
   * only digits and underscores, a digit at both ends, and a digit before
   * every underscore.
   */
  predicate WellFormedDigits(b: string)
  {
    && |b| > 0 && IsDigit(b[0]) && IsDigit(b[|b| - 1])
    && (forall i :: 0 <= i < |b| ==> IsDigit(b[i]) || b[i] == '_')
    && (forall i :: 0 < i < |b| && b[i] == '_' ==> IsDigit(b[i - 1]))
  }

  function DigitValue(c: char): int
  {
    c as int - '0' as int
  }

  /** The value of a digit run, underscores skipped. */
  function DigitsValue(b: string): nat
  {
    if b == [] then 0
    else if IsDigit(b[|b| - 1]) then DigitsValue(b[..|b| - 1]) * 10 + DigitValue(b[|b| - 1])
    else DigitsValue(b[..|b| - 1])
  }

  /** The number of digits in a run, underscores not counted. */
  function DigitCount(b: string): nat
  {
    if b == [] then 0 else DigitCount(b[..|b| - 1]) + (if IsDigit(b[|b| - 1]) then 1 else 0)
  }

  /** Splits an optional leading sign off the text: whether it was `-`, and the rest. */
  function SplitSign(t: string): (bool, string)
  {
    if |t| > 0 && (t[0] == '-' || t[0] == '+') then (t[0] == '-', t[1..]) else (false, t)
  }

  /** `int(s)`: `None` stands for the ValueError it raises. */
  function ParseInt(s: string): Option<int>
  {
    var (negative, body) := SplitSign(Strip(s));
    var v: int := DigitsValue(body);
    if WellFormedDigits(body) && DigitCount(body) <= MaxStrDigits then
      Some(if negative then -v else v)
    else None
  }

  /** `int(budget_text) if budget_text else 99999`. */
  function ParseBudget(text: string): Option<int>
  {
    if text == "" then Some(NoLimit) else ParseInt(text)
  }

  /** The decimal digits of a natural number, most significant first. */
  function NatDigits(n: nat): (r: string)
    ensures |r| > 0
    decreases n
  {
    if n < 10 then [('0' as int + n) as char]
    else NatDigits(n / 10) + [('0' as int + n % 10) as char]
  }

  function Abs(n: int): nat
  {
    if n < 0 then -n else n
  }

  /** `str(n)`. */
  function IntText(n: int): string
  {
    if n < 0 then "-" + NatDigits(-n) else NatDigits(n)
  }

  /** `str(n)` of a natural number is all digits, well formed, and reads back as `n`. */
  lemma {:induction false} NatDigitsReadBack(n: nat)
    ensures forall i :: 0 <= i < |NatDigits(n)| ==> IsDigit(NatDigits(n)[i])
    ensures WellFormedDigits(NatDigits(n))
    ensures DigitsValue(NatDigits(n)) == n
    ensures DigitCount(NatDigits(n)) == |NatDigits(n)|
  {
    var d := NatDigits(n);
    if n >= 10 {
      NatDigitsReadBack(n / 10);
      assert d[..|d| - 1] == NatDigits(n / 10);
    }
  }

  /** Text that neither starts nor ends with whitespace is left as it is by `strip`. */
  lemma NoSpaceNoStrip(s: string)
    requires s == [] || (!IsSpace(s[0]) && !IsSpace(s[|s| - 1]))
    ensures Strip(s) == s
  {
    assert StripStart(s) == s;
  }

  /** `str(n)` is made of digits and the minus sign only. */
  lemma IntTextCharacters(n: int)
    ensures forall i :: 0 <= i < |IntText(n)| ==> IsDigit(IntText(n)[i]) || IntText(n)[i] == '-'
  {
    var d := NatDigits(Abs(n));
    NatDigitsReadBack(Abs(n));
    if n < 0 {
      var t := IntText(n);
      assert t == "-" + d;
      forall i | 0 <= i < |t| ensures IsDigit(t[i]) || t[i] == '-' {
        if i > 0 { assert t[i] == d[i - 1]; }
      }
    }
  }

  lemma IntTextEnds(n: int)
    ensures !IsSpace(IntText(n)[0]) && !IsSpace(IntText(n)[|IntText(n)| - 1])
  {
    var t := IntText(n);
    IntTextCharacters(n);
    assert IsDigit(t[0]) || t[0] == '-';
    assert IsDigit(t[|t| - 1]) || t[|t| - 1] == '-';
  }

  lemma IntTextStrip(n: int)
    ensures Strip(IntText(n)) == IntText(n)
  {
    IntTextEnds(n);
    NoSpaceNoStrip(IntText(n));
  }

  lemma IntTextSign(n: int)
    ensures SplitSign(IntText(n)) == (n < 0, NatDigits(Abs(n)))
  {
    var d := NatDigits(Abs(n));
    var t := IntText(n);
    if n < 0 {
      assert t[1..] == d;
    } else {
      NatDigitsReadBack(Abs(n));
      assert IsDigit(t[0]);
    }
  }

  lemma IntTextParts(n: int)
    ensures Strip(IntText(n)) == IntText(n)
    ensures SplitSign(IntText(n)) == (n < 0, NatDigits(Abs(n)))
  {
    IntTextStrip(n);
    IntTextSign(n);
  }

  /** Every integer, written out by `str`, is read back by the budget field (within the digit limit). */
  lemma BudgetRoundTrip(n: int)
    requires |NatDigits(Abs(n))| <= MaxStrDigits
    ensures ParseBudget(IntText(n)) == Some(n)
  {
    IntTextParts(n);
    NatDigitsReadBack(Abs(n));
  }

  /** Leading whitespace before a non-blank start is dropped. */
  lemma {:induction false} StripStartPadding(a: string, t: string)
    requires forall i :: 0 <= i < |a| ==> IsSpace(a[i])
    requires t != [] && !IsSpace(t[0])
    ensures StripStart(a + t) == t
  {
    if a == [] {
      assert a + t == t;
    } else {
      assert (a + t)[1..] == a[1..] + t;
      StripStartPadding(a[1..], t);
    }
  }

  /** Trailing whitespace after a non-blank end is dropped. */
  lemma {:induction false} StripEndPadding(t: string, b: string)
    requires forall i :: 0 <= i < |b| ==> IsSpace(b[i])
    requires t != [] && !IsSpace(t[|t| - 1])
    ensures StripEnd(t + b) == t
  {
    if b == [] {
      assert t + b == t;
    } else {
      assert (t + b)[..|t + b| - 1] == t + b[..|b| - 1];
      StripEndPadding(t, b[..|b| - 1]);
    }
  }

  /** Whitespace around the text is ignored. */
  lemma PaddedBudget(a: string, n: int, b: string)
    requires forall i :: 0 <= i < |a| ==> IsSpace(a[i])
    requires forall i :: 0 <= i < |b| ==> IsSpace(b[i])
    requires |NatDigits(Abs(n))| <= MaxStrDigits
    ensures ParseBudget(a + IntText(n) + b) == Some(n)
  {
    var t := IntText(n);
    IntTextParts(n);
    IntTextCharacters(n);
    NatDigitsReadBack(Abs(n));
    assert t != [] && !IsSpace(t[0]) && !IsSpace(t[|t| - 1]);
    assert a + t + b == a + (t + b);
    StripEndPadding(t, b);
    assert t + b != [] && (t + b)[0] == t[0];
    StripStartPadding(a, t + b);
  }

  lemma StrayDigit(b: string, i: nat)
    requires i < |b| && !IsDigit(b[i]) && b[i] != '_'
    ensures !WellFormedDigits(b)
  {
  }

  /**
   * A character that is neither a digit, an underscore, a sign nor
   * whitespace makes the budget text invalid.
   */
  lemma StrayCharacterRejected(s: string, k: nat)
    requires k < |s|
    requires !IsDigit(s[k]) && s[k] != '_' && s[k] != '-' && s[k] != '+' && !IsSpace(s[k])
    ensures ParseBudget(s) == None
  {
    var j := StripKeeps(s, k);
    var t := Strip(s);
    var body := SplitSign(t).1;
    if |t| > 0 && (t[0] == '-' || t[0] == '+') {
      assert body[j - 1] == s[k];
      StrayDigit(body, j - 1);
    } else {
      StrayDigit(body, j);
    }
  }

  /** Text made only of whitespace is not empty, so it is parsed, and rejected. */
  lemma BlankBudgetRejected(s: string)
    requires s != []
    requires forall i :: 0 <= i < |s| ==> IsSpace(s[i])
    ensures ParseBudget(s) == None
  {
  }

  lemma EmptyBudgetIsNoLimit()
    ensures ParseBudget("") == Some(99999)
  {
  }

  /** A file separator in front of the digits is not skipped: "\x1c5" is rejected. */
  lemma SeparatorNotSkipped()
    ensures ParseBudget("\U{1C}5") == None
  {
    StrayCharacterRejected("\U{1C}5", 0);
  }

  lemma LettersRejected()
    ensures ParseBudget("abc") == None
  {
    StrayCharacterRejected("abc", 0);
  }
}
