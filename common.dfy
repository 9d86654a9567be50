/** Shared vocabulary for the model: optional values, the values JavaScript code
    throws, and the handful of string operations the client uses (`String.prototype.trim`,
    `toLowerCase`, `includes`, `replace(/\D/g, '')`, number-to-decimal conversion). */
module Common {

  datatype Option<+T> = None | Some(value: T) {
    function GetOr(default: T): T {
      match this
      case Some(v) => v
      case None => default
    }
  }

  datatype Result<+R, +E> = Success(value: R) | Failure(error: E)

  /** What an observable can fail with. `typeof error === 'string'` holds exactly
      for `Text`; `ErrorObject` is an `Error` instance (`new Error(message)`);
      `HttpError` is an `HttpErrorResponse` that reached the caller unconverted. */
  datatype Thrown = Text(text: string) | ErrorObject(message: string) | HttpError(status: int)

  /** One `router.navigate(commands, extras)` call; `returnUrl` is the only
      query parameter the client ever passes. */
  datatype Navigation = Navigation(commands: seq<string>, returnUrl: Option<string>)

  /** The application router, reduced to the log of navigations it was asked
      to perform. */
  class Router {
    var navigations: seq<Navigation>

    constructor ()
      ensures navigations == []
    {
      navigations := [];
    }

    /** `router.navigate(...)`. */
    method Navigate(n: Navigation)
      modifies this
      ensures navigations == old(navigations) + [n]
    {
      navigations := navigations + [n];
    }
  }

  /** JavaScript truthiness of an optional string: present and non-empty. */
  predicate TruthyText(s: Option<string>) {
    s.Some? && s.value != ""
  }

  /** JavaScript truthiness of an optional number: present and non-zero. */
  predicate TruthyNumber(n: Option<int>) {
    n.Some? && n.value != 0
  }

  /** One `messageService.add({severity, summary, detail})` toast. */
  datatype Toast = Toast(severity: string, summary: string, detail: string)

  /** The toast service, reduced to the log of toasts it was asked to show. */
  class MessageService {
    var toasts: seq<Toast>

    constructor ()
      ensures toasts == []
    {
      toasts := [];
    }

    method Add(t: Toast)
      modifies this
      ensures toasts == old(toasts) + [t]
    {
      toasts := toasts + [t];
    }
  }

  // ---------------------------------------------------------------------------
  // String.prototype.slice with non-negative bounds

  /** `s.slice(a, b)`: both bounds are clamped to the length, and a window that
      ends before it starts is empty. */
  function Slice(s: string, a: nat, b: nat): (r: string)
    ensures a <= |s| && a <= b <= |s| ==> r == s[a..b]
    ensures a <= |s| < b ==> r == s[a..]
    ensures b <= a ==> r == []
    ensures |s| < a ==> r == []
    ensures |r| <= |s|
  {
    var lo := if a <= |s| then a else |s|;
    var hi := if b <= |s| then b else |s|;
    if lo <= hi then s[lo..hi] else []
  }

  // ---------------------------------------------------------------------------
  // Digits: the regular expression class \d and the filter replace(/\D/g, '')

  predicate IsDigit(c: char) {
    '0' <= c <= '9'
  }

  predicate AllDigits(s: string) {
    forall i :: 0 <= i < |s| ==> IsDigit(s[i])
  }

  /** `s.replace(/\D/g, '')`: the digits of `s`, in order. */
  function Digits(s: string): (r: string)
    ensures AllDigits(r)
    ensures |r| <= |s|
  {
    if s == [] then []
    else if IsDigit(s[0]) then [s[0]] + Digits(s[1..])
    else Digits(s[1..])
  }

  lemma {:induction false} DigitsAppend(a: string, b: string)
    ensures Digits(a + b) == Digits(a) + Digits(b)
  {
    if a == [] {
      assert a + b == b;
    } else {
      assert (a + b)[1..] == a[1..] + b;
      DigitsAppend(a[1..], b);
    }
  }

  lemma {:induction false} DigitsOfDigits(s: string)
    requires AllDigits(s)
    ensures Digits(s) == s
  {
    if s != [] {
      DigitsOfDigits(s[1..]);
    }
  }

  lemma {:induction false} DigitsOfNonDigits(s: string)
    requires forall i :: 0 <= i < |s| ==> !IsDigit(s[i])
    ensures Digits(s) == []
  {
    if s != [] {
      DigitsOfNonDigits(s[1..]);
    }
  }

  /** `Digits` is idempotent: filtering twice is filtering once. */
  lemma DigitsIdempotent(s: string)
    ensures Digits(Digits(s)) == Digits(s)
  {
    DigitsOfDigits(Digits(s));
  }

  // ---------------------------------------------------------------------------
  // Whitespace and String.prototype.trim

  /** The characters ECMAScript counts as WhiteSpace or LineTerminator, which is
      what `trim` removes from both ends. */
  predicate IsJsSpace(c: char) {
    c == '\t' || c == '\n' || c == '\U{000B}' || c == '\U{000C}' || c == '\r' || c == ' '
    || c == '\U{00A0}' || c == '\U{1680}' || ('\U{2000}' <= c <= '\U{200A}')
    || c == '\U{2028}' || c == '\U{2029}' || c == '\U{202F}' || c == '\U{205F}'
    || c == '\U{3000}' || c == '\U{FEFF}'
  }

  function TrimStart(s: string): (r: string)
    ensures |r| <= |s| && r == s[|s| - |r|..]
    ensures r == [] || !IsJsSpace(r[0])
  {
    if s != [] && IsJsSpace(s[0]) then TrimStart(s[1..]) else s
  }

  function TrimEnd(s: string): (r: string)
    ensures |r| <= |s| && r == s[..|r|]
    ensures r == [] || !IsJsSpace(r[|r| - 1])
  {
    if s != [] && IsJsSpace(s[|s| - 1]) then TrimEnd(s[..|s| - 1]) else s
  }

  /** `trimStart` removes white space only. */
  lemma {:induction false} TrimStartSkipsSpaces(s: string)
    ensures forall i :: 0 <= i < |s| - |TrimStart(s)| ==> IsJsSpace(s[i])
    decreases |s|
  {
    if s != [] && IsJsSpace(s[0]) {
      TrimStartSkipsSpaces(s[1..]);
      forall i | 0 < i < |s| - |TrimStart(s)|
        ensures IsJsSpace(s[i])
      {
        assert s[i] == s[1..][i - 1];
      }
    }
  }

  /** `trimEnd` removes white space only. */
  lemma {:induction false} TrimEndSkipsSpaces(s: string)
    ensures forall i :: |TrimEnd(s)| <= i < |s| ==> IsJsSpace(s[i])
    decreases |s|
  {
    if s != [] && IsJsSpace(s[|s| - 1]) {
      TrimEndSkipsSpaces(s[..|s| - 1]);
      forall i | |TrimEnd(s)| <= i < |s| - 1
        ensures IsJsSpace(s[i])
      {
        assert s[i] == s[..|s| - 1][i];
      }
    }
  }

  /** `trimStart` stops before a last character that is not white space. */
  lemma {:induction false} TrimStartKeepsVisibleEnd(s: string)
    requires s != [] && !IsJsSpace(s[|s| - 1])
    ensures TrimStart(s) != []
    decreases |s|
  {
    if |s| > 1 && IsJsSpace(s[0]) {
      assert s[1..][|s| - 2] == s[|s| - 1];
      TrimStartKeepsVisibleEnd(s[1..]);
    }
  }

  /** `s.trim()`. */
  function Trim(s: string): (r: string)
    ensures |r| <= |s|
    ensures r == [] || (!IsJsSpace(r[0]) && !IsJsSpace(r[|r| - 1]))
  {
    TrimEnd(TrimStart(s))
  }

  /** `trim` removes white space from the two ends and nothing else: the
      result is a window of `s` with only white space outside it. */
  lemma TrimRemovesOnlyEdgeSpaces(s: string)
    ensures var k := |s| - |TrimStart(s)|; var r := Trim(s);
      && k + |r| <= |s|
      && r == s[k..k + |r|]
      && (forall i :: 0 <= i < k ==> IsJsSpace(s[i]))
      && (forall i :: k + |r| <= i < |s| ==> IsJsSpace(s[i]))
  {
    TrimStartSkipsSpaces(s);
    TrimWindow(s);
    TrimTrailingSpaces(s);
  }

  lemma TrimWindow(s: string)
    ensures var k := |s| - |TrimStart(s)|; var r := Trim(s);
      k + |r| <= |s| && r == s[k..k + |r|]
  {
    SuffixPrefix(s, TrimStart(s), Trim(s));
  }

  /** A prefix of a suffix of `s` is a window of `s`. */
  lemma SuffixPrefix(s: string, t: string, r: string)
    requires |t| <= |s| && t == s[|s| - |t|..]
    requires |r| <= |t| && r == t[..|r|]
    ensures var k := |s| - |t|; k + |r| <= |s| && r == s[k..k + |r|]
  {
    assert s[|s| - |t|..][..|r|] == s[|s| - |t|..|s| - |t| + |r|];
  }

  lemma TrimTrailingSpaces(s: string)
    ensures var k := |s| - |TrimStart(s)|;
      forall i :: k + |Trim(s)| <= i < |s| ==> IsJsSpace(s[i])
  {
    var t := TrimStart(s);
    var r := TrimEnd(t);
    var k := |s| - |t|;
    TrimEndSkipsSpaces(t);
    forall i | k + |r| <= i < |s|
      ensures IsJsSpace(s[i])
    {
      assert s[i] == t[i - k];
    }
  }

  /** Trimming keeps a string that has no space at either end. */
  lemma TrimKeepsTrimmed(s: string)
    requires s == [] || (!IsJsSpace(s[0]) && !IsJsSpace(s[|s| - 1]))
    ensures Trim(s) == s
  {
  }

  /** `typeof x === 'string' && x.trim().length > 0` for a thrown value. */
  predicate IsNonBlankText(e: Thrown) {
    e.Text? && Trim(e.text) != ""
  }

  /** The detail the pages show for a failed call: the error itself when it is
      a non-blank string, else the page's own fallback. */
  function ErrorDetail(e: Thrown, fallback: string): (r: string)
    ensures IsNonBlankText(e) ==> r == e.text
    ensures !IsNonBlankText(e) ==> r == fallback
    ensures Trim(fallback) != "" ==> Trim(r) != ""
  {
    if IsNonBlankText(e) then e.text else fallback
  }

  /** A string that ends with a visible character does not trim to "". */
  lemma VisibleEndNotBlank(s: string)
    requires s != [] && !IsJsSpace(s[|s| - 1])
    ensures Trim(s) != ""
  {
    TrimStartKeepsVisibleEnd(s);
    var t := TrimStart(s);
    assert t[|t| - 1] == s[|s| - 1];
  }

  /** Trimming is idempotent. */
  lemma TrimIdempotent(s: string)
    ensures Trim(Trim(s)) == Trim(s)
  {
    TrimKeepsTrimmed(Trim(s));
  }

  // ---------------------------------------------------------------------------
  // Case folding (toLowerCase) and substring search (includes)

  /** Lower-case mapping of one character: ASCII letters and the upper-case
      letters of Latin-1 (U+00C0..U+00DE except U+00D7), which covers Portuguese. */
  function LowerChar(c: char): (r: char)
    ensures ('A' <= c <= 'Z') ==> r == (c as int + 32) as char
    ensures !('A' <= c <= 'Z') && !('\U{00C0}' <= c <= '\U{00DE}') ==> r == c
  {
    if 'A' <= c <= 'Z' then (c as int + 32) as char
    else if '\U{00C0}' <= c <= '\U{00DE}' && c != '\U{00D7}' then (c as int + 32) as char
    else c
  }

  function ToLower(s: string): (r: string)
    ensures |r| == |s|
    ensures forall i :: 0 <= i < |s| ==> r[i] == LowerChar(s[i])
  {
    if s == [] then [] else ToLower(s[..|s| - 1]) + [LowerChar(s[|s| - 1])]
  }

  /** Lower-casing works character by character. */
  lemma ToLowerAppend(a: string, b: string)
    ensures ToLower(a + b) == ToLower(a) + ToLower(b)
  {
    var l, r := ToLower(a + b), ToLower(a) + ToLower(b);
    assert forall i :: 0 <= i < |l| ==> l[i] == r[i];
  }

  /** `s.includes(t)`. */
  function Contains(s: string, t: string): bool
    decreases |s|
  {
    if |t| > |s| then false
    else if s[..|t|] == t then true
    else s != [] && Contains(s[1..], t)
  }

  /** A string contains each of its prefixes. */
  lemma ContainsPrefix(s: string, t: string)
    requires |t| <= |s| && s[..|t|] == t
    ensures Contains(s, t)
  {
  }

  /** Lower-casing `head + tail` keeps the lower-cased `head` at the front. */
  lemma LoweredContainsLoweredHead(head: string, tail: string)
    ensures Contains(ToLower(head + tail), ToLower(head))
  {
    ToLowerAppend(head, tail);
    ContainsPrefix(ToLower(head + tail), ToLower(head));
  }

  /** `t` occurs in `s` starting at index `i`. */
  predicate OccursAt(s: string, t: string, i: int) {
    0 <= i && i + |t| <= |s| && s[i..i + |t|] == t
  }

  /** `Contains` is substring occurrence, in both directions. */
  lemma {:induction false} ContainsIff(s: string, t: string)
    ensures Contains(s, t) <==> exists i :: OccursAt(s, t, i)
    decreases |s|
  {
    if |t| > |s| {
    } else if s[..|t|] == t {
      assert OccursAt(s, t, 0);
    } else {
      ContainsIff(s[1..], t);
      if Contains(s, t) {
        var i :| OccursAt(s[1..], t, i);
        assert s[i + 1..i + 1 + |t|] == s[1..][i..i + |t|];
        assert OccursAt(s, t, i + 1);
      } else {
        forall i | OccursAt(s, t, i) && i > 0
          ensures OccursAt(s[1..], t, i - 1)
        {
          var a, b := s[1..][i - 1..i - 1 + |t|], s[i..i + |t|];
          forall j | 0 <= j < |t|
            ensures a[j] == b[j]
          {
          }
          assert a == b;
        }
      }
    }
  }

  // ---------------------------------------------------------------------------
  // Decimal numerals: template literals `${n}`, String(n) and Number(digits)

  function DigitChar(d: nat): (c: char)
    requires d < 10
    ensures IsDigit(c)
  {
    ('0' as int + d) as char
  }

  function DigitValue(c: char): (d: nat)
    requires IsDigit(c)
    ensures d < 10
  {
    c as int - '0' as int
  }

  /** The shortest decimal numeral of `n` (what JavaScript prints for a
      non-negative integer). */
  function NatToDecimal(n: nat): (r: string)
    ensures r != [] && AllDigits(r)
    ensures |r| > 1 ==> r[0] != '0'
  {
    if n < 10 then [DigitChar(n)] else NatToDecimal(n / 10) + [DigitChar(n % 10)]
  }

  /** The decimal numeral of an integer, with a leading '-' when negative. */
  function IntToDecimal(n: int): (r: string)
    ensures r != []
  {
    if n < 0 then "-" + NatToDecimal(-n) else NatToDecimal(n)
  }

  /** `Number(digits)` for a string made of digits only. */
  function DecimalValue(s: string): nat
    requires AllDigits(s)
  {
    if s == [] then 0 else DecimalValue(s[..|s| - 1]) * 10 + DigitValue(s[|s| - 1])
  }

  lemma {:induction false} DecimalRoundTrip(n: nat)
    ensures DecimalValue(NatToDecimal(n)) == n
  {
    if n >= 10 {
      var p := NatToDecimal(n / 10);
      var r := p + [DigitChar(n % 10)];
      assert r[..|r| - 1] == p;
      DecimalRoundTrip(n / 10);
    }
  }

  /** `k` zero digits. */
  function Zeros(k: nat): (z: string)
    ensures |z| == k && AllDigits(z)
    ensures forall i :: 0 <= i < k ==> z[i] == '0'
  {
    seq(k, _ => '0')
  }

  /** `s.padStart(k, '0')`. */
  function PadZeros(s: string, k: nat): (r: string)
    ensures |s| >= k ==> r == s
    ensures |s| < k ==> r == Zeros(k - |s|) + s
  {
    if |s| >= k then s else Zeros(k - |s|) + s
  }

  /** A digit string is its own number printed back and padded to its
      length: `Number(d)` loses only leading zeros. */
  lemma {:induction false} PadNumeral(d: string)
    requires AllDigits(d) && d != []
    ensures |NatToDecimal(DecimalValue(d))| <= |d|
    ensures PadZeros(NatToDecimal(DecimalValue(d)), |d|) == d
    decreases |d|
  {
    var p, c := d[..|d| - 1], d[|d| - 1];
    assert d == p + [c];
    var n := DecimalValue(d);
    assert n == DecimalValue(p) * 10 + DigitValue(c);
    assert DigitChar(DigitValue(c)) == c;
    if p == [] {
      assert NatToDecimal(n) == [c];
    } else {
      PadNumeral(p);
      var x := NatToDecimal(DecimalValue(p));
      assert n / 10 == DecimalValue(p) && n % 10 == DigitValue(c);
      if n >= 10 {
        assert NatToDecimal(n) == x + [c];
        if |x| < |p| {
          assert Zeros(|d| - |x + [c]|) == Zeros(|p| - |x|);
          assert PadZeros(x + [c], |d|) == Zeros(|p| - |x|) + x + [c];
        }
      } else {
        assert DecimalValue(p) == 0;
        assert x == "0";
        assert p == Zeros(|p|) by {
          if |p| > 1 {
            assert p == Zeros(|p| - 1) + "0";
          }
        }
        assert NatToDecimal(n) == [c];
        assert PadZeros([c], |d|) == Zeros(|p|) + [c];
      }
    }
  }

  /** Reading an integer numeral back, the inverse of `IntToDecimal`. */
  function ParseInt(s: string): (r: Option<int>)
    ensures r.Some? && s != [] && s[0] != '-' ==> r.value >= 0
  {
    if s != [] && s[0] == '-' && s[1..] != [] && AllDigits(s[1..]) then Some(0 - DecimalValue(s[1..]) as int)
    else if s != [] && AllDigits(s) then Some(DecimalValue(s))
    else None
  }

  lemma IntDecimalRoundTrip(n: int)
    ensures ParseInt(IntToDecimal(n)) == Some(n)
  {
    var s := IntToDecimal(n);
    if n < 0 {
      var d := NatToDecimal(-n);
      assert s[0] == '-' && s[1..] == d by {
        assert s == "-" + d;
      }
      DecimalRoundTrip(-n);
    } else {
      var d := NatToDecimal(n);
      assert s == d && IsDigit(d[0]);
      DecimalRoundTrip(n);
    }
  }

  /** Distinct integers print differently. */
  lemma IntToDecimalInjective(a: int, b: int)
    requires IntToDecimal(a) == IntToDecimal(b)
    ensures a == b
  {
    IntDecimalRoundTrip(a);
    IntDecimalRoundTrip(b);
  }
}
