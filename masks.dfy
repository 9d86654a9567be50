/** The two input masks (shared/forms): on every keystroke the field's text
    is reduced to its digits and re-punctuated, and the result is written
    back to the input element and to the bound form control. */
module Masks {
  import opened Common

  /** Digits survive separators: a punctuation character between two pieces
      contributes nothing to the digit string. */
  lemma DigitsAround(a: string, c: char, b: string)
    requires !IsDigit(c)
    ensures Digits(a + [c] + b) == Digits(a) + Digits(b)
  {
    DigitsAppend(a + [c], b);
    DigitsAppend(a, [c]);
    assert Digits([c]) == Digits([c][1..]) == [];
  }

  // ---------------------------------------------------------------------------
  // CPF: ddd.ddd.ddd-dd

  /** The punctuated form of at most eleven digits, by the digit count. */
  function CpfShape(d: string): (r: string)
    requires AllDigits(d) && |d| <= 11
    ensures Digits(r) == d
    ensures |r| <= 14
    ensures |d| <= 3 ==> r == d
    ensures 3 < |d| <= 6 ==> r == d[..3] + "." + d[3..]
    ensures 6 < |d| <= 9 ==> r == d[..3] + "." + d[3..6] + "." + d[6..]
    ensures 9 < |d| ==> r == d[..3] + "." + d[3..6] + "." + d[6..9] + "-" + d[9..]
  {
    var part1, part2, part3, part4 := Slice(d, 0, 3), Slice(d, 3, 6), Slice(d, 6, 9), Slice(d, 9, 11);
    DigitsOfDigits(d);
    if |d| > 9 then
      assert part1 == d[..3] && part2 == d[3..6] && part3 == d[6..9] && part4 == d[9..];
      assert d == part1 + part2 + part3 + part4;
      DigitsOfDigits(part1); DigitsOfDigits(part2); DigitsOfDigits(part3); DigitsOfDigits(part4);
      DigitsAround(part1, '.', part2);
      DigitsAround(part1 + "." + part2, '.', part3);
      DigitsAround(part1 + "." + part2 + "." + part3, '-', part4);
      part1 + "." + part2 + "." + part3 + "-" + part4
    else if |d| > 6 then
      assert part1 == d[..3] && part2 == d[3..6] && part3 == d[6..];
      assert d == part1 + part2 + part3;
      DigitsOfDigits(part1); DigitsOfDigits(part2); DigitsOfDigits(part3);
      DigitsAround(part1, '.', part2);
      DigitsAround(part1 + "." + part2, '.', part3);
      part1 + "." + part2 + "." + part3
    else if |d| > 3 then
      assert part1 == d[..3] && part2 == d[3..];
      assert d == part1 + part2;
      DigitsOfDigits(part1); DigitsOfDigits(part2);
      DigitsAround(part1, '.', part2);
      part1 + "." + part2
    else
      assert part1 == d[0..] == d;
      part1
  }

  /** The text the CPF mask leaves in the field: the first eleven digits,
      punctuated. */
  function FormatCpf(value: string): (r: string)
    ensures Digits(r) == Slice(Digits(value), 0, 11)
    ensures |r| <= 14
    ensures |Digits(value)| <= 3 ==> r == Digits(value)
  {
    CpfShape(Slice(Digits(value), 0, 11))
  }

  /** Masking an already masked CPF changes nothing. */
  lemma FormatCpfIdempotent(value: string)
    ensures FormatCpf(FormatCpf(value)) == FormatCpf(value)
  {
    var d := Slice(Digits(value), 0, 11);
    assert Digits(FormatCpf(value)) == d;
    assert Slice(d, 0, 11) == d;
  }

  /** Two fields with the same first eleven digits show the same CPF: the
      mask depends on nothing else. */
  lemma FormatCpfDependsOnDigitsOnly(a: string, b: string)
    requires Slice(Digits(a), 0, 11) == Slice(Digits(b), 0, 11)
    ensures FormatCpf(a) == FormatCpf(b)
  {
  }

  /** A full CPF: eleven digits in groups of 3, 3, 3 and 2. */
  lemma CpfOfGroups(g1: string, g2: string, g3: string, g4: string)
    requires AllDigits(g1) && AllDigits(g2) && AllDigits(g3) && AllDigits(g4)
    requires |g1| == 3 && |g2| == 3 && |g3| == 3 && |g4| == 2
    ensures FormatCpf(g1 + g2 + g3 + g4) == g1 + "." + g2 + "." + g3 + "-" + g4
  {
    var d := g1 + g2 + g3 + g4;
    DigitsAppend(g1, g2);
    DigitsAppend(g1 + g2, g3);
    DigitsAppend(g1 + g2 + g3, g4);
    DigitsOfDigits(g1); DigitsOfDigits(g2); DigitsOfDigits(g3); DigitsOfDigits(g4);
    assert Digits(d) == d;
    assert Slice(d, 0, 11) == d[0..11] == d;
    assert d[..3] == g1 && d[3..6] == g2 && d[6..9] == g3 && d[9..] == g4;
  }

  lemma FormatCpfExample()
    ensures FormatCpf("12345678901") == "123.456.789-01"
  {
    assert "12345678901" == "123" + "456" + "789" + "01";
    assert "123.456.789-01" == "123" + "." + "456" + "." + "789" + "-" + "01";
    CpfOfGroups("123", "456", "789", "01");
  }

  // ---------------------------------------------------------------------------
  // Phone: (dd) dddd-dddd or (dd) ddddd-dddd

  /** The digits of "(a) b" are those of `a` then `b`. */
  lemma DigitsOfAreaForm(a: string, b: string)
    ensures Digits("(" + a + ") " + b) == Digits(a) + Digits(b)
  {
    DigitsAppend("(", a);
    DigitsAppend("(" + a, ") ");
    DigitsAppend("(" + a + ") ", b);
    assert Digits("(") == [] && Digits(") ") == [];
  }

  /** The digits of "(a) b-c" are those of `a`, `b` and `c`. */
  lemma DigitsOfLineForm(a: string, b: string, c: string)
    ensures Digits("(" + a + ") " + b + "-" + c) == Digits(a) + Digits(b) + Digits(c)
  {
    var x := "(" + a + ") " + b;
    DigitsAround(x, '-', c);
    assert x + ['-'] + c == x + "-" + c;
    DigitsOfAreaForm(a, b);
  }

  /** The punctuated form of a digit string, by the digit count. The
      eleven-digit pattern is applied once, to the first eleven digits, so
      any further digits follow unchanged. */
  function PhoneShape(d: string): (r: string)
    requires AllDigits(d)
    ensures Digits(r) == d
    ensures |d| <= 2 ==> r == d
    ensures 2 < |d| <= 6 ==> r == "(" + d[..2] + ") " + d[2..]
    ensures 6 < |d| <= 10 ==> r == "(" + d[..2] + ") " + d[2..6] + "-" + d[6..]
    ensures 10 < |d| ==> r == "(" + d[..2] + ") " + d[2..7] + "-" + d[7..11] + d[11..]
  {
    DigitsOfDigits(d);
    if |d| <= 2 then d
    else if |d| <= 6 then
      assert d == d[..2] + d[2..];
      DigitsOfDigits(d[..2]); DigitsOfDigits(d[2..]);
      DigitsOfAreaForm(d[..2], d[2..]);
      "(" + d[..2] + ") " + d[2..]
    else if |d| <= 10 then
      assert d == d[..2] + d[2..6] + d[6..];
      DigitsOfDigits(d[..2]); DigitsOfDigits(d[2..6]); DigitsOfDigits(d[6..]);
      DigitsOfLineForm(d[..2], d[2..6], d[6..]);
      "(" + d[..2] + ") " + d[2..6] + "-" + d[6..]
    else
      var rest := d[7..];
      assert d == d[..2] + d[2..7] + rest;
      DigitsOfDigits(d[..2]); DigitsOfDigits(d[2..7]); DigitsOfDigits(rest);
      DigitsOfLineForm(d[..2], d[2..7], rest);
      assert rest == d[7..11] + d[11..];
      assert "(" + d[..2] + ") " + d[2..7] + "-" + rest
          == "(" + d[..2] + ") " + d[2..7] + "-" + d[7..11] + d[11..];
      "(" + d[..2] + ") " + d[2..7] + "-" + rest
  }

  /** The text the phone mask leaves in the field. */
  function FormatPhone(value: string): (r: string)
    ensures Digits(r) == Digits(value)
    ensures |Digits(value)| <= 2 ==> r == Digits(value)
  {
    PhoneShape(Digits(value))
  }

  /** Masking an already masked phone number changes nothing. */
  lemma FormatPhoneIdempotent(value: string)
    ensures FormatPhone(FormatPhone(value)) == FormatPhone(value)
  {
  }

  /** A full mobile number: eleven digits in groups of 2, 5 and 4. */
  lemma PhoneOfGroups(area: string, prefix: string, line: string)
    requires AllDigits(area) && AllDigits(prefix) && AllDigits(line)
    requires |area| == 2 && |prefix| == 5 && |line| == 4
    ensures FormatPhone(area + prefix + line) == "(" + area + ") " + prefix + "-" + line
  {
    var d := area + prefix + line;
    DigitsAppend(area, prefix);
    DigitsAppend(area + prefix, line);
    DigitsOfDigits(area); DigitsOfDigits(prefix); DigitsOfDigits(line);
    assert Digits(d) == d;
    assert d[..2] == area && d[2..7] == prefix && d[7..11] == line && d[11..] == [];
  }

  lemma FormatPhoneExample()
    ensures FormatPhone("65999990000") == "(65) 99999-0000"
  {
    assert "65999990000" == "65" + "99999" + "0000";
    assert "(65) 99999-0000" == "(" + "65" + ") " + "99999" + "-" + "0000";
    PhoneOfGroups("65", "99999", "0000");
  }

  // ---------------------------------------------------------------------------
  // The directives

  /** The `<input>` element the directive is attached to. */
  class TextInput {
    var value: string

    constructor (value: string)
      ensures this.value == value
    {
      this.value := value;
    }
  }

  /** The form control bound to the input. */
  class FormControl {
    var value: string

    constructor (value: string)
      ensures this.value == value
    {
      this.value := value;
    }
  }

  class CpfMaskDirective {
    /** The optionally injected control (`NgControl.control`). */
    const control: FormControl?

    constructor (control: FormControl?)
      ensures this.control == control
    {
      this.control := control;
    }

    /** `onInput`: the masked text goes to the input and, silently, to the
        control. */
    method OnInput(input: TextInput)
      modifies input, control
      ensures input.value == FormatCpf(old(input.value))
      ensures control != null ==> control.value == input.value
    {
      var formatted := FormatCpf(input.value);
      input.value := formatted;
      if control != null {
        control.value := formatted;
      }
    }
  }

  class PhoneMaskDirective {
    const control: FormControl?

    constructor (control: FormControl?)
      ensures this.control == control
    {
      this.control := control;
    }

    method OnInput(input: TextInput)
      modifies input, control
      ensures input.value == FormatPhone(old(input.value))
      ensures control != null ==> control.value == input.value
    {
      var value := FormatPhone(input.value);
      input.value := value;
      if control != null {
        control.value := value;
      }
    }
  }

  /** Typing "12345678901" into a CPF field bound to a control leaves
      "123.456.789-01" in both. */
  method CpfTypingRun() returns (shown: string, bound: string)
    ensures shown == "123.456.789-01" && bound == shown
  {
    var control := new FormControl("");
    var directive := new CpfMaskDirective(control);
    var input := new TextInput("12345678901");
    directive.OnInput(input);
    FormatCpfExample();
    shown, bound := input.value, control.value;
  }

  /** Typing "65999990000" into a phone field bound to a control leaves
      "(65) 99999-0000" in both. */
  method PhoneTypingRun() returns (shown: string, bound: string)
    ensures shown == "(65) 99999-0000" && bound == shown
  {
    var control := new FormControl("");
    var directive := new PhoneMaskDirective(control);
    var input := new TextInput("65999990000");
    directive.OnInput(input);
    FormatPhoneExample();
    shown, bound := input.value, control.value;
  }
}
