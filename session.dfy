/** The session record that the auth facade publishes and the storage service
    mirrors, and the text form it is stored in. The browser's `JSON.stringify` /
    `JSON.parse` pair is stood in for by `Serialize` / `Deserialize`, a
    length-prefixed format whose round trip is proved below. */
module Session {
  import opened Common

  /** The five-field record (`AuthState` as the facade builds it). Times are
      milliseconds since the epoch. */
  datatype AuthState = AuthState(
    isAuthenticated: bool,
    accessToken: Option<string>,
    refreshToken: Option<string>,
    expiresAt: Option<int>,
    refreshExpiresAt: Option<int>)

  /** `INITIAL_STATE`: the anonymous record. */
  const Anonymous := AuthState(false, None, None, None, None)

  // ---------------------------------------------------------------------------
  // Serialized form

  function SerializeBool(b: bool): string {
    if b then "t" else "f"
  }

  /** "n" for null; "s<length>:<characters>" for a string. */
  function SerializeText(o: Option<string>): string {
    match o
    case None => "n"
    case Some(t) => "s" + NatToDecimal(|t|) + ":" + t
  }

  /** "n" for null; "i<decimal>;" for a number. */
  function SerializeNumber(o: Option<int>): string {
    match o
    case None => "n"
    case Some(v) => "i" + IntToDecimal(v) + ";"
  }

  /** One field of the stored record, tagged with its kind. */
  datatype Field = FlagField(flag: bool) | TextField(text: Option<string>) | NumberField(number: Option<int>)

  datatype Kind = FlagKind | TextKind | NumberKind

  function KindOf(f: Field): Kind {
    match f
    case FlagField(_) => FlagKind
    case TextField(_) => TextKind
    case NumberField(_) => NumberKind
  }

  function KindsOf(fs: seq<Field>): (ks: seq<Kind>)
    ensures |ks| == |fs|
  {
    if fs == [] then [] else [KindOf(fs[0])] + KindsOf(fs[1..])
  }

  /** The fields of a record, in stored order. */
  function Fields(s: AuthState): seq<Field> {
    [FlagField(s.isAuthenticated), TextField(s.accessToken), TextField(s.refreshToken),
     NumberField(s.expiresAt), NumberField(s.refreshExpiresAt)]
  }

  /** The kinds of the five fields, in stored order. */
  const Layout: seq<Kind> := [FlagKind, TextKind, TextKind, NumberKind, NumberKind]

  function SerializeField(f: Field): string {
    match f
    case FlagField(b) => SerializeBool(b)
    case TextField(t) => SerializeText(t)
    case NumberField(n) => SerializeNumber(n)
  }

  function SerializeFields(fs: seq<Field>): string {
    if fs == [] then [] else SerializeField(fs[0]) + SerializeFields(fs[1..])
  }

  /** The stored text of a record (stands for `JSON.stringify(state)`). */
  function Serialize(s: AuthState): (r: string)
    ensures r != []
  {
    assert SerializeBool(s.isAuthenticated) != [];
    SerializeFields(Fields(s))
  }

  // ---------------------------------------------------------------------------
  // Parsing: each reader returns the value and the unread rest, or None

  /** Number of leading digits of `s`. */
  function DigitRun(s: string): (n: nat)
    ensures n <= |s| && AllDigits(s[..n])
    ensures n < |s| ==> !IsDigit(s[n])
  {
    if s != [] && IsDigit(s[0]) then
      var k := DigitRun(s[1..]);
      assert s[..k + 1] == [s[0]] + s[1..][..k];
      k + 1
    else 0
  }

  /** A non-empty run of digits closed by `stop`. */
  function ReadNat(s: string, stop: char): Option<(nat, string)>
  {
    var k := DigitRun(s);
    if 0 < k < |s| && s[k] == stop then Some((DecimalValue(s[..k]), s[k + 1..])) else None
  }

  function ReadBool(s: string): Option<(bool, string)> {
    if s != [] && s[0] == 't' then Some((true, s[1..]))
    else if s != [] && s[0] == 'f' then Some((false, s[1..]))
    else None
  }

  function ReadText(s: string): Option<(Option<string>, string)> {
    if s != [] && s[0] == 'n' then Some((None, s[1..]))
    else if s != [] && s[0] == 's' then
      match ReadNat(s[1..], ':')
      case None => None
      case Some((len, rest)) =>
        if len <= |rest| then Some((Some(rest[..len]), rest[len..])) else None
    else None
  }

  function ReadNumber(s: string): Option<(Option<int>, string)> {
    if s != [] && s[0] == 'n' then Some((None, s[1..]))
    else if s != [] && s[0] == 'i' then
      var body := s[1..];
      if body != [] && body[0] == '-' then
        match ReadNat(body[1..], ';')
        case None => None
        case Some((v, rest)) => Some((Some(0 - v), rest))
      else
        match ReadNat(body, ';')
        case None => None
        case Some((v, rest)) => Some((Some(v as int), rest))
    else None
  }

  function ReadField(s: string, k: Kind): Option<(Field, string)> {
    match k
    case FlagKind => (match ReadBool(s) case None => None case Some((b, rest)) => Some((FlagField(b), rest)))
    case TextKind => (match ReadText(s) case None => None case Some((t, rest)) => Some((TextField(t), rest)))
    case NumberKind => (match ReadNumber(s) case None => None case Some((n, rest)) => Some((NumberField(n), rest)))
  }

  function ReadFields(s: string, ks: seq<Kind>): Option<(seq<Field>, string)> {
    if ks == [] then Some(([], s))
    else
      match ReadField(s, ks[0])
      case None => None
      case Some((f, rest)) =>
        match ReadFields(rest, ks[1..])
        case None => None
        case Some((fs, rest')) => Some(([f] + fs, rest'))
  }

  /** Stands for `JSON.parse(stored) as AuthState`: None when the text is not a
      well-formed record. */
  function Deserialize(s: string): Option<AuthState> {
    match ReadFields(s, Layout)
    case None => None
    case Some((fs, rest)) =>
      if && rest == [] && |fs| == 5
         && fs[0].FlagField? && fs[1].TextField? && fs[2].TextField?
         && fs[3].NumberField? && fs[4].NumberField?
      then
        Some(AuthState(fs[0].flag, fs[1].text, fs[2].text, fs[3].number, fs[4].number))
      else None
  }

  // ---------------------------------------------------------------------------
  // Round trip

  lemma {:induction false} DigitRunStops(ds: string, stop: char, rest: string)
    requires AllDigits(ds) && !IsDigit(stop)
    ensures DigitRun(ds + [stop] + rest) == |ds|
  {
    if ds != [] {
      assert (ds + [stop] + rest)[1..] == ds[1..] + [stop] + rest;
      DigitRunStops(ds[1..], stop, rest);
    }
  }

  lemma ReadNatRoundTrip(n: nat, stop: char, rest: string)
    requires !IsDigit(stop)
    ensures ReadNat(NatToDecimal(n) + [stop] + rest, stop) == Some((n, rest))
  {
    var ds := NatToDecimal(n);
    var s := ds + [stop] + rest;
    DigitRunStops(ds, stop, rest);
    assert s[..|ds|] == ds;
    assert s[|ds| + 1..] == rest;
    DecimalRoundTrip(n);
  }

  lemma ReadBoolRoundTrip(b: bool, rest: string)
    ensures ReadBool(SerializeBool(b) + rest) == Some((b, rest))
  {
    assert (SerializeBool(b) + rest)[1..] == rest;
  }

  lemma ReadTextRoundTrip(o: Option<string>, rest: string)
    ensures ReadText(SerializeText(o) + rest) == Some((o, rest))
  {
    var s := SerializeText(o) + rest;
    match o
    case None =>
      assert s[1..] == rest;
    case Some(t) =>
      var tail := t + rest;
      var ds := NatToDecimal(|t|);
      assert s == "s" + (ds + [':'] + tail);
      assert s[0] == 's' && s[1..] == ds + [':'] + tail;
      ReadNatRoundTrip(|t|, ':', tail);
      assert ReadNat(s[1..], ':') == Some((|t|, tail));
      assert tail[..|t|] == t && tail[|t|..] == rest;
  }

  lemma ReadNumberRoundTrip(o: Option<int>, rest: string)
    ensures ReadNumber(SerializeNumber(o) + rest) == Some((o, rest))
  {
    match o
    case None =>
      assert (SerializeNumber(o) + rest)[1..] == rest;
    case Some(v) =>
      if v < 0 {
        ReadNegativeNumber(v, rest);
      } else {
        ReadNonNegativeNumber(v, rest);
      }
  }

  lemma ReadNonNegativeNumber(v: int, rest: string)
    requires v >= 0
    ensures ReadNumber(SerializeNumber(Some(v)) + rest) == Some((Some(v), rest))
  {
    var body := NatToDecimal(v) + [';'] + rest;
    assert SerializeNumber(Some(v)) + rest == ['i'] + body by {
      Regroup("i", NatToDecimal(v), ";", rest);
    }
    ReadNatRoundTrip(v, ';', rest);
    ReadUnsigned(body, v, rest);
  }

  lemma ReadNegativeNumber(v: int, rest: string)
    requires v < 0
    ensures ReadNumber(SerializeNumber(Some(v)) + rest) == Some((Some(v), rest))
  {
    var body := NatToDecimal(-v) + [';'] + rest;
    assert SerializeNumber(Some(v)) + rest == ['i', '-'] + body by {
      assert IntToDecimal(v) == "-" + NatToDecimal(-v);
      Regroup("i", "-" + NatToDecimal(-v), ";", rest);
      assert ("-" + NatToDecimal(-v)) + ";" + rest == ['-'] + body;
    }
    ReadNatRoundTrip(-v, ';', rest);
    ReadSigned(body, -v, rest);
  }

  /** Concatenation regrouped. */
  lemma Regroup(a: string, b: string, c: string, d: string)
    ensures a + b + c + d == a + (b + c + d)
  {
  }

  /** "i" followed by a numeral reads as that number. */
  lemma ReadUnsigned(body: string, n: nat, rest: string)
    requires ReadNat(body, ';') == Some((n, rest))
    ensures ReadNumber(['i'] + body) == Some((Some(n as int), rest))
  {
    var s := ['i'] + body;
    assert s[1..] == body;
    assert IsDigit(body[0]);
  }

  /** "i-" followed by a numeral reads as its negation. */
  lemma ReadSigned(body: string, n: nat, rest: string)
    requires ReadNat(body, ';') == Some((n, rest))
    ensures ReadNumber(['i', '-'] + body) == Some((Some(0 - n), rest))
  {
    var s := ['i', '-'] + body;
    assert s[1..][0] == '-' && s[1..][1..] == body;
  }

  lemma ReadFieldRoundTrip(f: Field, rest: string)
    ensures ReadField(SerializeField(f) + rest, KindOf(f)) == Some((f, rest))
  {
    match f
    case FlagField(b) => ReadBoolRoundTrip(b, rest);
    case TextField(t) => ReadTextRoundTrip(t, rest);
    case NumberField(n) => ReadNumberRoundTrip(n, rest);
  }

  lemma {:induction false} ReadFieldsRoundTrip(fs: seq<Field>, rest: string)
    ensures ReadFields(SerializeFields(fs) + rest, KindsOf(fs)) == Some((fs, rest))
  {
    if fs != [] {
      var tail := SerializeFields(fs[1..]) + rest;
      assert SerializeFields(fs) + rest == SerializeField(fs[0]) + tail;
      var ks := KindsOf(fs);
      assert ks[0] == KindOf(fs[0]) && ks[1..] == KindsOf(fs[1..]);
      ReadFieldRoundTrip(fs[0], tail);
      ReadFieldsRoundTrip(fs[1..], rest);
      assert [fs[0]] + fs[1..] == fs;
    } else {
      assert SerializeFields(fs) + rest == rest;
    }
  }

  /** `load` after `save` gives back exactly the saved record. */
  lemma DeserializeSerialize(s: AuthState)
    ensures Deserialize(Serialize(s)) == Some(s)
  {
    var fs := Fields(s);
    ReadFieldsRoundTrip(fs, []);
    assert SerializeFields(fs) + [] == Serialize(s);
    assert KindsOf(fs[4..]) == [NumberKind];
    assert KindsOf(fs[3..]) == [NumberKind, NumberKind];
    assert KindsOf(fs[2..]) == [TextKind, NumberKind, NumberKind];
    assert KindsOf(fs[1..]) == [TextKind, TextKind, NumberKind, NumberKind];
    assert KindsOf(fs) == Layout;
  }

  /** Distinct records are stored as distinct texts. */
  lemma SerializeInjective(s: AuthState, t: AuthState)
    requires Serialize(s) == Serialize(t)
    ensures s == t
  {
    DeserializeSerialize(s);
    DeserializeSerialize(t);
  }
}
