/** File identities of 64 bits (src/platform/fileIdentity.ts): safe integers stay numbers,
    larger ones become text, so that neither JSON nor SQLite rounds them. */
module FileIdentity {
  import opened Wrappers
  import opened Decimal

  const MAX_SAFE: int := 9007199254740991
  const MAX_U64: int := 18446744073709551615

  /** The characters of `u64:`. */
  const PREFIX: Text := [117, 54, 52, 58]

  /** A value of unknown type: an integral number, a string, or anything else. */
  datatype Unknown = Number(n: int) | Str(s: Text) | Other

  /** The two shapes of an identity are those of its stored value. */
  type Identity = u: Unknown | u.Number? || u.Str? witness Number(0)

  function Encode(value: int): Result<Identity> {
    if value < 0 || value > MAX_U64 then Failure(NOT_SUPPORTED)
    else if value <= MAX_SAFE then Success(Number(value))
    else Success(Str(PREFIX + Print(value)))
  }

  /** The pattern u64:[1-9][0-9]{0,19}. */
  predicate IsNumeral(s: Text) {
    5 <= |s| <= 24 && s[..4] == PREFIX && AllDigits(s[4..]) && s[4] != 48
  }

  function Parse(value: Unknown): Option<Identity> {
    match value
    case Number(n) => if -MAX_SAFE <= n <= MAX_SAFE && n >= 0 then Some(value) else None
    case Str(s) => if IsNumeral(s) && MAX_SAFE < Value(s[4..]) <= MAX_U64 then Some(value) else None
    case Other => None
  }

  function ToInteger(i: Identity): Option<int> {
    match i
    case Number(n) => Some(n)
    case Str(s) => if |s| >= 4 && AllDigits(s[4..]) then Some(Value(s[4..])) else None
  }

  /** Every 64-bit value survives encoding, parsing and converting back; so encoding is
      injective also across the border between numbers and text. */
  lemma EncodingRoundTrips(value: int)
    requires 0 <= value <= MAX_U64
    ensures Encode(value).Success?
    ensures var i := Encode(value).value; Parse(i) == Some(i) && ToInteger(i) == Some(value)
  {
    if value > MAX_SAFE {
      var s := PREFIX + Print(value);
      assert s[4..] == Print(value) && s[..4] == PREFIX;
      ValueOfPrint(value);
      TwentyDigits();
      PrintLength(value, 20);
    }
  }

  lemma TwentyDigits()
    ensures MAX_U64 < Pow10(20)
  {
    assert Pow10(5) == 100000;
    assert Pow10(10) == 100000 * Pow10(5);
    assert Pow10(15) == 100000 * Pow10(10);
    assert Pow10(20) == 100000 * Pow10(15);
  }

  lemma EncodingIsInjective(a: int, b: int)
    requires Encode(a).Success? && Encode(a) == Encode(b)
    ensures a == b
  {
    EncodingRoundTrips(a);
    EncodingRoundTrips(b);
  }

  /** Parsing accepts exactly what encoding produces. */
  lemma ParseAcceptsTheImage(value: Unknown)
    ensures Parse(value).Some? <==> exists v :: Encode(v) == Success(value)
    ensures Parse(value).Some? ==> Parse(value) == Some(value)
  {
    if Parse(value).Some? {
      match value
      case Number(n) =>
        assert Encode(n) == Success(value);
      case Str(s) =>
        PrintOfValue(s[4..]);
        assert s == s[..4] + s[4..];
        assert Encode(Value(s[4..])) == Success(value);
    }
    if v :| Encode(v) == Success(value) {
      EncodingRoundTrips(v);
    }
  }
}
