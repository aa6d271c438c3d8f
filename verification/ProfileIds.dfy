/** Profile ids: "profile-" and a decimal number, printed and parsed as Rust does. */
module ProfileIds {
  import opened Wrappers

  const U64_MAX := 0xFFFF_FFFF_FFFF_FFFF
  const PREFIX := "profile-"

  type U64 = n: nat | n <= U64_MAX

  /** Adding to a `u64` counter in a release build. */
  function WrappingAdd(n: U64, k: nat): U64 {
    (n + k) % (U64_MAX + 1)
  }

  lemma WrappingAddStep(n: U64, k: nat)
    ensures WrappingAdd(WrappingAdd(n, k), 1) == WrappingAdd(n, k + 1)
  {
  }

  lemma WrappingAddInRange(n: U64, k: nat)
    ensures n + k <= U64_MAX ==> WrappingAdd(n, k) == n + k
    ensures n + k == U64_MAX + 1 ==> WrappingAdd(n, k) == 0
  {
  }

  function Digit(d: nat): char
    requires d < 10
  {
    '0' + d as char
  }

  /** `format!("{}", n)` */
  function ToDecimal(n: nat): (s: string)
    ensures s != [] && IsDigit(s[0])
  {
    if n < 10 then [Digit(n)] else ToDecimal(n / 10) + [Digit(n % 10)]
  }

  predicate IsDigit(c: char) {
    '0' <= c <= '9'
  }

  /** The number a string of digits denotes; leading zeros are fine. */
  function DigitsValue(s: string): Option<nat> {
    if s == [] then Some(0)
    else
      var front, last := DigitsValue(s[..|s| - 1]), s[|s| - 1];
      if front.Some? && IsDigit(last) then Some(front.value * 10 + (last as nat - '0' as nat)) else None
  }

  /** `str::parse::<u64>`: one leading plus sign is accepted, an empty number and an overflow are not. */
  function ParseU64(s: string): (r: Option<nat>)
    ensures r.Some? ==> r.value <= U64_MAX
  {
    var digits := if |s| > 1 && s[0] == '+' then s[1..] else s;
    if digits == [] then None
    else match DigitsValue(digits)
      case Some(n) => if n <= U64_MAX then Some(n) else None
      case None => None
  }

  /** `id.strip_prefix("profile-")` and then the number, if it is one. */
  function IdNumber(id: string): Option<nat> {
    if PREFIX <= id then ParseU64(id[|PREFIX|..]) else None
  }

  function IdFor(n: nat): string {
    PREFIX + ToDecimal(n)
  }

  lemma {:induction false} DigitsRoundTrip(n: nat)
    ensures DigitsValue(ToDecimal(n)) == Some(n)
  {
    if n < 10 {
      assert ToDecimal(n)[..0] == [];
    } else {
      DigitsRoundTrip(n / 10);
      var s := ToDecimal(n);
      assert s[..|s| - 1] == ToDecimal(n / 10) && s[|s| - 1] == Digit(n % 10);
    }
  }

  /** A generated id carries its number. */
  lemma IdRoundTrip(n: nat)
    requires n <= U64_MAX
    ensures IdNumber(IdFor(n)) == Some(n)
  {
    DigitsRoundTrip(n);
    assert IdFor(n)[|PREFIX|..] == ToDecimal(n);
    assert ToDecimal(n)[0] != '+';
  }

  /** The Unicode White_Space characters, which `str::trim` removes. */
  predicate IsWhitespace(c: char) {
    || '\U{0009}' <= c <= '\U{000D}' || c == ' ' || c == '\U{0085}' || c == '\U{00A0}' || c == '\U{1680}'
    || '\U{2000}' <= c <= '\U{200A}' || c == '\U{2028}' || c == '\U{2029}' || c == '\U{202F}'
    || c == '\U{205F}' || c == '\U{3000}'
  }

  function TrimStart(s: string): (r: string)
    ensures |r| <= |s| && (r != [] ==> !IsWhitespace(r[0]))
    ensures s != [] && !IsWhitespace(s[0]) ==> r == s
  {
    if s != [] && IsWhitespace(s[0]) then TrimStart(s[1..]) else s
  }

  function TrimEnd(s: string): (r: string)
    ensures r <= s && (r != [] ==> !IsWhitespace(r[|r| - 1]))
    ensures s != [] && !IsWhitespace(s[|s| - 1]) ==> r == s
  {
    if s != [] && IsWhitespace(s[|s| - 1]) then TrimEnd(s[..|s| - 1]) else s
  }

  function Trim(s: string): string {
    TrimEnd(TrimStart(s))
  }

  /** Trimming twice is trimming once, so a stored name passes the check it passed on entry. */
  lemma TrimIdempotent(s: string)
    ensures Trim(Trim(s)) == Trim(s)
  {
    var t := Trim(s);
    if t != [] {
      assert t[0] == TrimStart(s)[0];
    }
  }

  lemma {:induction false} TrimStartOfFront(s: string, t: string)
    requires TrimStart(s) != []
    ensures TrimStart(s + t) == TrimStart(s) + t
  {
    if IsWhitespace(s[0]) {
      assert (s + t)[1..] == s[1..] + t;
      TrimStartOfFront(s[1..], t);
    }
  }

  /** A name with something behind it that does not end in white space loses leading white space only. */
  lemma TrimOfFront(s: string, t: string)
    requires Trim(s) != [] && t != [] && !IsWhitespace(t[|t| - 1])
    ensures Trim(s + t) == TrimStart(s) + t
  {
    TrimStartOfFront(s, t);
    var r := TrimStart(s) + t;
    assert r[|r| - 1] == t[|t| - 1];
  }

  lemma GeneratedIdIsNotBlank(n: nat)
    ensures Trim(IdFor(n)) != []
  {
    var id := IdFor(n);
    assert id[0] == 'p';
    assert TrimStart(id) == id;
    if TrimEnd(id) == [] {
      NonBlankSurvives(id, 0);
    }
  }

  lemma {:induction false} NonBlankSurvives(s: string, k: nat)
    requires k < |s| && !IsWhitespace(s[k])
    ensures |TrimEnd(s)| > k
    decreases |s|
  {
    if IsWhitespace(s[|s| - 1]) {
      NonBlankSurvives(s[..|s| - 1], k);
    }
  }
}
