/** Session tokens: minted, printed and read back. */
module SessionToken {
  import opened Optional
  import Decimal
  import Text

  const MIN_INT64 := -0x8000_0000_0000_0000
  const MAX_INT64 := 0x7fff_ffff_ffff_ffff
  /** Twelve hours, in seconds. */
  const SESSION_TTL := 43200
  const SLACK := 60

  predicate InInt64(n: int) {
    MIN_INT64 <= n <= MAX_INT64
  }

  function FormatInt(n: int): string {
    if n < 0 then "-" + Decimal.Print(-n) else Decimal.Print(n)
  }

  /** Reads a decimal 64-bit integer: an optional sign, then digits only. */
  function ParseInt(s: string): (r: Option<int>)
    ensures r.Some? ==> InInt64(r.value)
  {
    var signed := s != "" && (s[0] == '+' || s[0] == '-');
    var digits := if signed then s[1..] else s;
    if digits == "" || !Decimal.AllDigits(digits) then None
    else
      var n: int := if signed && s[0] == '-' then -(Decimal.Value(digits) as int) else Decimal.Value(digits) as int;
      if InInt64(n) then Some(n) else None
  }

  lemma ParseOfDigits(digits: string)
    requires digits != "" && Decimal.AllDigits(digits)
    ensures InInt64(Decimal.Value(digits)) ==> ParseInt(digits) == Some(Decimal.Value(digits))
    ensures InInt64(-(Decimal.Value(digits) as int)) ==> ParseInt("-" + digits) == Some(-(Decimal.Value(digits) as int))
  {
    assert Decimal.IsDigit(digits[0]);
    assert ("-" + digits)[1..] == digits;
  }

  lemma ParseOfFormat(n: int)
    requires InInt64(n)
    ensures ParseInt(FormatInt(n)) == Some(n)
  {
    var magnitude := if n < 0 then -n else n;
    Decimal.ValueOfPrint(magnitude);
    ParseOfDigits(Decimal.Print(magnitude));
  }

  // ----- Tokens -----

  /** The keyed digest of an expiry, in hexadecimal. */
  type Signer = int -> string

  /** Hexadecimal holds no dot. */
  ghost predicate Hexadecimal(sign: Signer) {
    forall exp :: '.' !in sign(exp)
  }

  function Token(sign: Signer, exp: int): string {
    "v1." + FormatInt(exp) + "." + sign(exp)
  }

  function Mint(sign: Signer, now: int): string {
    Token(sign, now + SESSION_TTL)
  }

  /** The expiry of a well-formed, unexpired token signed with this key. */
  function Valid(sign: Signer, now: int, token: string): Option<int> {
    var parts := Text.Split(token, ".");
    if |parts| != 3 || parts[0] != "v1" then None
    else
      var exp := ParseInt(parts[1]);
      if exp.None? || parts[1] != FormatInt(exp.value) then None
      else if now >= exp.value || exp.value > now + SESSION_TTL + SLACK then None
      else if parts[2] != sign(exp.value) then None
      else exp
  }

  lemma FormatHasNoDot(n: int)
    ensures '.' !in FormatInt(n)
  {
    var digits := Decimal.Print(if n < 0 then -n else n);
    assert forall i | 0 <= i < |digits| :: Decimal.IsDigit(digits[i]);
  }

  lemma JoinThree(a: string, b: string, c: string)
    ensures Text.Join([a, b, c], ".") == a + "." + b + "." + c
  {
    assert [a, b, c][1..] == [b, c] && [b, c][1..] == [c];
    assert Text.Join([b, c], ".") == b + "." + c;
    Text.Regroup(a, ".", b, ".", c);
  }

  lemma SplitThree(a: string, b: string, c: string)
    requires '.' !in a && '.' !in b && '.' !in c
    ensures Text.Split(a + "." + b + "." + c, ".") == [a, b, c]
  {
    Text.CharClean(a, '.');
    Text.CharClean(b, '.');
    Text.CharClean(c, '.');
    JoinThree(a, b, c);
    Text.SplitOfJoin([a, b, c], ".");
  }

  lemma TokenSplits(sign: Signer, exp: int)
    requires Hexadecimal(sign)
    ensures Text.Split(Token(sign, exp), ".") == ["v1", FormatInt(exp), sign(exp)]
  {
    FormatHasNoDot(exp);
    SplitThree("v1", FormatInt(exp), sign(exp));
    assert "v1" + "." == "v1.";
  }

  /** Print and parse are exact: a token is accepted with an expiry exactly when it is the
      one rendering of that expiry and the expiry lies ahead, by at most the lifetime and
      a minute. */
  lemma ValidExactly(sign: Signer, now: int, token: string, exp: int)
    requires Hexadecimal(sign)
    ensures Valid(sign, now, token) == Some(exp) <==>
            token == Token(sign, exp) && InInt64(exp) && now < exp <= now + SESSION_TTL + SLACK
  {
    if Valid(sign, now, token) == Some(exp) {
      var parts := Text.Split(token, ".");
      Text.JoinOfSplit(token, ".");
      JoinThree(parts[0], parts[1], parts[2]);
      assert parts == [parts[0], parts[1], parts[2]];
      assert "v1" + "." == "v1.";
    }
    if token == Token(sign, exp) && InInt64(exp) && now < exp <= now + SESSION_TTL + SLACK {
      TokenSplits(sign, exp);
      ParseOfFormat(exp);
    }
  }

  /** Every expiry has one accepted spelling. */
  lemma OneSpelling(sign: Signer, now1: int, now2: int, token1: string, token2: string)
    requires Hexadecimal(sign) && Valid(sign, now1, token1).Some? && Valid(sign, now1, token1) == Valid(sign, now2, token2)
    ensures token1 == token2
  {
    ValidExactly(sign, now1, token1, Valid(sign, now1, token1).value);
    ValidExactly(sign, now2, token2, Valid(sign, now2, token2).value);
  }

  /** A minted token is accepted from a minute before it was minted until it expires, and
      never after. */
  lemma MintedUntilExpiry(sign: Signer, mintedAt: int, now: int)
    requires Hexadecimal(sign) && InInt64(mintedAt + SESSION_TTL)
    ensures Valid(sign, now, Mint(sign, mintedAt)) ==
            if mintedAt - SLACK <= now < mintedAt + SESSION_TTL then Some(mintedAt + SESSION_TTL) else None
  {
    var exp := mintedAt + SESSION_TTL;
    ValidExactly(sign, now, Mint(sign, mintedAt), exp);
    var got := Valid(sign, now, Mint(sign, mintedAt));
    if got.Some? {
      ValidExactly(sign, now, Mint(sign, mintedAt), got.value);
      TokenSplits(sign, exp);
      TokenSplits(sign, got.value);
      ParseOfFormat(exp);
      ParseOfFormat(got.value);
    }
  }

  /** The first valid session cookie counts, whatever stray ones come before it. */
  method Session(sign: Signer, now: int, cookies: seq<string>) returns (exp: Option<int>)
    ensures exp.Some? <==> exists i :: 0 <= i < |cookies| && Valid(sign, now, cookies[i]).Some?
    ensures exp.Some? ==> exists i :: 0 <= i < |cookies| && Valid(sign, now, cookies[i]) == exp
                                      && forall j | 0 <= j < i :: Valid(sign, now, cookies[j]).None?
  {
    var i := 0;
    while i < |cookies|
      invariant 0 <= i <= |cookies| && forall j | 0 <= j < i :: Valid(sign, now, cookies[j]).None?
    {
      var got := Valid(sign, now, cookies[i]);
      if got.Some? { return got; }
      i := i + 1;
    }
    return None;
  }
}
