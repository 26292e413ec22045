/** Shared front-end constants and validators: the e-mail and password
    patterns, the generated account number, and the network and gas-speed
    tables.  Each regular expression is stated by what a match of it is, and
    then characterised in plain terms. */
module Constants {
  import opened Text

  // ---------------------------------------------------------------------------
  // E-mail

  predicate NotSpaceOrAt(c: char) {
    !JsSpace(c) && c != '@'
  }

  predicate NotSpace(c: char) {
    !JsSpace(c)
  }

  predicate NotAt(c: char) {
    c != '@'
  }

  /** A match of `^[^\s@]+@[^\s@]+\.[^\s@]+$`: three non-empty runs of
      characters that are neither white space nor '@', separated by '@' and
      by a '.'. */
  predicate EmailPatternMatch(s: string) {
    exists a, b :: 0 < a && a + 1 < b && b + 1 < |s| && s[a] == '@' && s[b] == '.'
                   && AllSatisfy(s[..a], NotSpaceOrAt)
                   && AllSatisfy(s[a + 1..b], NotSpaceOrAt)
                   && AllSatisfy(s[b + 1..], NotSpaceOrAt)
  }

  /** The domain has a '.' that is neither its first nor its last character. */
  predicate DotInside(d: string) {
    exists b :: 0 < b < |d| - 1 && d[b] == '.'
  }

  /** The plain reading of the e-mail rule: no white space, exactly one '@'
      with text on both sides, and a domain with an inner '.'. */
  predicate EmailShape(s: string) {
    AllSatisfy(s, NotSpace)
    && exists a :: 0 < a < |s| && s[a] == '@' && AllSatisfy(s[..a], NotAt)
                   && AllSatisfy(s[a + 1..], NotAt) && DotInside(s[a + 1..])
  }

  lemma EmailPatternFromShape(s: string)
    requires EmailShape(s)
    ensures EmailPatternMatch(s)
  {
    var a, j := ShapeParts(s);
    AllSatisfySlice(s, 0, a, NotSpaceOrAt);
    AllSatisfySlice(s, a + 1, j, NotSpaceOrAt);
    AllSatisfySlice(s, j + 1, |s|, NotSpaceOrAt);
    assert s[..a] == s[0..a] && s[j + 1..] == s[j + 1..|s|];
  }

  /** Where the '@' and the inner '.' of an address of the plain shape are;
      every other character is neither white space nor '@'. */
  lemma ShapeParts(s: string) returns (a: nat, j: nat)
    requires EmailShape(s)
    ensures 0 < a && a + 1 < j && j + 1 < |s| && s[a] == '@' && s[j] == '.'
    ensures forall k :: 0 <= k < |s| && k != a ==> NotSpaceOrAt(s[k])
  {
    a :| 0 < a < |s| && s[a] == '@' && AllSatisfy(s[..a], NotAt)
         && AllSatisfy(s[a + 1..], NotAt) && DotInside(s[a + 1..]);
    var d := s[a + 1..];
    var b :| 0 < b < |d| - 1 && d[b] == '.';
    j := a + 1 + b;
    assert s[j] == d[b];
    forall k | 0 <= k < |s| && k != a ensures NotSpaceOrAt(s[k]) {
      if k < a {
        assert s[..a][k] == s[k];
      } else {
        assert d[k - a - 1] == s[k];
      }
    }
  }

  /** Where the three runs of a match of the e-mail pattern are. */
  lemma EmailParts(s: string) returns (a: nat, b: nat)
    requires EmailPatternMatch(s)
    ensures 0 < a && a + 1 < b && b + 1 < |s| && s[a] == '@' && s[b] == '.'
    ensures AllSatisfy(s[..a], NotSpaceOrAt)
    ensures AllSatisfy(s[a + 1..b], NotSpaceOrAt)
    ensures AllSatisfy(s[b + 1..], NotSpaceOrAt)
  {
    a, b :| 0 < a && a + 1 < b && b + 1 < |s| && s[a] == '@' && s[b] == '.'
            && AllSatisfy(s[..a], NotSpaceOrAt)
            && AllSatisfy(s[a + 1..b], NotSpaceOrAt)
            && AllSatisfy(s[b + 1..], NotSpaceOrAt);
  }

  lemma EmailShapeFromPattern(s: string)
    requires EmailPatternMatch(s)
    ensures EmailShape(s)
  {
    var a, b := EmailParts(s);
    forall k | 0 <= k < |s| ensures NotSpace(s[k]) && (k != a ==> NotAt(s[k])) {
      if k < a {
        assert s[..a][k] == s[k];
      } else if a < k < b {
        assert s[a + 1..b][k - a - 1] == s[k];
      } else if k > b {
        assert s[b + 1..][k - b - 1] == s[k];
      }
    }
    var d := s[a + 1..];
    assert d[b - a - 1] == '.';
    assert DotInside(d);
    assert AllSatisfy(d, NotAt) by {
      forall k | 0 <= k < |d| ensures NotAt(d[k]) {
        assert d[k] == s[a + 1 + k];
      }
    }
  }

  /** `validateEmail`: true exactly for the strings of the plain e-mail rule. */
  function ValidateEmail(email: string): (r: bool)
    ensures r <==> EmailShape(email)
  {
    if EmailPatternMatch(email) then
      EmailShapeFromPattern(email);
      true
    else if EmailShape(email) then
      EmailPatternFromShape(email);
      false
    else false
  }

  // ---------------------------------------------------------------------------
  // Password

  predicate IsLowerAscii(c: char) { 'a' <= c <= 'z' }
  predicate IsUpperAscii(c: char) { 'A' <= c <= 'Z' }

  predicate NotLineTerminator(c: char) {
    !JsLineTerminator(c)
  }

  /** A look-ahead `(?=.*[...])` at the start: some character of the class
      occurs with no line terminator before it. */
  predicate LookAhead(s: string, cls: char -> bool) {
    exists i :: 0 <= i < |s| && AllSatisfy(s[..i], NotLineTerminator) && cls(s[i])
  }

  /** A match of `^(?=.*[a-z])(?=.*[A-Z])(?=.*\d).{8,}$`. */
  predicate PasswordPatternMatch(s: string) {
    && LookAhead(s, IsLowerAscii)
    && LookAhead(s, IsUpperAscii)
    && LookAhead(s, IsDigit)
    && |s| >= 8 && AllSatisfy(s, NotLineTerminator)
  }

  predicate Has(s: string, cls: char -> bool) {
    exists i :: 0 <= i < |s| && cls(s[i])
  }

  lemma LookAheadWhole(s: string, cls: char -> bool)
    requires AllSatisfy(s, NotLineTerminator)
    ensures LookAhead(s, cls) <==> Has(s, cls)
  {
    if Has(s, cls) {
      var i :| 0 <= i < |s| && cls(s[i]);
      assert forall k :: 0 <= k < i ==> s[..i][k] == s[k];
      assert AllSatisfy(s[..i], NotLineTerminator);
    }
  }

  /** `validatePassword`: at least eight characters, none a line terminator,
      with a lower-case letter, an upper-case letter and a digit. */
  function ValidatePassword(password: string): (r: bool)
    ensures r <==> && |password| >= 8 && AllSatisfy(password, NotLineTerminator)
                   && Has(password, IsLowerAscii) && Has(password, IsUpperAscii) && Has(password, IsDigit)
  {
    if AllSatisfy(password, NotLineTerminator) then
      LookAheadWhole(password, IsLowerAscii);
      LookAheadWhole(password, IsUpperAscii);
      LookAheadWhole(password, IsDigit);
      PasswordPatternMatch(password)
    else PasswordPatternMatch(password)
  }

  // ---------------------------------------------------------------------------
  // Account number

  /** "DTB" followed by `floor(100000000 + random * 900000000)`, for the
      random value `random` in [0, 1). */
  function GenerateAccountNumber(random: real): (r: string)
    requires 0.0 <= random < 1.0
    ensures |r| == 12
    ensures r[..3] == "DTB" && r[3] != '0'
    ensures AllSatisfy(r[3..], IsDigit)
  {
    var x := 100000000.0 + random * 900000000.0;
    var n := x.Floor;
    assert 100000000 <= n < 1000000000;
    assert Pow10(8) == 100000000 && Pow10(9) == 1000000000;
    NatToStringLength(n, 8);
    var digits := NatToString(n);
    assert ("DTB" + digits)[3..] == digits;
    "DTB" + digits
  }

  // ---------------------------------------------------------------------------
  // Tables

  datatype Network = Network(name: string, testnet: bool)

  function Networks(): map<int, Network> {
    map[
      1 := Network("Ethereum Mainnet", false),
      5 := Network("Goerli Testnet", true),
      11155111 := Network("Sepolia Testnet", true),
      137 := Network("Polygon Mainnet", false),
      80001 := Network("Mumbai Testnet", true)
    ]
  }

  /** The table lists five chains: Goerli, Sepolia and Mumbai are test
      networks, Ethereum and Polygon are main networks. */
  lemma NetworkFlags()
    ensures Networks().Keys == {1, 5, 11155111, 137, 80001}
    ensures forall id :: id in Networks() ==> (Networks()[id].testnet <==> id in {5, 11155111, 80001})
  {
  }

  datatype GasSpeed = GasSpeed(name: string, description: string, multiplier: real)

  const Slow: GasSpeed := GasSpeed("Slow", "~10-30 min", 0.9)
  const Standard: GasSpeed := GasSpeed("Standard", "~3-5 min", 1.0)
  const Fast: GasSpeed := GasSpeed("Fast", "~1-2 min", 1.1)
  const Urgent: GasSpeed := GasSpeed("Urgent", "<1 min", 1.25)

  /** The gas-price multipliers rise strictly from slow to urgent, with the
      standard speed at the plain price. */
  lemma GasSpeedsIncrease()
    ensures Slow.multiplier < Standard.multiplier < Fast.multiplier < Urgent.multiplier
    ensures Standard.multiplier == 1.0
  {
  }
}
