/** Byte strings, one character of code 0 to 255 for each byte, and their UTF-8 validity
    (section 4 of RFC 3629). */
module Utf8 {

  predicate IsByteString(s: string) { forall i | 0 <= i < |s| :: s[i] as nat < 256 }

  predicate IsAscii(s: string) { forall i | 0 <= i < |s| :: s[i] as nat < 128 }

  predicate In(c: char, low: nat, high: nat) { low <= c as nat <= high }

  predicate Tail(c: char) { In(c, 0x80, 0xBF) }

  /** The length of the character a byte string starts with; 0 when there is none. */
  function Lead(s: string): (n: nat)
    ensures n <= |s| && n <= 4
  {
    if s == "" then 0
    else if s[0] as nat < 0x80 then 1
    else if |s| >= 2 && In(s[0], 0xC2, 0xDF) && Tail(s[1]) then 2
    else if |s| >= 3 && Tail(s[2]) &&
            ((s[0] as nat == 0xE0 && In(s[1], 0xA0, 0xBF)) || (In(s[0], 0xE1, 0xEC) && Tail(s[1]))
             || (s[0] as nat == 0xED && In(s[1], 0x80, 0x9F)) || (In(s[0], 0xEE, 0xEF) && Tail(s[1]))) then 3
    else if |s| >= 4 && Tail(s[2]) && Tail(s[3]) &&
            ((s[0] as nat == 0xF0 && In(s[1], 0x90, 0xBF)) || (In(s[0], 0xF1, 0xF3) && Tail(s[1]))
             || (s[0] as nat == 0xF4 && In(s[1], 0x80, 0x8F))) then 4
    else 0
  }

  predicate ValidUtf8(s: string)
    decreases |s|
  {
    s == "" || (Lead(s) > 0 && ValidUtf8(s[Lead(s)..]))
  }

  lemma {:induction false} AsciiIsValid(s: string)
    requires IsAscii(s)
    ensures ValidUtf8(s)
  {
    if s != "" { AsciiIsValid(s[1..]); }
  }

  // ---- encoding ------------------------------------------------------------------------------------

  /** The bytes of a character. */
  function Bytes(c: char): (s: string)
    ensures 1 <= |s| <= 4
  {
    var n := c as nat;
    if n < 0x80 then [c]
    else if n < 0x800 then [(0xC0 + n / 0x40) as char, Trailing(n)]
    else if n < 0x10000 then [(0xE0 + n / 0x1000) as char, Trailing(n / 0x40), Trailing(n)]
    else [(0xF0 + n / 0x40000) as char, Trailing(n / 0x1000), Trailing(n / 0x40), Trailing(n)]
  }

  function Trailing(n: nat): (c: char)
    ensures Tail(c)
  {
    (0x80 + n % 0x40) as char
  }

  function Encoded(s: string): string { if s == "" then "" else Bytes(s[0]) + Encoded(s[1..]) }

  lemma TwoBytes(n: nat, rest: string)
    requires 0x80 <= n < 0x800
    ensures Lead([(0xC0 + n / 0x40) as char, Trailing(n)] + rest) == 2
  {
    assert 2 <= n / 0x40 < 0x20;
  }

  lemma ThreeBytes(n: nat, rest: string)
    requires 0x800 <= n < 0x10000 && !(0xD800 <= n < 0xE000)
    ensures Lead([(0xE0 + n / 0x1000) as char, Trailing(n / 0x40), Trailing(n)] + rest) == 3
  {
    var a, b := n / 0x1000, n / 0x40;
    assert 0 <= a < 0x10 && b / 0x40 == a && b == a * 0x40 + b % 0x40;
    assert a == 0 ==> b >= 0x20;
    assert a == 0xD ==> b % 0x40 < 0x20;
  }

  lemma FourBytes(n: nat, rest: string)
    requires 0x10000 <= n < 0x110000
    ensures Lead([(0xF0 + n / 0x40000) as char, Trailing(n / 0x1000), Trailing(n / 0x40), Trailing(n)] + rest) == 4
  {
    var a, b := n / 0x40000, n / 0x1000;
    assert 0 <= a <= 4 && b == a * 0x40 + b % 0x40;
    assert a == 0 ==> b % 0x40 >= 0x10;
    assert a == 4 ==> b % 0x40 < 0x10;
  }

  lemma LeadOfBytes(c: char, rest: string)
    ensures Lead(Bytes(c) + rest) == |Bytes(c)|
  {
    var n := c as nat;
    if n < 0x80 {
    } else if n < 0x800 {
      TwoBytes(n, rest);
    } else if n < 0x10000 {
      ThreeBytes(n, rest);
    } else {
      FourBytes(n, rest);
    }
  }

  lemma {:induction false} EncodedIsValid(s: string)
    ensures ValidUtf8(Encoded(s))
  {
    if s != "" {
      var rest := Encoded(s[1..]);
      LeadOfBytes(s[0], rest);
      EncodedIsValid(s[1..]);
      assert (Bytes(s[0]) + rest)[|Bytes(s[0])|..] == rest;
    }
  }

  /** The character that two, three or four valid bytes stand for. */
  lemma TwoAreBytes(s: string) returns (c: char)
    requires Lead(s) == 2
    ensures Bytes(c) == s[..2]
  {
    var n := (s[0] as nat - 0xC0) * 0x40 + (s[1] as nat - 0x80);
    assert n / 0x40 == s[0] as nat - 0xC0 && n % 0x40 == s[1] as nat - 0x80;
    c := n as char;
    assert Trailing(n) == s[1];
  }

  lemma ThreeAreBytes(s: string) returns (c: char)
    requires Lead(s) == 3
    ensures Bytes(c) == s[..3]
  {
    var top := (s[0] as nat - 0xE0) * 0x40 + (s[1] as nat - 0x80);
    var n := top * 0x40 + (s[2] as nat - 0x80);
    assert n / 0x40 == top && n % 0x40 == s[2] as nat - 0x80;
    assert top / 0x40 == s[0] as nat - 0xE0 && top % 0x40 == s[1] as nat - 0x80 && n / 0x1000 == top / 0x40;
    c := n as char;
    assert Trailing(n) == s[2] && Trailing(n / 0x40) == s[1];
  }

  lemma FourAreBytes(s: string) returns (c: char)
    requires Lead(s) == 4
    ensures Bytes(c) == s[..4]
  {
    var top := (s[0] as nat - 0xF0) * 0x40 + (s[1] as nat - 0x80);
    var mid := top * 0x40 + (s[2] as nat - 0x80);
    var n := mid * 0x40 + (s[3] as nat - 0x80);
    assert n / 0x40 == mid && n % 0x40 == s[3] as nat - 0x80;
    assert mid / 0x40 == top && mid % 0x40 == s[2] as nat - 0x80 && n / 0x1000 == top;
    assert top / 0x40 == s[0] as nat - 0xF0 && top % 0x40 == s[1] as nat - 0x80 && n / 0x40000 == top / 0x40;
    c := n as char;
    assert Trailing(n) == s[3] && Trailing(n / 0x40) == s[2] && Trailing(n / 0x1000) == s[1];
  }

  /** Valid byte strings are exactly the encodings of texts. */
  lemma {:induction false} ValidIsEncoded(s: string) returns (text: string)
    requires ValidUtf8(s)
    ensures Encoded(text) == s
    decreases |s|
  {
    if s == "" {
      text := "";
    } else {
      var n := Lead(s);
      var c := s[0];
      if n == 2 {
        c := TwoAreBytes(s);
      } else if n == 3 {
        c := ThreeAreBytes(s);
      } else if n == 4 {
        c := FourAreBytes(s);
      }
      assert Bytes(c) == s[..n];
      var rest := ValidIsEncoded(s[n..]);
      text := [c] + rest;
      assert text[1..] == rest && s == s[..n] + s[n..];
    }
  }

  lemma ValidIffEncoded(s: string)
    ensures ValidUtf8(s) <==> exists text :: Encoded(text) == s
  {
    if ValidUtf8(s) { var text := ValidIsEncoded(s); }
    if text :| Encoded(text) == s { EncodedIsValid(text); }
  }

  lemma {:induction false} EncodedConcat(a: string, b: string)
    ensures Encoded(a + b) == Encoded(a) + Encoded(b)
  {
    if a == "" {
      assert a + b == b;
    } else {
      EncodedConcat(a[1..], b);
      assert (a + b)[1..] == a[1..] + b;
      Reassociate(Bytes(a[0]), Encoded(a[1..]), Encoded(b));
    }
  }

  lemma Reassociate(a: string, b: string, c: string)
    ensures a + (b + c) == a + b + c
  {
  }

  // ---- characters in bytes ---------------------------------------------------------------------------

  lemma Sextets(n: nat)
    ensures n == n / 0x40 * 0x40 + n % 0x40
    ensures n / 0x40 / 0x40 == n / 0x1000 && n / 0x1000 / 0x40 == n / 0x40000
  {
  }

  /** The code point that the bytes of a character stand for. */
  function CodeOf(s: string): int {
    if |s| == 1 then s[0] as int
    else if |s| == 2 then (s[0] as int - 0xC0) * 0x40 + Low(s[1])
    else if |s| == 3 then ((s[0] as int - 0xE0) * 0x40 + Low(s[1])) * 0x40 + Low(s[2])
    else if |s| == 4 then (((s[0] as int - 0xF0) * 0x40 + Low(s[1])) * 0x40 + Low(s[2])) * 0x40 + Low(s[3])
    else -1
  }

  function Low(c: char): int { c as int - 0x80 }

  lemma CodeOfBytes(c: char)
    ensures CodeOf(Bytes(c)) == c as int
  {
    var n := c as nat;
    Sextets(n);
    Sextets(n / 0x40);
    Sextets(n / 0x1000);
    assert Low(Trailing(n)) == n % 0x40 && Low(Trailing(n / 0x40)) == n / 0x40 % 0x40;
    assert Low(Trailing(n / 0x1000)) == n / 0x1000 % 0x40;
  }

  lemma BytesAreInjective(c: char, d: char)
    requires Bytes(c) == Bytes(d)
    ensures c == d
  {
    CodeOfBytes(c);
    CodeOfBytes(d);
  }

  /** A proper part of a character's bytes is no character. */
  lemma PartHasNoLead(c: char, j: nat)
    requires 0 < j < |Bytes(c)|
    ensures Lead(Bytes(c)[..j]) == 0
  {
  }

  /** A valid beginning of an encoded text ends between characters. */
  lemma {:induction false} ValidPrefixIsWhole(s: string, j: nat) returns (k: nat)
    requires j <= |Encoded(s)| && ValidUtf8(Encoded(s)[..j])
    ensures k <= |s| && Encoded(s[..k]) == Encoded(s)[..j] && Encoded(s[k..]) == Encoded(s)[j..]
  {
    if j == 0 {
      k := 0;
      assert s[0..] == s;
    } else {
      var bytes, rest := Bytes(s[0]), Encoded(s[1..]);
      var prefix := Encoded(s)[..j];
      if j < |bytes| {
        assert prefix == bytes[..j];
        PartHasNoLead(s[0], j);
      }
      assert prefix == bytes + rest[..j - |bytes|];
      LeadOfBytes(s[0], rest[..j - |bytes|]);
      assert prefix[|bytes|..] == rest[..j - |bytes|];
      k := ValidPrefixIsWhole(s[1..], j - |bytes|);
      assert s[..k + 1][1..] == s[1..][..k] && s[k + 1..] == s[1..][k..];
      assert Encoded(s)[j..] == rest[j - |bytes|..];
      k := k + 1;
    }
  }

  lemma {:induction false} EncodedIsInjective(a: string, b: string)
    requires Encoded(a) == Encoded(b)
    ensures a == b
  {
    if a != "" && b != "" {
      var x, y := Bytes(a[0]), Bytes(b[0]);
      LeadOfBytes(a[0], Encoded(a[1..]));
      LeadOfBytes(b[0], Encoded(b[1..]));
      assert Encoded(a)[..|x|] == x && Encoded(b)[..|y|] == y;
      BytesAreInjective(a[0], b[0]);
      assert Encoded(a)[|x|..] == Encoded(a[1..]) && Encoded(b)[|y|..] == Encoded(b[1..]);
      EncodedIsInjective(a[1..], b[1..]);
      assert a == [a[0]] + a[1..] && b == [b[0]] + b[1..];
    }
  }
}
