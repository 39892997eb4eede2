/** The tokens of a pattern in bytes, as the Go SDK cuts them, are those of its text. */
module GoBytes {
  import opened Wrappers
  import opened Text
  import opened Utf8
  import opened Patterns

  function InBytes(token: Token): Token {
    match token
    case Literal(text) => Literal(Encoded(text))
    case Wildcard => Wildcard
    case Capture(name) => Capture(Encoded(name))
  }

  function AllInBytes(tokens: seq<Token>): (r: seq<Token>)
    ensures |r| == |tokens|
  {
    if tokens == [] then [] else [InBytes(tokens[0])] + AllInBytes(tokens[1..])
  }

  // ---- positions -------------------------------------------------------------------------------------

  /** Where the `k`-th character starts in the bytes. */
  function At(s: string, k: nat): nat
    requires k <= |s|
  {
    |Encoded(s[..k])|
  }

  lemma EncodedAt(s: string, k: nat)
    requires k <= |s|
    ensures At(s, k) <= |Encoded(s)|
    ensures Encoded(s)[..At(s, k)] == Encoded(s[..k]) && Encoded(s)[At(s, k)..] == Encoded(s[k..])
  {
    assert s == s[..k] + s[k..];
    EncodedConcat(s[..k], s[k..]);
  }

  lemma CharAt(s: string, k: nat)
    requires k < |s|
    ensures At(s, k) < At(s, k + 1) <= |Encoded(s)| && Encoded(s)[At(s, k)] == Bytes(s[k])[0]
    ensures s[k] as nat < 0x80 ==> At(s, k + 1) == At(s, k) + 1 && Encoded(s)[At(s, k)] == s[k]
  {
    EncodedAt(s, k);
    EncodedAt(s, k + 1);
    assert s[..k + 1] == s[..k] + [s[k]] && [s[k]][1..] == "";
    EncodedConcat(s[..k], [s[k]]);
    assert Encoded([s[k]]) == Bytes(s[k]) + "";
    assert s[k..][0] == s[k];
    assert Encoded(s)[At(s, k)..][0] == Encoded(s)[At(s, k)];
  }

  lemma {:induction false} AtGrows(s: string, j: nat, k: nat)
    requires j < k <= |s|
    ensures At(s, j) < At(s, k)
    decreases k - j
  {
    CharAt(s, j);
    if j + 1 < k { AtGrows(s, j + 1, k); }
  }

  lemma AtEnds(s: string)
    ensures At(s, 0) == 0 && At(s, |s|) == |Encoded(s)|
  {
    assert s[..0] == "" && s[..|s|] == s;
  }

  /** Every byte of a character beyond ASCII is beyond ASCII. */
  lemma BytesBeyondAscii(c: char, i: nat)
    requires c as nat >= 0x80 && i < |Bytes(c)|
    ensures Bytes(c)[i] as nat >= 0x80
  {
  }

  /** An ASCII byte is a character of its own. */
  lemma {:induction false} AsciiByte(s: string, i: nat) returns (k: nat)
    requires i < |Encoded(s)| && Encoded(s)[i] as nat < 0x80
    ensures k < |s| && At(s, k) == i && s[k] == Encoded(s)[i]
  {
    var n := |Bytes(s[0])|;
    if i < n {
      if s[0] as nat >= 0x80 { BytesBeyondAscii(s[0], i); }
      k := 0;
      AtEnds(s);
    } else {
      assert Encoded(s)[i] == Encoded(s[1..])[i - n];
      k := AsciiByte(s[1..], i - n);
      assert s[..k + 1][1..] == s[1..][..k];
      k := k + 1;
    }
  }

  // ---- searching ---------------------------------------------------------------------------------------

  function Moved(s: string, found: Option<nat>): Option<nat>
    requires found.Some? ==> found.value <= |s|
  {
    if found.Some? then Some(At(s, found.value)) else None
  }

  lemma FindInBytes(s: string, c: char)
    requires c as nat < 0x80
    ensures Find(Encoded(s), c) == Moved(s, Find(s, c))
  {
    var bytes := Encoded(s);
    FindIsFirst(s, c);
    FindIsFirst(bytes, c);
    if Find(s, c).Some? {
      CharAt(s, Find(s, c).value);
      assert bytes[At(s, Find(s, c).value)] in bytes;
    }
    if Find(bytes, c).Some? {
      var i := Find(bytes, c).value;
      var k := AsciiByte(s, i);
      FirstInText(s, c, i, k);
      FindIs(s, c, k);
    }
  }

  lemma FirstInText(s: string, c: char, i: nat, k: nat)
    requires c as nat < 0x80 && k < |s| && At(s, k) == i <= |Encoded(s)| && c !in Encoded(s)[..i]
    ensures c !in s[..k]
  {
    forall j | 0 <= j < k
      ensures s[j] != c
    {
      CharAt(s, j);
      AtGrows(s, j, k);
      assert Encoded(s)[..i][At(s, j)] == Encoded(s)[At(s, j)];
      assert Encoded(s)[..i][At(s, j)] in Encoded(s)[..i];
    }
  }

  /** A `${` in the bytes is one in the text. */
  lemma DollarInText(s: string, i: nat) returns (k: nat)
    requires i + 1 < |Encoded(s)| && Encoded(s)[i] == '$' && Encoded(s)[i + 1] == '{'
    ensures k + 1 < |s| && At(s, k) == i && s[k] == '$' && s[k + 1] == '{'
  {
    k := AsciiByte(s, i);
    CharAt(s, k);
    AtEnds(s);
    assert k + 1 != |s|;
    CharAt(s, k + 1);
    if s[k + 1] as nat >= 0x80 { BytesBeyondAscii(s[k + 1], 0); }
  }

  lemma DollarInBytes(s: string, k: nat)
    requires k + 1 < |s| && s[k] == '$' && s[k + 1] == '{'
    ensures At(s, k) + 1 < |Encoded(s)| && Encoded(s)[At(s, k)] == '$' && Encoded(s)[At(s, k) + 1] == '{'
  {
    CharAt(s, k);
    CharAt(s, k + 1);
  }

  lemma FindDollarInBytes(s: string)
    ensures FindDollar(Encoded(s)) == Moved(s, FindDollar(s))
  {
    var bytes := Encoded(s);
    FindDollarIsFirst(s, 0);
    FindDollarIsFirst(bytes, 0);
    if FindDollar(s).Some? {
      var k := FindDollar(s).value;
      DollarInBytes(s, k);
      forall i | 0 <= i < At(s, k)
        ensures !(bytes[i] == '$' && bytes[i + 1] == '{')
      {
        if bytes[i] == '$' && bytes[i + 1] == '{' {
          var j := DollarInText(s, i);
          if j > k { AtGrows(s, k, j); }
        }
      }
      FindDollarIs(bytes, At(s, k));
    } else if FindDollar(bytes).Some? {
      var j := DollarInText(s, FindDollar(bytes).value);
    }
  }

  lemma NearerInBytes(s: string, end: nat, found: Option<nat>)
    requires end <= |s| && (found.Some? ==> found.value <= |s|)
    ensures Nearer(At(s, end), Moved(s, found)) == At(s, Nearer(end, found))
  {
    AtEnds(s);
    if found.Some? {
      if found.value > 0 { AtGrows(s, 0, found.value); }
      if found.value < end { AtGrows(s, found.value, end); }
      if end < found.value { AtGrows(s, end, found.value); }
    }
  }

  // ---- tokens ------------------------------------------------------------------------------------------

  lemma LiteralEndInBytes(s: string)
    requires s != ""
    ensures Encoded(s) != "" && LiteralEnd(Encoded(s)) == At(s, LiteralEnd(s))
  {
    FindInBytes(s, '*');
    FindInBytes(s, '{');
    FindDollarInBytes(s);
    AtEnds(s);
    var a := Nearer(|s|, Find(s, '*'));
    var b := Nearer(a, Find(s, '{'));
    NearerInBytes(s, |s|, Find(s, '*'));
    NearerInBytes(s, a, Find(s, '{'));
    NearerInBytes(s, b, FindDollar(s));
  }

  lemma FirstByte(s: string, c: char)
    requires s != "" && c as nat < 0x80
    ensures Encoded(s) != "" && (Encoded(s)[0] == c <==> s[0] == c)
    ensures s[0] == c ==> Encoded(s)[1..] == Encoded(s[1..])
  {
    if s[0] as nat >= 0x80 { BytesBeyondAscii(s[0], 0); }
    if s[0] == c { assert Encoded(s) == [c] + Encoded(s[1..]); }
  }

  lemma CaptureOffsetInBytes(s: string)
    requires s != ""
    ensures CaptureOffset(Encoded(s)) == CaptureOffset(s)
    ensures CaptureOffset(s) <= |s| && At(s, CaptureOffset(s)) == CaptureOffset(s)
  {
    FirstByte(s, '$');
    FirstByte(s, '{');
    AtEnds(s);
    if s[0] == '{' || s[0] == '$' { CharAt(s, 0); }
    if s[0] == '$' && s[1..] != "" {
      FirstByte(s[1..], '{');
      if s[1] == '{' { CharAt(s, 1); }
    }
    DollarPrefix(s);
    DollarPrefix(Encoded(s));
  }

  lemma DollarPrefix(s: string)
    ensures StartsWith(s, "${") <==> |s| >= 2 && s[0] == '$' && s[1..][0] == '{'
    ensures StartsWith(s, "{") <==> |s| >= 1 && s[0] == '{'
  {
    if |s| >= 2 { assert s[..2] == [s[0], s[1]]; }
    if |s| >= 1 { assert s[..1] == [s[0]]; }
  }

  lemma Middle(x: string, y: string, z: string)
    ensures (x + y + z)[|x|..|x + y|] == y
  {
  }

  lemma SliceInBytes(s: string, a: nat, b: nat)
    requires a <= b <= |s|
    ensures At(s, a) <= At(s, b) <= |Encoded(s)| && Encoded(s)[At(s, a)..At(s, b)] == Encoded(s[a..b])
  {
    var x, y, z := Encoded(s[..a]), Encoded(s[a..b]), Encoded(s[b..]);
    assert s[..b] == s[..a] + s[a..b] && s == s[..b] + s[b..];
    EncodedConcat(s[..a], s[a..b]);
    EncodedConcat(s[..b], s[b..]);
    Middle(x, y, z);
  }

  /** The text starts with a capture that has a name and a closing brace. */
  predicate HasCapture(tail: string) {
    CaptureOffset(tail) != 0 && Find(tail, '}').Some? && Find(tail, '}').value > CaptureOffset(tail)
  }

  lemma FirstIsCapture(tail: string)
    requires tail != "" && tail[0] != '*' && HasCapture(tail)
    ensures FirstToken(tail)
            == (Capture(tail[CaptureOffset(tail)..Find(tail, '}').value]), Find(tail, '}').value + 1)
  {
  }

  lemma FirstIsLiteral(tail: string)
    requires tail != "" && tail[0] != '*' && !HasCapture(tail)
    ensures FirstToken(tail) == (Literal(tail[..LiteralEnd(tail)]), LiteralEnd(tail))
  {
  }

  /** A capture is found in the bytes exactly where it is in the text. */
  lemma CaptureInBytes(s: string)
    requires s != ""
    ensures HasCapture(s) <==> HasCapture(Encoded(s))
    ensures HasCapture(s) ==>
              var from, to := CaptureOffset(Encoded(s)), Find(Encoded(s), '}').value;
              && Encoded(s)[from..to] == Encoded(s[CaptureOffset(s)..Find(s, '}').value])
              && to + 1 == At(s, Find(s, '}').value + 1)
  {
    CaptureOffsetInBytes(s);
    FindInBytes(s, '}');
    var offset, close := CaptureOffset(s), Find(s, '}');
    if offset != 0 && close.Some? {
      CharAt(s, close.value);
      if offset < close.value {
        AtGrows(s, offset, close.value);
        SliceInBytes(s, offset, close.value);
      }
      if close.value < offset { AtGrows(s, close.value, offset); }
    }
  }

  lemma LiteralInBytes(s: string)
    requires s != ""
    ensures Encoded(s) != "" && LiteralEnd(Encoded(s)) == At(s, LiteralEnd(s))
    ensures Encoded(s)[..LiteralEnd(Encoded(s))] == Encoded(s[..LiteralEnd(s)])
  {
    LiteralEndInBytes(s);
    EncodedAt(s, LiteralEnd(s));
  }

  lemma FirstStarInBytes(s: string)
    requires s != "" && s[0] == '*'
    ensures Encoded(s) != "" && FirstToken(Encoded(s)) == (Wildcard, 1) && FirstToken(s) == (Wildcard, 1)
            && At(s, 1) == 1
  {
    FirstByte(s, '*');
    AtEnds(s);
    CharAt(s, 0);
  }

  lemma FirstCaptureInBytes(s: string, name: string, n: nat)
    requires s != "" && s[0] != '*' && HasCapture(s) && FirstToken(s) == (Capture(name), n)
    ensures Encoded(s) != "" && FirstToken(Encoded(s)) == (Capture(Encoded(name)), At(s, n))
  {
    FirstByte(s, '*');
    CaptureInBytes(s);
    FirstIsCapture(s);
    FirstIsCapture(Encoded(s));
  }

  lemma FirstLiteralInBytes(s: string, text: string, n: nat)
    requires s != "" && s[0] != '*' && !HasCapture(s) && FirstToken(s) == (Literal(text), n)
    ensures Encoded(s) != "" && FirstToken(Encoded(s)) == (Literal(Encoded(text)), At(s, n))
  {
    FirstByte(s, '*');
    CaptureInBytes(s);
    LiteralInBytes(s);
    FirstIsLiteral(s);
    FirstIsLiteral(Encoded(s));
  }

  lemma FirstTokenInBytes(s: string, token: Token, n: nat)
    requires s != "" && FirstToken(s) == (token, n)
    ensures Encoded(s) != "" && FirstToken(Encoded(s)) == (InBytes(token), At(s, n))
  {
    if s[0] == '*' {
      FirstStarInBytes(s);
    } else if HasCapture(s) {
      FirstIsCapture(s);
      FirstCaptureInBytes(s, token.name, n);
    } else {
      FirstIsLiteral(s);
      FirstLiteralInBytes(s, token.text, n);
    }
  }

  /** Cutting the bytes of a pattern gives its tokens in bytes. */
  lemma {:induction false} TokensInBytes(pattern: string)
    ensures TokensOf(Encoded(pattern)) == AllInBytes(TokensOf(pattern))
    decreases |pattern|
  {
    if pattern != "" {
      var (token, n) := FirstToken(pattern);
      FirstTokenInBytes(pattern, token, n);
      EncodedAt(pattern, n);
      TokensUnfold(pattern, token, n);
      TokensUnfold(Encoded(pattern), InBytes(token), At(pattern, n));
      TokensInBytes(pattern[n..]);
      AllInBytesUnfold(token, TokensOf(pattern[n..]));
    }
  }

  lemma AllInBytesUnfold(token: Token, rest: seq<Token>)
    ensures AllInBytes([token] + rest) == [InBytes(token)] + AllInBytes(rest)
  {
    assert ([token] + rest)[1..] == rest;
  }
}
