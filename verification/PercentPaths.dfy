/** Percent-encoded storage paths (sections 2.1 and 2.3 of RFC 3986). Strings are UTF-8 bytes. */
module PercentPaths {
  import opened Wrappers
  import opened Utf8
  import opened Hex

  // ---- bytes and hexadecimal digits -------------------------------------------------------------------

  /** The unreserved characters. */
  predicate IsSafe(c: char) {
    'A' <= c <= 'Z' || 'a' <= c <= 'z' || '0' <= c <= '9' || c in {'-', '.', '_', '~'}
  }

  function EncodeByte(c: char): string
    requires c as nat < 256
  {
    if IsSafe(c) then [c] else ['%', UpperHexDigit(c as nat / 16), UpperHexDigit(c as nat % 16)]
  }

  function EncodeBytes(s: string): string
    requires IsByteString(s)
  {
    if s == "" then "" else EncodeByte(s[0]) + EncodeBytes(s[1..])
  }

  /** A segment, with the two relative path segments written out. */
  function Encode(s: string): string
    requires IsByteString(s)
  {
    if s == "." then "%2E" else if s == ".." then "%2E%2E" else EncodeBytes(s)
  }

  /** The bytes of a percent-encoded text; none when an escape is broken. */
  function DecodeBytes(s: string): Option<string> {
    if s == "" then Some("")
    else if s[0] != '%' then Preceded(s[0], DecodeBytes(s[1..]))
    else if |s| < 3 || HexValue(s[1]).None? || HexValue(s[2]).None? then None
    else Preceded((16 * HexValue(s[1]).value + HexValue(s[2]).value) as char, DecodeBytes(s[3..]))
  }

  function Preceded(c: char, r: Option<string>): Option<string> { if r.Some? then Some([c] + r.value) else None }

  datatype DecodeError = BadEscape | NotUtf8

  function Checked(bytes: Option<string>): Result<string, DecodeError> {
    match bytes
    case None => Err(BadEscape)
    case Some(s) => if ValidUtf8(s) then Ok(s) else Err(NotUtf8)
  }

  /** `decode`: the loop over bytes. */
  method Decode(value: string) returns (r: Result<string, DecodeError>)
    ensures r == Checked(DecodeBytes(value))
  {
    var decoded, index := "", 0;
    assert value[0..] == value;
    JoinNothing(DecodeBytes(value));
    while index < |value|
      invariant 0 <= index <= |value|
      invariant Join(decoded, DecodeBytes(value[index..])) == DecodeBytes(value)
    {
      var tail := value[index..];
      if value[index] != '%' {
        assert tail[1..] == value[index + 1..];
        JoinStep(decoded, value[index], DecodeBytes(tail[1..]));
        decoded := decoded + [value[index]];
        index := index + 1;
        continue;
      }
      var high := if index + 1 < |value| then HexValue(value[index + 1]) else None;
      if high.None? { return Err(BadEscape); }
      var low := if index + 2 < |value| then HexValue(value[index + 2]) else None;
      if low.None? { return Err(BadEscape); }
      var byte := (16 * high.value + low.value) as char;
      assert tail[3..] == value[index + 3..];
      JoinStep(decoded, byte, DecodeBytes(tail[3..]));
      decoded := decoded + [byte];
      index := index + 3;
    }
    assert value[index..] == "" && decoded + "" == decoded;
    return if ValidUtf8(decoded) then Ok(decoded) else Err(NotUtf8);
  }

  function Join(done: string, rest: Option<string>): Option<string> {
    if rest.Some? then Some(done + rest.value) else None
  }

  lemma JoinNothing(rest: Option<string>)
    ensures Join("", rest) == rest
  {
    if rest.Some? { assert "" + rest.value == rest.value; }
  }

  lemma JoinStep(done: string, c: char, rest: Option<string>)
    ensures Join(done, Preceded(c, rest)) == Join(done + [c], rest)
  {
    if rest.Some? { assert done + ([c] + rest.value) == done + [c] + rest.value; }
  }

  // ---- encoding is safe and invertible ------------------------------------------------------------------

  lemma {:induction false} EncodeBytesDecodes(s: string)
    requires IsByteString(s)
    ensures DecodeBytes(EncodeBytes(s)) == Some(s)
  {
    if s != "" {
      var c, rest := s[0], EncodeBytes(s[1..]);
      EncodeBytesDecodes(s[1..]);
      var e := EncodeBytes(s);
      if IsSafe(c) {
        assert e[0] == c && e[1..] == rest;
      } else {
        assert e[1] == UpperHexDigit(c as nat / 16) && e[2] == UpperHexDigit(c as nat % 16) && e[3..] == rest;
        assert 16 * (c as nat / 16) + c as nat % 16 == c as nat;
      }
      assert [c] + s[1..] == s;
    }
  }

  lemma DotsDecode()
    ensures DecodeBytes("%2E") == Some(".") && DecodeBytes("%2E%2E") == Some("..")
  {
    assert DecodeBytes("") == Some("");
    assert "%2E"[3..] == "" && HexValue('2') == Some(2) && HexValue('E') == Some(14) && 46 as char == '.';
    assert ['.'] + "" == "." && ['.'] + "." == "..";
    assert DecodeBytes("%2E") == Some(".");
    assert "%2E%2E"[3..] == "%2E";
  }

  /** Decoding gives every string back. */
  lemma DecodeInvertsEncode(s: string)
    requires IsByteString(s) && ValidUtf8(s)
    ensures Checked(DecodeBytes(Encode(s))) == Ok(s)
  {
    EncodeBytesDecodes(s);
    DotsDecode();
  }

  lemma EncodeIsInjective(s: string, t: string)
    requires IsByteString(s) && IsByteString(t) && Encode(s) == Encode(t)
    ensures s == t
  {
    EncodeBytesDecodes(s);
    EncodeBytesDecodes(t);
    DotsDecode();
  }

  predicate IsSegmentText(s: string) { forall i | 0 <= i < |s| :: s[i] == '%' || IsSafe(s[i]) }

  lemma {:induction false} EncodeBytesIsSafe(s: string)
    requires IsByteString(s)
    ensures IsSegmentText(EncodeBytes(s)) && |EncodeBytes(s)| >= |s|
  {
    if s != "" { EncodeBytesIsSafe(s[1..]); }
  }

  /** Encoding goes byte by byte. */
  lemma {:induction false} EncodeConcat(s: string, t: string)
    requires IsByteString(s) && IsByteString(t) && IsByteString(s + t)
    ensures EncodeBytes(s + t) == EncodeBytes(s) + EncodeBytes(t)
  {
    if s == "" {
      assert s + t == t;
    } else {
      assert (s + t)[1..] == s[1..] + t;
      EncodeConcat(s[1..], t);
      Reassociate(EncodeByte(s[0]), EncodeBytes(s[1..]), EncodeBytes(t));
    }
  }

  /** Unreserved bytes stand for themselves, and every other byte is written as two digits. */
  lemma {:induction false} EncodeOfByte(c: char)
    requires c as nat < 256
    ensures var unreserved := || 'A' <= c <= 'Z' || 'a' <= c <= 'z' || '0' <= c <= '9'
                              || c == '-' || c == '.' || c == '_' || c == '~';
            EncodeBytes([c]) == [c] <==> unreserved
    ensures EncodeBytes([c]) != [c] ==>
              && |EncodeBytes([c])| == 3 && EncodeBytes([c])[0] == '%'
              && HexValue(EncodeBytes([c])[1]) == Some(c as nat / 16)
              && HexValue(EncodeBytes([c])[2]) == Some(c as nat % 16)
  {
    assert [c][1..] == "" && EncodeBytes([c]) == EncodeByte(c) + "";
  }

  lemma {:induction false} SafeTextIsKept(s: string)
    requires IsByteString(s) && forall i | 0 <= i < |s| :: IsSafe(s[i])
    ensures s != "." && s != ".." ==> Encode(s) == s
    ensures EncodeBytes(s) == s
  {
    if s != "" {
      SafeTextIsKept(s[1..]);
      assert [s[0]] + s[1..] == s;
    }
  }

  /** The single-dot and double-dot segments only come from themselves. */
  lemma DotsComeFromDots(s: string)
    requires IsByteString(s)
    ensures EncodeBytes(s) == "." ==> s == "."
    ensures EncodeBytes(s) == ".." ==> s == ".."
  {
    EncodeBytesDecodes(s);
    assert DecodeBytes("") == Some("");
    assert ['.'] + "" == "." && ['.'] + "." == "..";
    assert "."[1..] == "" && DecodeBytes(".") == Some(".");
    assert ".."[1..] == "." && DecodeBytes("..") == Some("..");
  }

  /** An encoded segment has no slash and is no relative segment, whatever the string. */
  lemma EncodeIsPathSafe(s: string)
    requires IsByteString(s)
    ensures IsSegmentText(Encode(s)) && '/' !in Encode(s)
    ensures Encode(s) != "." && Encode(s) != ".." && (Encode(s) == "" <==> s == "")
  {
    EncodeBytesIsSafe(s);
    DotsComeFromDots(s);
  }

  // ---- namespaces ------------------------------------------------------------------------------------------

  /** The first `::`. */
  function FindColons(s: string): (r: Option<nat>)
    ensures r.Some? ==> r.value + 2 <= |s| && s[r.value..r.value + 2] == "::"
  {
    if |s| < 2 then None
    else if s[..2] == "::" then Some(0)
    else
      match FindColons(s[1..])
      case None => None
      case Some(i) =>
        assert s[1..][i..i + 2] == s[i + 1..i + 3];
        Some(i + 1)
  }

  /** Where the context starts: after the first `::` with text on both sides. */
  function ContextStart(namespace: string): (r: Option<nat>)
    ensures r.Some? ==> 2 < r.value < |namespace| && namespace[r.value - 2..r.value] == "::"
  {
    match FindColons(namespace)
    case None => None
    case Some(i) => if i == 0 || i + 2 == |namespace| then None else Some(i + 2)
  }

  function Ns(namespace: string): string {
    match ContextStart(namespace) case None => namespace case Some(i) => namespace[..i - 2]
  }

  function Ctx(namespace: string): Option<string> {
    match ContextStart(namespace) case None => None case Some(i) => Some(namespace[i..])
  }

  predicate ColonsAt(s: string, i: nat) { i + 2 <= |s| && s[i] == ':' && s[i + 1] == ':' }

  lemma {:induction false} FindColonsIsFirst(s: string)
    ensures forall i | 0 <= i < (if FindColons(s).Some? then FindColons(s).value else |s|) :: !ColonsAt(s, i)
  {
    if |s| >= 2 && s[..2] != "::" {
      FindColonsIsFirst(s[1..]);
      assert !ColonsAt(s, 0);
      forall i | 1 <= i < (if FindColons(s).Some? then FindColons(s).value else |s|)
        ensures !ColonsAt(s, i)
      {
        assert ColonsAt(s, i) == ColonsAt(s[1..], i - 1);
      }
    }
  }

  /** A namespace is cut at its first `::`, if there is text on both sides of that; otherwise it is
      all base. */
  lemma ContextFollowsFirstColons(a: string, b: string)
    requires forall i | 0 <= i < |a| :: !ColonsAt(a + "::" + b, i)
    ensures a != "" && b != "" ==> Ns(a + "::" + b) == a && Ctx(a + "::" + b) == Some(b)
    ensures a == "" || b == "" ==> Ns(a + "::" + b) == a + "::" + b && Ctx(a + "::" + b) == None
  {
    var s := a + "::" + b;
    assert ColonsAt(s, |a|);
    FindColonsIsFirst(s);
    assert FindColons(s) == Some(|a|) by {
      if FindColons(s).Some? {
        var i := FindColons(s).value;
        assert s[i..i + 2] == "::" && ColonsAt(s, i);
      }
    }
    assert s[..|a|] == a && s[|a| + 2..] == b;
  }

  lemma NoColonsNoContext(namespace: string)
    requires forall i | 0 <= i < |namespace| :: !ColonsAt(namespace, i)
    ensures Ns(namespace) == namespace && Ctx(namespace) == None
  {
    var r := FindColons(namespace);
    if r.Some? {
      assert namespace[r.value..r.value + 2] == "::";
      assert ColonsAt(namespace, r.value);
    }
  }

  /** Base and context determine the namespace. */
  lemma NsAndCtxDetermine(a: string, b: string)
    requires Ns(a) == Ns(b) && Ctx(a) == Ctx(b)
    ensures a == b
  {
    if Ctx(a).Some? {
      var i, j := ContextStart(a).value, ContextStart(b).value;
      assert a == a[..i - 2] + a[i - 2..i] + a[i..];
      assert b == b[..j - 2] + b[j - 2..j] + b[j..];
    }
  }

  // ---- paths -----------------------------------------------------------------------------------------------

  const AUTH_NAMESPACE := "/__auth"

  function IndexPath(prefix: string, base: string): string
    requires IsByteString(base)
  {
    prefix + "/indexes/" + Encode(base)
  }

  function ValuesPath(prefix: string, base: string): string
    requires IsByteString(base)
  {
    prefix + "/values/" + Encode(base)
  }

  function RootPath(prefix: string, namespace: string, key: string): string
    requires IsByteString(namespace) && IsByteString(key)
  {
    ValuesPath(prefix, namespace) + "/root/" + Encode(key)
  }

  function ContextPath(prefix: string, base: string, collection: string, key: string): string
    requires IsByteString(base) && IsByteString(key)
  {
    ValuesPath(prefix, base) + "/contexts/" + collection + "/" + Encode(key)
  }

  /** The path of an auth record, for any four digest parts. */
  function AuthPath(prefix: string, parts: (string, string, string, string)): string {
    ValuesPath(prefix, AUTH_NAMESPACE) + "/root/" + (parts.0 + "/" + parts.1 + "/" + parts.2 + "/" + parts.3)
  }

  /** `locate` for everything but auth records: a context needs its collection. */
  function Locate(prefix: string, namespace: string, key: string, collection: Option<string>): Option<string>
    requires IsByteString(namespace) && IsByteString(key)
  {
    if Ctx(namespace).None? then Some(RootPath(prefix, namespace, key))
    else if collection.None? then None
    else Some(ContextPath(prefix, Ns(namespace), collection.value, key))
  }

  /** Text that stands for itself in a path. */
  predicate IsPlainSegment(s: string) {
    s != "" && s != "." && s != ".." && IsByteString(s) && forall i | 0 <= i < |s| :: IsSafe(s[i])
  }

  /** Where plain names are found: a namespace's own values under `root`, those of its contexts under
      their collection, and its index beside them. */
  lemma PlainPaths(prefix: string, base: string, context: string, key: string, collection: string)
    requires IsPlainSegment(base) && IsPlainSegment(key) && context != "" && IsByteString(base + "::" + context)
    ensures Locate(prefix, base, key, None) == Some(prefix + "/values/" + base + "/root/" + key)
    ensures Locate(prefix, base + "::" + context, key, Some(collection))
            == Some(prefix + "/values/" + base + "/contexts/" + collection + "/" + key)
    ensures Locate(prefix, base + "::" + context, key, None) == None
    ensures IndexPath(prefix, base) == prefix + "/indexes/" + base
  {
    SafeTextIsKept(base);
    SafeTextIsKept(key);
    assert forall i | 0 <= i < |base| :: !ColonsAt(base, i);
    NoColonsNoContext(base);
    var full := base + "::" + context;
    assert forall i | 0 <= i < |base| :: full[i] == base[i];
    ContextFollowsFirstColons(base, context);
  }

  // ---- paths do not collide -----------------------------------------------------------------------------------

  /** A text up to its first slash is determined by the whole. */
  lemma FirstSlash(a: string, b: string, x: string, y: string)
    requires '/' !in a && '/' !in b && a + "/" + x == b + "/" + y
    ensures a == b && x == y
  {
    var s, t := a + "/" + x, b + "/" + y;
    assert s[|a|] == '/' && t[|b|] == '/';
    assert forall i | 0 <= i < |a| :: s[i] == a[i] && a[i] in a;
    assert forall i | 0 <= i < |b| :: t[i] == b[i] && b[i] in b;
    assert |a| == |b| && s[..|a|] == a && t[..|b|] == b;
    assert s[|a| + 1..] == x && t[|b| + 1..] == y;
  }

  /** And so is the text after its last slash. */
  lemma LastSlash(a: string, b: string, x: string, y: string)
    requires '/' !in x && '/' !in y && a + "/" + x == b + "/" + y
    ensures a == b && x == y
  {
    var s, t := a + "/" + x, b + "/" + y;
    assert s[|a|] == '/' && t[|b|] == '/';
    assert forall i | |a| < i < |s| :: s[i] == x[i - |a| - 1] && x[i - |a| - 1] in x;
    assert forall i | |b| < i < |t| :: t[i] == y[i - |b| - 1] && y[i - |b| - 1] in y;
    assert |a| == |b| && s[..|a|] == a && t[..|b|] == b;
    assert s[|a| + 1..] == x && t[|b| + 1..] == y;
  }

  lemma SamePrefix(prefix: string, a: string, b: string)
    requires prefix + a == prefix + b
    ensures a == b
  {
    assert (prefix + a)[|prefix|..] == a && (prefix + b)[|prefix|..] == b;
  }

  /** Two paths under `values` share the encoded base and what follows it. */
  lemma SameBase(prefix: string, a: string, b: string, x: string, y: string)
    requires IsByteString(a) && IsByteString(b)
    requires ValuesPath(prefix, a) + "/" + x == ValuesPath(prefix, b) + "/" + y
    ensures a == b && x == y
  {
    EncodeIsPathSafe(a);
    EncodeIsPathSafe(b);
    var p := prefix + "/values/";
    assert ValuesPath(prefix, a) + "/" + x == p + (Encode(a) + "/" + x);
    assert ValuesPath(prefix, b) + "/" + y == p + (Encode(b) + "/" + y);
    SamePrefix(p, Encode(a) + "/" + x, Encode(b) + "/" + y);
    FirstSlash(Encode(a), Encode(b), x, y);
    EncodeIsInjective(a, b);
  }

  lemma RootShape(prefix: string, namespace: string, key: string)
    requires IsByteString(namespace) && IsByteString(key)
    ensures RootPath(prefix, namespace, key) == ValuesPath(prefix, namespace) + "/" + ("root" + "/" + Encode(key))
  {
  }

  lemma ContextShape(prefix: string, base: string, collection: string, key: string)
    requires IsByteString(base) && IsByteString(key)
    ensures ContextPath(prefix, base, collection, key)
            == ValuesPath(prefix, base) + "/" + ("contexts" + "/" + (collection + "/" + Encode(key)))
  {
  }

  lemma RootPathsDiffer(prefix: string, a: string, j: string, b: string, k: string)
    requires IsByteString(a) && IsByteString(j) && IsByteString(b) && IsByteString(k)
    requires RootPath(prefix, a, j) == RootPath(prefix, b, k)
    ensures a == b && j == k
  {
    RootShape(prefix, a, j);
    RootShape(prefix, b, k);
    SameBase(prefix, a, b, "root" + "/" + Encode(j), "root" + "/" + Encode(k));
    FirstSlash("root", "root", Encode(j), Encode(k));
    EncodeIsInjective(j, k);
  }

  /** A context path determines base, collection and key, even for a collection with slashes. */
  lemma ContextPathsDiffer(prefix: string, a: string, c: string, j: string, b: string, d: string, k: string)
    requires IsByteString(a) && IsByteString(j) && IsByteString(b) && IsByteString(k)
    requires ContextPath(prefix, a, c, j) == ContextPath(prefix, b, d, k)
    ensures a == b && c == d && j == k
  {
    ContextShape(prefix, a, c, j);
    ContextShape(prefix, b, d, k);
    var x, y := c + "/" + Encode(j), d + "/" + Encode(k);
    SameBase(prefix, a, b, "contexts" + "/" + x, "contexts" + "/" + y);
    FirstSlash("contexts", "contexts", x, y);
    EncodeIsPathSafe(j);
    EncodeIsPathSafe(k);
    LastSlash(c, d, Encode(j), Encode(k));
    EncodeIsInjective(j, k);
  }

  lemma RootIsNoContext(prefix: string, a: string, j: string, b: string, d: string, k: string)
    requires IsByteString(a) && IsByteString(j) && IsByteString(b) && IsByteString(k)
    ensures RootPath(prefix, a, j) != ContextPath(prefix, b, d, k)
  {
    RootShape(prefix, a, j);
    ContextShape(prefix, b, d, k);
    var x, y := Encode(j), d + "/" + Encode(k);
    if RootPath(prefix, a, j) == ContextPath(prefix, b, d, k) {
      SameBase(prefix, a, b, "root" + "/" + x, "contexts" + "/" + y);
      ContextsAreNotRoot(y, x);
    }
  }

  /** Distinct routes never share a path, as long as no two contexts of a base share a
      collection. */
  lemma RoutesDoNotCollide(prefix: string, m: string, j: string, c: Option<string>, n: string, k: string,
                           d: Option<string>)
    requires IsByteString(m) && IsByteString(j) && IsByteString(n) && IsByteString(k)
    requires IsByteString(Ns(m)) && IsByteString(Ns(n))
    requires Locate(prefix, m, j, c).Some? && Locate(prefix, m, j, c) == Locate(prefix, n, k, d)
    requires Ns(m) == Ns(n) && Ctx(m).Some? && Ctx(n).Some? && c == d ==> Ctx(m) == Ctx(n)
    ensures m == n && j == k
  {
    if Ctx(m).None? && Ctx(n).None? {
      RootPathsDiffer(prefix, m, j, n, k);
    } else if Ctx(m).Some? && Ctx(n).Some? {
      ContextPathsDiffer(prefix, Ns(m), c.value, j, Ns(n), d.value, k);
      NsAndCtxDetermine(m, n);
    } else if Ctx(m).None? {
      RootIsNoContext(prefix, m, j, Ns(n), d.value, k);
    } else {
      RootIsNoContext(prefix, n, k, Ns(m), c.value, j);
    }
  }

  lemma AuthShape(prefix: string, parts: (string, string, string, string)) returns (x: string)
    ensures AuthPath(prefix, parts) == ValuesPath(prefix, AUTH_NAMESPACE) + "/" + ("root" + "/" + x)
  {
    x := parts.0 + "/" + parts.1 + "/" + parts.2 + "/" + parts.3;
  }

  /** Auth records are apart from every other route. */
  lemma AuthIsApart(prefix: string, parts: (string, string, string, string), n: string, k: string, d: Option<string>)
    requires IsByteString(n) && IsByteString(k) && IsByteString(Ns(n)) && n != AUTH_NAMESPACE
    ensures Locate(prefix, n, k, d) != Some(AuthPath(prefix, parts))
  {
    if Ctx(n).None? {
      RootIsNoAuth(prefix, parts, n, k);
    } else if d.Some? {
      ContextIsNoAuth(prefix, parts, Ns(n), d.value, k);
    }
  }

  lemma RootIsNoAuth(prefix: string, parts: (string, string, string, string), n: string, k: string)
    requires IsByteString(n) && IsByteString(k) && n != AUTH_NAMESPACE
    ensures RootPath(prefix, n, k) != AuthPath(prefix, parts)
  {
    var x := AuthShape(prefix, parts);
    RootShape(prefix, n, k);
    if RootPath(prefix, n, k) == AuthPath(prefix, parts) {
      SameBase(prefix, n, AUTH_NAMESPACE, "root" + "/" + Encode(k), "root" + "/" + x);
    }
  }

  lemma ContextIsNoAuth(prefix: string, parts: (string, string, string, string), base: string, d: string, k: string)
    requires IsByteString(base) && IsByteString(k)
    ensures ContextPath(prefix, base, d, k) != AuthPath(prefix, parts)
  {
    var x := AuthShape(prefix, parts);
    ContextShape(prefix, base, d, k);
    var y := d + "/" + Encode(k);
    if ContextPath(prefix, base, d, k) == AuthPath(prefix, parts) {
      SameBase(prefix, base, AUTH_NAMESPACE, "contexts" + "/" + y, "root" + "/" + x);
      ContextsAreNotRoot(y, x);
    }
  }

  lemma ContextsAreNotRoot(x: string, y: string)
    ensures "contexts" + "/" + x != "root" + "/" + y
  {
    assert ("contexts" + "/" + x)[0] == 'c' && ("root" + "/" + y)[0] == 'r';
  }

  lemma IndexIsApart(prefix: string, base: string, other: string, rest: string)
    requires IsByteString(base) && IsByteString(other)
    ensures IndexPath(prefix, base) != ValuesPath(prefix, other) + rest
  {
    assert IndexPath(prefix, base) == prefix + ("/indexes/" + Encode(base));
    assert ValuesPath(prefix, other) + rest == prefix + ("/values/" + Encode(other) + rest);
    var x, y := "/indexes/" + Encode(base), "/values/" + Encode(other) + rest;
    assert x[1] == 'i' && y[1] == 'v';
    if prefix + x == prefix + y { SamePrefix(prefix, x, y); }
  }

  lemma IndexPathsDiffer(prefix: string, a: string, b: string)
    requires IsByteString(a) && IsByteString(b) && IndexPath(prefix, a) == IndexPath(prefix, b)
    ensures a == b
  {
    SamePrefix(prefix + "/indexes/", Encode(a), Encode(b));
    EncodeIsInjective(a, b);
  }
}
