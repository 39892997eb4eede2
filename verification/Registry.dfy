/** Store registrations and the overlap test that routes mutations to them. */
module Registry {
  import opened Wrappers
  import opened Text
  import opened Patterns

  datatype StoreRegistration = StoreRegistration(id: nat, owner: nat, namespacePattern: string, keyPattern: string)

  datatype BatchStoreMatch = NoStore | Store(store: StoreRegistration) | Mixed

  predicate IsLiteralText(s: string) { '*' !in s && '{' !in s }

  predicate HasSpecial(tokens: seq<Token>) { exists i | 0 <= i < |tokens| :: !tokens[i].Literal? }

  predicate HasWildcardOrCapture(pattern: string) { HasSpecial(TokensOf(pattern)) }

  predicate MatchesNamespace(pattern: string, namespace: string) {
    || Matches(pattern, namespace)
    || (!HasWildcardOrCapture(pattern) && StartsWith(namespace, pattern)
        && StartsWith(namespace[|pattern|..], "::"))
  }

  /** The six-way test between a registered key pattern and a requested one. */
  predicate PatternOverlap(left: string, right: string) {
    || left == "*"
    || right == "*"
    || Matches(left, right)
    || Matches(right, left)
    || (EndsWithStar(left) && StartsWith(right, BeforeStar(left)))
    || (EndsWithStar(right) && StartsWith(left, BeforeStar(right)))
  }

  predicate Overlaps(store: StoreRegistration, namespace: string, pattern: string) {
    MatchesNamespace(store.namespacePattern, namespace) && PatternOverlap(store.keyPattern, pattern)
  }

  /** A registration covers one route when its namespace and its key pattern match. */
  predicate CoversRoute(store: StoreRegistration, namespace: string, key: string) {
    MatchesNamespace(store.namespacePattern, namespace) && Matches(store.keyPattern, key)
  }

  class StoreTable {
    var stores: seq<StoreRegistration>

    constructor ()
      ensures stores == []
    {
      stores := [];
    }

    method RegisterStore(registration: StoreRegistration)
      modifies this
      ensures stores == old(stores) + [registration]
    {
      stores := stores + [registration];
    }

    /** Keeps the registrations of the other owners, in order. */
    method RemoveOwner(owner: nat)
      modifies this
      ensures stores == Retained(old(stores), owner)
      ensures forall s :: s in stores <==> s in old(stores) && s.owner != owner
    {
      var kept, i := [], 0;
      while i < |stores|
        invariant i <= |stores| && stores == old(stores)
        invariant kept == Retained(stores[..i], owner)
      {
        assert stores[..i + 1][..i] == stores[..i];
        if stores[i].owner != owner { kept := kept + [stores[i]]; }
        i := i + 1;
      }
      assert stores[..i] == stores;
      RetainedMeans(stores, owner);
      stores := kept;
    }

    /** The newest registration that overlaps the requested pattern. */
    method StoreFor(namespace: string, pattern: string) returns (r: Option<StoreRegistration>)
      ensures r == NewestFor(stores, namespace, pattern)
    {
      var i := |stores|;
      assert stores[..i] == stores;
      while i > 0
        invariant 0 <= i <= |stores|
        invariant NewestFor(stores, namespace, pattern) == NewestFor(stores[..i], namespace, pattern)
      {
        i := i - 1;
        assert stores[..i + 1][..i] == stores[..i];
        if Overlaps(stores[i], namespace, pattern) { return Some(stores[i]); }
      }
      assert stores[..0] == [];
      return None;
    }

    /** The newest registration that overlaps every pattern of a batch; a batch that some
        registration overlaps only in part is mixed. */
    method StoreForBatch(namespace: string, patterns: seq<string>) returns (r: BatchStoreMatch)
      ensures r == BatchMatch(stores, namespace, patterns)
    {
      var any, i := false, |stores|;
      assert stores[..i] == stores;
      while i > 0
        invariant 0 <= i <= |stores|
        invariant NewestForAll(stores, namespace, patterns) == NewestForAll(stores[..i], namespace, patterns)
        invariant any || AnyOverlap(stores[..i], namespace, patterns) <==> AnyOverlap(stores, namespace, patterns)
      {
        i := i - 1;
        assert stores[..i + 1][..i] == stores[..i];
        any := any || OverlapsAny(stores[i], namespace, patterns);
        if OverlapsAll(stores[i], namespace, patterns) { return Store(stores[i]); }
      }
      assert stores[..0] == [];
      return if any then Mixed else NoStore;
    }
  }

  predicate AnyOverlap(stores: seq<StoreRegistration>, namespace: string, patterns: seq<string>) {
    stores != [] && (OverlapsAny(stores[|stores| - 1], namespace, patterns)
                     || AnyOverlap(stores[..|stores| - 1], namespace, patterns))
  }

  function NewestForAll(stores: seq<StoreRegistration>, namespace: string,
                        patterns: seq<string>): Option<StoreRegistration> {
    if stores == [] then None
    else if OverlapsAll(stores[|stores| - 1], namespace, patterns) then Some(stores[|stores| - 1])
    else NewestForAll(stores[..|stores| - 1], namespace, patterns)
  }

  function BatchMatch(stores: seq<StoreRegistration>, namespace: string, patterns: seq<string>): BatchStoreMatch {
    match NewestForAll(stores, namespace, patterns)
    case Some(store) => Store(store)
    case None => if AnyOverlap(stores, namespace, patterns) then Mixed else NoStore
  }

  /** The registrations of the other owners, in order. */
  function Retained(stores: seq<StoreRegistration>, owner: nat): seq<StoreRegistration> {
    if stores == [] then []
    else
      var last := stores[|stores| - 1];
      Retained(stores[..|stores| - 1], owner) + (if last.owner != owner then [last] else [])
  }

  predicate OverlapsAll(store: StoreRegistration, namespace: string, patterns: seq<string>) {
    forall k | 0 <= k < |patterns| :: Overlaps(store, namespace, patterns[k])
  }

  predicate OverlapsAny(store: StoreRegistration, namespace: string, patterns: seq<string>) {
    exists k | 0 <= k < |patterns| :: Overlaps(store, namespace, patterns[k])
  }

  function NewestFor(stores: seq<StoreRegistration>, namespace: string, pattern: string): Option<StoreRegistration> {
    if stores == [] then None
    else if Overlaps(stores[|stores| - 1], namespace, pattern) then Some(stores[|stores| - 1])
    else NewestFor(stores[..|stores| - 1], namespace, pattern)
  }

  // ---- literal and prefix patterns ----------------------------------------------------------------

  lemma LiteralTokens(s: string)
    requires IsLiteralText(s) && s != ""
    ensures TokensOf(s) == [Literal(s)]
  {
    NoDollarFrom(s, 0);
    FindIsFirst(s, '*');
    FindIsFirst(s, '{');
    assert s[0] in s && LiteralEnd(s) == |s| && s[..|s|] == s;
    assert FirstToken(s) == (Literal(s), |s|);
  }

  lemma LiteralMatches(s: string, value: string)
    requires IsLiteralText(s)
    ensures Matches(s, value) <==> s == value
  {
    if s != "" {
      LiteralTokens(s);
      assert TokensOf(s)[1..] == [];
      assert Match([Literal(s)], value) == if StartsWith(value, s) then Match([], value[|s|..]) else None by {
        assert [Literal(s)][1..] == [];
      }
    } else {
      assert TokensOf(s) == [];
    }
  }

  /** The first star of a literal text that a star follows. */
  lemma FindStarAfter(prefix: string)
    requires IsLiteralText(prefix)
    ensures Find(prefix + "*", '*') == Some(|prefix|)
    ensures Find(prefix + "*", '{') == None && FindDollar(prefix + "*") == None
  {
    var s := prefix + "*";
    assert s[..|prefix|] == prefix;
    FindIs(s, '*', |prefix|);
    FindIsFirst(s, '{');
    NoDollarFrom(s, 0);
  }

  lemma StarTokens(prefix: string)
    requires IsLiteralText(prefix)
    ensures TokensOf(prefix + "*") == (if prefix == "" then [] else [Literal(prefix)]) + [Wildcard]
  {
    assert TokensOf("*") == [Wildcard];
    if prefix == "" {
      assert prefix + "*" == "*";
    } else {
      var s := prefix + "*";
      FindStarAfter(prefix);
      assert prefix[0] in prefix && s[0] == prefix[0];
      assert FirstToken(s) == (Literal(prefix), |prefix|) by {
        assert s[..|prefix|] == prefix && LiteralEnd(s) == |prefix|;
      }
      assert s[|prefix|..] == "*";
    }
  }

  lemma StarMatches(prefix: string, value: string)
    requires IsLiteralText(prefix)
    ensures Matches(prefix + "*", value) <==> StartsWith(value, prefix)
  {
    StarTokens(prefix);
    var tokens := TokensOf(prefix + "*");
    var rest := if prefix == "" then value else if StartsWith(value, prefix) then value[|prefix|..] else "";
    assert Longest([], rest, |rest|).Some? by { assert rest[|rest|..] == ""; }
    assert Match([Wildcard], rest).Some? by { assert [Wildcard][1..] == []; }
    if prefix != "" { assert tokens[1..] == [Wildcard]; }
  }

  predicate AllLiteral(tokens: seq<Token>) { forall i | 0 <= i < |tokens| :: tokens[i].Literal? }

  function Texts(tokens: seq<Token>): string
    requires AllLiteral(tokens)
  {
    if tokens == [] then "" else tokens[0].text + Texts(tokens[1..])
  }

  lemma {:induction false} LiteralsMatchTheirTexts(tokens: seq<Token>, value: string)
    requires AllLiteral(tokens)
    ensures Match(tokens, value).Some? <==> value == Texts(tokens)
  {
    if tokens != [] {
      var n := |tokens[0].text|;
      if StartsWith(value, tokens[0].text) {
        LiteralsMatchTheirTexts(tokens[1..], value[n..]);
        assert value == value[..n] + value[n..];
      }
    }
  }

  lemma TextsUnfold(token: Token, rest: seq<Token>)
    requires AllLiteral([token] + rest)
    ensures token.Literal? && AllLiteral(rest) && Texts([token] + rest) == token.text + Texts(rest)
  {
    var all := [token] + rest;
    assert all[0] == token && all[1..] == rest;
    assert forall i | 0 <= i < |rest| :: rest[i] == all[i + 1];
  }

  lemma LiteralIsText(pattern: string, token: Token, n: nat)
    requires pattern != "" && FirstToken(pattern) == (token, n) && token.Literal?
    ensures token.text == pattern[..n]
  {
  }

  lemma {:induction false} TokensKeepText(pattern: string)
    requires AllLiteral(TokensOf(pattern))
    ensures Texts(TokensOf(pattern)) == pattern
    decreases |pattern|
  {
    if pattern != "" {
      var (token, n) := FirstToken(pattern);
      TokensUnfold(pattern, token, n);
      TextsUnfold(token, TokensOf(pattern[n..]));
      LiteralIsText(pattern, token, n);
      TokensKeepText(pattern[n..]);
    }
  }

  /** A pattern of literal tokens only, even one with an unclosed brace, matches its own text. */
  lemma LiteralTokensMatchText(pattern: string, value: string)
    requires !HasWildcardOrCapture(pattern)
    ensures Matches(pattern, value) <==> value == pattern
  {
    TokensKeepText(pattern);
    LiteralsMatchTheirTexts(TokensOf(pattern), value);
  }

  // ---- what the routing tests mean --------------------------------------------------------------

  /** A namespace pattern without wildcard or capture covers itself and its contexts. */
  lemma PlainNamespaceCoversItsContexts(pattern: string, namespace: string)
    requires !HasWildcardOrCapture(pattern)
    ensures MatchesNamespace(pattern, namespace) <==> namespace == pattern || StartsWith(namespace, pattern + "::")
  {
    LiteralTokensMatchText(pattern, namespace);
    var n := |pattern|;
    if StartsWith(namespace, pattern) && |namespace| >= n + 2 {
      assert namespace[n..][..2] == namespace[n..n + 2];
      assert namespace[..n + 2] == pattern + namespace[n..n + 2];
    }
    if StartsWith(namespace, pattern + "::") {
      assert namespace[..n] == (pattern + "::")[..n] == pattern;
      assert namespace[n..n + 2] == (pattern + "::")[n..];
    }
  }

  /** What a namespace pattern stands for: with a wildcard or capture, the namespaces that split
      along its tokens; otherwise itself and its contexts. */
  ghost predicate CoversNamespace(pattern: string, namespace: string) {
    if HasWildcardOrCapture(pattern) then HasSplit(TokensOf(pattern), namespace)
    else namespace == pattern || exists context :: namespace == pattern + "::" + context
  }

  lemma NamespaceCoverIff(pattern: string, namespace: string)
    ensures MatchesNamespace(pattern, namespace) <==> CoversNamespace(pattern, namespace)
  {
    if HasWildcardOrCapture(pattern) {
      MatchesIffSplits(pattern, namespace);
    } else {
      PlainNamespaceCoversItsContexts(pattern, namespace);
      var own := pattern + "::";
      if StartsWith(namespace, own) { assert namespace == own + namespace[|own|..]; }
      if context :| namespace == own + context { assert namespace[..|own|] == own; }
    }
  }

  /** For a key without pattern characters the six-way test is exactly a match. */
  lemma OverlapIsMatchOnKeys(left: string, key: string)
    requires IsLiteralText(key)
    ensures PatternOverlap(left, key) <==> Matches(left, key)
  {
    if left == "*" { StarMatches("", key); }
    LiteralMatches(key, left);
    if EndsWithStar(left) && StartsWith(key, BeforeStar(left)) {
      var prefix := BeforeStar(left);
      assert IsLiteralText(prefix) by {
        forall c | c in prefix ensures c in key { var i :| 0 <= i < |prefix| && prefix[i] == c; assert key[i] == c; }
      }
      assert left == prefix + "*";
      StarMatches(prefix, key);
    }
    assert !EndsWithStar(key) by { assert key != "" ==> key[|key| - 1] in key; }
    if left == key { LiteralMatches(left, key); }
  }

  lemma OverlapIsCover(store: StoreRegistration, namespace: string, key: string)
    requires IsLiteralText(key)
    ensures Overlaps(store, namespace, key) <==> CoversRoute(store, namespace, key)
  {
    OverlapIsMatchOnKeys(store.keyPattern, key);
  }

  /** `store_for` on such a key: the newest registration that truly matches, if there is one. */
  lemma {:induction false} NewestMatchingStoreWins(stores: seq<StoreRegistration>, namespace: string, key: string)
    returns (i: int)
    requires IsLiteralText(key)
    ensures -1 <= i < |stores|
    ensures NewestFor(stores, namespace, key) == if i < 0 then None else Some(stores[i])
    ensures i >= 0 ==> CoversRoute(stores[i], namespace, key)
    ensures forall j | i < j < |stores| :: !CoversRoute(stores[j], namespace, key)
  {
    if stores == [] {
      i := -1;
    } else {
      var last := |stores| - 1;
      OverlapIsCover(stores[last], namespace, key);
      if CoversRoute(stores[last], namespace, key) {
        i := last;
      } else {
        i := NewestMatchingStoreWins(stores[..last], namespace, key);
        assert forall j | 0 <= j < last :: stores[..last][j] == stores[j];
      }
    }
  }

  /** A new registration takes over exactly what it overlaps. */
  lemma NewRegistrationWins(stores: seq<StoreRegistration>, registration: StoreRegistration, namespace: string,
                            pattern: string)
    ensures NewestFor(stores + [registration], namespace, pattern)
            == if Overlaps(registration, namespace, pattern) then Some(registration)
               else NewestFor(stores, namespace, pattern)
  {
    assert (stores + [registration])[..|stores|] == stores;
  }

  lemma {:induction false} RetainedMeans(stores: seq<StoreRegistration>, owner: nat)
    ensures forall s :: s in Retained(stores, owner) <==> s in stores && s.owner != owner
  {
    if stores != [] {
      var init, last := stores[..|stores| - 1], stores[|stores| - 1];
      RetainedMeans(init, owner);
      assert stores == init + [last];
    }
  }

  lemma {:induction false} NothingOfOwner(stores: seq<StoreRegistration>, owner: nat)
    requires forall i | 0 <= i < |stores| :: stores[i].owner != owner
    ensures Retained(stores, owner) == stores
  {
    if stores != [] {
      NothingOfOwner(stores[..|stores| - 1], owner);
      assert stores == stores[..|stores| - 1] + [stores[|stores| - 1]];
    }
  }

  /** Removing an owner undoes its registration. */
  lemma RemovalUndoesRegistration(stores: seq<StoreRegistration>, registration: StoreRegistration)
    requires forall i | 0 <= i < |stores| :: stores[i].owner != registration.owner
    ensures Retained(stores + [registration], registration.owner) == stores
  {
    assert (stores + [registration])[..|stores|] == stores;
    NothingOfOwner(stores, registration.owner);
  }

  predicate CoversAll(store: StoreRegistration, namespace: string, keys: seq<string>) {
    forall k | 0 <= k < |keys| :: CoversRoute(store, namespace, keys[k])
  }

  predicate CoversAny(store: StoreRegistration, namespace: string, keys: seq<string>) {
    exists k | 0 <= k < |keys| :: CoversRoute(store, namespace, keys[k])
  }

  lemma BatchOverlapIsMatch(store: StoreRegistration, namespace: string, keys: seq<string>)
    requires forall k | 0 <= k < |keys| :: IsLiteralText(keys[k])
    ensures OverlapsAll(store, namespace, keys) <==> CoversAll(store, namespace, keys)
    ensures OverlapsAny(store, namespace, keys) <==> CoversAny(store, namespace, keys)
  {
    forall k | 0 <= k < |keys|
      ensures Overlaps(store, namespace, keys[k]) <==> CoversRoute(store, namespace, keys[k])
    {
      OverlapIsCover(store, namespace, keys[k]);
    }
  }

  /** A batch goes to the newest registration that matches all its keys. */
  lemma {:induction false} BatchGoesToOneStore(stores: seq<StoreRegistration>, namespace: string, keys: seq<string>)
    returns (i: int)
    requires forall k | 0 <= k < |keys| :: IsLiteralText(keys[k])
    ensures -1 <= i < |stores|
    ensures NewestForAll(stores, namespace, keys) == if i < 0 then None else Some(stores[i])
    ensures i >= 0 ==> CoversAll(stores[i], namespace, keys)
    ensures forall j | i < j < |stores| :: !CoversAll(stores[j], namespace, keys)
  {
    if stores == [] {
      i := -1;
    } else {
      i := |stores| - 1;
      BatchOverlapIsMatch(stores[i], namespace, keys);
      if !OverlapsAll(stores[i], namespace, keys) {
        i := BatchGoesToOneStore(stores[..i], namespace, keys);
      }
    }
  }

  /** Without such a registration, a batch is mixed exactly when some registration matches
      one of its keys. */
  lemma {:induction false} MixedBatchHasAMatch(stores: seq<StoreRegistration>, namespace: string, keys: seq<string>)
    requires forall k | 0 <= k < |keys| :: IsLiteralText(keys[k])
    ensures AnyOverlap(stores, namespace, keys)
            <==> exists j | 0 <= j < |stores| :: CoversAny(stores[j], namespace, keys)
  {
    if stores != [] {
      var last := |stores| - 1;
      BatchOverlapIsMatch(stores[last], namespace, keys);
      MixedBatchHasAMatch(stores[..last], namespace, keys);
      assert forall j | 0 <= j < last :: stores[..last][j] == stores[j];
    }
  }

  /** A literal text, or one followed by a single star. */
  predicate IsPrefixPattern(pattern: string) {
    IsLiteralText(if EndsWithStar(pattern) then BeforeStar(pattern) else pattern)
  }

  lemma PrefixPatternMatch(pattern: string, value: string)
    requires IsPrefixPattern(pattern)
    ensures Matches(pattern, value) <==> PrefixPatternMatches(pattern, value)
  {
    if EndsWithStar(pattern) {
      assert pattern == BeforeStar(pattern) + "*";
      StarMatches(BeforeStar(pattern), value);
    } else {
      LiteralMatches(pattern, value);
    }
  }

  ghost predicate CommonKey(left: string, right: string, key: string) {
    Matches(left, key) && PrefixPatternMatches(right, key)
  }

  /** Between prefix patterns the overlap test is exactly the existence of a common key. */
  lemma PrefixOverlapIsExact(left: string, right: string)
    requires IsPrefixPattern(left) && IsPrefixPattern(right)
    ensures PatternOverlap(left, right) <==> exists key :: CommonKey(left, right, key)
  {
    PrefixPatternMatch(left, right);
    PrefixPatternMatch(right, left);
    var l := if EndsWithStar(left) then BeforeStar(left) else left;
    var r := if EndsWithStar(right) then BeforeStar(right) else right;
    if PatternOverlap(left, right) {
      var key := if |l| <= |r| then r else l;
      PrefixPatternMatch(left, key);
      assert CommonKey(left, right, key);
    }
    if key :| CommonKey(left, right, key) {
      PrefixPatternMatch(left, key);
      if |l| <= |r| {
        assert EndsWithStar(left) ==> r[..|l|] == key[..|r|][..|l|] == l;
      } else {
        assert EndsWithStar(right) ==> l[..|r|] == key[..|l|][..|r|] == r;
      }
    }
  }

  // ---- deletion prefixes -------------------------------------------------------------------------

  /** The text of the leading literal tokens. */
  function Head(tokens: seq<Token>): string {
    if tokens == [] || !tokens[0].Literal? then "" else tokens[0].text + Head(tokens[1..])
  }

  /** A pattern's own text starts with that of its leading literals. */
  lemma {:induction false} PatternStartsWithHead(pattern: string)
    ensures StartsWith(pattern, Head(TokensOf(pattern)))
    decreases |pattern|
  {
    if pattern != "" {
      var (token, n) := FirstToken(pattern);
      TokensUnfold(pattern, token, n);
      var tokens, rest := TokensOf(pattern), TokensOf(pattern[n..]);
      assert tokens[0] == token && tokens[1..] == rest;
      if token.Literal? {
        PatternStartsWithHead(pattern[n..]);
        StartsWithBoth(pattern, pattern[..n], Head(rest));
      }
    }
  }

  lemma StartsWithBoth(s: string, a: string, b: string)
    requires StartsWith(s, a) && StartsWith(s[|a|..], b)
    ensures StartsWith(s, a + b)
  {
    assert s[..|a + b|] == s[..|a|] + s[|a|..][..|b|];
  }

  /** Every value that splits along the tokens starts with that text. */
  lemma {:induction false} SplitStartsWithHead(tokens: seq<Token>, value: string, pieces: seq<string>)
    requires Splits(tokens, value, pieces)
    ensures StartsWith(value, Head(tokens))
    decreases |tokens|
  {
    if tokens != [] && tokens[0].Literal? {
      SplitStartsWithHead(tokens[1..], value[|pieces[0]|..], pieces[1..]);
      StartsWithBoth(value, tokens[0].text, Head(tokens[1..]));
    }
  }

  /** Some value that splits along the tokens. */
  lemma {:induction false} SomeSplit(tokens: seq<Token>) returns (value: string, pieces: seq<string>)
    ensures Splits(tokens, value, pieces)
    decreases |tokens|
  {
    if tokens == [] {
      value, pieces := "", [];
    } else {
      var piece := if tokens[0].Literal? then tokens[0].text else "x";
      value, pieces := SomeSplit(tokens[1..]);
      SplitsMore(tokens, piece, value, pieces);
      value, pieces := piece + value, [piece] + pieces;
    }
  }

  lemma SplitsMore(tokens: seq<Token>, piece: string, value: string, pieces: seq<string>)
    requires tokens != [] && Splits(tokens[1..], value, pieces)
    requires (tokens[0].Literal? ==> piece == tokens[0].text) && (tokens[0].Capture? ==> piece != "")
    ensures Splits(tokens, piece + value, [piece] + pieces)
  {
    assert (piece + value)[..|piece|] == piece && (piece + value)[|piece|..] == value;
    assert ([piece] + pieces)[1..] == pieces;
  }

  /** With a wildcard or a capture, any text can follow that of the leading literals. */
  lemma {:induction false} SplitWith(tokens: seq<Token>, q: string) returns (value: string, pieces: seq<string>)
    requires HasSpecial(tokens)
    ensures Splits(tokens, value, pieces) && StartsWith(value, Head(tokens) + q)
    decreases |tokens|
  {
    if tokens[0].Literal? {
      assert HasSpecial(tokens[1..]) by {
        var i :| 0 <= i < |tokens| && !tokens[i].Literal?;
        assert tokens[1..][i - 1] == tokens[i];
      }
      var text := tokens[0].text;
      value, pieces := SplitWith(tokens[1..], q);
      SplitsMore(tokens, text, value, pieces);
      HeadFirst(text, Head(tokens[1..]), q, value);
      value, pieces := text + value, [text] + pieces;
    } else {
      value, pieces := SomeSplit(tokens[1..]);
      SplitsMore(tokens, q + "x", value, pieces);
      assert (q + "x" + value)[..|q|] == q && Head(tokens) + q == q;
      value, pieces := q + "x" + value, [q + "x"] + pieces;
    }
  }

  lemma HeadFirst(text: string, head: string, q: string, value: string)
    requires StartsWith(value, head + q)
    ensures StartsWith(text + value, text + head + q)
  {
    assert (text + value)[..|text|] == text && (text + value)[|text|..] == value;
    StartsWithBoth(text + value, text, head + q);
    assert text + (head + q) == text + head + q;
  }

  ghost predicate HasCommonKey(left: string, right: string) { exists key :: CommonKey(left, right, key) }

  /** When a registered pattern and a deletion prefix have a key in common. */
  predicate CanMeet(left: string, prefix: string) {
    var h := Head(TokensOf(left));
    if HasWildcardOrCapture(left) then StartsWith(h, prefix) || StartsWith(prefix, h) else StartsWith(left, prefix)
  }

  lemma StarIsPrefix(prefix: string, key: string)
    ensures PrefixPatternMatches(prefix + "*", key) <==> StartsWith(key, prefix)
  {
    assert BeforeStar(prefix + "*") == prefix;
  }

  lemma PrefixesOfOne(s: string, a: string, b: string)
    requires StartsWith(s, a) && StartsWith(s, b)
    ensures if |b| <= |a| then StartsWith(a, b) else StartsWith(b, a)
  {
    if |b| <= |a| {
      assert a[..|b|] == s[..|a|][..|b|] == s[..|b|];
    } else {
      assert b[..|a|] == s[..|b|][..|a|] == s[..|a|];
    }
  }

  lemma PrefixOfPrefix(s: string, a: string, b: string)
    requires StartsWith(s, a) && StartsWith(a, b)
    ensures StartsWith(s, b)
  {
    assert s[..|b|] == s[..|a|][..|b|];
  }

  lemma MeetingHasKey(left: string, prefix: string)
    requires CanMeet(left, prefix)
    ensures HasCommonKey(left, prefix + "*")
  {
    var tokens := TokensOf(left);
    var h, key := Head(tokens), left;
    if HasWildcardOrCapture(left) {
      var q := if StartsWith(h, prefix) then "" else prefix[|h|..];
      var value, pieces := SplitWith(tokens, q);
      MatchIsComplete(tokens, value, pieces);
      key := value;
      assert StartsWith(h + q, prefix);
      PrefixOfPrefix(key, h + q, prefix);
    } else {
      LiteralTokensMatchText(left, left);
    }
    StarIsPrefix(prefix, key);
    assert CommonKey(left, prefix + "*", key);
  }

  lemma KeyMeansMeeting(left: string, prefix: string, key: string)
    requires CommonKey(left, prefix + "*", key)
    ensures CanMeet(left, prefix)
  {
    StarIsPrefix(prefix, key);
    if HasWildcardOrCapture(left) {
      var pieces := MatchIsPreferredSplit(TokensOf(left), key);
      SplitStartsWithHead(TokensOf(left), key, pieces);
      PrefixesOfOne(key, Head(TokensOf(left)), prefix);
    } else {
      LiteralTokensMatchText(left, key);
    }
  }

  /** A registered pattern and a deletion prefix have a key in common exactly when the text of the
      pattern's leading literals and the prefix do not part; a pattern that is all text has only
      itself. */
  lemma CommonKeyIff(left: string, prefix: string)
    ensures HasCommonKey(left, prefix + "*") <==> CanMeet(left, prefix)
  {
    if CanMeet(left, prefix) {
      MeetingHasKey(left, prefix);
    } else {
      forall key
        ensures !CommonKey(left, prefix + "*", key)
      {
        if CommonKey(left, prefix + "*", key) { KeyMeansMeeting(left, prefix, key); }
      }
    }
  }

  /** Against a deletion prefix two of the six tests decide. */
  lemma OverlapWithPrefix(left: string, prefix: string)
    requires IsLiteralText(prefix)
    ensures PatternOverlap(left, prefix + "*") <==> Matches(left, prefix + "*") || StartsWith(left, prefix)
  {
    var right := prefix + "*";
    StarMatches(prefix, left);
    StarMatches("", right);
    assert BeforeStar(right) == prefix && (right == "*" ==> prefix == "");
    assert "" + "*" == "*";
    if EndsWithStar(left) && StartsWith(right, BeforeStar(left)) { StarsOverlap(left, prefix); }
  }

  lemma StarsOverlap(left: string, prefix: string)
    requires IsLiteralText(prefix) && EndsWithStar(left) && StartsWith(prefix + "*", BeforeStar(left))
    ensures Matches(left, prefix + "*") || StartsWith(left, prefix)
  {
    var q := BeforeStar(left);
    assert left == q + "*";
    if |q| <= |prefix| {
      assert forall i | 0 <= i < |q| ::
          q[i] == (prefix + "*")[i] && (prefix + "*")[i] == prefix[i] && prefix[i] in prefix;
      assert IsLiteralText(q);
      StarMatches(q, prefix + "*");
    } else {
      assert q == prefix + "*";
      assert left[..|prefix|] == prefix;
    }
  }

  predicate MissesPrefix(left: string, prefix: string) {
    var h := Head(TokensOf(left));
    && HasWildcardOrCapture(left) && |h| < |prefix| && StartsWith(prefix, h)
    && !StartsWith(left, prefix) && !Matches(left, prefix + "*")
  }

  /** The overlap test sees no overlap where there is none. It misses one exactly when a wildcard or
      a capture of the registered pattern starts within the deletion prefix, the pattern's text
      does not start with that prefix, and the pattern does not match the prefix with its star. */
  lemma OverlapMissesIff(left: string, prefix: string)
    requires IsLiteralText(prefix)
    ensures PatternOverlap(left, prefix + "*") ==> HasCommonKey(left, prefix + "*")
    ensures HasCommonKey(left, prefix + "*") && !PatternOverlap(left, prefix + "*")
            <==> MissesPrefix(left, prefix)
  {
    var h := Head(TokensOf(left));
    CommonKeyIff(left, prefix);
    OverlapWithPrefix(left, prefix);
    PatternStartsWithHead(left);
    if StartsWith(left, prefix) { PrefixesOfOne(left, h, prefix); }
    if StartsWith(h, prefix) { PrefixOfPrefix(left, h, prefix); }
    if Matches(left, prefix + "*") {
      StarIsPrefix(prefix, prefix + "*");
      assert CommonKey(left, prefix + "*", prefix + "*");
    }
  }

  lemma CaptureTokens()
    ensures TokensOf("{x}.y") == [Capture("x"), Literal(".y")]
  {
    var left := "{x}.y";
    assert left[..2] == "{x";
    FindIs(left, '}', 2);
    assert FirstToken(left) == (Capture("x"), 3) by { assert left[1..2] == "x"; }
    assert left[3..] == ".y";
    LiteralTokens(".y");
  }

  /** A capture pattern can share a key with a deletion prefix that the test does not see. */
  lemma CaptureOverlapIsMissed()
    ensures CommonKey("{x}.y", "a*", "a.y") && !PatternOverlap("{x}.y", "a*")
  {
    CaptureTokens();
    CaptureThenText("a.y");
    CaptureThenText("a*");
    assert "a" + "*" == "a*";
    StarMatches("a", "{x}.y");
    assert BeforeStar("a*") == "a";
  }

  lemma CaptureThenText(value: string)
    requires value == "a.y" || value == "a*"
    ensures Match([Capture("x"), Literal(".y")], value).Some? <==> value == "a.y"
  {
    var rest := [Literal(".y")];
    assert [Capture("x"), Literal(".y")][1..] == rest && rest[1..] == [];
    if value == "a.y" {
      assert value[1..] == ".y" && value[1..][2..] == "";
      ShortestFinds(rest, "x", value, 1, 1);
    } else {
      assert Match(rest, value[1..]).None? && Match(rest, value[2..]).None?;
      assert Shortest(rest, "x", value, 3).None?;
      assert Shortest(rest, "x", value, 2).None?;
    }
  }
}
