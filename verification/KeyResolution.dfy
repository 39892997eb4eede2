/** `${name}` substitution in keys: the in-place loop of `resolve_key` and its meaning as one
    pass over the key as it was given. */
module KeyResolution {
  import opened Wrappers
  import opened Patterns

  /** The store's reply to a read of a variable. */
  datatype Reply = Value(text: string) | Absent | Failure

  /** The request's variables, and the store's replies to the reads of the key's places from left to
      right. Each place has its own, since the store can change between two reads; a reply that is
      not needed is not looked at. */
  datatype Scope = Scope(variables: map<string, string>, replies: seq<Reply>)

  datatype Error = StoreFailed | EmptyIdentifier

  function Replacement(scope: Scope, variable: string): Reply {
    if variable in scope.variables then Value(scope.variables[variable])
    else if scope.replies != [] then scope.replies[0]
    else Absent
  }

  /** The scope of the places after the first. */
  function Later(scope: Scope): Scope {
    if scope.replies == [] then scope else scope.(replies := scope.replies[1..])
  }

  // ---- one pass over the original key -----------------------------------------------------------------

  /** A key is text and `${name}` places, in order. */
  datatype Segment = Text(text: string) | Place(name: string)

  function Segments(key: string): seq<Segment>
    decreases |key|
  {
    match FindDollar(key)
    case None => [Text(key)]
    case Some(start) =>
      match Find(key[start + 2..], '}')
      case None => [Text(key)]
      case Some(offset) =>
        var end := start + 2 + offset;
        [Text(key[..start]), Place(key[start + 2..end])] + Segments(key[end + 1..])
  }

  function Source(segment: Segment): string {
    match segment
    case Text(text) => text
    case Place(name) => "${" + name + "}"
  }

  /** What a segment becomes, with the first reply if it is a place; an empty or unknown name stays
      as it is written. */
  function Rendered(scope: Scope, segment: Segment): Result<string, Error> {
    match segment
    case Text(text) => Ok(text)
    case Place(name) =>
      if name == "" then Ok(Source(segment))
      else
        match Replacement(scope, name)
        case Value(text) => Ok(text)
        case Absent => Ok(Source(segment))
        case Failure => Err(StoreFailed)
  }

  function RenderAll(scope: Scope, segments: seq<Segment>): Result<string, Error>
    decreases |segments|
  {
    if segments == [] then Ok("")
    else
      match Rendered(scope, segments[0])
      case Err(e) => Err(e)
      case Ok(text) =>
        match RenderAll(if segments[0].Place? then Later(scope) else scope, segments[1..])
        case Err(e) => Err(e)
        case Ok(rest) => Ok(text + rest)
  }

  /** A key must not be empty. */
  function AsKey(r: Result<string, Error>): Result<string, Error> {
    if r == Ok("") then Err(EmptyIdentifier) else r
  }

  function Prefixed(done: string, r: Result<string, Error>): Result<string, Error> {
    match r
    case Err(e) => Err(e)
    case Ok(text) => Ok(done + text)
  }

  function SourceOf(segments: seq<Segment>): string {
    if segments == [] then "" else Source(segments[0]) + SourceOf(segments[1..])
  }

  lemma SourceOfTwo(a: Segment, b: Segment, rest: seq<Segment>)
    ensures SourceOf([a, b] + rest) == Source(a) + Source(b) + SourceOf(rest)
  {
    assert ([a, b] + rest)[1..] == [b] + rest && ([b] + rest)[1..] == rest;
  }

  lemma PlaceSpells(key: string, start: nat, end: nat)
    requires start + 2 <= end < |key| && key[start] == '$' && key[start + 1] == '{' && key[end] == '}'
    ensures Source(Place(key[start + 2..end])) == key[start..end + 1]
  {
  }

  /** The first place of a key, with the first `$` and the closing brace after it. */
  predicate FirstPlace(key: string, start: nat, end: nat) {
    && start + 2 <= end < |key| && key[start] == '$' && key[start + 1] == '{' && key[end] == '}'
    && FindDollar(key) == Some(start) && Find(key[start + 2..], '}') == Some(end - start - 2)
  }

  predicate NoPlace(key: string) {
    match FindDollar(key)
    case None => true
    case Some(start) => Find(key[start + 2..], '}').None?
  }

  /** A place is found where the first `${` is, and it ends at the next brace; without one, no
      `${` has a brace after it. */
  lemma PlacesAreLeftmost(key: string, start: nat, end: nat)
    ensures FirstPlace(key, start, end) ==>
              && (forall i | 0 <= i < start :: !(key[i] == '$' && key[i + 1] == '{'))
              && '}' !in key[start + 2..end]
    ensures NoPlace(key) ==>
              forall i, j | 0 <= i && i + 2 <= j < |key| && key[i] == '$' && key[i + 1] == '{' :: key[j] != '}'
  {
    FindDollarIsFirst(key, 0);
    if FirstPlace(key, start, end) {
      FindIsFirst(key[start + 2..], '}');
      assert key[start + 2..][..end - start - 2] == key[start + 2..end];
    }
    if NoPlace(key) && FindDollar(key).Some? {
      var first := FindDollar(key).value;
      FindIsFirst(key[first + 2..], '}');
      assert forall j | first + 2 <= j < |key| :: key[j] == key[first + 2..][j - first - 2];
    }
  }

  lemma PlaceOrText(key: string) returns (start: nat, end: nat)
    ensures NoPlace(key) || FirstPlace(key, start, end)
  {
    start, end := 0, 0;
    if !NoPlace(key) {
      start := FindDollar(key).value;
      end := start + 2 + Find(key[start + 2..], '}').value;
      assert key[start + 2..][end - start - 2] == key[end];
    }
  }

  /** A key splits at its first place. */
  ghost predicate SplitsAt(key: string, start: nat, end: nat) {
    && start + 2 <= end < |key| && key[start] == '$' && key[start + 1] == '{' && key[end] == '}'
    && Segments(key) == [Text(key[..start]), Place(key[start + 2..end])] + Segments(key[end + 1..])
  }

  lemma SegmentsAt(key: string, start: nat, end: nat)
    requires FirstPlace(key, start, end)
    ensures SplitsAt(key, start, end)
  {
  }

  lemma ThreeParts(key: string, start: nat, end: nat)
    requires start <= end < |key|
    ensures key == key[..start] + key[start..end + 1] + key[end + 1..]
  {
  }

  /** The segments are the key: nothing is lost, and only the places can change. */
  lemma {:induction false} SegmentsSpellKey(key: string)
    ensures SourceOf(Segments(key)) == key
    decreases |key|
  {
    var start, end := PlaceOrText(key);
    if NoPlace(key) {
      assert Segments(key) == [Text(key)] && Segments(key)[1..] == [];
    } else {
      SegmentsSpellKey(key[end + 1..]);
      SegmentsAt(key, start, end);
      SourceOfTwo(Text(key[..start]), Place(key[start + 2..end]), Segments(key[end + 1..]));
      PlaceSpells(key, start, end);
      ThreeParts(key, start, end);
    }
  }

  /** A text, what a place became, and the rest. */
  function Joined(before: string, place: Result<string, Error>, rest: Result<string, Error>): Result<string, Error> {
    if place.Err? then place else Prefixed(before + place.value, rest)
  }

  /** Rendering from the left, one text and one place at a time. */
  lemma RenderPlace(scope: Scope, key: string, start: nat, end: nat)
    requires SplitsAt(key, start, end)
    ensures RenderAll(scope, Segments(key))
            == Joined(key[..start], Rendered(scope, Place(key[start + 2..end])),
                      RenderAll(Later(scope), Segments(key[end + 1..])))
  {
    RenderTwo(scope, key[..start], Place(key[start + 2..end]), Segments(key[end + 1..]));
  }

  lemma RenderTwo(scope: Scope, text: string, b: Segment, rest: seq<Segment>)
    requires b.Place?
    ensures RenderAll(scope, [Text(text), b] + rest)
            == Joined(text, Rendered(scope, b), RenderAll(Later(scope), rest))
  {
    assert ([Text(text), b] + rest)[1..] == [b] + rest && ([b] + rest)[1..] == rest;
    if Rendered(scope, b).Ok? { PrefixedTwice(text, Rendered(scope, b).value, RenderAll(Later(scope), rest)); }
  }

  lemma RenderText(scope: Scope, key: string)
    requires NoPlace(key)
    ensures RenderAll(scope, Segments(key)) == Ok(key)
  {
    assert Segments(key)[1..] == [] && key + "" == key;
  }

  lemma PrefixedTwice(a: string, b: string, r: Result<string, Error>)
    ensures Prefixed(a, Prefixed(b, r)) == Prefixed(a + b, r)
  {
    if r.Ok? { assert a + (b + r.value) == a + b + r.value; }
  }

  /** A text and a place become the text with the request's own variable or else what the store
      replies; the place stays as it is written if it has no name or the store has no value, and a
      failing store fails the key. */
  function Substituted(scope: Scope, text: string, name: string, later: Result<string, Error>): Result<string, Error> {
    if name == "" then Prefixed(text + "${}", later)
    else if name in scope.variables then Prefixed(text + scope.variables[name], later)
    else if scope.replies == [] || scope.replies[0] == Absent then Prefixed(text + ("${" + name + "}"), later)
    else if scope.replies[0] == Failure then Err(StoreFailed)
    else Prefixed(text + scope.replies[0].text, later)
  }

  /** The first place of a key is substituted, and what follows it is rendered on its own. */
  lemma PlaceIsSubstituted(scope: Scope, text: string, name: string, rest: string, key: string)
    requires '}' !in name && key == text + "${" + name + "}" + rest
    requires forall i | 0 <= i < |text| :: !(key[i] == '$' && key[i + 1] == '{')
    ensures RenderAll(scope, Segments(key))
            == Substituted(scope, text, name, RenderAll(Later(scope), Segments(rest)))
  {
    PlaceIsFirst(text, name, rest, key);
    RenderParts(scope, text, name, rest, key, |text|, |text| + 2 + |name|);
  }

  lemma RenderParts(scope: Scope, text: string, name: string, rest: string, key: string, start: nat, end: nat)
    requires SplitsAt(key, start, end) && key[..start] == text && key[start + 2..end] == name && key[end + 1..] == rest
    ensures RenderAll(scope, Segments(key))
            == Substituted(scope, text, name, RenderAll(Later(scope), Segments(rest)))
  {
    RenderPlace(scope, key, start, end);
    PlaceRenders(scope, text, name, RenderAll(Later(scope), Segments(rest)));
  }

  lemma PlaceIsFirst(text: string, name: string, rest: string, key: string)
    requires '}' !in name && key == text + "${" + name + "}" + rest
    requires forall i | 0 <= i < |text| :: !(key[i] == '$' && key[i + 1] == '{')
    ensures var start, end := |text|, |text| + 2 + |name|;
            SplitsAt(key, start, end) && key[..start] == text && key[start + 2..end] == name && key[end + 1..] == rest
  {
    var start, end := |text|, |text| + 2 + |name|;
    var tail := name + "}" + rest;
    assert key[start] == '$' && key[start + 1] == '{' && key[end] == '}';
    FindDollarIs(key, start);
    assert key[start + 2..] == tail && tail[..|name|] == name;
    FindIs(tail, '}', |name|);
    assert key[..start] == text && key[start + 2..end] == name && key[end + 1..] == rest;
    SegmentsAt(key, start, end);
  }

  lemma PlaceRenders(scope: Scope, text: string, name: string, later: Result<string, Error>)
    ensures Joined(text, Rendered(scope, Place(name)), later) == Substituted(scope, text, name, later)
  {
    assert "${" + "" + "}" == "${}";
  }

  // ---- the loop ---------------------------------------------------------------------------------------

  /** What is done, and one pass over what is left. */
  function Outlook(scope: Scope, done: string, tail: string): Result<string, Error> {
    Prefixed(done, RenderAll(scope, Segments(tail)))
  }

  lemma OutlookPlace(scope: Scope, done: string, tail: string, start: nat, end: nat)
    requires SplitsAt(tail, start, end)
    ensures var r := Rendered(scope, Place(tail[start + 2..end]));
            Outlook(scope, done, tail)
            == if r.Err? then r else Outlook(Later(scope), done + tail[..start] + r.value, tail[end + 1..])
  {
    RenderPlace(scope, tail, start, end);
    var r := Rendered(scope, Place(tail[start + 2..end]));
    if r.Ok? {
      PrefixedTwice(done, tail[..start] + r.value, RenderAll(Later(scope), Segments(tail[end + 1..])));
      assert done + (tail[..start] + r.value) == done + tail[..start] + r.value;
    }
  }

  lemma OutlookText(scope: Scope, done: string, tail: string)
    requires NoPlace(tail)
    ensures Outlook(scope, done, tail) == Ok(done + tail)
  {
    RenderText(scope, tail);
  }

  lemma OutlookStart(scope: Scope, key: string)
    ensures Outlook(scope, "", key) == RenderAll(scope, Segments(key))
  {
    var all := RenderAll(scope, Segments(key));
    if all.Ok? { assert "" + all.value == all.value; }
  }

  /** The first place of a text: where its `$` and its closing brace are. */
  method PlaceIn(tail: string) returns (r: Option<(nat, nat)>)
    ensures r.None? ==> NoPlace(tail)
    ensures r.Some? ==> SplitsAt(tail, r.value.0, r.value.1)
  {
    var start := FindDollar(tail);
    if start.None? { return None; }
    var close := Find(tail[start.value + 2..], '}');
    if close.None? { return None; }
    PlaceSplits(tail, start.value, close.value);
    return Some((start.value, start.value + 2 + close.value));
  }

  lemma PlaceSplits(tail: string, start: nat, offset: nat)
    requires FindDollar(tail) == Some(start) && Find(tail[start + 2..], '}') == Some(offset)
    ensures SplitsAt(tail, start, start + 2 + offset)
  {
    assert tail[start + 2..][offset] == tail[start + 2 + offset];
    SegmentsAt(tail, start, start + 2 + offset);
  }

  lemma Sliced(done: string, tail: string, start: nat, end: nat)
    requires start + 2 <= end < |tail|
    ensures var s, n := done + tail, |done|;
            && s[n + start + 2..n + end] == tail[start + 2..end]
            && s[..n + start] == done + tail[..start] && s[n + end + 1..] == tail[end + 1..]
  {
  }

  /** A place that stays as it is written. */
  lemma Unchanged(done: string, tail: string, start: nat, end: nat)
    requires start + 2 <= end < |tail| && tail[start] == '$' && tail[start + 1] == '{' && tail[end] == '}'
    ensures done + tail == done + tail[..start] + Source(Place(tail[start + 2..end])) + tail[end + 1..]
  {
    PlaceSpells(tail, start, end);
    ThreeParts(tail, start, end);
    var a, b, c := tail[..start], tail[start..end + 1], tail[end + 1..];
    assert done + (a + b + c) == done + a + b + c;
  }

  /** One edit in place: the place becomes what it renders to, and the cursor goes behind it. */
  method Substitute(scope: Scope, resolved: string, cursor: nat, start: nat, end: nat,
                    ghost done: string, ghost tail: string)
    returns (r: Result<(string, nat), Error>, ghost text: string)
    requires resolved == done + tail && cursor == |done| && start + 2 <= end < |tail|
    requires tail[start] == '$' && tail[start + 1] == '{' && tail[end] == '}'
    ensures r.Err? ==> Rendered(scope, Place(tail[start + 2..end])) == Err(r.error)
    ensures r.Ok? ==> && Rendered(scope, Place(tail[start + 2..end])) == Ok(text)
                      && r.value == (done + tail[..start] + text + tail[end + 1..], |done| + start + |text|)
  {
    Sliced(done, tail, start, end);
    var from, to := cursor + start, cursor + end;
    var before, variable, after := resolved[..from], resolved[from + 2..to], resolved[to + 1..];
    assert before == done + tail[..start] && variable == tail[start + 2..end] && after == tail[end + 1..];
    var replacement := if variable == "" then Absent else Replacement(scope, variable);
    match replacement
    case Failure =>
      r, text := Err(StoreFailed), "";
    case Absent =>
      Unchanged(done, tail, start, end);
      r, text := Ok((resolved, to + 1)), Source(Place(variable));
    case Value(value) =>
      r, text := Ok((before + value + after, from + |value|)), value;
  }

  /** `resolve_key`: terminates, and its edits in place amount to one pass over the key as it was
      given, whatever the store replies at each place, so substituted text is never expanded
      again. */
  method ResolveKey(scope: Scope, key: string) returns (r: Result<string, Error>)
    ensures r == AsKey(RenderAll(scope, Segments(key)))
  {
    var resolved: string, cursor: nat := key, 0;
    var left := scope;
    ghost var done, tail := "", key;
    OutlookStart(scope, key);
    while true
      invariant resolved == done + tail && cursor == |done|
      invariant Outlook(left, done, tail) == RenderAll(scope, Segments(key))
      decreases |tail|
    {
      assert resolved[cursor..] == tail;
      var place := PlaceIn(resolved[cursor..]);
      if place.None? { break; }
      var (start, end) := place.value;
      OutlookPlace(left, done, tail, start, end);
      var round;
      ghost var text;
      round, text := Substitute(left, resolved, cursor, start, end, done, tail);
      if round.Err? { return Err(round.error); }
      done, tail := done + tail[..start] + text, tail[end + 1..];
      resolved, cursor, left := round.value.0, round.value.1, Later(left);
    }
    OutlookText(left, done, tail);
    return AsKey(Ok(resolved));
  }
}
