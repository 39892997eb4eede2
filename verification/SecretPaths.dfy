/** The context index and the path builders together. */
module SecretPaths {
  import opened Wrappers
  import opened Utf8
  import opened ContextIndex
  import opened PercentPaths

  /** The collection that the index gives a namespace. */
  function CollectionOf(contexts: Contexts, namespace: string): Option<nat> {
    if Ctx(namespace).Some? && Ctx(namespace).value in contexts && contexts[Ctx(namespace).value].Uuid?
    then Some(contexts[Ctx(namespace).value].id) else None
  }

  /** After any interleaving of adapters, two routes of one base that both have a place never
      share it. `text` renders ids, each in its own way. */
  lemma IndexedRoutesDoNotCollide(prefix: string, s: State, moves: seq<Move>, t: State, text: nat -> string,
                                  m: string, j: string, n: string, k: string)
    requires Initial(s) && Runs(s, moves, t)
    requires forall a, b :: text(a) == text(b) ==> a == b
    requires IsByteString(m) && IsByteString(j) && IsByteString(n) && IsByteString(k)
    requires Ns(m) == Ns(n) && IsByteString(Ns(m))
    requires CollectionOf(Map(t), m).Some? && CollectionOf(Map(t), n).Some?
    requires Locate(prefix, m, j, Some(text(CollectionOf(Map(t), m).value)))
             == Locate(prefix, n, k, Some(text(CollectionOf(Map(t), n).value)))
    ensures m == n && j == k
  {
    NoSharedCollections(s, moves, t);
    RoutesDoNotCollide(prefix, m, j, Some(text(CollectionOf(Map(t), m).value)), n, k,
                       Some(text(CollectionOf(Map(t), n).value)));
  }
}
