/** Routes and the scopes that mutations cover. */
module Routes {
  import opened Wrappers
  import opened Text

  datatype Route = Route(namespace: string, key: string)

  /** What one `record_*_mutation` call covers: an exact route, or the keys of a
      namespace that match an optional deletion pattern. */
  datatype Scope =
    | One(route: Route)
    | Many(namespace: string, pattern: Option<string>)

  predicate Covers(scope: Scope, route: Route) {
    match scope
    case One(r) => r == route
    case Many(namespace, pattern) =>
      && route.namespace == namespace
      && PrefixPatternMatches(if pattern.Some? then pattern.value else "*", route.key)
  }
}
