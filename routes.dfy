/** Route resolution of `AppContent`: a fixed table from path to page component,
    falling back to the index page, rendered under a wrapper keyed by the path. */
module Routes {

  datatype Page = IndexPage | AboutPage | LabPage | ContactPage

  const Table: map<string, Page> :=
    map["/" := IndexPage, "/about" := AboutPage, "/lab" := LabPage, "/contact" := ContactPage]

  /** `routes[currentPath] || routes["/"]`. */
  function Resolve(path: string): (p: Page)
    ensures path in Table ==> p == Table[path]
    ensures path !in Table ==> p == IndexPage
  {
    if path in Table then Table[path] else Table["/"]
  }

  /** The path each page is registered under. */
  function PathOf(p: Page): (path: string)
    ensures path in Table && Table[path] == p
  {
    match p
    case IndexPage => "/"
    case AboutPage => "/about"
    case LabPage => "/lab"
    case ContactPage => "/contact"
  }

  /** The table has exactly the four routes. */
  lemma TableDomain()
    ensures Table.Keys == {"/", "/about", "/lab", "/contact"}
  {
  }

  /** Resolution and registration are inverse: every page is reachable through
      its own path, and a registered path is the one its page is registered under. */
  lemma ResolveRoundTrip(p: Page, path: string)
    ensures Resolve(PathOf(p)) == p
    ensures path in Table ==> PathOf(Resolve(path)) == path
  {
  }

  /** The wrapper `motion.div` is keyed by the path itself. */
  function WrapperKey(path: string): string
  {
    path
  }

  /** Switching from `prev` to `next` replaces the wrapper (exit and enter animations)
      exactly when the path changes, even when both paths render the same page. */
  predicate Remounts(prev: string, next: string)
  {
    WrapperKey(prev) != WrapperKey(next)
  }

  lemma RemountIffPathChanges(prev: string, next: string)
    ensures Remounts(prev, next) <==> prev != next
    ensures next !in Table && prev == "/" ==> Remounts(prev, next) && Resolve(next) == Resolve(prev)
  {
  }
}
