/** An explicit route table, matched first-entry-first, as a reference
    definition of the router's switch: the same five routes, in the same
    priority order, written as data. */
module RouteTable {

  import opened Strings
  import opened Routes

  /** How an entry's path is compared with the request path. */
  datatype Pattern = Exact(path: string) | Prefix(prefix: string)

  datatype Entry = Entry(httpMethod: string, pattern: Pattern, handler: Handler)

  /** Whether `e` accepts a request with this method and path. */
  predicate Matches(e: Entry, httpMethod: string, path: string)
  {
    && e.httpMethod == httpMethod
    && match e.pattern
       case Exact(p) => path == p
       case Prefix(p) => HasPrefix(path, p)
  }

  /** The routes of the task API in priority order. */
  const Table: seq<Entry> := [
    Entry("GET", Exact(TaskPath), Get),
    Entry("POST", Exact(TaskPath), Post),
    Entry("PUT", Prefix(DonePrefix), Put),
    Entry("PUT", Prefix(UndoPrefix), Put),
    Entry("DELETE", Prefix(DeletePrefix), Delete)
  ]

  /** Index of the first entry of `table` that accepts the request, if any. */
  function FirstMatch(table: seq<Entry>, httpMethod: string, path: string): (i: nat)
    ensures i <= |table|
    ensures i < |table| ==> Matches(table[i], httpMethod, path)
    ensures forall j | 0 <= j < i :: !Matches(table[j], httpMethod, path)
  {
    if table == [] then 0
    else if Matches(table[0], httpMethod, path) then 0
    else 1 + FirstMatch(table[1..], httpMethod, path)
  }

  /** The handler of the first accepting entry, or `NoRoute` when none does. */
  function Lookup(table: seq<Entry>, httpMethod: string, path: string): (h: Handler)
    ensures (forall e | e in table :: !Matches(e, httpMethod, path)) ==> h == NoRoute
    ensures (forall e | e in table :: e.handler != NoRoute) && h == NoRoute ==>
      forall e | e in table :: !Matches(e, httpMethod, path)
  {
    var i := FirstMatch(table, httpMethod, path);
    if i < |table| then table[i].handler else NoRoute
  }

  /** The router's switch is exactly first-match lookup in the table. */
  lemma SwitchIsFirstMatch(httpMethod: string, path: string)
    ensures SelectHandler(httpMethod, path) == Lookup(Table, httpMethod, path)
  {
    var i := FirstMatch(Table, httpMethod, path);
    assert Table[0].handler == Get && Table[1].handler == Post;
    assert Table[2].handler == Put && Table[3].handler == Put && Table[4].handler == Delete;
    if i == |Table| {
      // No entry accepts the request, so every case of the switch fails too.
      assert forall j | 0 <= j < 5 :: !Matches(Table[j], httpMethod, path);
    }
  }
}
