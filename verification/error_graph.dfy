/** The search for database error codes in the graph of wrapped errors, which may contain cycles. */
module ErrorGraph {
  import opened Basics
  import opened Sums

  /** A property value: a string, a reference to an object of the graph, or anything else. */
  datatype Value = Text(text: string) | Ref(node: Id) | Other

  /** An array, or a record with its own enumerable entries in order and whatever a property lookup finds. */
  datatype Node = Array(items: seq<Value>) | Record(entries: seq<(string, Value)>, properties: map<string, Value>)

  type Graph = map<Id, Node>

  ghost predicate ValueIn(g: Graph, v: Value) { v.Ref? ==> v.node in g }

  /** Every reference leads to an object of the graph. */
  ghost predicate Closed(g: Graph) {
    forall a | a in g ::
      match g[a]
      case Array(items) => forall i | 0 <= i < |items| :: ValueIn(g, items[i])
      case Record(entries, _) => forall i | 0 <= i < |entries| :: ValueIn(g, entries[i].1)
  }

  predicate FollowedKey(key: string) {
    key in {"cause", "driverAdapterError", "error", "errors", "meta", "originalError"}
  }

  /** The values a node passes on: all items of an array, the followed entries of a record, in order. */
  function FollowedEntries(entries: seq<(string, Value)>): (r: seq<Value>)
    ensures forall v :: v in r <==> exists i :: 0 <= i < |entries| && FollowedKey(entries[i].0) && entries[i].1 == v
  {
    if entries == [] then [] else
    var n := |entries| - 1;
    FollowedEntries(entries[..n]) + (if FollowedKey(entries[n].0) then [entries[n].1] else [])
  }

  function Successors(n: Node): seq<Value> {
    match n
    case Array(items) => items
    case Record(entries, _) => FollowedEntries(entries)
  }

  ghost predicate Edge(g: Graph, a: Id, b: Id) {
    a in g && Ref(b) in Successors(g[a])
  }

  ghost predicate Path(g: Graph, start: Value, p: seq<Id>) {
    && p != [] && start == Ref(p[0]) && (forall i | 0 <= i < |p| :: p[i] in g)
    && forall i | 0 <= i < |p| - 1 :: Edge(g, p[i], p[i + 1])
  }

  ghost predicate Reachable(g: Graph, start: Value, id: Id) {
    exists p :: Path(g, start, p) && p[|p| - 1] == id
  }

  lemma StartIsReachable(g: Graph, id: Id)
    requires id in g
    ensures Reachable(g, Ref(id), id)
  {
    assert Path(g, Ref(id), [id]);
  }

  lemma EdgeExtends(g: Graph, start: Value, a: Id, b: Id)
    requires Reachable(g, start, a) && Edge(g, a, b) && b in g
    ensures Reachable(g, start, b)
  {
    var p :| Path(g, start, p) && p[|p| - 1] == a;
    assert Path(g, start, p + [b]);
    assert (p + [b])[|p + [b]| - 1] == b;
  }

  /** A set that contains the start and is closed under edges contains every node of a path. */
  lemma {:induction false} ClosedSetHoldsPath(g: Graph, start: Value, seen: set<Id>, p: seq<Id>, i: nat)
    requires Path(g, start, p) && i < |p| && p[0] in seen
    requires forall a, b | a in seen && Edge(g, a, b) && b in g :: b in seen
    ensures p[i] in seen
  {
    if i > 0 {
      ClosedSetHoldsPath(g, start, seen, p, i - 1);
      assert Edge(g, p[i - 1], p[i]);
    }
  }

  lemma SuccessorsAreIn(g: Graph, a: Id)
    requires Closed(g) && a in g
    ensures forall v | v in Successors(g[a]) :: ValueIn(g, v)
  {
  }

  // ----- the worklist -----

  ghost predicate Frontier(g: Graph, start: Value, pending: seq<Value>, seen: set<Id>) {
    && seen <= g.Keys
    && (forall id | id in seen :: Reachable(g, start, id))
    && (forall v | v in pending && v.Ref? :: v.node in g && Reachable(g, start, v.node))
    && (start.Ref? ==> start.node in seen || start in pending)
    && (forall a, b | a in seen && Edge(g, a, b) :: b in seen || Ref(b) in pending)
  }

  /** Taking a value that needs no visit off the list. */
  lemma SkipKeepsFrontier(g: Graph, start: Value, pending: seq<Value>, seen: set<Id>)
    requires Frontier(g, start, pending, seen) && pending != [] && (pending[0].Ref? ==> pending[0].node in seen)
    ensures Frontier(g, start, pending[1..], seen)
  {
    assert pending == [pending[0]] + pending[1..];
  }

  /** Visiting a node puts its successors at the end of the list. */
  lemma VisitKeepsFrontier(g: Graph, start: Value, pending: seq<Value>, seen: set<Id>)
    requires Closed(g) && Frontier(g, start, pending, seen) && pending != [] && pending[0].Ref? && pending[0].node !in seen
    ensures Frontier(g, start, pending[1..] + Successors(g[pending[0].node]), seen + {pending[0].node})
  {
    var id := pending[0].node;
    var rest := pending[1..] + Successors(g[id]);
    assert pending == [pending[0]] + pending[1..];
    SuccessorsAreIn(g, id);
    forall v | v in rest && v.Ref? ensures v.node in g && Reachable(g, start, v.node) {
      if v in Successors(g[id]) {
        assert Edge(g, id, v.node);
        EdgeExtends(g, start, id, v.node);
      }
    }
  }

  /** With nothing left to do, exactly the reachable nodes were seen. */
  lemma EmptyFrontierIsComplete(g: Graph, start: Value, seen: set<Id>)
    requires Frontier(g, start, [], seen)
    ensures forall id :: id in seen <==> id in g && Reachable(g, start, id)
  {
    forall id | id in g && Reachable(g, start, id) ensures id in seen {
      var p :| Path(g, start, p) && p[|p| - 1] == id;
      ClosedSetHoldsPath(g, start, seen, p, |p| - 1);
    }
  }

  /** Seeing one more node leaves fewer to see. */
  lemma FewerUnseen(g: Graph, seen: set<Id>, id: Id)
    requires id in g && id !in seen
    ensures |g.Keys - (seen + {id})| < |g.Keys - seen|
  {
    assert g.Keys - (seen + {id}) == (g.Keys - seen) - {id};
  }

  /** The visitor saw exactly the records among the seen nodes, each once. */
  ghost predicate VisitedAre(g: Graph, visited: seq<Id>, seen: set<Id>) {
    && Distinct(visited)
    && forall id :: id in visited <==> id in seen && id in g && g[id].Record?
  }

  lemma VisitOneMore(g: Graph, visited: seq<Id>, seen: set<Id>, id: Id)
    requires VisitedAre(g, visited, seen) && id in g && id !in seen
    ensures VisitedAre(g, if g[id].Record? then visited + [id] else visited, seen + {id})
  {
    if g[id].Record? { DistinctAppend(visited, id); }
  }

  /** Every record the visitor sees, in the order of the visits. */
  method VisitErrorGraph(g: Graph, error: Value) returns (visited: seq<Id>)
    requires Closed(g) && ValueIn(g, error)
    ensures Distinct(visited)
    ensures forall id :: id in visited <==> id in g && g[id].Record? && Reachable(g, error, id)
  {
    var pending: seq<Value>, seen: set<Id> := [error], {};
    visited := [];
    if error.Ref? { StartIsReachable(g, error.node); }
    while pending != []
      invariant Frontier(g, error, pending, seen)
      invariant VisitedAre(g, visited, seen)
      decreases |g.Keys - seen|, |pending|
    {
      var current := pending[0];
      if !current.Ref? || current.node in seen {
        SkipKeepsFrontier(g, error, pending, seen);
        pending := pending[1..];
        continue;
      }
      VisitKeepsFrontier(g, error, pending, seen);
      FewerUnseen(g, seen, current.node);
      VisitOneMore(g, visited, seen, current.node);
      seen := seen + {current.node};
      if g[current.node].Record? {
        visited := visited + [current.node];
      }
      pending := pending[1..] + Successors(g[current.node]);
    }
    EmptyFrontierIsComplete(g, error, seen);
  }

  predicate HasText(n: Node, key: string, expected: set<string>) {
    n.Record? && key in n.properties && n.properties[key].Text? && n.properties[key].text in expected
  }

  /** The visitor: one of the four code properties holds an expected string. */
  predicate CarriesCode(n: Node, expected: set<string>) {
    || HasText(n, "code", expected) || HasText(n, "originalCode", expected)
    || HasText(n, "sqlState", expected) || HasText(n, "sqlstate", expected)
  }

  /** The answer is exact on every finite graph, cyclic or not. */
  method HasDatabaseErrorCode(g: Graph, error: Value, expected: set<string>) returns (found: bool)
    requires Closed(g) && ValueIn(g, error)
    ensures found <==> exists id :: id in g && Reachable(g, error, id) && CarriesCode(g[id], expected)
  {
    found := false;
    var visited := VisitErrorGraph(g, error);
    for i := 0 to |visited|
      invariant found <==> exists k :: 0 <= k < i && CarriesCode(g[visited[k]], expected)
    {
      var record := g[visited[i]];
      for k := 0 to 4
        invariant found <==> (exists j :: 0 <= j < i && CarriesCode(g[visited[j]], expected))
                             || (exists j :: 0 <= j < k && HasText(record, CodeKeys()[j], expected))
      {
        var key := CodeKeys()[k];
        if key in record.properties && record.properties[key].Text? && record.properties[key].text in expected {
          found := true;
        }
      }
      CodeKeysAreAll(record, expected);
    }
  }

  function CodeKeys(): (r: seq<string>)
    ensures |r| == 4
  {
    ["code", "originalCode", "sqlState", "sqlstate"]
  }

  lemma CodeKeysAreAll(n: Node, expected: set<string>)
    ensures CarriesCode(n, expected) <==> exists j :: 0 <= j < 4 && HasText(n, CodeKeys()[j], expected)
  {
    assert CodeKeys()[0] == "code" && CodeKeys()[1] == "originalCode" && CodeKeys()[2] == "sqlState" && CodeKeys()[3] == "sqlstate";
  }
}
