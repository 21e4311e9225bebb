/**
 Referential names: the key a row is looked up by, the rows they resolve to,
 and what resolving a list of requests leaves in the referential tables.
 */
module References {
  import opened Values
  import opened Normalizer

  // -------------------------------------------------------------------- keys

  /** `_reference_key`: the key the normaliser gave its request for this name. */
  function ReferenceKey(kind: string, name: Option<string>, provider: Option<string>): Option<Request> {
    if name.None? then None else Some(Request(kind, name.value, ProviderContext(provider)))
  }

  function AgentKey(session: Session): Option<Request> {
    ReferenceKey("agent", session.agentName, None)
  }

  function ModelKey(call: ModelCall): Option<Request> {
    ReferenceKey("model", call.model, call.provider)
  }

  function ToolKey(call: ToolCall): Option<Request> {
    ReferenceKey("tool", Some(call.tool), None)
  }

  // ------------------------------------------------------------------ tables

  /** A referential row by its unique key; a model also carries its provider. */
  datatype TableRow = TableRow(kind: string, name: string, owner: string)

  /** The referential tables: each row and the id it was given. */
  type Referentials = map<TableRow, nat>

  /** `_upsert`: insert on conflict do nothing, then the id that is there. */
  function Upsert(table: Referentials, row: TableRow): Referentials {
    if row in table then table else table[row := |table|]
  }

  /** `dict(context).get("provider_name", "unknown")`. */
  function ProviderOf(context: seq<(string, string)>): string {
    if context == [] then "unknown"
    else if context[|context| - 1].0 == "provider_name" then context[|context| - 1].1
    else ProviderOf(context[..|context| - 1])
  }

  function RowOf(request: Request): TableRow {
    if request.kind == "model" then TableRow("model", request.name, ProviderOf(request.context))
    else TableRow(request.kind, request.name, "")
  }

  /** `resolve`: a model upserts its provider first. */
  function ResolveOne(table: Referentials, request: Request): Referentials {
    if request.kind == "model"
    then Upsert(Upsert(table, TableRow("provider", ProviderOf(request.context), "")), RowOf(request))
    else Upsert(table, RowOf(request))
  }

  function ResolveAll(table: Referentials, requests: seq<Request>): Referentials
    decreases |requests|
  {
    if requests == [] then table else ResolveAll(ResolveOne(table, requests[0]), requests[1..])
  }

  /** Resolving this request again would change nothing. */
  predicate Known(table: Referentials, request: Request) {
    && RowOf(request) in table
    && (request.kind == "model" ==> TableRow("provider", ProviderOf(request.context), "") in table)
  }

  predicate AllKnown(table: Referentials, requests: seq<Request>) {
    forall i :: 0 <= i < |requests| ==> Known(table, requests[i])
  }

  /** `more` keeps every row of `table`, with its id. */
  predicate Extends(table: Referentials, more: Referentials) {
    forall row :: row in table ==> row in more && more[row] == table[row]
  }

  lemma ResolveOneFacts(table: Referentials, request: Request)
    ensures Extends(table, ResolveOne(table, request)) && Known(ResolveOne(table, request), request)
    ensures Known(table, request) ==> ResolveOne(table, request) == table
  {
    hide ProviderOf;
  }

  lemma KnownLater(table: Referentials, more: Referentials, request: Request)
    requires Extends(table, more) && Known(table, request)
    ensures Known(more, request) && more[RowOf(request)] == table[RowOf(request)]
  {
    hide ProviderOf;
  }

  lemma {:induction false} ResolveAllFacts(table: Referentials, requests: seq<Request>)
    ensures Extends(table, ResolveAll(table, requests)) && AllKnown(ResolveAll(table, requests), requests)
    decreases |requests|
  {
    if requests != [] {
      var next := ResolveOne(table, requests[0]);
      ResolveOneFacts(table, requests[0]);
      ResolveAllFacts(next, requests[1..]);
      hide ResolveOne, Known;
      KnownLater(next, ResolveAll(next, requests[1..]), requests[0]);
      assert forall i :: 0 < i < |requests| ==> requests[i] == requests[1..][i - 1];
    }
  }

  lemma {:induction false} ResolveKnown(table: Referentials, requests: seq<Request>)
    requires AllKnown(table, requests)
    ensures ResolveAll(table, requests) == table
    decreases |requests|
  {
    if requests != [] {
      assert Known(table, requests[0]);
      ResolveOneFacts(table, requests[0]);
      assert forall i :: 0 <= i < |requests| - 1 ==> requests[1..][i] == requests[i + 1];
      hide Known, ResolveOne;
      ResolveKnown(table, requests[1..]);
    }
  }

  lemma {:induction false} ResolveConcat(table: Referentials, a: seq<Request>, b: seq<Request>)
    ensures ResolveAll(table, a + b) == ResolveAll(ResolveAll(table, a), b)
    decreases |a|
  {
    hide ResolveOne;
    if a == [] {
      assert a + b == b;
    } else {
      assert (a + b)[1..] == a[1..] + b;
      ResolveConcat(ResolveOne(table, a[0]), a[1..], b);
    }
  }
}
