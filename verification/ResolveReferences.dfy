/**
 The per-run cache of resolved references. One instance lives for a whole run,
 across its transactions, and asks the repository for each key once.
 */
module ResolveReferences {
  import opened Normalizer
  import opened References
  import opened Store

  /** The referential repository of the transaction in progress. */
  method Resolve(unit: UnitOfWork, request: Request) returns (id: nat)
    modifies unit`work
    ensures unit.work == old(unit.work).(refs := ResolveOne(old(unit.work.refs), request))
    ensures RowOf(request) in unit.work.refs && id == unit.work.refs[RowOf(request)]
  {
    hide ProviderOf;
    unit.work := unit.work.(refs := ResolveOne(unit.work.refs, request));
    id := unit.work.refs[RowOf(request)];
  }

  /** `resolved` gives every request the id of its row. */
  predicate Resolves(resolved: map<Request, nat>, requests: seq<Request>, refs: Referentials) {
    forall r :: r in requests ==> r in resolved && RowOf(r) in refs && resolved[r] == refs[RowOf(r)]
  }

  /** What the cache holds is what the repository would answer, unchanged. */
  predicate Agrees(cache: map<Request, nat>, refs: Referentials) {
    forall key :: key in cache ==> Known(refs, key) && cache[key] == refs[RowOf(key)]
  }

  lemma AgreesLater(cache: map<Request, nat>, refs: Referentials, more: Referentials)
    requires Agrees(cache, refs) && Extends(refs, more)
    ensures Agrees(cache, more)
  {
    hide RowOf, ProviderOf;
    forall key | key in cache ensures Known(more, key) && cache[key] == more[RowOf(key)] {
      KnownLater(refs, more, key);
    }
  }

  lemma AgreesMore(cache: map<Request, nat>, refs: Referentials, key: Request, id: nat)
    requires Agrees(cache, refs) && Known(refs, key) && RowOf(key) in refs && id == refs[RowOf(key)]
    ensures Agrees(cache[key := id], refs)
  {
    hide Known, RowOf;
  }

  lemma ResolveSnoc(refs: Referentials, requests: seq<Request>, i: nat)
    requires i < |requests|
    ensures ResolveAll(refs, requests[..i + 1]) == ResolveOne(ResolveAll(refs, requests[..i]), requests[i])
  {
    hide ResolveOne;
    assert requests[..i + 1] == requests[..i] + [requests[i]];
    ResolveConcat(refs, requests[..i], [requests[i]]);
    assert [requests[i]][1..] == [];
    var before := ResolveAll(refs, requests[..i]);
    assert ResolveAll(before, [requests[i]]) == ResolveAll(ResolveOne(before, requests[i]), []);
  }

  /** The keys asked for are those of the cache, and no key was asked for twice. */
  ghost predicate AskedOnce(queries: seq<Request>, cache: map<Request, nat>) {
    && (forall i, j :: 0 <= i < j < |queries| ==> queries[i] != queries[j])
    && forall key :: key in queries <==> key in cache
  }

  lemma AskedOnceMore(queries: seq<Request>, cache: map<Request, nat>, key: Request, id: nat)
    requires AskedOnce(queries, cache) && key !in cache
    ensures AskedOnce(queries + [key], cache[key := id])
  {
  }

  class Resolver {
    const unit: UnitOfWork
    var cache: map<Request, nat>
    /** The keys the repository was asked for, in order. */
    ghost var queries: seq<Request>

    constructor (unit: UnitOfWork)
      ensures this.unit == unit && cache == map[] && queries == [] && Valid()
    {
      this.unit, cache, queries := unit, map[], [];
    }

    ghost predicate Valid()
      reads this
    {
      AskedOnce(queries, cache)
    }

    /** A cache miss: the repository is asked, and its answer is kept. */
    method Query(key: Request)
      requires Valid() && Agrees(cache, unit.work.refs) && key !in cache
      modifies this, unit`work
      ensures Valid() && Agrees(cache, unit.work.refs)
      ensures queries == old(queries) + [key]
      ensures cache.Keys == old(cache.Keys) + {key}
      ensures forall k :: k in old(cache) ==> cache[k] == old(cache[k])
      ensures unit.work == old(unit.work).(refs := ResolveOne(old(unit.work.refs), key))
    {
      hide Known, RowOf, ProviderOf, ResolveOne, Upsert, Agrees, AskedOnce, Extends;
      ResolveOneFacts(unit.work.refs, key);
      AgreesLater(cache, unit.work.refs, ResolveOne(unit.work.refs, key));
      var id := Resolve(unit, key);
      AgreesMore(cache, unit.work.refs, key, id);
      AskedOnceMore(queries, cache, key, id);
      cache := cache[key := id];
      queries := queries + [key];
    }

    /** `execute`: the ids of all the requests, each key asked for at most once
        in the run; the tables end as if every request had been asked for. */
    method Execute(requests: seq<Request>) returns (resolved: map<Request, nat>)
      requires Valid() && Agrees(cache, unit.work.refs)
      modifies this, unit`work
      ensures Valid() && Agrees(cache, unit.work.refs)
      ensures old(queries) <= queries
      ensures forall key :: key in cache <==> key in old(cache) || key in requests
      ensures unit.work == old(unit.work).(refs := ResolveAll(old(unit.work.refs), requests))
      ensures forall key :: key in resolved <==> key in requests
      ensures Resolves(resolved, requests, unit.work.refs)
    {
      hide *;
      ghost var before := unit.work;
      resolved := map[];
      NoRequests(before.refs);
      assert requests[..0] == [];
      for i := 0 to |requests|
        invariant Valid() && Agrees(cache, unit.work.refs) && old(queries) <= queries
        invariant forall key :: key in cache <==> key in old(cache) || key in requests[..i]
        invariant unit.work == before.(refs := ResolveAll(before.refs, requests[..i]))
        invariant forall key :: key in resolved <==> key in requests[..i]
        invariant forall key :: key in resolved ==> key in cache && resolved[key] == cache[key]
      {
        var key := requests[i];
        assert requests[..i + 1] == requests[..i] + [key];
        ResolveSnoc(before.refs, requests, i);
        if key !in cache {
          Query(key);
        } else {
          CachedIsKnown(cache, unit.work.refs, key);
        }
        resolved := resolved[key := cache[key]];
      }
      assert requests[..|requests|] == requests;
      CacheResolves(resolved, cache, requests, unit.work.refs);
    }
  }

  lemma NoRequests(refs: Referentials)
    ensures ResolveAll(refs, []) == refs
  {
  }

  lemma CachedIsKnown(cache: map<Request, nat>, refs: Referentials, key: Request)
    requires Agrees(cache, refs) && key in cache
    ensures ResolveOne(refs, key) == refs
  {
    ResolveOneFacts(refs, key);
    hide Known, RowOf, ResolveOne;
  }

  lemma CacheResolves(resolved: map<Request, nat>, cache: map<Request, nat>, requests: seq<Request>, refs: Referentials)
    requires Agrees(cache, refs)
    requires forall key :: key in resolved <==> key in requests
    requires forall key :: key in resolved ==> key in cache && resolved[key] == cache[key]
    ensures Resolves(resolved, requests, refs)
  {
    hide RowOf;
  }
}
