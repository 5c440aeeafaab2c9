/** The Wikidata query client of core.py (`wikidata_query2`, `get_superclasses`) and the
    identity cache operations (`Node(data)`, `get_node`). */
module Core {

  import opened Json
  import opened Text
  import opened Nodes
  import opened Cache

  /** What the endpoint answers to one request: the status code and, when the body parses as
      JSON, the decoded value (`None` stands for the `JSONDecodeError` of `r.json()`). */
  datatype Reply = Reply(status: int, body: Option<Json>)

  /** The SPARQL endpoint, as the sequence of requests the process has sent it:
      `respond(q, k)` is the answer to the k-th request, which carried query text `q`. */
  class Endpoint {
    const respond: (string, nat) -> Reply
    var log: seq<string>

    constructor (respond: (string, nat) -> Reply)
      ensures this.respond == respond && log == []
    {
      this.respond := respond;
      log := [];
    }

    /** `requests.get(url, params={"format": "json", "query": query}, headers=...)`. */
    method Get(query: string) returns (reply: Reply)
      modifies this`log
      ensures log == old(log) + [query]
      ensures reply == respond(query, |old(log)|)
    {
      reply := respond(query, |log|);
      log := log + [query];
    }
  }

  datatype QueryResult = Answer(data: Json) | WikidataError

  /** The hit test of `wikidata_query2`: `cache.get(query)` taken through Python's truth test,
      so a stored value that is falsy (`{}`, `[]`, `""`, ...) counts as a miss. */
  function CachedAnswer(cache: map<string, Json>, query: string): (r: Option<Json>)
    ensures r.Some? <==> query in cache && Truthy(cache[query])
    ensures r.Some? ==> r.value == cache[query]
  {
    if query in cache && Truthy(cache[query]) then Some(cache[query]) else None
  }

  /** The result of one `wikidata_query2` call, the requests it sent and the query cache after it. */
  datatype Exchange = Exchange(result: QueryResult, requests: seq<string>, cache: map<string, Json>)

  /** `wikidata_query2(query)` when `sent` requests have gone out before it. */
  function WikidataQuery(cache: map<string, Json>, respond: (string, nat) -> Reply, sent: nat, query: string)
    : (x: Exchange)
    ensures CachedAnswer(cache, query).Some? ==> x == Exchange(Answer(cache[query]), [], cache)
    ensures CachedAnswer(cache, query).None? ==>
      && 1 <= |x.requests| <= 2
      && (forall i :: 0 <= i < |x.requests| ==> x.requests[i] == query)
      && (|x.requests| == 2 <==> respond(query, sent).status != 200)
      && var last := respond(query, sent + |x.requests| - 1);
         && (last.body.None? ==> x.result == WikidataError && x.cache == cache)
         && (last.body.Some? ==> x.result == Answer(last.body.value) && x.cache == cache[query := last.body.value])
  {
    match CachedAnswer(cache, query)
    case Some(hit) => Exchange(Answer(hit), [], cache)
    case None =>
      var first := respond(query, sent);
      var requests := if first.status != 200 then [query, query] else [query];
      var reply := if first.status != 200 then respond(query, sent + 1) else first;
      match reply.body
      case None => Exchange(WikidataError, requests, cache)
      case Some(data) => Exchange(Answer(data), requests, cache[query := data])
  }

  /** A stored falsy answer (an empty result object, say) does not stop the query from being
      sent again: the endpoint is asked and, if it answers, the entry is overwritten. */
  lemma FalsyEntryIsRefetched(cache: map<string, Json>, respond: (string, nat) -> Reply,
                              sent: nat, query: string)
    requires query in cache && cache[query] in [JNull, JBool(false), JNum(0), JStr(""), JArr([]), JObj(map[])]
    ensures var x := WikidataQuery(cache, respond, sent, query);
      && x.requests != [] && x.requests[0] == query
      && (x.result.Answer? ==> x.cache[query] == x.result.data)
  {
    FalsyValues(cache[query]);
  }

  /** A query answered with a truthy value is answered from the cache the next time: the same
      value, no request, the cache unchanged. */
  lemma RepeatedQueryIsServedFromCache(cache: map<string, Json>, respond: (string, nat) -> Reply,
                                       sent: nat, sent': nat, query: string)
    requires var x := WikidataQuery(cache, respond, sent, query); x.result.Answer? && Truthy(x.result.data)
    ensures var x := WikidataQuery(cache, respond, sent, query);
      WikidataQuery(x.cache, respond, sent', query) == Exchange(x.result, [], x.cache)
  {
  }

  /** Whatever happens, only the entry for `query` can change. */
  lemma QueryTouchesOnlyItsEntry(cache: map<string, Json>, respond: (string, nat) -> Reply,
                                 sent: nat, query: string, other: string)
    requires other != query
    ensures var x := WikidataQuery(cache, respond, sent, query);
      (other in x.cache <==> other in cache) && (other in cache ==> x.cache[other] == cache[other])
  {
  }

  /** `wikidata_query2`, over the global query cache and the endpoint. */
  method Query(c: Caches, ep: Endpoint, query: string) returns (r: QueryResult)
    modifies c`queryCache, ep`log
    ensures var x := WikidataQuery(old(c.queryCache), ep.respond, |old(ep.log)|, query);
      r == x.result && c.queryCache == x.cache && ep.log == old(ep.log) + x.requests
  {
    var cached := CachedAnswer(c.queryCache, query);
    if cached.Some? {
      return Answer(cached.value);
    }
    var reply := ep.Get(query);
    if reply.status != 200 {
      reply := ep.Get(query);
    }
    if reply.body.None? {
      return WikidataError;
    }
    c.queryCache := c.queryCache[query := reply.body.value];
    return Answer(reply.body.value);
  }

  /** The SPARQL text `get_superclasses` sends, split around the entity id. */
  const QueryHead := "\n    SELECT ?item ?itemLabel \n    WHERE \n    {\n      wd:"
  const QueryTail := " wdt:P279 ?item.\n      SERVICE wikibase:label { bd:serviceParam wikibase:language \"[AUTO_LANGUAGE],en\". }\n    }\n    "

  /** The direct-superclass query (`wdt:P279`) for one entity. */
  function SuperclassQuery(entityId: string): (q: string)
    ensures |q| == |QueryHead| + |entityId| + |QueryTail|
    ensures q[..|QueryHead|] == QueryHead
    ensures q[|QueryHead|..|QueryHead| + |entityId|] == entityId
  {
    QueryHead + entityId + QueryTail
  }

  /** The query text determines the entity: two entities never share a cache entry. */
  lemma SuperclassQueryInjective(a: string, b: string)
    ensures SuperclassQuery(a) == SuperclassQuery(b) <==> a == b
  {
    if SuperclassQuery(a) == SuperclassQuery(b) {
      assert |a| == |b|;
    }
  }

  const EntityPrefix := "http://www.wikidata.org/entity/"

  /** `uri.replace("http://www.wikidata.org/entity/", "")`. */
  function EntityIdOf(uri: string): string {
    RemoveAll(uri, EntityPrefix)
  }

  /** An entity URI gives back the id it was made of. */
  lemma EntityIdOfUri(id: string)
    requires !Contains(id, EntityPrefix)
    ensures EntityIdOf(EntityPrefix + id) == id
  {
    RemoveAllLeading(EntityPrefix, id);
    RemoveAllAbsent(id, EntityPrefix);
  }

  /** The `id`/`label` pair `get_superclasses` adds to a binding, which is all a caller reads. */
  datatype EntityRecord = EntityRecord(id: string, labelText: string)

  /** `nodes` are, position by position, nodes with the ids of `recs`. */
  predicate Matches(nodes: seq<Node>, recs: seq<EntityRecord>) {
    |nodes| == |recs| && forall k :: 0 <= k < |nodes| ==> nodes[k].id == recs[k].id
  }

  /** Errors `get_superclasses` lets through: the `KeyError`, `TypeError` or `AttributeError` of
      a response that is not shaped as SPARQL results. */
  datatype Fault = Malformed

  /** `res["results"]["bindings"]`, as the `for` loop iterates it: a list gives its elements, an
      empty dict or string gives nothing, and anything else fails. */
  function Bindings(res: Json): Option<seq<Json>> {
    match Field(res, "results")
    case None => None
    case Some(results) =>
      match Field(results, "bindings")
      case Some(JArr(items)) => Some(items)
      case Some(JObj(m)) => if m == map[] then Some([]) else None
      case Some(JStr(s)) => if s == "" then Some([]) else None
      case _ => None
  }

  /** `res` with the list under `["results"]["bindings"]` replaced. */
  function WithBindings(res: Json, items: seq<Json>): (r: Json)
    requires Bindings(res).Some?
    ensures Bindings(r) == Some(items)
    ensures Truthy(r)
  {
    var results := res.fields["results"];
    JObj(res.fields["results" := JObj(results.fields["bindings" := JArr(items)])])
  }

  /** One pass of the loop body of `get_superclasses` over binding `ent`: `ent["id"]` is set from
      `ent["item"]["value"]`, then `ent["label"]` from `ent["itemLabel"]["value"]`; the binding as
      it is left, and the record when both steps succeed. */
  function NormalizeBinding(ent: Json): (Json, Option<EntityRecord>) {
    match StringValue(ent, "item")
    case None => (ent, None)
    case Some(uri) =>
      var withId := JObj(ent.fields["id" := JStr(EntityIdOf(uri))]);
      match StringValue(withId, "itemLabel")
      case None => (withId, None)
      case Some(text) =>
        (JObj(withId.fields["label" := JStr(text)]), Some(EntityRecord(EntityIdOf(uri), text)))
  }

  /** A binding yields a record exactly when it has an `item` and an `itemLabel` string value;
      the record holds the id taken from the URI and the label, and the binding comes out with
      `id` and `label` added. A binding without an `item` value is left untouched. */
  lemma NormalizeBindingMeaning(ent: Json)
    ensures var r := NormalizeBinding(ent);
      && (r.1.Some? <==> StringValue(ent, "item").Some? && StringValue(ent, "itemLabel").Some?)
      && (r.1.Some? ==> r.1.value == EntityRecord(EntityIdOf(StringValue(ent, "item").value),
                                                   StringValue(ent, "itemLabel").value))
      && (r.1.Some? ==> r.0 == JObj(ent.fields["id" := JStr(r.1.value.id)]["label" := JStr(r.1.value.labelText)]))
      && (StringValue(ent, "item").None? ==> r.0 == ent)
  {
    match StringValue(ent, "item")
    case None =>
    case Some(uri) =>
      var withId := JObj(ent.fields["id" := JStr(EntityIdOf(uri))]);
      assert Field(withId, "itemLabel") == Field(ent, "itemLabel");
  }

  /** Running the loop body again over its own output changes nothing and gives the same record. */
  lemma NormalizeBindingIdempotent(ent: Json)
    ensures NormalizeBinding(NormalizeBinding(ent).0) == NormalizeBinding(ent)
  {
    var (e1, rec) := NormalizeBinding(ent);
    if StringValue(ent, "item").Some? {
      assert Field(e1, "item") == Field(ent, "item");
      assert Field(e1, "itemLabel") == Field(ent, "itemLabel");
      var withId := JObj(e1.fields["id" := JStr(EntityIdOf(StringValue(ent, "item").value))]);
      assert withId == e1;
      if rec.Some? {
        assert JObj(withId.fields["label" := JStr(rec.value.labelText)]) == e1;
      }
    }
  }

  /** The `for ent in entities` loop from binding `i` on, with the records `done` collected so
      far: bindings are augmented in order until one fails; the list as it is left, and all
      records when no binding failed. The bindings before `i` are not touched. */
  function NormalizeFrom(ents: seq<Json>, i: nat, done: seq<EntityRecord>): (r: (seq<Json>, Option<seq<EntityRecord>>))
    requires i <= |ents|
    ensures |r.0| == |ents| && r.0[..i] == ents[..i]
    ensures r.1.Some? ==> |r.1.value| == |done| + |ents| - i && r.1.value[..|done|] == done
    decreases |ents| - i
  {
    if i == |ents| then (ents, Some(done))
    else
      var (ent, rec) := NormalizeBinding(ents[i]);
      if rec.None? then (ents[i := ent], None)
      else
        var r := NormalizeFrom(ents[i := ent], i + 1, done + [rec.value]);
        assert r.0[..i] == r.0[..i + 1][..i];
        assert r.1.Some? ==> r.1.value[..|done|] == r.1.value[..|done| + 1][..|done|];
        r
  }

  /** The loop succeeds exactly when every binding from `i` on has both fields. */
  lemma {:induction false} NormalizeFromSucceeds(ents: seq<Json>, i: nat, done: seq<EntityRecord>)
    requires i <= |ents|
    ensures NormalizeFrom(ents, i, done).1.Some? <==> forall k :: i <= k < |ents| ==> NormalizeBinding(ents[k]).1.Some?
    decreases |ents| - i
  {
    if i < |ents| {
      var (ent, rec) := NormalizeBinding(ents[i]);
      if rec.Some? {
        var next := ents[i := ent];
        NormalizeFromSucceeds(next, i + 1, done + [rec.value]);
        assert forall k :: i < k < |ents| ==> next[k] == ents[k];
      }
    }
  }

  /** When the loop succeeds, the binding at position `k` (from `i` on) is augmented on its own
      and gives the record at its own position. */
  lemma {:induction false} NormalizeFromAt(ents: seq<Json>, i: nat, done: seq<EntityRecord>, k: nat)
    requires i <= k < |ents|
    ensures var r := NormalizeFrom(ents, i, done);
      r.1.Some? ==> NormalizeBinding(ents[k]) == (r.0[k], Some(r.1.value[|done| + k - i]))
    decreases |ents| - i
  {
    var (ent, rec) := NormalizeBinding(ents[i]);
    if rec.Some? {
      var next := ents[i := ent];
      var done' := done + [rec.value];
      var r := NormalizeFrom(next, i + 1, done');
      assert NormalizeFrom(ents, i, done) == r;
      if k == i {
        assert r.0[i] == r.0[..i + 1][i] == next[i];
        if r.1.Some? {
          assert r.1.value[|done|] == r.1.value[..|done'|][|done|] == done'[|done|];
        }
      } else {
        NormalizeFromAt(next, i + 1, done', k);
        assert next[k] == ents[k];
      }
    }
  }

  /** When the loop succeeds, each binding from `i` on is augmented on its own and gives the
      record at its own position. */
  lemma NormalizeFromPointwise(ents: seq<Json>, i: nat, done: seq<EntityRecord>)
    requires i <= |ents|
    ensures var r := NormalizeFrom(ents, i, done);
      r.1.Some? ==> forall k :: i <= k < |ents| ==> NormalizeBinding(ents[k]) == (r.0[k], Some(r.1.value[|done| + k - i]))
  {
    forall k | i <= k < |ents| {
      NormalizeFromAt(ents, i, done, k);
    }
  }

  /** Running the loop again over its own output, from the same binding on, changes nothing and
      gives the same records. */
  lemma {:induction false} NormalizeFromIdempotent(ents: seq<Json>, i: nat, done: seq<EntityRecord>)
    requires i <= |ents|
    ensures NormalizeFrom(NormalizeFrom(ents, i, done).0, i, done) == NormalizeFrom(ents, i, done)
    decreases |ents| - i
  {
    if i < |ents| {
      var (ent, rec) := NormalizeBinding(ents[i]);
      NormalizeBindingIdempotent(ents[i]);
      var out := NormalizeFrom(ents, i, done).0;
      if rec.None? {
        assert out[i := ent] == out;
      } else {
        var next := ents[i := ent];
        NormalizeFromIdempotent(next, i + 1, done + [rec.value]);
        assert out[i] == out[..i + 1][i] == ent;
        assert out[i := ent] == out;
      }
    }
  }

  /** The response as the query cache holds it after `get_superclasses` has augmented its
      bindings in place, and the records `get_superclasses` returns. */
  function Normalize(res: Json): (r: (Json, Result<seq<EntityRecord>, Fault>))
  {
    match Bindings(res)
    case None => (res, Err(Malformed))
    case Some(items) =>
      var (items', recs) := NormalizeFrom(items, 0, []);
      (if items == [] then res else WithBindings(res, items'),
       match recs
       case Some(rs) => Ok(rs)
       case None => Err(Malformed))
  }

  /** Replacing the bindings twice keeps only the second replacement. */
  lemma WithBindingsTwice(res: Json, a: seq<Json>, b: seq<Json>)
    requires Bindings(res).Some?
    ensures WithBindings(WithBindings(res, a), b) == WithBindings(res, b)
  {
    var results := res.fields["results"];
    var r1 := WithBindings(res, a);
    var results1 := r1.fields["results"];
    assert results1 == JObj(results.fields["bindings" := JArr(a)]);
    assert results1.fields["bindings" := JArr(b)] == results.fields["bindings" := JArr(b)];
    assert r1.fields["results" := JObj(results.fields["bindings" := JArr(b)])]
        == res.fields["results" := JObj(results.fields["bindings" := JArr(b)])];
  }

  /** Normalising an already normalised response changes nothing. */
  lemma NormalizeIdempotent(res: Json)
    ensures Normalize(Normalize(res).0) == Normalize(res)
  {
    if Bindings(res).Some? {
      var items := Bindings(res).value;
      if items != [] {
        var (items', recs) := NormalizeFrom(items, 0, []);
        NormalizeFromIdempotent(items, 0, []);
        var r1 := WithBindings(res, items');
        assert Normalize(res).0 == r1;
        assert Bindings(r1) == Some(items');
        assert items' != [];
        WithBindingsTwice(res, items', items');
        assert Normalize(r1).0 == r1;
      }
    }
  }

  /** One record per binding, in binding order: the id is the `item` URI with the entity
      prefix removed, the label the `itemLabel` value. */
  lemma NormalizeRecords(res: Json)
    requires Normalize(res).1.Ok?
    ensures Bindings(res).Some?
    ensures var items := Bindings(res).value; var recs := Normalize(res).1.value;
      && |recs| == |items|
      && forall k :: 0 <= k < |items| ==>
           && StringValue(items[k], "item").Some? && StringValue(items[k], "itemLabel").Some?
           && recs[k] == EntityRecord(EntityIdOf(StringValue(items[k], "item").value),
                                      StringValue(items[k], "itemLabel").value)
  {
    var items := Bindings(res).value;
    NormalizeFromSucceeds(items, 0, []);
    NormalizeFromPointwise(items, 0, []);
    forall k | 0 <= k < |items|
      ensures StringValue(items[k], "item").Some? && StringValue(items[k], "itemLabel").Some?
      ensures Normalize(res).1.value[k] == EntityRecord(EntityIdOf(StringValue(items[k], "item").value),
                                                        StringValue(items[k], "itemLabel").value)
    {
      NormalizeBindingMeaning(items[k]);
    }
  }

  /** The result of one `get_superclasses` call, the requests it sent and the query cache after it. */
  datatype Lookup = Lookup(result: Result<seq<EntityRecord>, Fault>, requests: seq<string>, cache: map<string, Json>)

  /** `get_superclasses(entityId)` when `sent` requests have gone out before it: a
      `WikidataError` gives `[]`; otherwise the cached response is normalised in place. */
  function Superclasses(cache: map<string, Json>, respond: (string, nat) -> Reply, sent: nat, entityId: string)
    : (l: Lookup)
  {
    var query := SuperclassQuery(entityId);
    var x := WikidataQuery(cache, respond, sent, query);
    match x.result
    case WikidataError => Lookup(Ok([]), x.requests, x.cache)
    case Answer(data) =>
      var (stored, recs) := Normalize(data);
      Lookup(recs, x.requests, x.cache[query := stored])
  }

  /** A second call for the same entity after a first that got a response and returned records
      is served from the cache: same records, no request, no change to the cache. */
  lemma RepeatedLookupIsServedFromCache(cache: map<string, Json>, respond: (string, nat) -> Reply,
                                        sent: nat, sent': nat, entityId: string)
    requires WikidataQuery(cache, respond, sent, SuperclassQuery(entityId)).result.Answer?
    requires Superclasses(cache, respond, sent, entityId).result.Ok?
    ensures var l := Superclasses(cache, respond, sent, entityId);
      Superclasses(l.cache, respond, sent', entityId) == Lookup(l.result, [], l.cache)
  {
    var l := Superclasses(cache, respond, sent, entityId);
    LookupOutcome(cache, respond, sent, entityId);
    SettledLookup(l.cache, respond, sent', entityId);
  }

  /** Only the entry for this entity's query can change, and after a response it holds it. */
  lemma LookupTouchesOnlyItsEntry(cache: map<string, Json>, respond: (string, nat) -> Reply,
                                  sent: nat, entityId: string, other: string)
    requires other != SuperclassQuery(entityId)
    ensures var l := Superclasses(cache, respond, sent, entityId);
      && (other in l.cache <==> other in cache) && (other in cache ==> l.cache[other] == cache[other])
      && (WikidataQuery(cache, respond, sent, SuperclassQuery(entityId)).result.Answer? ==>
            SuperclassQuery(entityId) in l.cache)
  {
    QueryTouchesOnlyItsEntry(cache, respond, sent, SuperclassQuery(entityId), other);
  }

  /** The cached response for the superclass query of `entityId` is a hit and already
      normalised, with records: every later lookup of the entity is answered from it. */
  predicate Settled(cache: map<string, Json>, entityId: string) {
    var q := SuperclassQuery(entityId);
    q in cache && Truthy(cache[q]) && Normalize(cache[q]).0 == cache[q] && Normalize(cache[q]).1.Ok?
  }

  /** The records a settled entry answers with. */
  function Standing(cache: map<string, Json>, entityId: string): seq<EntityRecord>
    requires Settled(cache, entityId)
  {
    Normalize(cache[SuperclassQuery(entityId)]).1.value
  }

  /** A settled entry answers the lookup: its records, no request, the cache unchanged. */
  lemma SettledLookup(cache: map<string, Json>, respond: (string, nat) -> Reply, sent: nat, entityId: string)
    requires Settled(cache, entityId)
    ensures Superclasses(cache, respond, sent, entityId) == Lookup(Ok(Standing(cache, entityId)), [], cache)
  {
    var q := SuperclassQuery(entityId);
    assert cache[q := cache[q]] == cache;
  }

  /** A lookup that reaches `WikidataError` found no hit and leaves the cache as it was; one that
      got a response and returned records settles the entry with those records. */
  lemma LookupOutcome(cache: map<string, Json>, respond: (string, nat) -> Reply, sent: nat, entityId: string)
    ensures var l := Superclasses(cache, respond, sent, entityId);
      var x := WikidataQuery(cache, respond, sent, SuperclassQuery(entityId));
      && (x.result.WikidataError? ==>
            l.result == Ok([]) && l.cache == cache && CachedAnswer(cache, SuperclassQuery(entityId)).None?)
      && (x.result.Answer? && l.result.Ok? ==>
            Settled(l.cache, entityId) && Standing(l.cache, entityId) == l.result.value)
  {
    var query := SuperclassQuery(entityId);
    var x := WikidataQuery(cache, respond, sent, query);
    if x.result.Answer? && Superclasses(cache, respond, sent, entityId).result.Ok? {
      var data := x.result.data;
      var stored := Normalize(data).0;
      assert Bindings(data).Some?;
      assert Truthy(stored) by {
        if Bindings(data).value == [] {
          assert Field(data, "results").Some?;
        }
      }
      NormalizeIdempotent(data);
    }
  }

  /** A lookup of another entity leaves this entity's entry, and so whether it is a hit or
      settled and with which records, as it was. */
  lemma OtherLookupKeepsEntry(cache: map<string, Json>, respond: (string, nat) -> Reply, sent: nat,
                              entityId: string, other: string)
    requires other != entityId
    ensures var l := Superclasses(cache, respond, sent, entityId);
      && CachedAnswer(l.cache, SuperclassQuery(other)) == CachedAnswer(cache, SuperclassQuery(other))
      && (Settled(l.cache, other) <==> Settled(cache, other))
      && (Settled(cache, other) ==> Standing(l.cache, other) == Standing(cache, other))
  {
    SuperclassQueryInjective(entityId, other);
    LookupTouchesOnlyItsEntry(cache, respond, sent, entityId, SuperclassQuery(other));
  }

  /** The `for ent in entities` loop of `get_superclasses`: each binding gets its `id`, then its
      `label`, in place (the body is `NormalizeBinding`); the first binding that lacks a field
      stops the loop with an error. */
  method AugmentBindings(entities: seq<Json>) returns (ents: seq<Json>, records: Option<seq<EntityRecord>>)
    ensures (ents, records) == NormalizeFrom(entities, 0, [])
  {
    ents := entities;
    var done: seq<EntityRecord> := [];
    for i := 0 to |ents|
      invariant |ents| == |entities|
      invariant NormalizeFrom(ents, i, done) == NormalizeFrom(entities, 0, [])
    {
      var (ent, rec) := NormalizeBinding(ents[i]);
      ents := ents[i := ent];
      if rec.None? {
        return ents, None;
      }
      done := done + [rec.value];
    }
    records := Some(done);
  }

  /** `get_superclasses`: the response bindings are augmented in place (so the cached response
      holds them afterwards) and their `id`/`label` pairs returned. */
  method GetSuperclasses(c: Caches, ep: Endpoint, entityId: string) returns (r: Result<seq<EntityRecord>, Fault>)
    modifies c`queryCache, ep`log
    ensures var l := Superclasses(old(c.queryCache), ep.respond, |old(ep.log)|, entityId);
      r == l.result && c.queryCache == l.cache && ep.log == old(ep.log) + l.requests
  {
    var query := SuperclassQuery(entityId);
    var res := Query(c, ep, query);
    if res.WikidataError? {
      return Ok([]);
    }
    var entities := Bindings(res.data);
    if entities.None? {
      assert c.queryCache[query := res.data] == c.queryCache;
      return Err(Malformed);
    }
    var ents, records := AugmentBindings(entities.value);
    if entities.value != [] {
      c.queryCache := c.queryCache[query := WithBindings(res.data, ents)];
    } else {
      assert c.queryCache[query := res.data] == c.queryCache;
    }
    if records.None? {
      return Err(Malformed);
    }
    return Ok(records.value);
  }

  /** Existing entries of the node cache are kept as they are. */
  ghost predicate Extends(before: map<string, Node>, after: map<string, Node>) {
    forall id :: id in before ==> id in after && after[id] == before[id]
  }

  /** `Node(data)`: a new node, registered under its id (replacing any node registered there). */
  method NewNode(c: Caches, rec: EntityRecord) returns (n: Node)
    requires c.Valid()
    modifies c`nodeCache
    ensures c.Valid()
    ensures fresh(n) && n.id == rec.id && n.labelText == rec.labelText && n.Valid() && !n.isTopLevel
    ensures c.nodeCache == old(c.nodeCache)[rec.id := n]
  {
    n := new Node(rec.id, rec.labelText);
    c.nodeCache := c.nodeCache[n.id := n];
  }

  /** `get_node`: the registered node for the record's id, created and registered if there is none. */
  method GetNode(c: Caches, rec: EntityRecord) returns (n: Node)
    requires c.Valid()
    modifies c`nodeCache
    ensures c.Valid() && Extends(old(c.nodeCache), c.nodeCache)
    ensures n.id == rec.id && rec.id in c.nodeCache && c.nodeCache[rec.id] == n
    ensures rec.id in old(c.nodeCache) ==> n == old(c.nodeCache)[rec.id] && c.nodeCache == old(c.nodeCache)
    ensures rec.id !in old(c.nodeCache) ==>
      && fresh(n) && n.labelText == rec.labelText && n.Valid() && !n.isTopLevel
      && c.nodeCache == old(c.nodeCache)[rec.id := n]
  {
    if rec.id in c.nodeCache {
      return c.nodeCache[rec.id];
    }
    n := NewNode(c, rec);
  }

  /** No record before position `k` carries the id of the record at `k`. */
  predicate FirstWithId(records: seq<EntityRecord>, k: nat)
    requires k < |records|
  {
    forall i :: 0 <= i < k ==> records[i].id != records[k].id
  }

  /** After `nodes` were resolved for the first `|nodes|` records, going from the node cache
      `before` to `after`: each node is the registered node for its record's id, an id that was
      registered before keeps its node, a new node takes the label of the first record with its
      id, and every new id comes from one of those records. */
  ghost predicate ResolvedPrefix(records: seq<EntityRecord>, nodes: seq<Node>,
                                 before: map<string, Node>, after: map<string, Node>) {
    && |nodes| <= |records|
    && Extends(before, after)
    && (forall k :: 0 <= k < |nodes| ==>
          nodes[k].id == records[k].id && records[k].id in after && after[records[k].id] == nodes[k])
    && (forall k :: 0 <= k < |nodes| && records[k].id in before ==> nodes[k] == before[records[k].id])
    && (forall k :: 0 <= k < |nodes| && records[k].id !in before && FirstWithId(records, k) ==>
          nodes[k].labelText == records[k].labelText)
    && (forall id :: id in after && id !in before ==> exists k :: 0 <= k < |nodes| && records[k].id == id)
  }

  /** One more `get_node` call keeps `ResolvedPrefix`. */
  lemma ResolvedSnoc(records: seq<EntityRecord>, nodes: seq<Node>, before: map<string, Node>,
                     mid: map<string, Node>, after: map<string, Node>, n: Node)
    requires ResolvedPrefix(records, nodes, before, mid) && |nodes| < |records|
    requires var rec := records[|nodes|];
      && n.id == rec.id && rec.id in after && after[rec.id] == n
      && (rec.id in mid ==> n == mid[rec.id] && after == mid)
      && (rec.id !in mid ==> n.labelText == rec.labelText && after == mid[rec.id := n])
    ensures ResolvedPrefix(records, nodes + [n], before, after)
  {
    var i := |nodes|;
    var nodes' := nodes + [n];
    assert Extends(before, after);
    forall k | 0 <= k < |nodes'|
      ensures nodes'[k].id == records[k].id && records[k].id in after && after[records[k].id] == nodes'[k]
      ensures records[k].id in before ==> nodes'[k] == before[records[k].id]
      ensures records[k].id !in before && FirstWithId(records, k) ==> nodes'[k].labelText == records[k].labelText
    {
      if k == i {
        if records[i].id in mid {
          assert records[i].id !in before ==> !FirstWithId(records, i);
        }
      } else {
        assert nodes'[k] == nodes[k];
      }
    }
    forall id | id in after && id !in before
      ensures exists k :: 0 <= k < |nodes'| && records[k].id == id
    {
      if id == records[i].id {
        assert records[i].id == id;
      } else {
        var k :| 0 <= k < |nodes| && records[k].id == id;
        assert nodes'[k] == nodes[k];
      }
    }
  }

  /** `[get_node(d) for d in records]`. A node created here takes the label of the first record
      with its id; later records with that id get the same node. */
  method ResolveAll(c: Caches, records: seq<EntityRecord>) returns (nodes: seq<Node>)
    requires c.Valid()
    modifies c`nodeCache
    ensures c.Valid() && Extends(old(c.nodeCache), c.nodeCache)
    ensures |nodes| == |records|
    ensures forall k :: 0 <= k < |records| ==>
      nodes[k].id == records[k].id && records[k].id in c.nodeCache && c.nodeCache[records[k].id] == nodes[k]
    ensures forall k :: 0 <= k < |records| && records[k].id in old(c.nodeCache) ==>
      nodes[k] == old(c.nodeCache)[records[k].id]
    ensures forall k :: 0 <= k < |records| && records[k].id !in old(c.nodeCache) ==>
      fresh(nodes[k]) && !nodes[k].isTopLevel && nodes[k].Valid()
    ensures forall k :: 0 <= k < |records| && records[k].id !in old(c.nodeCache) && FirstWithId(records, k) ==>
      nodes[k].labelText == records[k].labelText
    ensures forall id :: id in c.nodeCache && id !in old(c.nodeCache) ==>
      fresh(c.nodeCache[id]) && !c.nodeCache[id].isTopLevel && c.nodeCache[id].Valid()
  {
    nodes := [];
    for i := 0 to |records|
      invariant c.Valid() && |nodes| == i
      invariant ResolvedPrefix(records, nodes, old(c.nodeCache), c.nodeCache)
      invariant forall id :: id in c.nodeCache && id !in old(c.nodeCache) ==>
        fresh(c.nodeCache[id]) && !c.nodeCache[id].isTopLevel && c.nodeCache[id].Valid()
    {
      ghost var before := c.nodeCache;
      var n := GetNode(c, records[i]);
      ResolvedSnoc(records, nodes, old(c.nodeCache), before, c.nodeCache, n);
      nodes := nodes + [n];
    }
  }
}
