/** The vector database as the ingestion script sees it through its client:
    a set of named indexes, each with its configuration and its vectors, and
    the four calls the script makes (listIndexes, deleteIndex, createIndex and
    upsert on an index handle). Whether the service answers a call or fails it
    is an input: `rejects` names the positions, in the sequence of calls the
    client has made, of the calls that fail. */
module Pinecone {
  import opened Data

  datatype Metric = Cosine | Euclidean | DotProduct

  /** What createIndex is given: name, dimension, metric and the serverless
      deployment (cloud and region). */
  datatype IndexSpec = IndexSpec(name: string, dimension: nat, metric: Metric, cloud: string, region: string)

  /** One remote index: its configuration and its vectors keyed by id. */
  datatype Index = Index(spec: IndexSpec, vectors: map<Json, Record>)

  datatype Call =
    | ListCall
    | DeleteCall(name: string)
    | CreateCall(spec: IndexSpec)
    | UpsertCall(target: string, batch: seq<Record>)

  /** The observable state of the service: its indexes, every call received
      so far, and the positions of the calls it fails. */
  datatype Service = Service(indexes: map<string, Index>, log: seq<Call>, rejects: set<nat>)

  /** Whether the service answers call `c`, made in state `s`, with success.
      Deleting a missing index, creating one whose name is taken and
      upserting into a missing index are errors of the service. */
  predicate Accepts(s: Service, c: Call) {
    |s.log| !in s.rejects &&
    match c
    case ListCall => true
    case DeleteCall(name) => name in s.indexes
    case CreateCall(spec) => spec.name !in s.indexes
    case UpsertCall(target, _) => target in s.indexes
  }

  /** Insert-or-update of each record by id, in batch order. */
  function Upserted(vectors: map<Json, Record>, batch: seq<Record>): map<Json, Record>
    decreases |batch|
  {
    if batch == [] then vectors
    else Upserted(vectors[batch[0].id := batch[0]], batch[1..])
  }

  /** The last record of `batch` with the given id, if any. */
  function Latest(batch: seq<Record>, id: Json): Option<Record>
    decreases |batch|
  {
    if batch == [] then None
    else
      match Latest(batch[1..], id)
      case Some(r) => Some(r)
      case None => if batch[0].id == id then Some(batch[0]) else None
  }

  /** The indexes after the service has accepted call `c`. */
  function Effect(indexes: map<string, Index>, c: Call): map<string, Index> {
    match c
    case ListCall => indexes
    case DeleteCall(name) => indexes - {name}
    case CreateCall(spec) => indexes[spec.name := Index(spec, map[])]
    case UpsertCall(target, batch) =>
      if target in indexes
      then indexes[target := indexes[target].(vectors := Upserted(indexes[target].vectors, batch))]
      else indexes
  }

  /** The service after receiving call `c`: the call is logged, and only an
      accepted call changes the indexes. */
  function Perform(s: Service, c: Call): Service {
    Service(if Accepts(s, c) then Effect(s.indexes, c) else s.indexes, s.log + [c], s.rejects)
  }

  /** Upserting two batches in turn is upserting their concatenation. */
  lemma {:induction false} UpsertedAppend(vectors: map<Json, Record>, a: seq<Record>, b: seq<Record>)
    ensures Upserted(Upserted(vectors, a), b) == Upserted(vectors, a + b)
    decreases |a|
  {
    if a != [] {
      assert (a + b)[0] == a[0];
      assert (a + b)[1..] == a[1..] + b;
      UpsertedAppend(vectors[a[0].id := a[0]], a[1..], b);
    } else {
      assert a + b == b;
    }
  }

  /** After an upsert the index holds the ids it held and those of the batch;
      an id of the batch maps to the last record with that id, any other id
      keeps its vector. */
  lemma {:induction false} UpsertedContents(vectors: map<Json, Record>, batch: seq<Record>)
    ensures forall id :: id in Upserted(vectors, batch) <==> id in vectors || Latest(batch, id).Some?
    ensures forall id :: id in Upserted(vectors, batch) ==>
      Upserted(vectors, batch)[id] == if Latest(batch, id).Some? then Latest(batch, id).value else vectors[id]
    decreases |batch|
  {
    if batch != [] {
      UpsertedContents(vectors[batch[0].id := batch[0]], batch[1..]);
    }
  }

  /** The record Latest finds is a record of the batch with that id, and no
      later record of the batch has the same id. */
  lemma {:induction false} LatestIsLast(batch: seq<Record>, id: Json)
    ensures Latest(batch, id).Some? <==> exists j :: 0 <= j < |batch| && batch[j].id == id
    ensures Latest(batch, id).Some? ==>
      exists j :: 0 <= j < |batch| && batch[j] == Latest(batch, id).value && batch[j].id == id &&
        forall k :: j < k < |batch| ==> batch[k].id != id
    decreases |batch|
  {
    if batch != [] {
      LatestIsLast(batch[1..], id);
      if Latest(batch[1..], id).Some? {
        var j :| 0 <= j < |batch[1..]| && batch[1..][j] == Latest(batch, id).value && batch[1..][j].id == id &&
          forall k :: j < k < |batch[1..]| ==> batch[1..][k].id != id;
        assert batch[j + 1] == batch[1..][j];
      } else if batch[0].id != id {
        assert forall j :: 1 <= j < |batch| ==> batch[j] == batch[1..][j - 1];
      }
    }
  }

  /** The client, holding the service's state. Each method makes one call and
      changes the state exactly as Perform says. */
  class Client {
    var indexes: map<string, Index>
    var log: seq<Call>
    const rejects: set<nat>

    function State(): Service
      reads this
    {
      Service(indexes, log, rejects)
    }

    constructor (indexes: map<string, Index>, rejects: set<nat>)
      ensures State() == Service(indexes, [], rejects)
    {
      this.indexes := indexes;
      this.log := [];
      this.rejects := rejects;
    }

    /** listIndexes: the names of the existing indexes, or None when the call fails. */
    method ListIndexes() returns (names: Option<set<string>>)
      modifies this
      ensures State() == Perform(old(State()), ListCall)
      ensures names == if Accepts(old(State()), ListCall) then Some(old(indexes).Keys) else None
    {
      names := if |log| !in rejects then Some(indexes.Keys) else None;
      log := log + [ListCall];
    }

    /** deleteIndex(name); `ok` is false when the call fails. */
    method DeleteIndex(name: string) returns (ok: bool)
      modifies this
      ensures State() == Perform(old(State()), DeleteCall(name))
      ensures ok == Accepts(old(State()), DeleteCall(name))
      ensures ok ==> name !in indexes
    {
      ok := |log| !in rejects && name in indexes;
      if ok {
        indexes := indexes - {name};
      }
      log := log + [DeleteCall(name)];
    }

    /** createIndex(spec) with waitUntilReady: the new index is empty and
      ready when the call returns. */
    method CreateIndex(spec: IndexSpec) returns (ok: bool)
      modifies this
      ensures State() == Perform(old(State()), CreateCall(spec))
      ensures ok == Accepts(old(State()), CreateCall(spec))
      ensures ok ==> spec.name in indexes && indexes[spec.name] == Index(spec, map[])
    {
      ok := |log| !in rejects && spec.name !in indexes;
      if ok {
        indexes := indexes[spec.name := Index(spec, map[])];
      }
      log := log + [CreateCall(spec)];
    }

    /** upsert(batch) on the handle of index `target`. */
    method Upsert(target: string, batch: seq<Record>) returns (ok: bool)
      modifies this
      ensures State() == Perform(old(State()), UpsertCall(target, batch))
      ensures ok == Accepts(old(State()), UpsertCall(target, batch))
      ensures ok ==> indexes[target].vectors == Upserted(old(indexes)[target].vectors, batch)
    {
      ok := |log| !in rejects && target in indexes;
      if ok {
        indexes := indexes[target := indexes[target].(vectors := Upserted(indexes[target].vectors, batch))];
      }
      log := log + [UpsertCall(target, batch)];
    }
  }
}
