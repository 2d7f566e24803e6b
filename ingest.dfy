/** The body of `main` in index.js: provision the index (delete it if it
    exists, then create it), validate the input and prepare the records, and
    upsert them in batches of 100. Every throw in `main` lands in its catch,
    which only reports the error; here that is an `Aborted` outcome. */
module Ingest {
  import opened Data
  import opened Records
  import opened Batching
  import opened Pinecone

  const IndexName: string := "developer-quickstart-js"
  const ModelDimension: nat := 384
  const BatchSize: nat := 100

  /** The configuration `main` creates the index with. */
  const Target: IndexSpec := IndexSpec(IndexName, ModelDimension, Cosine, "aws", "us-east-1")

  /** The step whose throw ended the run. */
  datatype Failure =
    | ListFailed
    | DeleteFailed
    | CreateFailed
    | Rejected(cause: PrepareError)
    | UpsertFailed

  datatype Outcome = Done | NothingToUpsert | Aborted(failure: Failure)

  /** What a run leaves behind: its outcome, the service, and the batch
      numbers printed after each successful upsert. */
  datatype Report = Report(outcome: Outcome, service: Service, progress: seq<nat>)

  /** The records prepared from the parsed input, or the error thrown first. */
  function Input(data: Json, stringify: Json -> string, embed: string -> Option<Vector>): Result<seq<Record>, PrepareError> {
    match DesignArray(data)
    case Err(e) => Err(e)
    case Ok(design) => Prepare(design, stringify, embed)
  }

  /** Upserting `batches` into the target index, one call each, stopping at
      the first call that fails; `sent` batches have gone before. */
  function SendBatches(s: Service, batches: seq<seq<Record>>, sent: nat): Report
    decreases |batches|
  {
    if batches == [] then Report(Done, s, [])
    else
      var call := UpsertCall(IndexName, batches[0]);
      if !Accepts(s, call) then Report(Aborted(UpsertFailed), Perform(s, call), [])
      else
        var rest := SendBatches(Perform(s, call), batches[1..], sent + 1);
        rest.(progress := [sent + 1] + rest.progress)
  }

  /** The provisioning steps of `main`: list the indexes, delete the target
      index when it is listed, create it. The outcome is Done when every call
      succeeded. */
  function Provision(s: Service): Report {
    var listed := Perform(s, ListCall);
    if !Accepts(s, ListCall) then Report(Aborted(ListFailed), listed, [])
    else
      var indexExists := IndexName in s.indexes;
      var cleared := if indexExists then Perform(listed, DeleteCall(IndexName)) else listed;
      if indexExists && !Accepts(listed, DeleteCall(IndexName)) then Report(Aborted(DeleteFailed), cleared, [])
      else
        var created := Perform(cleared, CreateCall(Target));
        if !Accepts(cleared, CreateCall(Target)) then Report(Aborted(CreateFailed), created, [])
        else Report(Done, created, [])
  }

  /** A whole run of `main` from service state `s`. */
  function Run(s: Service, data: Json, stringify: Json -> string, embed: string -> Option<Vector>): Report {
    var provisioned := Provision(s);
    if provisioned.outcome != Done then provisioned
    else
      match Input(data, stringify, embed)
      case Err(e) => Report(Aborted(Rejected(e)), provisioned.service, [])
      case Ok(records) =>
        if records == [] then Report(NothingToUpsert, provisioned.service, [])
        else SendBatches(provisioned.service, Batches(records, BatchSize), 0)
  }

  /** The provisioning calls `main` makes when nothing fails. */
  function ProvisionPlan(indexExists: bool): seq<Call> {
    [ListCall] + (if indexExists then [DeleteCall(IndexName)] else []) + [CreateCall(Target)]
  }

  /** The service answers the next `n` calls made from state `s`. */
  predicate Answered(s: Service, n: nat) {
    forall p :: |s.log| <= p < |s.log| + n ==> p !in s.rejects
  }

  /** The calls made between state `s` and state `t`, in order. */
  function NewCalls(s: Service, t: Service): seq<Call> {
    if |s.log| <= |t.log| then t.log[|s.log|..] else []
  }

  function UpsertCalls(batches: seq<seq<Record>>): seq<Call>
    decreases |batches|
  {
    if batches == [] then [] else [UpsertCall(IndexName, batches[0])] + UpsertCalls(batches[1..])
  }

  /** The batches of the upsert calls among `calls`, in call order. */
  function SentBatches(calls: seq<Call>): seq<seq<Record>>
    decreases |calls|
  {
    if calls == [] then []
    else (if calls[0].UpsertCall? then [calls[0].batch] else []) + SentBatches(calls[1..])
  }

  /** How many upsert calls SendBatches made: the stored batches, plus the
      rejected one if there was one. */
  function Attempted(r: Report): nat {
    if r.outcome == Done then |r.progress| else |r.progress| + 1
  }

  lemma {:induction false} SentBatchesAppend(a: seq<Call>, b: seq<Call>)
    ensures SentBatches(a + b) == SentBatches(a) + SentBatches(b)
    decreases |a|
  {
    if a == [] {
      assert a + b == b;
    } else {
      assert (a + b)[1..] == a[1..] + b;
      SentBatchesAppend(a[1..], b);
    }
  }

  lemma {:induction false} SentUpsertCalls(batches: seq<seq<Record>>)
    ensures SentBatches(UpsertCalls(batches)) == batches
    ensures forall c :: c in UpsertCalls(batches) ==> c.UpsertCall? && c.target == IndexName
    decreases |batches|
  {
    if batches != [] {
      SentUpsertCalls(batches[1..]);
      SentBatchesAppend([UpsertCall(IndexName, batches[0])], UpsertCalls(batches[1..]));
    }
  }

  lemma SentPlan(indexExists: bool)
    ensures SentBatches(ProvisionPlan(indexExists)) == []
  {
    var del: seq<Call> := if indexExists then [DeleteCall(IndexName)] else [];
    SentBatchesAppend([ListCall] + del, [CreateCall(Target)]);
    SentBatchesAppend([ListCall], del);
  }

  /** No prefix of the provisioning plan sends a batch. */
  lemma SentPlanPrefix(indexExists: bool, k: nat)
    requires k <= |ProvisionPlan(indexExists)|
    ensures SentBatches(ProvisionPlan(indexExists)[..k]) == []
  {
    var plan := ProvisionPlan(indexExists);
    SentPlan(indexExists);
    SentBatchesAppend(plan[..k], plan[k..]);
    assert plan == plan[..k] + plan[k..];
  }

  lemma AnsweredSplit(s: Service, t: Service, m: nat, n: nat)
    requires t.rejects == s.rejects && |t.log| == |s.log| + m && Answered(s, m)
    ensures Answered(s, m + n) <==> Answered(t, n)
  {
  }

  lemma AnsweredStep(s: Service, c: Call, n: nat)
    ensures Answered(s, n + 1) <==> |s.log| !in s.rejects && Answered(Perform(s, c), n)
  {
  }

  /** The calls made after a log that grew by `first` and then `rest`. */
  lemma NewCallsAfter(s: Service, t: Service, first: seq<Call>, rest: seq<Call>)
    requires t.log == s.log + first + rest
    ensures NewCalls(s, t) == first + rest
  {
    assert t.log[|s.log|..] == first + rest;
  }

  /** Sending batches makes one upsert call per batch, in order, until the
      first call the service fails: every call before the last is answered,
      and a run that fails stops right after the rejected call. It succeeds
      exactly when the service answers them all. */
  lemma {:induction false} SendBatchesCalls(s: Service, batches: seq<seq<Record>>, sent: nat)
    requires IndexName in s.indexes
    ensures var r := SendBatches(s, batches, sent);
      && r.service.rejects == s.rejects
      && (r.outcome == Done || r.outcome == Aborted(UpsertFailed))
      && (r.outcome == Done <==> Answered(s, |batches|))
      && Answered(s, |r.progress|)
      && (r.outcome == Aborted(UpsertFailed) ==> |s.log| + |r.progress| in s.rejects)
      && Attempted(r) <= |batches|
      && (r.outcome == Done ==> |r.progress| == |batches|)
      && r.service.log == s.log + UpsertCalls(batches[..Attempted(r)])
    decreases |batches|
  {
    if batches != [] {
      var call := UpsertCall(IndexName, batches[0]);
      var next := Perform(s, call);
      AnsweredStep(s, call, |batches| - 1);
      if !Accepts(s, call) {
        assert batches[..1] == [batches[0]];
      } else {
        SendBatchesCalls(next, batches[1..], sent + 1);
        var rest := SendBatches(next, batches[1..], sent + 1);
        AnsweredStep(s, call, |rest.progress|);
        assert batches[..Attempted(rest) + 1] == [batches[0]] + batches[1..][..Attempted(rest)];
      }
    }
  }

  /** `numbers` runs `first`, `first + 1`, … */
  predicate CountsUpFrom(numbers: seq<nat>, first: nat) {
    forall j :: 0 <= j < |numbers| ==> numbers[j] == first + j
  }

  /** The batch numbers printed count up from `sent + 1`. */
  lemma {:induction false} SendBatchesProgress(s: Service, batches: seq<seq<Record>>, sent: nat)
    ensures CountsUpFrom(SendBatches(s, batches, sent).progress, sent + 1)
    decreases |batches|
  {
    if batches != [] && Accepts(s, UpsertCall(IndexName, batches[0])) {
      var next := Perform(s, UpsertCall(IndexName, batches[0]));
      var rest := SendBatches(next, batches[1..], sent + 1);
      SendBatchesProgress(next, batches[1..], sent + 1);
      var r := SendBatches(s, batches, sent);
      assert r.progress == [sent + 1] + rest.progress;
      forall j | 0 <= j < |r.progress| ensures r.progress[j] == sent + 1 + j {
        if j > 0 {
          assert r.progress[j] == rest.progress[j - 1];
        }
      }
    }
  }

  /** The target index ends up holding the batches whose upsert succeeded;
      no other index changes. */
  lemma {:induction false} SendBatchesStore(s: Service, batches: seq<seq<Record>>, sent: nat)
    requires IndexName in s.indexes
    ensures var r := SendBatches(s, batches, sent);
      && |r.progress| <= |batches|
      && r.service.indexes == s.indexes[IndexName := s.indexes[IndexName].(
           vectors := Upserted(s.indexes[IndexName].vectors, Concat(batches[..|r.progress|])))]
    decreases |batches|
  {
    var r := SendBatches(s, batches, sent);
    if batches == [] || !Accepts(s, UpsertCall(IndexName, batches[0])) {
      assert batches[..0] == [];
      assert s.indexes[IndexName := s.indexes[IndexName]] == s.indexes;
    } else {
      var next := Perform(s, UpsertCall(IndexName, batches[0]));
      SendBatchesStore(next, batches[1..], sent + 1);
      var k := |SendBatches(next, batches[1..], sent + 1).progress|;
      assert batches[..k + 1] == [batches[0]] + batches[1..][..k];
      ConcatAppend([batches[0]], batches[1..][..k]);
      assert Concat([batches[0]]) == batches[0] + Concat([]);
      UpsertedAppend(s.indexes[IndexName].vectors, batches[0], Concat(batches[1..][..k]));
    }
  }

  /** Provisioning makes the planned calls in order up to the first one the
      service fails; it succeeds exactly when the service answers them all,
      and then the target index exists, empty, with the configuration `main`
      asks for. deleteIndex is called exactly when listIndexes answered and
      named the target index. Only the target index can change. */
  lemma {:induction false} ProvisionSpec(s: Service)
    ensures var p := Provision(s); var plan := ProvisionPlan(IndexName in s.indexes);
      && p.progress == []
      && p.service.rejects == s.rejects
      && p.outcome in {Done, Aborted(ListFailed), Aborted(DeleteFailed), Aborted(CreateFailed)}
      && (p.outcome == Done <==> Answered(s, |plan|))
      && |s.log| < |p.service.log| <= |s.log| + |plan|
      && p.service.log == s.log + plan[..|p.service.log| - |s.log|]
      && (p.outcome == Done ==> p.service.indexes == s.indexes[IndexName := Index(Target, map[])])
      && p.service.indexes - {IndexName} == s.indexes - {IndexName}
      && (DeleteCall(IndexName) in NewCalls(s, p.service) <==> Accepts(s, ListCall) && IndexName in s.indexes)
  {
    var p := Provision(s);
    var plan := ProvisionPlan(IndexName in s.indexes);
    var listed := Perform(s, ListCall);
    var indexExists := IndexName in s.indexes;
    var cleared := if indexExists then Perform(listed, DeleteCall(IndexName)) else listed;
    if !Accepts(s, ListCall) {
      assert |s.log| in s.rejects;
      assert NewCalls(s, p.service) == [ListCall];
    } else if indexExists && !Accepts(listed, DeleteCall(IndexName)) {
      assert |s.log| + 1 in s.rejects;
      assert NewCalls(s, p.service) == [ListCall, DeleteCall(IndexName)];
    } else {
      assert |cleared.log| == |s.log| + |plan| - 1;
      assert NewCalls(s, p.service) == plan;
      assert plan[..|plan|] == plan;
      assert Answered(s, |plan|) <==> |cleared.log| !in s.rejects;
    }
  }

  /** Provisioning stops at the first call the service fails: every call
      before the last was answered, a failed provisioning ends right after
      the rejected call, and each kind of failure is the rejection of its
      own call. On success the whole plan was made. A failed listIndexes or
      deleteIndex leaves every index as it was; a failed createIndex leaves
      the target index deleted, with nothing in its place. */
  lemma {:induction false} ProvisionStops(s: Service)
    ensures var p := Provision(s); var plan := ProvisionPlan(IndexName in s.indexes);
      && |s.log| < |p.service.log|
      && Answered(s, |p.service.log| - |s.log| - 1)
      && (p.outcome != Done ==> |p.service.log| - 1 in s.rejects)
      && (p.outcome == Done ==> p.service.log == s.log + plan)
      && (p.outcome == Aborted(ListFailed) <==> |s.log| in s.rejects)
      && (p.outcome == Aborted(DeleteFailed) <==>
            |s.log| !in s.rejects && IndexName in s.indexes && |s.log| + 1 in s.rejects)
      && (p.outcome == Aborted(CreateFailed) <==> Answered(s, |plan| - 1) && |s.log| + |plan| - 1 in s.rejects)
      && (p.outcome in {Aborted(ListFailed), Aborted(DeleteFailed)} ==> p.service.indexes == s.indexes)
      && (p.outcome == Aborted(CreateFailed) ==> p.service.indexes == s.indexes - {IndexName})
  {
    var plan := ProvisionPlan(IndexName in s.indexes);
    var listed := Perform(s, ListCall);
    var indexExists := IndexName in s.indexes;
    var cleared := if indexExists then Perform(listed, DeleteCall(IndexName)) else listed;
    if !Accepts(s, ListCall) {
      assert Provision(s).service.log == s.log + [ListCall];
    } else if indexExists && !Accepts(listed, DeleteCall(IndexName)) {
      assert Provision(s).service.log == s.log + [ListCall, DeleteCall(IndexName)];
    } else {
      if !indexExists {
        assert s.indexes - {IndexName} == s.indexes;
      }
      assert cleared.log == s.log + plan[..|plan| - 1];
      assert |cleared.log| == |s.log| + |plan| - 1;
      assert Provision(s).service.log == cleared.log + [CreateCall(Target)];
      assert plan[..|plan| - 1] + [CreateCall(Target)] == plan;
    }
  }

  /** The calls of a run: a prefix of the provisioning plan, then, only when
      the whole plan went through, one upsert call per batch sent. */
  lemma {:induction false} RunLog(s: Service, data: Json, stringify: Json -> string, embed: string -> Option<Vector>)
    returns (made: nat, sent: seq<seq<Record>>)
    ensures var r := Run(s, data, stringify, embed); var plan := ProvisionPlan(IndexName in s.indexes);
      && made <= |plan|
      && (sent != [] ==> made == |plan|)
      && r.service.rejects == s.rejects
      && NewCalls(s, Provision(s).service) == plan[..made]
      && r.service.log == s.log + plan[..made] + UpsertCalls(sent)
  {
    var r := Run(s, data, stringify, embed);
    var plan := ProvisionPlan(IndexName in s.indexes);
    var p := Provision(s);
    ProvisionSpec(s);
    made := |p.service.log| - |s.log|;
    sent := [];
    assert UpsertCalls(sent) == [];
    if p.outcome == Done {
      assert made == |plan|;
      match Input(data, stringify, embed)
      case Err(_) =>
      case Ok(records) =>
        if records != [] {
          var batches := Batches(records, BatchSize);
          SendBatchesCalls(p.service, batches, 0);
          sent := batches[..Attempted(r)];
        }
    }
  }

  /** The call log of a run: the service only ever sees the provisioning
      calls in plan order (list, delete when the index was listed, create),
      then upserts into the target index; deleteIndex is called exactly when
      listIndexes answered and named the target index. */
  lemma {:induction false} RunCalls(s: Service, data: Json, stringify: Json -> string, embed: string -> Option<Vector>)
    ensures var r := Run(s, data, stringify, embed);
      var plan := ProvisionPlan(IndexName in s.indexes);
      var calls := NewCalls(s, r.service);
      var n := Min(|calls|, |plan|);
      && s.log <= r.service.log
      && calls[..n] == plan[..n]
      && (forall j :: |plan| <= j < |calls| ==> calls[j].UpsertCall? && calls[j].target == IndexName)
      && (DeleteCall(IndexName) in calls <==> Accepts(s, ListCall) && IndexName in s.indexes)
  {
    var r := Run(s, data, stringify, embed);
    var plan := ProvisionPlan(IndexName in s.indexes);
    var made, sent := RunLog(s, data, stringify, embed);
    ProvisionSpec(s);
    var calls := NewCalls(s, r.service);
    NewCallsAfter(s, r.service, plan[..made], UpsertCalls(sent));
    CallsShape(plan, made, sent, calls);
  }

  /** A log made of a prefix of `plan` followed, only after the whole plan,
      by upsert calls: it agrees with the plan as far as both go, holds only
      upserts into the target after it, and holds a deleteIndex call exactly
      when the prefix of the plan does. */
  lemma CallsShape(plan: seq<Call>, made: nat, sent: seq<seq<Record>>, calls: seq<Call>)
    requires made <= |plan| && (sent != [] ==> made == |plan|)
    requires calls == plan[..made] + UpsertCalls(sent)
    ensures calls[..Min(|calls|, |plan|)] == plan[..Min(|calls|, |plan|)]
    ensures forall j :: |plan| <= j < |calls| ==> calls[j].UpsertCall? && calls[j].target == IndexName
    ensures DeleteCall(IndexName) in calls <==> DeleteCall(IndexName) in plan[..made]
  {
    SentUpsertCalls(sent);
    assert DeleteCall(IndexName) !in UpsertCalls(sent);
    if sent == [] {
      assert calls == plan[..made];
    } else {
      assert forall j :: |plan| <= j < |calls| ==> calls[j] == UpsertCalls(sent)[j - |plan|];
    }
  }

  /** When a run ends short of the upserts: provisioning fails exactly when
      the service fails one of its calls; an invalid input or a failed
      embedding is reported after the index has been recreated, and a run
      with no kept element ends normally; in none of these cases is any batch
      upserted or any batch number printed. */
  lemma {:induction false} RunStops(s: Service, data: Json, stringify: Json -> string, embed: string -> Option<Vector>)
    ensures var r := Run(s, data, stringify, embed);
      var plan := ProvisionPlan(IndexName in s.indexes);
      && (r.outcome in {Aborted(ListFailed), Aborted(DeleteFailed), Aborted(CreateFailed)} <==> !Answered(s, |plan|))
      && (forall e :: r.outcome == Aborted(Rejected(e)) <==> Answered(s, |plan|) && Input(data, stringify, embed) == Err(e))
      && (r.outcome == NothingToUpsert <==> Answered(s, |plan|) && Input(data, stringify, embed) == Ok([]))
      && (r.outcome != Done && r.outcome != Aborted(UpsertFailed) ==>
            && r.progress == []
            && SentBatches(NewCalls(s, r.service)) == []
            && (Answered(s, |plan|) ==> r.service.indexes == s.indexes[IndexName := Index(Target, map[])]))
      && (r.outcome in {Aborted(ListFailed), Aborted(DeleteFailed)} ==> r.service.indexes == s.indexes)
      && (r.outcome == Aborted(CreateFailed) ==> r.service.indexes == s.indexes - {IndexName})
  {
    var r := Run(s, data, stringify, embed);
    var plan := ProvisionPlan(IndexName in s.indexes);
    var p := Provision(s);
    ProvisionSpec(s);
    ProvisionStops(s);
    SentPlanPrefix(IndexName in s.indexes, |p.service.log| - |s.log|);
    if p.outcome == Done {
      match Input(data, stringify, embed)
      case Err(_) =>
      case Ok(records) =>
        if records != [] {
          SendBatchesCalls(p.service, Batches(records, BatchSize), 0);
        }
    }
  }

  /** When provisioning succeeds and there are records, `main` ends
      normally exactly when the service answers every upsert, and otherwise
      with the failure of an upsert; on a normal end one batch number was
      printed per batch. */
  lemma {:induction false} RunUpserts(s: Service, data: Json, stringify: Json -> string, embed: string -> Option<Vector>, records: seq<Record>)
    requires Answered(s, |ProvisionPlan(IndexName in s.indexes)|)
    requires Input(data, stringify, embed) == Ok(records) && records != []
    ensures var r := Run(s, data, stringify, embed);
      var batches := Batches(records, BatchSize);
      && (r.outcome == Done || r.outcome == Aborted(UpsertFailed))
      && (r.outcome == Done <==> Answered(s, |ProvisionPlan(IndexName in s.indexes)| + |batches|))
      && (r.outcome == Done ==> |r.progress| == |batches|)
  {
    var p := ProvisionedForUpserts(s, data, stringify, embed, records);
    SendBatchesAfterPlan(s, p, |ProvisionPlan(IndexName in s.indexes)|, Batches(records, BatchSize));
  }

  /** In that case the batches of the upsert calls, in call order, are the
      first batches of the records: all of them on a normal end, and
      otherwise those whose numbers were printed plus the one that failed. */
  lemma {:induction false} RunSends(s: Service, data: Json, stringify: Json -> string, embed: string -> Option<Vector>, records: seq<Record>)
    requires Answered(s, |ProvisionPlan(IndexName in s.indexes)|)
    requires Input(data, stringify, embed) == Ok(records) && records != []
    ensures var r := Run(s, data, stringify, embed);
      var batches := Batches(records, BatchSize);
      var sent := SentBatches(NewCalls(s, r.service));
      && |sent| <= |batches|
      && sent == batches[..|sent|]
      && |sent| == (if r.outcome == Done then |batches| else |r.progress| + 1)
  {
    var batches := Batches(records, BatchSize);
    var p := ProvisionedForUpserts(s, data, stringify, embed, records);
    var r := SendBatches(p, batches, 0);
    SendBatchesCalls(p, batches, 0);
    SentAfterPlan(s, r.service, IndexName in s.indexes, batches[..Attempted(r)]);
  }

  /** The upserts stop at the first one the service fails: every upsert
      whose batch number was printed was answered, and a run that fails was
      stopped by the rejection of the very next call, so no batch is sent
      after a failed upsert. */
  lemma {:induction false} RunHalts(s: Service, data: Json, stringify: Json -> string, embed: string -> Option<Vector>, records: seq<Record>)
    requires Answered(s, |ProvisionPlan(IndexName in s.indexes)|)
    requires Input(data, stringify, embed) == Ok(records) && records != []
    ensures var r := Run(s, data, stringify, embed);
      var plan := ProvisionPlan(IndexName in s.indexes);
      && Answered(s, |plan| + |r.progress|)
      && (r.outcome != Done ==> |s.log| + |plan| + |r.progress| in s.rejects)
  {
    var p := ProvisionedForUpserts(s, data, stringify, embed, records);
    SendBatchesAfterPlan(s, p, |ProvisionPlan(IndexName in s.indexes)|, Batches(records, BatchSize));
  }

  /** The batch loop run after `n` answered provisioning calls, with its
      answers and its rejection counted from the start of the run. */
  lemma SendBatchesAfterPlan(s: Service, p: Service, n: nat, batches: seq<seq<Record>>)
    requires p.rejects == s.rejects && |p.log| == |s.log| + n && Answered(s, n)
    requires IndexName in p.indexes
    ensures var r := SendBatches(p, batches, 0);
      && (r.outcome == Done || r.outcome == Aborted(UpsertFailed))
      && (r.outcome == Done <==> Answered(s, n + |batches|))
      && (r.outcome == Done ==> |r.progress| == |batches|)
      && Answered(s, n + |r.progress|)
      && (r.outcome != Done ==> |s.log| + n + |r.progress| in s.rejects)
  {
    var r := SendBatches(p, batches, 0);
    SendBatchesCalls(p, batches, 0);
    AnsweredSplit(s, p, n, |r.progress|);
    AnsweredSplit(s, p, n, |batches|);
  }

  /** The batches sent after the provisioning calls are those of the upsert
      calls that follow them. */
  lemma SentAfterPlan(s: Service, t: Service, indexExists: bool, sentBatches: seq<seq<Record>>)
    requires t.log == s.log + ProvisionPlan(indexExists) + UpsertCalls(sentBatches)
    ensures NewCalls(s, t) == ProvisionPlan(indexExists) + UpsertCalls(sentBatches)
    ensures SentBatches(NewCalls(s, t)) == sentBatches
  {
    var plan := ProvisionPlan(indexExists);
    var calls := plan + UpsertCalls(sentBatches);
    assert t.log == s.log + calls;
    assert t.log[|s.log|..] == calls;
    SentBatchesAppend(plan, UpsertCalls(sentBatches));
    SentUpsertCalls(sentBatches);
    SentPlan(indexExists);
  }

  /** In a run that gets to the upserts, the target index, recreated empty
      with the configuration `main` asks for, holds the batches that were
      stored, and the printed batch numbers run 1, 2, … over those batches. */
  lemma {:induction false} RunStores(s: Service, data: Json, stringify: Json -> string, embed: string -> Option<Vector>, records: seq<Record>)
    requires Answered(s, |ProvisionPlan(IndexName in s.indexes)|)
    requires Input(data, stringify, embed) == Ok(records) && records != []
    ensures var r := Run(s, data, stringify, embed);
      var batches := Batches(records, BatchSize);
      && CountsUpFrom(r.progress, 1)
      && |r.progress| <= |batches|
      && IndexName in r.service.indexes
      && r.service.indexes[IndexName] == Index(Target, Upserted(map[], Concat(batches[..|r.progress|])))
  {
    var batches := Batches(records, BatchSize);
    var p := ProvisionedForUpserts(s, data, stringify, embed, records);
    SendBatchesProgress(p, batches, 0);
    SendBatchesStore(p, batches, 0);
  }

  /** When provisioning succeeds and there are records, the run is the
      sending of their batches from the freshly provisioned service. */
  lemma ProvisionedForUpserts(s: Service, data: Json, stringify: Json -> string, embed: string -> Option<Vector>, records: seq<Record>)
    returns (p: Service)
    requires Answered(s, |ProvisionPlan(IndexName in s.indexes)|)
    requires Input(data, stringify, embed) == Ok(records) && records != []
    ensures p.rejects == s.rejects
    ensures p.log == s.log + ProvisionPlan(IndexName in s.indexes)
    ensures p.indexes == s.indexes[IndexName := Index(Target, map[])]
    ensures Run(s, data, stringify, embed) == SendBatches(p, Batches(records, BatchSize), 0)
  {
    ProvisionSpec(s);
    p := Provision(s).service;
    var plan := ProvisionPlan(IndexName in s.indexes);
    assert plan[..|plan|] == plan;
  }

  /** A run that upserts everything: the batches sent, joined in call order,
      are exactly the records; there are ceil(N / 100) of them, each holding
      1 to 100 records; one batch number is printed per batch; and the target
      index holds exactly the records, by id. */
  lemma {:induction false} RunDone(s: Service, data: Json, stringify: Json -> string, embed: string -> Option<Vector>, records: seq<Record>)
    requires Input(data, stringify, embed) == Ok(records)
    requires Run(s, data, stringify, embed).outcome == Done
    ensures var r := Run(s, data, stringify, embed);
      var sent := SentBatches(NewCalls(s, r.service));
      && records != []
      && Concat(sent) == records
      && |sent| == (|records| + BatchSize - 1) / BatchSize
      && (forall b :: b in sent ==> 0 < |b| <= BatchSize)
      && |r.progress| == |sent|
      && IndexName in r.service.indexes
      && r.service.indexes[IndexName] == Index(Target, Upserted(map[], records))
  {
    var r := Run(s, data, stringify, embed);
    var batches := Batches(records, BatchSize);
    var p := Provision(s);
    ProvisionSpec(s);
    assert p.outcome == Done;
    assert records != [];
    RunUpserts(s, data, stringify, embed, records);
    RunSends(s, data, stringify, embed, records);
    RunStores(s, data, stringify, embed, records);
    var sent := SentBatches(NewCalls(s, r.service));
    assert sent == batches by {
      assert batches[..|batches|] == batches;
    }
    ConcatBatches(records, BatchSize);
    BatchSizes(records, BatchSize);
    forall b | b in batches ensures 0 < |b| <= BatchSize {
      var j :| 0 <= j < |batches| && batches[j] == b;
    }
  }


  /** A run changes no index but the target one. */
  lemma {:induction false} RunOnlyTarget(s: Service, data: Json, stringify: Json -> string, embed: string -> Option<Vector>)
    ensures Run(s, data, stringify, embed).service.indexes - {IndexName} == s.indexes - {IndexName}
  {
    var p := Provision(s);
    ProvisionSpec(s);
    if p.outcome == Done {
      match Input(data, stringify, embed)
      case Err(_) =>
      case Ok(records) =>
        if records != [] {
          SendBatchesStore(p.service, Batches(records, BatchSize), 0);
        }
    }
  }

  /** Running `main` a second time on the same input, when both runs
      upsert everything, leaves every index as the first run left it: the
      delete-then-create makes the whole run repeatable. */
  lemma {:induction false} RunRepeatable(s: Service, data: Json, stringify: Json -> string, embed: string -> Option<Vector>)
    requires Run(s, data, stringify, embed).outcome == Done
    requires Run(Run(s, data, stringify, embed).service, data, stringify, embed).outcome == Done
    ensures Run(Run(s, data, stringify, embed).service, data, stringify, embed).service.indexes
         == Run(s, data, stringify, embed).service.indexes
  {
    var first := Run(s, data, stringify, embed);
    var second := Run(first.service, data, stringify, embed);
    var p := Provision(s);
    ProvisionSpec(s);
    assert p.outcome == Done;
    var records :| Input(data, stringify, embed) == Ok(records);
    RunDone(s, data, stringify, embed, records);
    RunDone(first.service, data, stringify, embed, records);
    RunOnlyTarget(first.service, data, stringify, embed);
    SameBesideKey(second.service.indexes, first.service.indexes, IndexName);
  }

  lemma SameBesideKey<K, V>(m1: map<K, V>, m2: map<K, V>, key: K)
    requires m1 - {key} == m2 - {key}
    requires key in m1 && key in m2 && m1[key] == m2[key]
    ensures m1 == m2
  {
    assert forall k :: k in m1 <==> k in m2 by {
      forall k ensures k in m1 <==> k in m2 {
        if k != key {
          assert k in m1 <==> k in m1 - {key};
          assert k in m2 <==> k in m2 - {key};
        }
      }
    }
    forall k | k in m1 ensures m1[k] == m2[k] {
      if k != key {
        assert (m1 - {key})[k] == m1[k];
        assert (m2 - {key})[k] == m2[k];
      }
    }
  }

  /** Two banner elements with ids, into a service with no index and no
      failures: one listIndexes, one createIndex, then exactly one upsert of
      two records in input order, each holding its element's serialisation,
      and batch number 1 printed. */
  lemma TwoBannerRun(stringify: Json -> string, embed: string -> Option<Vector>)
    requires forall text :: embed(text).Some?
    ensures var e1 := JObject(map["id" := JString("e1"), "text" := JString("red banner")]);
      var e2 := JObject(map["id" := JString("e2"), "text" := JString("blue banner")]);
      var data := JObject(map["design" := JArray([e1, e2])]);
      var r := Run(Service(map[], [], {}), data, stringify, embed);
      && r.outcome == Done
      && r.progress == [1]
      && r.service.log == [
           ListCall,
           CreateCall(Target),
           UpsertCall(IndexName, [
             Record(JString("e1"), embed(stringify(e1)).value, Metadata(stringify(e1))),
             Record(JString("e2"), embed(stringify(e2)).value, Metadata(stringify(e2)))])]
  {
    var e1 := JObject(map["id" := JString("e1"), "text" := JString("red banner")]);
    var e2 := JObject(map["id" := JString("e2"), "text" := JString("blue banner")]);
    var data := JObject(map["design" := JArray([e1, e2])]);
    var r1 := Record(JString("e1"), embed(stringify(e1)).value, Metadata(stringify(e1)));
    var r2 := Record(JString("e2"), embed(stringify(e2)).value, Metadata(stringify(e2)));
    TwoBannerRecords(stringify, embed);
    var s := Service(map[], [], {});
    assert ProvisionPlan(false) == [ListCall, CreateCall(Target)];
    var p := ProvisionedForUpserts(s, data, stringify, embed, [r1, r2]);
    assert p.log == [ListCall, CreateCall(Target)];
    OneBatch(p, [r1, r2]);
  }

  /** At most one batch's worth of records goes out in a single upsert call,
      numbered 1, which ends the run when the service answers it. */
  lemma OneBatch(p: Service, records: seq<Record>)
    requires IndexName in p.indexes && |p.log| !in p.rejects
    requires 0 < |records| <= BatchSize
    ensures SendBatches(p, Batches(records, BatchSize), 0) ==
      Report(Done, Perform(p, UpsertCall(IndexName, records)), [1])
  {
    assert Batches(records, BatchSize) == [records];
    var q := Perform(p, UpsertCall(IndexName, records));
    assert SendBatches(q, [], 1) == Report(Done, q, []);
  }

  lemma TwoBannerRecords(stringify: Json -> string, embed: string -> Option<Vector>)
    requires forall text :: embed(text).Some?
    ensures var e1 := JObject(map["id" := JString("e1"), "text" := JString("red banner")]);
      var e2 := JObject(map["id" := JString("e2"), "text" := JString("blue banner")]);
      Input(JObject(map["design" := JArray([e1, e2])]), stringify, embed) == Ok([
        Record(JString("e1"), embed(stringify(e1)).value, Metadata(stringify(e1))),
        Record(JString("e2"), embed(stringify(e2)).value, Metadata(stringify(e2)))])
  {
    var e1 := JObject(map["id" := JString("e1"), "text" := JString("red banner")]);
    var e2 := JObject(map["id" := JString("e2"), "text" := JString("blue banner")]);
    var r1 := Record(JString("e1"), embed(stringify(e1)).value, Metadata(stringify(e1)));
    var r2 := Record(JString("e2"), embed(stringify(e2)).value, Metadata(stringify(e2)));
    assert Get(e1, "id") == Ok(Some(JString("e1"))) && Truthy(Some(JString("e1")));
    assert [] + [r1] == [r1];
    assert Step([], e1, stringify, embed) == Ok([r1]);
    assert [e1][..0] == [];
    assert Prepare([e1], stringify, embed) == Ok([r1]);
    assert Get(e2, "id") == Ok(Some(JString("e2"))) && Truthy(Some(JString("e2")));
    assert [r1] + [r2] == [r1, r2];
    assert Step([r1], e2, stringify, embed) == Ok([r1, r2]);
    assert [e1, e2][..1] == [e1];
    assert Prepare([e1, e2], stringify, embed) == Ok([r1, r2]);
  }

  /** What remains of SendBatches once the batches before `k` have been
      answered and `progress` printed for them. */
  ghost function Resumed(s: Service, batches: seq<seq<Record>>, k: nat, progress: seq<nat>): Report
    requires k <= |batches|
  {
    var rest := SendBatches(s, batches[k..], k);
    rest.(progress := progress + rest.progress)
  }

  /** One step of the batch loop: the upsert of batch `k`, which either ends
      the loop or prints `k + 1` and moves on to the next batch. */
  lemma ResumedStep(s: Service, batches: seq<seq<Record>>, k: nat, progress: seq<nat>)
    requires k < |batches|
    ensures var call := UpsertCall(IndexName, batches[k]);
      Resumed(s, batches, k, progress) ==
        if !Accepts(s, call) then Report(Aborted(UpsertFailed), Perform(s, call), progress)
        else Resumed(Perform(s, call), batches, k + 1, progress + [k + 1])
  {
    assert batches[k..][0] == batches[k];
    assert batches[k..][1..] == batches[k + 1..];
    var call := UpsertCall(IndexName, batches[k]);
    if Accepts(s, call) {
      var rest := SendBatches(Perform(s, call), batches[k + 1..], k + 1);
      assert progress + ([k + 1] + rest.progress) == (progress + [k + 1]) + rest.progress;
    } else {
      assert progress + [] == progress;
    }
  }

  /** The batch loop of index.js:76-81: `i` steps by 100 from 0 while it is
      below the number of records, each step upserts `records.slice(i, i + 100)`
      and prints `Math.floor(i / 100) + 1`; a failed upsert leaves the loop. */
  method UpsertInBatches(client: Client, records: seq<Record>) returns (outcome: Outcome, progress: seq<nat>)
    modifies client
    ensures Report(outcome, client.State(), progress) == SendBatches(old(client.State()), Batches(records, BatchSize), 0)
  {
    ghost var s0 := client.State();
    ghost var batches := Batches(records, BatchSize);
    progress := [];
    var i := 0;
    assert batches[0..] == batches;
    while i < |records|
      invariant i == |progress| * BatchSize
      invariant |progress| <= |batches|
      invariant SendBatches(s0, batches, 0) == Resumed(client.State(), batches, |progress|, progress)
      decreases |records| - i
    {
      ghost var k := |progress|;
      BatchCountBound(records, BatchSize, k);
      BatchAt(records, BatchSize, k);
      var batch := records[i..Min(i + BatchSize, |records|)];
      ResumedStep(client.State(), batches, k, progress);
      var ok := client.Upsert(IndexName, batch);
      if !ok {
        return Aborted(UpsertFailed), progress;
      }
      assert i / BatchSize == k;
      progress := progress + [i / BatchSize + 1];
      i := i + BatchSize;
    }
    BatchCountBound(records, BatchSize, |progress|);
    assert batches[|progress|..] == [];
    assert progress + [] == progress;
    outcome := Done;
  }

  /** `main` (index.js:5-88) run against `client`, with the serialiser
      (JSON.stringify) and the embedding pipeline given as functions. */
  method RunIngestion(client: Client, data: Json, stringify: Json -> string, embed: string -> Option<Vector>)
    returns (outcome: Outcome, progress: seq<nat>)
    modifies client
    ensures Report(outcome, client.State(), progress) == Run(old(client.State()), data, stringify, embed)
  {
    progress := [];
    var existingIndexes := client.ListIndexes();
    if existingIndexes.None? {
      return Aborted(ListFailed), progress;
    }
    var indexExists := IndexName in existingIndexes.value;
    if indexExists {
      var deleted := client.DeleteIndex(IndexName);
      if !deleted {
        return Aborted(DeleteFailed), progress;
      }
    }
    var created := client.CreateIndex(Target);
    if !created {
      return Aborted(CreateFailed), progress;
    }
    var design := DesignArray(data);
    if design.Err? {
      return Aborted(Rejected(design.error)), progress;
    }
    var records := PrepareRecords(design.value, stringify, embed);
    if records.Err? {
      return Aborted(Rejected(records.error)), progress;
    }
    if |records.value| == 0 {
      return NothingToUpsert, progress;
    }
    outcome, progress := UpsertInBatches(client, records.value);
  }
}
