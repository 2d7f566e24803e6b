/** Record preparation: the `design` check and the loop that turns each
    element with a truthy `id` into one record (index.js, lines 46-66). */
module Records {
  import opened Data

  /** `data.design` when it is an array; the explicit throw otherwise. */
  function DesignArray(data: Json): (r: Result<seq<Json>, PrepareError>)
    ensures r == Err(NullDereference) <==> data == JNull
    ensures r.Ok? <==> data.JObject? && "design" in data.fields && data.fields["design"].JArray?
    ensures r.Ok? ==> r.value == data.fields["design"].items
    ensures r.Err? ==> r.error != EmbeddingFailed
  {
    match Get(data, "design")
    case Err(e) => Err(e)
    case Ok(design) =>
      if !Truthy(design) || !design.value.JArray? then Err(NoDesignArray)
      else Ok(design.value.items)
  }

  /** Whether the loop keeps an element: reading its `id` does not throw and
      gives a truthy value. */
  predicate Kept(element: Json) {
    match Get(element, "id")
    case Ok(id) => Truthy(id)
    case Err(_) => false
  }

  /** What the loop body does with one element, given the records built so far. */
  function Step(records: seq<Record>, element: Json, stringify: Json -> string, embed: string -> Option<Vector>)
    : Result<seq<Record>, PrepareError>
  {
    match Get(element, "id")
    case Err(e) => Err(e)
    case Ok(id) =>
      if !Truthy(id) then Ok(records)
      else
        var text := stringify(element);
        match embed(text)
        case None => Err(EmbeddingFailed)
        case Some(values) => Ok(records + [Record(id.value, values, Metadata(text))])
  }

  /** The records built from the elements of `design`, or the first failure. */
  function Prepare(design: seq<Json>, stringify: Json -> string, embed: string -> Option<Vector>)
    : Result<seq<Record>, PrepareError>
    decreases |design|
  {
    if design == [] then Ok([])
    else
      match Prepare(design[..|design| - 1], stringify, embed)
      case Err(e) => Err(e)
      case Ok(records) => Step(records, design[|design| - 1], stringify, embed)
  }

  /** The positions of the kept elements of `design`, in increasing order. */
  function KeptPositions(design: seq<Json>): seq<nat>
    decreases |design|
  {
    if design == [] then []
    else KeptPositions(design[..|design| - 1]) + (if Kept(design[|design| - 1]) then [|design| - 1] else [])
  }

  /** The record the loop builds from a kept element. */
  predicate BuiltFrom(r: Record, element: Json, stringify: Json -> string, embed: string -> Option<Vector>) {
    Get(element, "id") == Ok(Some(r.id))
    && r.metadata == Metadata(stringify(element))
    && embed(stringify(element)) == Some(r.values)
  }

  /** KeptPositions picks out exactly the kept elements, in input order. */
  lemma {:induction false} KeptPositionsExact(design: seq<Json>)
    ensures forall j :: 0 <= j < |KeptPositions(design)| ==> KeptPositions(design)[j] < |design|
    ensures forall j, k :: 0 <= j < k < |KeptPositions(design)| ==> KeptPositions(design)[j] < KeptPositions(design)[k]
    ensures forall i :: 0 <= i < |design| ==> (i in KeptPositions(design) <==> Kept(design[i]))
  {
    if design != [] {
      var init := design[..|design| - 1];
      KeptPositionsExact(init);
      assert forall i :: 0 <= i < |init| ==> init[i] == design[i];
    }
  }

  /** The records are built, in order, from exactly the kept elements: same
      id, metadata holding the serialisation, values from embedding it. */
  lemma {:induction false} PrepareBuildsKept(design: seq<Json>, stringify: Json -> string, embed: string -> Option<Vector>, records: seq<Record>)
    requires Prepare(design, stringify, embed) == Ok(records)
    ensures |records| == |KeptPositions(design)|
    ensures forall j :: 0 <= j < |records| ==>
      KeptPositions(design)[j] < |design| && BuiltFrom(records[j], design[KeptPositions(design)[j]], stringify, embed)
  {
    if design != [] {
      var init := design[..|design| - 1];
      var last := design[|design| - 1];
      var prev :| Prepare(init, stringify, embed) == Ok(prev);
      PrepareBuildsKept(init, stringify, embed, prev);
      var kp := KeptPositions(init);
      if Kept(last) {
        var r := records[|records| - 1];
        assert records == prev + [r];
        assert KeptPositions(design) == kp + [|design| - 1];
        forall j | 0 <= j < |records|
          ensures KeptPositions(design)[j] < |design| && BuiltFrom(records[j], design[KeptPositions(design)[j]], stringify, embed)
        {
          if j < |prev| {
            assert records[j] == prev[j] && KeptPositions(design)[j] == kp[j];
            assert design[kp[j]] == init[kp[j]];
          }
        }
      } else {
        assert records == prev;
        assert KeptPositions(design) == kp;
        forall j | 0 <= j < |records|
          ensures KeptPositions(design)[j] < |design| && BuiltFrom(records[j], design[KeptPositions(design)[j]], stringify, embed)
        {
          assert design[kp[j]] == init[kp[j]];
        }
      }
    }
  }

  /** Every record carries a truthy id. */
  lemma {:induction false} PreparedIdsTruthy(design: seq<Json>, stringify: Json -> string, embed: string -> Option<Vector>, records: seq<Record>)
    requires Prepare(design, stringify, embed) == Ok(records)
    ensures forall r :: r in records ==> Truthy(Some(r.id))
  {
    if design != [] {
      var init := design[..|design| - 1];
      var prev :| Prepare(init, stringify, embed) == Ok(prev);
      PreparedIdsTruthy(init, stringify, embed, prev);
      assert records == prev || (Kept(design[|design| - 1]) && records[..|prev|] == prev && |records| == |prev| + 1);
      assert forall r :: r in records ==> r in prev || r == records[|records| - 1];
    }
  }

  /** Preparation fails exactly when some element is `null` or some kept
      element cannot be embedded. */
  lemma {:induction false} PrepareSucceeds(design: seq<Json>, stringify: Json -> string, embed: string -> Option<Vector>)
    ensures Prepare(design, stringify, embed).Ok? <==>
      forall i :: 0 <= i < |design| ==> design[i] != JNull && (Kept(design[i]) ==> embed(stringify(design[i])).Some?)
  {
    if design != [] {
      var init := design[..|design| - 1];
      PrepareSucceeds(init, stringify, embed);
      assert forall i :: 0 <= i < |init| ==> init[i] == design[i];
    }
  }

  /** The body depends on the records built so far only by appending to them. */
  lemma StepExtends(records: seq<Record>, element: Json, stringify: Json -> string, embed: string -> Option<Vector>)
    ensures Step(records, element, stringify, embed) ==
      match Step([], element, stringify, embed)
      case Err(e) => Err(e)
      case Ok(added) => Ok(records + added)
  {
    assert records + [] == records;
    match Get(element, "id")
    case Err(_) =>
    case Ok(id) =>
      if Truthy(id) && embed(stringify(element)).Some? {
        var r := Record(id.value, embed(stringify(element)).value, Metadata(stringify(element)));
        assert [] + [r] == [r];
      }
  }

  /** Preparing two consecutive runs of elements prepares each in turn and
      concatenates the results: the first failure wins, order is kept. */
  lemma {:induction false} PrepareAppend(a: seq<Json>, b: seq<Json>, stringify: Json -> string, embed: string -> Option<Vector>)
    ensures Prepare(a + b, stringify, embed) ==
      match Prepare(a, stringify, embed)
      case Err(e) => Err(e)
      case Ok(first) =>
        match Prepare(b, stringify, embed)
        case Err(e) => Err(e)
        case Ok(rest) => Ok(first + rest)
  {
    if b == [] {
      assert a + b == a;
      if Prepare(a, stringify, embed).Ok? {
        assert Prepare(a, stringify, embed).value + [] == Prepare(a, stringify, embed).value;
      }
    } else {
      var binit := b[..|b| - 1];
      var blast := b[|b| - 1];
      assert (a + b)[..|a + b| - 1] == a + binit;
      assert (a + b)[|a + b| - 1] == blast;
      PrepareAppend(a, binit, stringify, embed);
      match Prepare(a + binit, stringify, embed)
      case Err(_) =>
      case Ok(x) =>
        StepExtends(x, blast, stringify, embed);
        var y := Prepare(binit, stringify, embed).value;
        StepExtends(y, blast, stringify, embed);
        if Step([], blast, stringify, embed).Ok? {
          var added := Step([], blast, stringify, embed).value;
          assert x + added == Prepare(a, stringify, embed).value + (y + added);
        }
    }
  }

  /** Of `[{"id":"a"}, {"x":"no-id"}, {"id":"b"}]` exactly the two elements
      with an id become records, `a` then `b`. */
  lemma MissingIdSkipped(stringify: Json -> string, embed: string -> Option<Vector>)
    requires forall text :: embed(text).Some?
    ensures var design := [
        JObject(map["id" := JString("a")]),
        JObject(map["x" := JString("no-id")]),
        JObject(map["id" := JString("b")])];
      var r := Prepare(design, stringify, embed);
      r.Ok? && |r.value| == 2 && r.value[0].id == JString("a") && r.value[1].id == JString("b")
  {
    var a := JObject(map["id" := JString("a")]);
    var x := JObject(map["x" := JString("no-id")]);
    var b := JObject(map["id" := JString("b")]);
    var ra := Record(JString("a"), embed(stringify(a)).value, Metadata(stringify(a)));
    var rb := Record(JString("b"), embed(stringify(b)).value, Metadata(stringify(b)));
    assert Get(a, "id") == Ok(Some(JString("a"))) && Truthy(Some(JString("a")));
    assert [] + [ra] == [ra];
    assert Step([], a, stringify, embed) == Ok([ra]);
    assert [a][..0] == [];
    assert Prepare([a], stringify, embed) == Ok([ra]);
    assert Get(x, "id") == Ok(None);
    assert [a, x][..1] == [a];
    assert Prepare([a, x], stringify, embed) == Ok([ra]);
    assert Get(b, "id") == Ok(Some(JString("b"))) && Truthy(Some(JString("b")));
    assert [a, x, b][..2] == [a, x];
    assert [ra] + [rb] == [ra, rb];
    assert Step([ra], b, stringify, embed) == Ok([ra, rb]);
    assert Prepare([a, x, b], stringify, embed) == Ok([ra, rb]);
  }

  /** The loop of index.js:52-66: `for…of` over the elements with `continue`
      for a falsy id; a throw leaves the loop and `main`. */
  method PrepareRecords(design: seq<Json>, stringify: Json -> string, embed: string -> Option<Vector>)
    returns (r: Result<seq<Record>, PrepareError>)
    ensures r == Prepare(design, stringify, embed)
  {
    var records := [];
    for i := 0 to |design|
      invariant Prepare(design[..i], stringify, embed) == Ok(records)
    {
      assert design[..i + 1][..i] == design[..i];
      var element := design[i];
      var id := Get(element, "id");
      if id.Err? {
        PrepareAppend(design[..i + 1], design[i + 1..], stringify, embed);
        assert design[..i + 1] + design[i + 1..] == design;
        return Err(id.error);
      }
      if !Truthy(id.value) {
        continue;
      }
      var text := stringify(element);
      var embedding := embed(text);
      if embedding.None? {
        PrepareAppend(design[..i + 1], design[i + 1..], stringify, embed);
        assert design[..i + 1] + design[i + 1..] == design;
        return Err(EmbeddingFailed);
      }
      records := records + [Record(id.value.value, embedding.value, Metadata(text))];
    }
    assert design[..|design|] == design;
    return Ok(records);
  }
}
