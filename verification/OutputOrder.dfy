/**
 Completed requests arrive in any order; the generation returns them in request order.
 */
module OutputOrder {
  import opened Options
  import opened Sequences
  import opened CaptureWire
  import opened CaptureValidators
  import opened CaptureEquivalence

  /** The completions are one per request and no others. */
  ghost predicate CompletesAll(ids: seq<nat>, completed: seq<Output>) {
    Distinct(ids) && multiset(OutputIds(completed)) == multiset(ids)
  }

  /** `ordered` is a rearrangement of `completed` that follows the request order. */
  ghost predicate Follows(ids: seq<nat>, completed: seq<Output>, ordered: seq<Output>) {
    OutputIds(ordered) == ids && multiset(ordered) == multiset(completed)
  }

  /** The slot of each request holds its completion among the first `n`, if there is one. */
  ghost predicate Placed(ids: seq<nat>, completed: seq<Output>, slots: seq<Option<Output>>) {
    && |slots| == |ids|
    && Distinct(OutputIds(completed))
    && (forall i :: 0 <= i < |slots| && slots[i].Some? ==>
          slots[i].value in completed && slots[i].value.requestId == ids[i])
    && (forall o :: o in completed ==> exists i :: 0 <= i < |slots| && slots[i] == Some(o))
  }

  lemma UnknownCompletion(ids: seq<nat>, completed: seq<Output>, k: nat)
    requires k < |completed| && completed[k].requestId !in ids
    ensures !CompletesAll(ids, completed)
  {
    assert OutputIds(completed)[k] in multiset(OutputIds(completed));
  }

  lemma RepeatedCompletion(ids: seq<nat>, completed: seq<Output>, i: nat, j: nat)
    requires i < j < |completed| && completed[i].requestId == completed[j].requestId
    ensures !CompletesAll(ids, completed)
  {
    RepeatedMultiplicity(OutputIds(completed), i, j);
    if Distinct(ids) {
      DistinctMultiplicity(ids);
    }
  }

  lemma MissingCompletion(ids: seq<nat>, completed: seq<Output>, i: nat)
    requires i < |ids| && forall o :: o in completed ==> o.requestId != ids[i]
    ensures !CompletesAll(ids, completed)
  {
    assert ids[i] in multiset(ids);
    assert ids[i] !in OutputIds(completed);
  }

  lemma IdsSeparate(outputs: seq<Output>)
    requires Distinct(OutputIds(outputs))
    ensures Distinct(outputs)
  {
    forall i, j | 0 <= i < j < |outputs| ensures outputs[i] != outputs[j] {
      assert OutputIds(outputs)[i] != OutputIds(outputs)[j];
    }
  }

  /** With every slot filled the slots are the completions rearranged. */
  lemma AllPlaced(ids: seq<nat>, completed: seq<Output>, slots: seq<Option<Output>>, ordered: seq<Output>)
    requires Distinct(ids) && Placed(ids, completed, slots) && |ordered| == |slots|
    requires forall i :: 0 <= i < |slots| ==> slots[i] == Some(ordered[i])
    ensures Follows(ids, completed, ordered) && CompletesAll(ids, completed)
  {
    assert OutputIds(ordered) == ids;
    assert forall i, j :: 0 <= i < j < |ordered| ==> OutputIds(ordered)[i] != OutputIds(ordered)[j];
    IdsSeparate(ordered);
    IdsSeparate(completed);
    SameElements(ordered, completed);
    CompletedIds(ids, completed, ordered);
    SameElements(ids, OutputIds(completed));
  }

  lemma CompletedIds(ids: seq<nat>, completed: seq<Output>, ordered: seq<Output>)
    requires OutputIds(ordered) == ids && forall o :: o in ordered <==> o in completed
    ensures forall id :: id in ids <==> id in OutputIds(completed)
  {
    forall id ensures id in ids <==> id in OutputIds(completed) {
      if id in ids {
        var i :| 0 <= i < |ids| && ids[i] == id;
        assert ordered[i] in completed;
        var k :| 0 <= k < |completed| && completed[k] == ordered[i];
        assert OutputIds(completed)[k] == id;
      }
      if id in OutputIds(completed) {
        var k :| 0 <= k < |completed| && OutputIds(completed)[k] == id;
        assert completed[k] in ordered;
        var i :| 0 <= i < |ordered| && ordered[i] == completed[k];
        assert ids[i] == id;
      }
    }
  }

  /** There is only one way to follow the request order, whatever the completion order was. */
  lemma OrderUnique(ids: seq<nat>, a: seq<Output>, b: seq<Output>, first: seq<Output>, second: seq<Output>)
    requires Distinct(ids) && multiset(a) == multiset(b)
    requires Follows(ids, a, first) && Follows(ids, b, second)
    ensures first == second
  {
    assert |first| == |OutputIds(first)| == |ids| == |OutputIds(second)| == |second|;
    forall i | 0 <= i < |ids| ensures first[i] == second[i] {
      assert first[i] in multiset(second);
      var j :| 0 <= j < |second| && second[j] == first[i];
      assert OutputIds(second)[j] == OutputIds(first)[i];
    }
  }

  method PositionTable(ids: seq<nat>) returns (table: Option<map<nat, nat>>)
    ensures table.Some? <==> Distinct(ids)
    ensures table.Some? ==> table.value.Keys == set id | id in ids
    ensures table.Some? ==> forall i :: 0 <= i < |ids| ==> table.value[ids[i]] == i
  {
    var m: map<nat, nat> := map[];
    for i := 0 to |ids|
      invariant m.Keys == set id | id in ids[..i]
      invariant forall k :: 0 <= k < i ==> m[ids[k]] == k
      invariant forall k, j :: 0 <= k < j < i ==> ids[k] != ids[j]
    {
      if ids[i] in m {
        return None;
      }
      m := m[ids[i] := i];
    }
    assert ids[..|ids|] == ids;
    return Some(m);
  }

  /**
   Succeeds exactly when the request identities are distinct and the completions are a
   permutation of them, and then returns the completions in request order.
   */
  method OrderRequestOutputs(ids: seq<nat>, completed: seq<Output>) returns (r: Option<seq<Output>>)
    ensures r.Some? <==> CompletesAll(ids, completed)
    ensures r.Some? ==> Follows(ids, completed, r.value)
  {
    var table := PositionTable(ids);
    if table.None? {
      return None;
    }
    var slots: seq<Option<Output>> := seq(|ids|, _ => None);
    for k := 0 to |completed|
      invariant Placed(ids, completed[..k], slots)
    {
      var o := completed[k];
      if o.requestId !in table.value {
        UnknownCompletion(ids, completed, k);
        return None;
      }
      var p := table.value[o.requestId];
      if slots[p].Some? {
        ghost var j :| 0 <= j < k && completed[..k][j] == slots[p].value;
        RepeatedCompletion(ids, completed, j, k);
        return None;
      }
      PlaceOne(ids, completed, k, slots, p);
      slots := slots[p := Some(o)];
    }
    assert completed[..|completed|] == completed;
    var ordered: seq<Output> := [];
    for i := 0 to |slots|
      invariant |ordered| == i && forall j :: 0 <= j < i ==> slots[j] == Some(ordered[j])
    {
      if slots[i].None? {
        NotPlaced(ids, completed, slots, i);
        MissingCompletion(ids, completed, i);
        return None;
      }
      ordered := ordered + [slots[i].value];
    }
    AllPlaced(ids, completed, slots, ordered);
    return Some(ordered);
  }

  lemma NotPlaced(ids: seq<nat>, completed: seq<Output>, slots: seq<Option<Output>>, i: nat)
    requires Distinct(ids) && Placed(ids, completed, slots) && i < |ids| && slots[i].None?
    ensures forall o :: o in completed ==> o.requestId != ids[i]
  {
    forall o | o in completed ensures o.requestId != ids[i] {
      var j :| 0 <= j < |slots| && slots[j] == Some(o);
      assert ids[j] != ids[i];
    }
  }

  lemma PlaceOne(ids: seq<nat>, completed: seq<Output>, k: nat, slots: seq<Option<Output>>, p: nat)
    requires Distinct(ids) && k < |completed| && Placed(ids, completed[..k], slots)
    requires p < |ids| && ids[p] == completed[k].requestId && slots[p].None?
    ensures Placed(ids, completed[..k + 1], slots[p := Some(completed[k])])
  {
    var before, after := completed[..k], completed[..k + 1];
    var next := slots[p := Some(completed[k])];
    assert after == before + [completed[k]];
    NotPlaced(ids, before, slots, p);
    assert forall i :: 0 <= i < k ==> before[i] in before && OutputIds(before)[i] == OutputIds(after)[i];
    assert OutputIds(after)[k] == ids[p];
    assert Distinct(OutputIds(after));
    forall o | o in after ensures exists i :: 0 <= i < |next| && next[i] == Some(o) {
      if o in before {
        var i :| 0 <= i < |slots| && slots[i] == Some(o);
        assert next[i] == Some(o);
      } else {
        assert next[p] == Some(o);
      }
    }
  }

  /**
   Outputs in request order carry the bound identities, which is the condition under which
   the two capture validators agree on every line sequence.
   */
  lemma OrderedOutputsValidateAlike(ids: seq<nat>, completed: seq<Output>, ordered: seq<Output>,
                                    lines: seq<Line>, callId: string)
    requires CompletesAll(ids, completed) && Follows(ids, completed, ordered)
    ensures ProducerAccepts(lines, callId, Bind(ids), ordered) <==> ConsumerResult(lines, callId, ordered).Some?
  {
    ValidatorsAgree(lines, callId, ids, ordered);
  }
}
