/** What the completeness test of a tool exchange guarantees about pairing calls with results. */
module Pairing {
  import opened Wrappers
  import opened Transcript
  import opened Units
  import opened Rewriting

  ghost predicate Distinct(ids: seq<string>) {
    forall i, j | 0 <= i < j < |ids| :: ids[i] != ids[j]
  }

  ghost predicate Uniform(ids: seq<string>) {
    forall i, j | 0 <= i < j < |ids| :: ids[i] == ids[j]
  }

  /** Every call has exactly one result and every result answers exactly one call. */
  ghost predicate Paired(calls: seq<string>, results: seq<string>) {
    multiset(calls) == multiset(results)
  }

  lemma {:induction false} DistinctCallsPair(calls: seq<string>, results: seq<string>)
    requires Distinct(calls) && |calls| == |results|
    requires forall id | id in calls :: id in results
    ensures Paired(calls, results)
  {
    if calls == [] {
      assert results == [];
    } else {
      var id := calls[0];
      assert id in calls;
      var k :| 0 <= k < |results| && results[k] == id;
      var fewer := results[..k] + results[k + 1..];
      assert results == results[..k] + [id] + results[k + 1..];
      assert calls == [id] + calls[1..];
      forall other | other in calls[1..] ensures other in fewer {
        assert other in calls && other != id;
        assert other in results;
      }
      DistinctCallsPair(calls[1..], fewer);
    }
  }

  lemma UniformCallsPair(calls: seq<string>, results: seq<string>)
    requires Uniform(calls) && Complete(calls, results)
    ensures Paired(calls, results)
  {
    forall i | 0 <= i < |calls| ensures results[i] == calls[i] {
      assert results[i] in calls;
    }
    assert results == calls;
  }

  /** Repeating one call and omitting the second occurrence of another still looks complete. */
  lemma MixedCallsMispair(calls: seq<string>) returns (results: seq<string>)
    requires !Distinct(calls) && !Uniform(calls)
    ensures Complete(calls, results) && !Paired(calls, results)
  {
    var i, j :| 0 <= i < j < |calls| && calls[i] == calls[j];
    var k :| 0 <= k < |calls| && calls[k] != calls[i];
    var repeated, other := calls[i], calls[k];
    results := calls[i := other];
    forall id | id in calls ensures id in results {
      var p :| 0 <= p < |calls| && calls[p] == id;
      assert results[if p == i then j else p] == id;
    }
    assert multiset(results)[repeated] == multiset(calls)[repeated] - 1;
  }

  /**
    The completeness test compares lengths and membership, not multiplicities. It implies a proper
    pairing, whatever the results, exactly for calls whose identifiers are all distinct or all equal.
   */
  lemma CompletePairsExactlyWhen(calls: seq<string>)
    ensures (forall results :: Complete(calls, results) ==> Paired(calls, results))
       <==> (Distinct(calls) || Uniform(calls))
  {
    if Distinct(calls) || Uniform(calls) {
      forall results | Complete(calls, results) ensures Paired(calls, results) {
        if Distinct(calls) {
          DistinctCallsPair(calls, results);
        } else {
          UniformCallsPair(calls, results);
        }
      }
    } else {
      var results := MixedCallsMispair(calls);
    }
  }

  /** A proper pairing always passes the test, with or without repeated identifiers. */
  lemma PairedIsComplete(calls: seq<string>, results: seq<string>)
    requires Paired(calls, results)
    ensures Complete(calls, results)
  {
    assert |multiset(calls)| == |calls| && |multiset(results)| == |results|;
    forall id | id in calls ensures id in results {
      assert id in multiset(calls);
    }
    forall id | id in results ensures id in calls {
      assert id in multiset(results);
    }
  }

  function CallOf(id: string): Block {
    ToolCall(id, "tool", Arguments("{}", None, None, None))
  }

  function ResultOf(id: string): Block {
    ToolResult(id, [], false)
  }

  /** A call for each of the identifiers, and a result for each of the identifiers that follow. */
  function Exchange(calls: seq<string>, results: seq<string>): seq<Message> {
    [Message(false, "", Assistant, Map(calls, CallOf)),
     Message(false, "", Tool, Map(results, ResultOf))]
  }

  lemma {:induction false} ExchangeCalls(calls: seq<string>)
    ensures BlockCallIds(Map(calls, CallOf)) == calls
  {
    if calls != [] {
      ExchangeCalls(calls[1..]);
      assert Map(calls, CallOf)[1..] == Map(calls[1..], CallOf);
    }
  }

  lemma {:induction false} ExchangeResults(results: seq<string>)
    ensures BlockResultIds(Map(results, ResultOf)) == results
  {
    if results != [] {
      ExchangeResults(results[1..]);
      assert Map(results, ResultOf)[1..] == Map(results[1..], ResultOf);
    }
  }

  /** An exchange is one unit, which is open to replacement exactly if the identifiers pass the test. */
  lemma ExchangeUnits(calls: seq<string>, results: seq<string>)
    requires calls != []
    ensures TranscriptUnits(Exchange(calls, results)) == [Unit(0, 2, !Complete(calls, results))]
  {
    var messages := Exchange(calls, results);
    ExchangeCalls(calls);
    ExchangeResults(results);
    assert CallIds(messages[0]) == calls;
    assert ToolRunEnd(messages, 2) == 2 && ToolRunEnd(messages, 1) == 2;
    assert ResultIds(messages, 1, 1) == [] && ResultIds(messages, 1, 2) == [] + results == results;
    assert UnitsFrom(messages, 2) == [];
  }

  /**
    The smallest misjudged transcript: of three calls two share an identifier, and the results answer
    the other one twice. Its unit is open to replacement although calls and results do not pair.
   */
  lemma MispairedExample()
    ensures var calls, results := ["a", "a", "b"], ["a", "b", "b"];
      TranscriptUnits(Exchange(calls, results)) == [Unit(0, 2, false)] && !Paired(calls, results)
      && Accepts(Exchange(calls, results), 0, 2)
  {
    var calls, results := ["a", "a", "b"], ["a", "b", "b"];
    ExchangeUnits(calls, results);
    assert Complete(calls, results);
    assert multiset(calls)["a"] == 2 && multiset(results)["a"] == 1;
    RunIsAccepted(Exchange(calls, results), 0, 1);
  }
}
