/**
 The repair of tool ledgers in internal/askorchicon/chathistory.go: whatever an interrupted turn left behind,
 the history handed to a provider has a result for every tool call. Documents are modelled decoded.
 */
module LedgerRepair {
  import opened Common
  import opened Text

  datatype Call = Call(id: string, kind: string, functionName: string, arguments: string, issuedAt: int)

  datatype ToolResult = ToolResult(callId: string, output: string, isError: bool)

  const ABORTED_OUTPUT := "tool call aborted — the turn ended before this tool returned a result"

  function Aborted(id: string): ToolResult {
    ToolResult(id, ABORTED_OUTPUT, true)
  }

  /** A missing type means a function call. */
  function Typed(c: Call): Call {
    if c.kind == "" then c.(kind := "function") else c
  }

  // ---------------------------------------------------------------- what the repair keeps

  /** Call i can be paired with results, and is the first with its id. */
  predicate Keepable(calls: seq<Call>, i: nat)
    requires i < |calls|
  {
    !Blank(calls[i].id) && forall j :: 0 <= j < i ==> calls[j].id != calls[i].id
  }

  predicate Ascending(ks: seq<nat>, n: nat) {
    |ks| <= n && (forall i :: 0 <= i < |ks| ==> ks[i] < n) && (forall i, j :: 0 <= i < j < |ks| ==> ks[i] < ks[j])
  }

  /** The positions of the calls that are kept: all that can be, in their order. */
  function KeptCalls(calls: seq<Call>): (ks: seq<nat>)
    ensures Ascending(ks, |calls|)
    ensures forall i :: 0 <= i < |calls| ==> (i in ks <==> Keepable(calls, i))
  {
    if calls == [] then []
    else
      var n := |calls| - 1;
      var ks := KeptCalls(calls[..n]);
      assert forall i :: 0 <= i < n ==> (Keepable(calls, i) <==> Keepable(calls[..n], i));
      if Keepable(calls, n) then ks + [n] else ks
  }

  /** The positions of the results that answer one of these ids. */
  function KeptResults(results: seq<ToolResult>, ids: set<string>): (ks: seq<nat>)
    ensures Ascending(ks, |results|)
    ensures forall i :: 0 <= i < |results| ==> (i in ks <==> results[i].callId in ids && !Blank(results[i].callId))
  {
    if results == [] then []
    else
      var n := |results| - 1;
      var ks := KeptResults(results[..n], ids);
      if results[n].callId in ids && !Blank(results[n].callId) then ks + [n] else ks
  }

  function RepairedCalls(calls: seq<Call>): (r: seq<Call>)
    ensures |r| == |KeptCalls(calls)|
  {
    var ks := KeptCalls(calls);
    seq(|ks|, i requires 0 <= i < |ks| => Typed(calls[ks[i]]))
  }

  function Ids(calls: seq<Call>): set<string> {
    set i | 0 <= i < |calls| :: calls[i].id
  }

  function Answered(results: seq<ToolResult>): set<string> {
    set i | 0 <= i < |results| :: results[i].callId
  }

  function Surviving(results: seq<ToolResult>, ids: set<string>): (r: seq<ToolResult>)
    ensures |r| == |KeptResults(results, ids)|
  {
    var ks := KeptResults(results, ids);
    seq(|ks|, i requires 0 <= i < |ks| => results[ks[i]])
  }

  /** An aborted result for every call that nothing answers, in the order of the calls. */
  function AbortedFor(calls: seq<Call>, answered: set<string>): (r: seq<ToolResult>)
    ensures forall i :: 0 <= i < |r| ==> r[i].callId in Ids(calls) && r[i] == Aborted(r[i].callId)
    ensures forall i :: 0 <= i < |calls| && calls[i].id !in answered ==> Aborted(calls[i].id) in r
    ensures (forall i :: 0 <= i < |calls| ==> calls[i].id in answered) ==> r == []
  {
    if calls == [] then []
    else
      var n := |calls| - 1;
      AbortedFor(calls[..n], answered) + if calls[n].id in answered then [] else [Aborted(calls[n].id)]
  }

  function RepairedResults(calls: seq<Call>, results: seq<ToolResult>): seq<ToolResult> {
    var kept := Surviving(results, Ids(RepairedCalls(calls)));
    kept + AbortedFor(RepairedCalls(calls), Answered(kept))
  }

  // ---------------------------------------------------------------- the repair

  lemma KeptCallsStep(calls: seq<Call>, i: nat)
    requires i < |calls|
    ensures RepairedCalls(calls[..i + 1]) ==
            RepairedCalls(calls[..i]) + if Keepable(calls, i) then [Typed(calls[i])] else []
  {
    assert calls[..i + 1][..i] == calls[..i];
    assert Keepable(calls[..i + 1], i) <==> Keepable(calls, i);
  }

  lemma SurvivingStep(results: seq<ToolResult>, ids: set<string>, i: nat)
    requires i < |results|
    ensures Surviving(results[..i + 1], ids) ==
              Surviving(results[..i], ids)
              + if results[i].callId in ids && !Blank(results[i].callId) then [results[i]] else []
  {
    assert results[..i + 1][..i] == results[..i];
  }

  lemma AbortedStep(calls: seq<Call>, answered: set<string>, i: nat)
    requires i < |calls|
    ensures AbortedFor(calls[..i + 1], answered) ==
              AbortedFor(calls[..i], answered) + if calls[i].id in answered then [] else [Aborted(calls[i].id)]
  {
    assert calls[..i + 1][..i] == calls[..i];
  }

  /** Every call that can be kept is found by its id among the kept ones. */
  lemma SeenIffKept(calls: seq<Call>, i: nat)
    requires i < |calls| && !Blank(calls[i].id)
    ensures calls[i].id in Ids(RepairedCalls(calls[..i])) <==> !Keepable(calls, i)
  {
    var before := calls[..i];
    var ks := KeptCalls(before);
    if calls[i].id in Ids(RepairedCalls(before)) {
      var k :| 0 <= k < |ks| && RepairedCalls(before)[k].id == calls[i].id;
      assert calls[ks[k]].id == calls[i].id;
    }
    if !Keepable(calls, i) {
      var j :| 0 <= j < i && calls[j].id == calls[i].id;
      var f := FirstWith(before, j);
      assert Keepable(before, f) && f in ks;
      var k :| 0 <= k < |ks| && ks[k] == f;
      assert RepairedCalls(before)[k].id == calls[i].id;
    }
  }

  lemma {:induction false} FirstWith(calls: seq<Call>, j: nat) returns (f: nat)
    requires j < |calls|
    ensures f <= j && calls[f].id == calls[j].id && forall k :: 0 <= k < f ==> calls[k].id != calls[f].id
  {
    if k :| 0 <= k < j && calls[k].id == calls[j].id {
      f := FirstWith(calls, k);
    } else {
      f := j;
    }
  }

  method SanitizeAssistantToolLedger(decodedCalls: seq<Call>, decodedResults: seq<ToolResult>)
    returns (calls: seq<Call>, results: seq<ToolResult>)
    ensures calls == RepairedCalls(decodedCalls)
    ensures results == RepairedResults(decodedCalls, decodedResults)
  {
    hide RepairedCalls, Surviving, AbortedFor, Keepable, KeptCalls, KeptResults;
    calls := [];
    NothingKept(decodedCalls, decodedResults);
    var seenCall: set<string> := {};
    for i := 0 to |decodedCalls|
      invariant calls == RepairedCalls(decodedCalls[..i]) && seenCall == Ids(calls)
    {
      var c := decodedCalls[i];
      KeptCallsStep(decodedCalls, i);
      if TrimSpace(c.id) == "" || c.id in seenCall {
        NotKept(decodedCalls, i);
        continue;
      }
      SeenIffKept(decodedCalls, i);
      seenCall := seenCall + {c.id};
      if c.kind == "" {
        c := c.(kind := "function");
      }
      IdsSnoc(calls, c);
      calls := calls + [c];
    }
    assert decodedCalls[..|decodedCalls|] == decodedCalls;
    results := [];
    var answered: set<string> := {};
    for i := 0 to |decodedResults|
      invariant results == Surviving(decodedResults[..i], seenCall) && answered == Answered(results)
    {
      var r := decodedResults[i];
      SurvivingStep(decodedResults, seenCall, i);
      if TrimSpace(r.callId) == "" || r.callId !in seenCall {
        continue;
      }
      answered := answered + {r.callId};
      AnsweredSnoc(results, r);
      results := results + [r];
    }
    assert decodedResults[..|decodedResults|] == decodedResults;
    ghost var kept := results;
    for i := 0 to |calls|
      invariant results == kept + AbortedFor(calls[..i], answered)
    {
      var c := calls[i];
      AbortedStep(calls, answered, i);
      if c.id in answered {
        continue;
      }
      results := results + [ToolResult(c.id, ABORTED_OUTPUT, true)];
    }
    assert calls[..|calls|] == calls;
  }

  lemma NothingKept(calls: seq<Call>, results: seq<ToolResult>)
    ensures RepairedCalls(calls[..0]) == [] && Ids([]) == {} && Answered([]) == {}
    ensures forall ids :: Surviving(results[..0], ids) == []
    ensures forall c: seq<Call>, a :: AbortedFor(c[..0], a) == []
  {
  }

  lemma NotKept(calls: seq<Call>, i: nat)
    requires i < |calls| && (Blank(calls[i].id) || calls[i].id in Ids(RepairedCalls(calls[..i])))
    ensures !Keepable(calls, i)
  {
    if !Blank(calls[i].id) {
      SeenIffKept(calls, i);
    }
  }

  lemma IdsSnoc(calls: seq<Call>, c: Call)
    ensures Ids(calls + [c]) == Ids(calls) + {c.id}
  {
    assert forall i :: 0 <= i < |calls| ==> (calls + [c])[i] == calls[i];
    assert (calls + [c])[|calls|] == c;
    forall x | x in Ids(calls) + {c.id} ensures x in Ids(calls + [c]) {
      if x in Ids(calls) {
        var i :| 0 <= i < |calls| && calls[i].id == x;
        assert (calls + [c])[i].id == x;
      }
    }
  }

  lemma AnsweredSnoc(results: seq<ToolResult>, r: ToolResult)
    ensures Answered(results + [r]) == Answered(results) + {r.callId}
  {
    assert (results + [r])[|results|] == r;
    forall x | x in Answered(results) + {r.callId} ensures x in Answered(results + [r]) {
      if x in Answered(results) {
        var i :| 0 <= i < |results| && results[i].callId == x;
        assert (results + [r])[i].callId == x;
      }
    }
  }

  // ---------------------------------------------------------------- what a provider accepts

  /** Every call has an id of its own and a type, every result answers a call, every call is answered. */
  predicate WellFormed(calls: seq<Call>, results: seq<ToolResult>) {
    && (forall i :: 0 <= i < |calls| ==> !Blank(calls[i].id) && calls[i].kind != "")
    && (forall i, j :: 0 <= i < j < |calls| ==> calls[i].id != calls[j].id)
    && (forall k :: 0 <= k < |results| ==> results[k].callId in Ids(calls))
    && (forall i :: 0 <= i < |calls| ==> calls[i].id in Answered(results))
  }

  lemma RepairedCallsOk(calls: seq<Call>)
    ensures var cs := RepairedCalls(calls);
            && (forall i :: 0 <= i < |cs| ==> !Blank(cs[i].id) && cs[i].kind != "")
            && (forall i, j :: 0 <= i < j < |cs| ==> cs[i].id != cs[j].id)
  {
    var ks := KeptCalls(calls);
    forall i | 0 <= i < |ks| ensures Keepable(calls, ks[i]) {
      assert ks[i] in ks;
    }
    forall i, j | 0 <= i < j < |ks| ensures calls[ks[i]].id != calls[ks[j]].id {
      assert Keepable(calls, ks[j]) && ks[i] < ks[j];
    }
  }

  lemma SurvivingOk(results: seq<ToolResult>, ids: set<string>)
    ensures forall k :: 0 <= k < |Surviving(results, ids)| ==> Surviving(results, ids)[k].callId in ids
  {
    var ks := KeptResults(results, ids);
    forall k | 0 <= k < |ks| ensures results[ks[k]].callId in ids {
      assert ks[k] in ks;
    }
  }

  /** Whatever it is given, the repair produces a well-formed ledger. */
  lemma RepairWellFormed(calls: seq<Call>, results: seq<ToolResult>)
    ensures WellFormed(RepairedCalls(calls), RepairedResults(calls, results))
  {
    RepairedCallsOk(calls);
    var cs := RepairedCalls(calls);
    SurvivingOk(results, Ids(cs));
    hide RepairedCalls, Surviving, AbortedFor;
    var kept := Surviving(results, Ids(cs));
    var aborted := AbortedFor(cs, Answered(kept));
    var rs := RepairedResults(calls, results);
    assert rs == kept + aborted;
    forall i | 0 <= i < |cs| ensures cs[i].id in Answered(rs) {
      if cs[i].id in Answered(kept) {
        var k :| 0 <= k < |kept| && kept[k].callId == cs[i].id;
        assert rs[k].callId == cs[i].id;
      } else {
        assert Aborted(cs[i].id) in aborted;
        var k :| 0 <= k < |aborted| && aborted[k] == Aborted(cs[i].id);
        assert rs[|kept| + k].callId == cs[i].id;
      }
    }
  }

  lemma {:induction false} AllAscending(ks: seq<nat>, n: nat)
    requires Ascending(ks, n) && forall i :: 0 <= i < n ==> i in ks
    ensures ks == seq(n, i => i)
  {
    if n > 0 {
      assert n - 1 in ks;
      var m := |ks| - 1;
      assert ks[m] == n - 1;
      assert Ascending(ks[..m], n - 1);
      forall i | 0 <= i < n - 1 ensures i in ks[..m] {
        assert i in ks && i != ks[m];
      }
      AllAscending(ks[..m], n - 1);
      assert ks == ks[..m] + [n - 1];
    }
  }

  lemma AllCallsKept(calls: seq<Call>)
    requires forall i :: 0 <= i < |calls| ==> Keepable(calls, i) && calls[i].kind != ""
    ensures RepairedCalls(calls) == calls
  {
    AllAscending(KeptCalls(calls), |calls|);
  }

  lemma AllResultsKept(results: seq<ToolResult>, ids: set<string>)
    requires forall k :: 0 <= k < |results| ==> results[k].callId in ids && !Blank(results[k].callId)
    ensures Surviving(results, ids) == results
  {
    AllAscending(KeptResults(results, ids), |results|);
  }

  lemma WellFormedKept(calls: seq<Call>, results: seq<ToolResult>)
    requires WellFormed(calls, results)
    ensures RepairedCalls(calls) == calls && RepairedResults(calls, results) == results
  {
    hide RepairedCalls, KeptCalls, Surviving, AbortedFor;
    AllCallsKept(calls);
    var ids := Ids(calls);
    forall k | 0 <= k < |results| ensures results[k].callId in ids && !Blank(results[k].callId) {
      var i :| 0 <= i < |calls| && calls[i].id == results[k].callId;
    }
    AllResultsKept(results, ids);
    assert AbortedFor(calls, Answered(results)) == [];
  }

  /** The repair changes nothing exactly if the ledger was well-formed; so repairing twice is repairing once. */
  lemma RepairIsIdentityIff(calls: seq<Call>, results: seq<ToolResult>)
    ensures (RepairedCalls(calls) == calls && RepairedResults(calls, results) == results) <==>
            WellFormed(calls, results)
    ensures var (cs, rs) := (RepairedCalls(calls), RepairedResults(calls, results));
            RepairedCalls(cs) == cs && RepairedResults(cs, rs) == rs
  {
    RepairWellFormed(calls, results);
    WellFormedKept(RepairedCalls(calls), RepairedResults(calls, results));
    if WellFormed(calls, results) {
      WellFormedKept(calls, results);
    }
  }

  /** A repaired call is one that was there, with everything it said; only a missing type is filled in. */
  predicate SameCall(c: Call, was: Call) {
    && c.id == was.id && c.functionName == was.functionName && c.arguments == was.arguments
    && c.issuedAt == was.issuedAt && c.kind == if was.kind == "" then "function" else was.kind
  }

  /** The repair invents nothing but errors: every call was there, and every result either was there as it is, or
      says that a call without one was aborted. */
  lemma RepairInventsOnlyErrors(calls: seq<Call>, results: seq<ToolResult>)
    ensures forall k :: 0 <= k < |RepairedCalls(calls)| ==>
              exists i :: 0 <= i < |calls| && SameCall(RepairedCalls(calls)[k], calls[i])
    ensures forall r :: r in RepairedResults(calls, results) ==>
              r in results
              || (r.isError && r.callId in Ids(RepairedCalls(calls)) && r.callId !in Answered(results)
                  && r.output == "tool call aborted — the turn ended before this tool returned a result")
  {
    var (cs, ks) := (RepairedCalls(calls), KeptCalls(calls));
    forall k | 0 <= k < |cs| ensures exists i :: 0 <= i < |calls| && SameCall(cs[k], calls[i]) {
      assert SameCall(cs[k], calls[ks[k]]);
    }
    var kept := Surviving(results, Ids(cs));
    forall r | r in RepairedResults(calls, results) && r !in results
      ensures r == Aborted(r.callId) && r.callId in Ids(cs) && r.callId !in Answered(results)
    {
      assert r !in kept;
      assert r in AbortedFor(cs, Answered(kept));
      UnansweredOnly(cs, Answered(kept), r);
      IdsNotBlank(calls, r.callId);
      if k :| 0 <= k < |results| && results[k].callId == r.callId {
        StaysAnswered(results, Ids(cs), k);
      }
    }
  }

  lemma {:induction false} UnansweredOnly(calls: seq<Call>, answered: set<string>, r: ToolResult)
    requires r in AbortedFor(calls, answered)
    ensures r.callId !in answered
  {
    var n := |calls| - 1;
    if r in AbortedFor(calls[..n], answered) {
      UnansweredOnly(calls[..n], answered, r);
    }
  }

  lemma IdsNotBlank(calls: seq<Call>, id: string)
    requires id in Ids(RepairedCalls(calls))
    ensures !Blank(id)
  {
    RepairedCallsOk(calls);
  }

  lemma StaysAnswered(results: seq<ToolResult>, ids: set<string>, k: nat)
    requires k < |results| && results[k].callId in ids && !Blank(results[k].callId)
    ensures results[k].callId in Answered(Surviving(results, ids))
  {
    var ks := KeptResults(results, ids);
    assert k in ks;
    var j :| 0 <= j < |ks| && ks[j] == k;
    assert Surviving(results, ids)[j] == results[k];
  }

  // ---------------------------------------------------------------- history

  /** A message; its columns are None when they are empty. */
  datatype Row = Row(role: string, content: string, calls: Option<seq<Call>>, results: Option<seq<ToolResult>>)

  function OrEmpty<T>(o: Option<seq<T>>): seq<T> {
    match o
    case None => []
    case Some(v) => v
  }

  predicate NeedsRepair(row: Row) {
    row.role == "assistant" && row.calls.Some?
  }

  function RepairedRow(row: Row): Row {
    if NeedsRepair(row) then
      row.(calls := Some(RepairedCalls(row.calls.value)),
           results := Some(RepairedResults(row.calls.value, OrEmpty(row.results))))
    else row
  }

  /** Rows keep their number, order, role and content; only assistant rows that record calls can change, and only
      if they were not well-formed; afterwards all of them are. */
  method SanitizeHistoryRows(history: seq<Row>) returns (out: seq<Row>)
    ensures |out| == |history|
    ensures forall i :: 0 <= i < |out| ==> out[i] == RepairedRow(history[i])
    ensures forall i :: 0 <= i < |out| && !(history[i].role == "assistant" && history[i].calls.Some?) ==>
              out[i] == history[i]
    ensures forall i :: 0 <= i < |out| && history[i].role == "assistant" && history[i].calls.Some? ==>
              && out[i] == history[i].(calls := out[i].calls, results := out[i].results)
              && out[i].calls.Some? && out[i].results.Some? && WellFormed(out[i].calls.value, out[i].results.value)
    ensures forall i :: 0 <= i < |out| && history[i].role == "assistant" && history[i].calls.Some?
                        && history[i].results.Some? ==>
              (out[i] == history[i] <==> WellFormed(history[i].calls.value, history[i].results.value))
  {
    hide WellFormed, RepairedCalls, RepairedResults;
    if |history| == 0 {
      return history;
    }
    out := history;
    for i := 0 to |out|
      invariant |out| == |history|
      invariant forall k :: 0 <= k < i ==>
                  out[k] == RepairedRow(history[k])
                  && (NeedsRepair(history[k]) ==> WellFormed(out[k].calls.value, out[k].results.value))
      invariant forall k :: i <= k < |out| ==> out[k] == history[k]
    {
      if out[i].role != "assistant" || out[i].calls.None? {
        continue;
      }
      RepairWellFormed(out[i].calls.value, OrEmpty(out[i].results));
      var calls, results := SanitizeAssistantToolLedger(out[i].calls.value, OrEmpty(out[i].results));
      out := out[i := out[i].(calls := Some(calls), results := Some(results))];
    }
    forall i | 0 <= i < |out| && NeedsRepair(history[i]) && history[i].results.Some?
      ensures out[i] == history[i] <==> WellFormed(history[i].calls.value, history[i].results.value)
    {
      RepairIsIdentityIff(history[i].calls.value, history[i].results.value);
    }
  }
}
