/**
 The live tool ledger of an ask turn (internal/askorchicon/tool_ledger.go): every call issued and every result
 observed, as they happen, and what the repair of LedgerRepair makes of it when the turn ends.
 */
module ToolLedger {
  import opened Common
  import opened Text
  import opened LedgerRepair

  datatype Entry = Entry(call: Call, resolved: bool)

  datatype Ledger = Ledger(nextID: nat, entries: seq<Entry>, results: seq<ToolResult>)

  const EMPTY := Ledger(0, [], [])

  function CallId(n: nat): string {
    "tc-" + Decimal(n)
  }

  function PermissionId(n: nat): string {
    "perm-" + Decimal(n)
  }

  function Truncated(s: string, max: nat): string {
    if |s| > max then s[..max] + "…(truncated)" else s
  }

  predicate Open(entries: seq<Entry>, tool: string, k: nat)
    requires k < |entries|
  {
    entries[k].call.functionName == tool && !entries[k].resolved
  }

  /** The first or the last call of the tool that is not resolved, or |entries|. */
  function FirstOpen(entries: seq<Entry>, tool: string): (k: nat)
    ensures k <= |entries| && (k < |entries| ==> Open(entries, tool, k))
    ensures forall i :: 0 <= i < k ==> !Open(entries, tool, i)
  {
    if entries == [] then 0
    else
      var n := |entries| - 1;
      var k := FirstOpen(entries[..n], tool);
      assert forall i :: 0 <= i < n ==> Open(entries[..n], tool, i) == Open(entries, tool, i);
      if k < n then k else if Open(entries, tool, n) then n else n + 1
  }

  function LastOpen(entries: seq<Entry>, tool: string): (k: nat)
    ensures k <= |entries| && (k < |entries| ==> Open(entries, tool, k))
    ensures forall i :: 0 <= i < |entries| && (k < i || k == |entries|) ==> !Open(entries, tool, i)
  {
    if entries == [] then 0
    else
      var n := |entries| - 1;
      assert forall i :: 0 <= i < n ==> Open(entries[..n], tool, i) == Open(entries, tool, i);
      if Open(entries, tool, n) then n
      else
        var k := LastOpen(entries[..n], tool);
        if k < n then k else n + 1
  }

  function NewCall(n: nat, tool: string, args: string, now: int): Call {
    Call(CallId(n), "function", tool, args, now)
  }

  function Started(l: Ledger, tool: string, now: int): Ledger {
    if tool == "" then l
    else l.(nextID := l.nextID + 1, entries := l.entries + [Entry(NewCall(l.nextID + 1, tool, "{}", now), false)])
  }

  /** A result for call k; without an open call one is made up, so that the result is kept. */
  function Resolved(l: Ledger, k: nat, tool: string, args: string, made: string, output: string, isError: bool,
                    now: int): Ledger
    requires k <= |l.entries|
  {
    if k < |l.entries| then
      l.(entries := l.entries[k := Entry(l.entries[k].call.(arguments := args), true)],
         results := l.results + [ToolResult(l.entries[k].call.id, output, isError)])
    else
      Ledger(l.nextID + 1, l.entries + [Entry(NewCall(l.nextID + 1, tool, made, now), true)],
             l.results + [ToolResult(CallId(l.nextID + 1), output, isError)])
  }

  /** A completed part resolves the last open call of its tool. */
  function ResolvedPart(l: Ledger, tool: string, args: string, output: string, isError: bool, now: int): Ledger {
    if tool == "" then l
    else
      var a := Truncated(args, 4000);
      Resolved(l, LastOpen(l.entries, tool), tool, a, a, Truncated(output, 8000), isError, now)
  }

  /** A typed resolution resolves the first one, and keeps the placeholder when no arguments arrived. */
  function ResolvedTyped(l: Ledger, tool: string, args: string, output: string, isError: bool, now: int): Ledger {
    if tool == "" then l
    else
      var k := FirstOpen(l.entries, tool);
      var bare := TrimSpace(args) == "" || TrimSpace(args) == "{}";
      Resolved(l, k, tool, if k < |l.entries| && bare then l.entries[k].call.arguments else Truncated(args, 4000),
               Truncated(args, 4000), Truncated(output, 8000), isError, now)
  }

  /** A consent decision is recorded as a call with its result. */
  function Permitted(l: Ledger, target: string, verdict: string, detail: string, askId: string, now: int): Ledger {
    var n := if TrimSpace(askId) == "" then l.nextID + 1 else l.nextID;
    var id := if TrimSpace(askId) == "" then PermissionId(n) else TrimSpace(askId);
    var out := if detail == "" then "permission " + verdict else "permission " + verdict + ": " + detail;
    Ledger(n,
           l.entries + [Entry(Call(id, "function", "permission." + verdict, Truncated(target, 4000), now), false)],
           l.results + [ToolResult(id, Truncated(out, 8000),
                                   verdict == "deny" || verdict == "never_allow" || verdict == "policy_error")])
  }

  class LiveLedger {
    var nextID: nat
    var calls: seq<Entry>
    var results: seq<ToolResult>

    function Value(): Ledger
      reads this
    {
      Ledger(nextID, calls, results)
    }

    constructor ()
      ensures Value() == EMPTY
    {
      nextID, calls, results := 0, [], [];
    }

    method RecordStart(tool: string, now: int)
      modifies this
      ensures Value() == Started(old(Value()), tool, now)
    {
      if tool == "" {
        return;
      }
      nextID := nextID + 1;
      calls := calls + [Entry(Call("tc-" + Decimal(nextID), "function", tool, "{}", now), false)];
    }

    method RecordResolve(tool: string, args: string, output: string, isError: bool, now: int)
      modifies this
      ensures Value() == ResolvedPart(old(Value()), tool, args, output, isError, now)
    {
      if tool == "" {
        return;
      }
      var argsJSON := Truncated(args, 4000);
      var callID := None;
      var i := |calls|;
      ghost var k := LastOpen(calls, tool);
      while i > 0 && callID.None?
        invariant 0 <= i <= |calls|
        invariant callID.None? ==> calls == old(calls) && forall j :: i <= j < |calls| ==> !Open(calls, tool, j)
        invariant callID.Some? ==> k < |old(calls)| && callID == Some(old(calls)[k].call.id)
                                   && calls == old(calls)[k := Entry(old(calls)[k].call.(arguments := argsJSON), true)]
        invariant nextID == old(nextID) && results == old(results)
        decreases i
      {
        i := i - 1;
        if calls[i].call.functionName == tool && !calls[i].resolved {
          assert Open(calls, tool, i) && i == k;
          callID := Some(calls[i].call.id);
          calls := calls[i := Entry(calls[i].call.(arguments := argsJSON), true)];
        }
      }
      if callID.None? {
        assert k == |calls|;
        nextID := nextID + 1;
        callID := Some("tc-" + Decimal(nextID));
        calls := calls + [Entry(Call(callID.value, "function", tool, argsJSON, now), true)];
      }
      results := results + [ToolResult(callID.value, Truncated(output, 8000), isError)];
    }

    method RecordToolResolution(tool: string, args: string, output: string, isError: bool, now: int)
      modifies this
      ensures Value() == ResolvedTyped(old(Value()), tool, args, output, isError, now)
    {
      if tool == "" {
        return;
      }
      var callID := None;
      var i := 0;
      ghost var k := FirstOpen(calls, tool);
      while i < |calls| && callID.None?
        invariant 0 <= i <= |calls|
        invariant callID.None? ==> calls == old(calls) && i <= k
        invariant callID.Some? ==>
                    && k < |old(calls)| && callID == Some(old(calls)[k].call.id)
                    && var bare := TrimSpace(args) == "" || TrimSpace(args) == "{}";
                       var a := if bare then old(calls)[k].call.arguments else Truncated(args, 4000);
                       calls == old(calls)[k := Entry(old(calls)[k].call.(arguments := a), true)]
        invariant nextID == old(nextID) && results == old(results)
        decreases |calls| - i, callID.None?
      {
        if calls[i].call.functionName == tool && !calls[i].resolved {
          assert Open(calls, tool, i) && i == k;
          var call := calls[i].call;
          var trimmed := TrimSpace(args);
          if trimmed != "" && trimmed != "{}" {
            call := call.(arguments := Truncated(args, 4000));
          }
          callID := Some(call.id);
          calls := calls[i := Entry(call, true)];
        } else {
          assert !Open(calls, tool, i);
          i := i + 1;
        }
      }
      if callID.None? {
        nextID := nextID + 1;
        callID := Some("tc-" + Decimal(nextID));
        calls := calls + [Entry(Call(callID.value, "function", tool, Truncated(args, 4000), now), true)];
      }
      results := results + [ToolResult(callID.value, Truncated(output, 8000), isError)];
    }

    method RecordPermission(target: string, verdict: string, detail: string, askID: string, now: int)
      modifies this
      ensures Value() == Permitted(old(Value()), target, verdict, detail, askID, now)
    {
      var id := TrimSpace(askID);
      if id == "" {
        nextID := nextID + 1;
        id := "perm-" + Decimal(nextID);
      }
      var out := "permission " + verdict;
      if detail != "" {
        out := out + ": " + detail;
      }
      calls := calls + [Entry(Call(id, "function", "permission." + verdict, Truncated(target, 4000), now), false)];
      results := results + [ToolResult(id, Truncated(out, 8000),
                                       verdict == "deny" || verdict == "never_allow" || verdict == "policy_error")];
    }
  }

  // ---------------------------------------------------------------- runs

  datatype Op =
    | Start(tool: string, now: int)
    | Part(tool: string, args: string, output: string, isError: bool, now: int)
    | Result(tool: string, args: string, output: string, isError: bool, now: int)
    | Permission(target: string, verdict: string, detail: string, askId: string, now: int)

  function Apply(l: Ledger, op: Op): Ledger {
    match op
    case Start(tool, now) => Started(l, tool, now)
    case Part(tool, args, output, isError, now) => ResolvedPart(l, tool, args, output, isError, now)
    case Result(tool, args, output, isError, now) => ResolvedTyped(l, tool, args, output, isError, now)
    case Permission(target, verdict, detail, askId, now) => Permitted(l, target, verdict, detail, askId, now)
  }

  function RunOps(ops: seq<Op>): Ledger {
    if ops == [] then EMPTY else Apply(RunOps(ops[..|ops| - 1]), ops[|ops| - 1])
  }

  /** The same from a ledger that is not empty. */
  function ApplyAll(l: Ledger, ops: seq<Op>): Ledger {
    if ops == [] then l else Apply(ApplyAll(l, ops[..|ops| - 1]), ops[|ops| - 1])
  }

  lemma {:induction false} ApplyConcat(l: Ledger, a: seq<Op>, b: seq<Op>)
    ensures ApplyAll(l, a + b) == ApplyAll(ApplyAll(l, a), b)
  {
    hide Apply;
    if b == [] {
      assert a + b == a;
    } else {
      assert (a + b)[..|a + b| - 1] == a + b[..|b| - 1];
      ApplyConcat(l, a, b[..|b| - 1]);
    }
  }

  lemma {:induction false} FromEmpty(ops: seq<Op>)
    ensures ApplyAll(EMPTY, ops) == RunOps(ops)
  {
    hide Apply;
    if ops != [] {
      FromEmpty(ops[..|ops| - 1]);
    }
  }

  // ---------------------------------------------------------------- where ids come from

  /** A call and a decision without an ask take the ledger's next number; a decision about an ask takes the
      ask's id. */
  datatype Origin = Called(n: nat) | Noted(n: nat) | Asked(id: string)

  function IdOf(o: Origin): string {
    match o
    case Called(n) => CallId(n)
    case Noted(n) => PermissionId(n)
    case Asked(id) => id
  }

  /** The origin of the entry that op appends, if it appends one. */
  function OriginOf(l: Ledger, op: Op): Origin {
    if !op.Permission? then Called(l.nextID + 1)
    else if TrimSpace(op.askId) == "" then Noted(l.nextID + 1)
    else Asked(TrimSpace(op.askId))
  }

  function Origins(ops: seq<Op>): seq<Origin> {
    if ops == [] then []
    else
      var (before, op) := (ops[..|ops| - 1], ops[|ops| - 1]);
      Origins(before) + if |RunOps(ops).entries| > |RunOps(before).entries| then [OriginOf(RunOps(before), op)] else []
  }

  /** A call is settled by its resolution; a decision from the start. */
  predicate Settled(l: Ledger, os: seq<Origin>, i: nat)
    requires i < |l.entries| == |os|
  {
    l.entries[i].resolved || !os[i].Called?
  }

  predicate EntryOk(l: Ledger, os: seq<Origin>, i: nat)
    requires i < |l.entries| == |os|
  {
    var call := l.entries[i].call;
    && call.id == IdOf(os[i]) && !Blank(call.id) && call.kind != ""
    && (Settled(l, os, i) ==> call.id in Answered(l.results))
  }

  predicate Answers(l: Ledger, os: seq<Origin>, r: ToolResult, i: nat)
    requires |l.entries| == |os|
  {
    i < |os| && r.callId == l.entries[i].call.id && Settled(l, os, i)
  }

  ghost predicate AnswersSome(l: Ledger, os: seq<Origin>, r: ToolResult)
    requires |l.entries| == |os|
  {
    exists i: nat :: Answers(l, os, r, i)
  }

  /** The ledger's own numbers were given out one by one. */
  predicate Numbered(os: seq<Origin>, last: nat) {
    && (forall i :: 0 <= i < |os| && !os[i].Asked? ==> 1 <= os[i].n <= last)
    && (forall i, j :: 0 <= i < j < |os| && !os[i].Asked? && !os[j].Asked? ==> os[i].n < os[j].n)
  }

  ghost predicate LedgerOk(l: Ledger, os: seq<Origin>) {
    && |l.entries| == |os|
    && Numbered(os, l.nextID)
    && (forall i :: 0 <= i < |os| ==> EntryOk(l, os, i))
    && (forall k :: 0 <= k < |l.results| ==> AnswersSome(l, os, l.results[k]))
  }

  lemma IdsDiffer(m: nat, n: nat)
    ensures CallId(m) == CallId(n) ==> m == n
    ensures PermissionId(m) == PermissionId(n) ==> m == n
    ensures CallId(m) != PermissionId(n)
  {
    if CallId(m) == CallId(n) {
      assert CallId(m)[3..] == Decimal(m) && CallId(n)[3..] == Decimal(n);
      DecimalInjective(m, n);
    }
    if PermissionId(m) == PermissionId(n) {
      assert PermissionId(m)[5..] == Decimal(m) && PermissionId(n)[5..] == Decimal(n);
      DecimalInjective(m, n);
    }
    assert CallId(m)[0] == 't' && PermissionId(n)[0] == 'p';
  }

  lemma IdNotBlank(n: nat)
    ensures !Blank(CallId(n)) && !Blank(PermissionId(n))
  {
    assert CallId(n)[0] == 't' && PermissionId(n)[0] == 'p';
    assert !IsSpace('t') && !IsSpace('p');
  }

  /** Adding a call, with or without a result for it. */
  lemma AddedOk(l: Ledger, os: seq<Origin>, e: Entry, o: Origin, r: seq<ToolResult>)
    requires LedgerOk(l, os) && e.call.kind != "" && e.call.id == IdOf(o) && !Blank(IdOf(o))
    requires !o.Asked? ==> o.n == l.nextID + 1
    requires if e.resolved || !o.Called? then |r| == 1 && r[0].callId == e.call.id else r == []
    ensures LedgerOk(Ledger(if o.Asked? then l.nextID else l.nextID + 1, l.entries + [e], l.results + r), os + [o])
  {
    hide IdOf, Answered;
    var l' := Ledger(if o.Asked? then l.nextID else l.nextID + 1, l.entries + [e], l.results + r);
    var os' := os + [o];
    AnsweredMore(l.results, r);
    forall i | 0 <= i < |os'| ensures EntryOk(l', os', i) {
      if i < |os| {
        assert EntryOk(l, os, i) && os'[i] == os[i] && l'.entries[i] == l.entries[i];
      } else {
        assert os'[i] == o && l'.entries[i] == e;
      }
    }
    forall k | 0 <= k < |l'.results| ensures AnswersSome(l', os', l'.results[k]) {
      if k < |l.results| {
        assert l'.results[k] == l.results[k] && AnswersSome(l, os, l.results[k]);
        var i: nat :| Answers(l, os, l.results[k], i);
        assert Answers(l', os', l'.results[k], i);
      } else {
        assert l'.results[k] == r[0] && os'[|os|] == o && l'.entries[|os|] == e;
        assert Answers(l', os', l'.results[k], |os|);
      }
    }
  }

  lemma AnsweredMore(results: seq<ToolResult>, r: seq<ToolResult>)
    requires |r| <= 1
    ensures Answered(results) <= Answered(results + r)
    ensures |r| == 1 ==> r[0].callId in Answered(results + r)
  {
    if |r| == 1 {
      assert r == [r[0]];
      AnsweredSnoc(results, r[0]);
    } else {
      assert results + r == results;
    }
  }

  lemma ResolvedOk(l: Ledger, os: seq<Origin>, k: nat, call: Call, r: ToolResult)
    requires LedgerOk(l, os) && k < |l.entries|
    requires call.id == l.entries[k].call.id == r.callId && call.kind == l.entries[k].call.kind
    ensures LedgerOk(Ledger(l.nextID, l.entries[k := Entry(call, true)], l.results + [r]), os)
  {
    hide Answered, IdOf;
    var l' := Ledger(l.nextID, l.entries[k := Entry(call, true)], l.results + [r]);
    AnsweredMore(l.results, [r]);
    forall i | 0 <= i < |os| ensures EntryOk(l', os, i) {
      assert EntryOk(l, os, i);
    }
    forall j | 0 <= j < |l'.results| ensures AnswersSome(l', os, l'.results[j]) {
      if j < |l.results| {
        assert l'.results[j] == l.results[j] && AnswersSome(l, os, l.results[j]);
        var i: nat :| Answers(l, os, l.results[j], i);
        assert Answers(l', os, l'.results[j], i);
      } else {
        assert Answers(l', os, l'.results[j], k);
      }
    }
  }

  /** What an operation appends. */
  lemma ApplyOk(l: Ledger, os: seq<Origin>, op: Op)
    requires LedgerOk(l, os)
    ensures var l' := Apply(l, op);
            LedgerOk(l', os + if |l'.entries| > |l.entries| then [OriginOf(l, op)] else [])
  {
    hide LedgerOk, CallId, PermissionId, FirstOpen, LastOpen, Truncated, TrimSpace, EntryOk;
    var l' := Apply(l, op);
    assert os + [] == os;
    IdNotBlank(l.nextID + 1);
    SameLength(l, os);
    if op.Permission? {
      TrimmedNotBlank(op.askId);
      AddedOk(l, os, l'.entries[|l.entries|], OriginOf(l, op), [l'.results[|l.results|]]);
    } else if op.tool != "" {
      var k := if op.Part? then LastOpen(l.entries, op.tool) else FirstOpen(l.entries, op.tool);
      if op.Start? {
        AddedOk(l, os, l'.entries[|l.entries|], OriginOf(l, op), []);
        assert l.results + [] == l.results;
      } else if k < |l.entries| {
        ResolvedOk(l, os, k, l'.entries[k].call, l'.results[|l.results|]);
      } else {
        AddedOk(l, os, l'.entries[|l.entries|], OriginOf(l, op), [l'.results[|l.results|]]);
      }
    }
  }

  lemma TrimmedNotBlank(t: string)
    ensures TrimSpace(t) != "" ==> !Blank(TrimSpace(t))
  {
    hide IsSpace;
    if Blank(TrimSpace(t)) {
      assert TrimSpace(TrimSpace(t)) == TrimSpace(t);
    }
  }

  lemma SameLength(l: Ledger, os: seq<Origin>)
    requires LedgerOk(l, os)
    ensures |l.entries| == |os|
  {
  }

  /** In every ledger each call has the id of its origin, the ledger's own numbers never repeat, the calls that were
      resolved and the decisions have results, and every result answers one of these. */
  lemma {:induction false} RunOk(ops: seq<Op>)
    ensures LedgerOk(RunOps(ops), Origins(ops))
  {
    hide LedgerOk, Apply, OriginOf;
    if ops == [] {
      assert LedgerOk(EMPTY, []) by { EmptyOk(); }
    } else {
      RunOk(ops[..|ops| - 1]);
      ApplyOk(RunOps(ops[..|ops| - 1]), Origins(ops[..|ops| - 1]), ops[|ops| - 1]);
    }
  }

  lemma EmptyOk()
    ensures LedgerOk(EMPTY, [])
  {
  }

  // ---------------------------------------------------------------- the end of a turn

  function Calls(l: Ledger): (cs: seq<Call>)
    ensures |cs| == |l.entries| && forall i :: 0 <= i < |cs| ==> cs[i] == l.entries[i].call
  {
    seq(|l.entries|, i requires 0 <= i < |l.entries| => l.entries[i].call)
  }

  /** A call that the ledger calls id is settled. */
  ghost predicate SettledId(l: Ledger, os: seq<Origin>, id: string)
    requires |l.entries| == |os|
  {
    exists i: nat :: i < |os| && l.entries[i].call.id == id && Settled(l, os, i)
  }

  /** However a turn was cut off, the terminal write keeps every result, in order, and adds an aborted one, once, for
      exactly those ids under which nothing was resolved or decided. */
  lemma TerminalWriteKeepsResults(ops: seq<Op>)
    ensures var (l, os) := (RunOps(ops), Origins(ops));
            var rs := RepairedResults(Calls(l), l.results);
            && |l.entries| == |os|
            && l.results <= rs
            && var ab := rs[|l.results|..];
               && EachAbortedOnce(ab)
               && (forall i :: 0 <= i < |os| ==>
                     (Aborted(l.entries[i].call.id) in ab <==> !SettledId(l, os, l.entries[i].call.id)))
  {
    RunOk(ops);
    var (l, os) := (RunOps(ops), Origins(ops));
    hide RunOps, Origins, LedgerOk, RepairedCalls, AbortedFor, Surviving, Answered, Ids, Aborted, SettledId,
        EachAbortedOnce;
    SameLength(l, os);
    var cs := Calls(l);
    ResultsSurvive(l, os);
    RepairedCallsOk(cs);
    AbortedOnce(RepairedCalls(cs), Answered(l.results));
    var ab := AbortedFor(RepairedCalls(cs), Answered(l.results));
    assert RepairedResults(cs, l.results)[|l.results|..] == ab;
    forall i | 0 <= i < |os| ensures Aborted(l.entries[i].call.id) in ab <==> !SettledId(l, os, l.entries[i].call.id) {
      KeptId(l, os, i);
      AbortedIff(RepairedCalls(cs), Answered(l.results), l.entries[i].call.id);
      AnsweredIffSettled(l, os, l.entries[i].call.id);
    }
  }

  /** Results of aborted calls, no call twice. */
  predicate EachAbortedOnce(rs: seq<ToolResult>) {
    && (forall k :: 0 <= k < |rs| ==> rs[k] == Aborted(rs[k].callId))
    && (forall j, k :: 0 <= j < k < |rs| ==> rs[j].callId != rs[k].callId)
  }

  lemma AnsweredIffSettled(l: Ledger, os: seq<Origin>, id: string)
    requires LedgerOk(l, os)
    ensures id in Answered(l.results) <==> SettledId(l, os, id)
  {
    hide IdOf, Settled;
    if id in Answered(l.results) {
      var k :| 0 <= k < |l.results| && l.results[k].callId == id;
      assert AnswersSome(l, os, l.results[k]);
      var i: nat :| Answers(l, os, l.results[k], i);
      assert Settled(l, os, i);
    }
    if SettledId(l, os, id) {
      var i: nat :| i < |os| && l.entries[i].call.id == id && Settled(l, os, i);
      assert EntryOk(l, os, i);
    }
  }

  /** The repair keeps every id. */
  lemma KeptId(l: Ledger, os: seq<Origin>, i: nat)
    requires LedgerOk(l, os) && i < |l.entries|
    ensures l.entries[i].call.id in Ids(RepairedCalls(Calls(l)))
  {
    hide IdOf, Settled, Answered, AnswersSome, Blank;
    var cs := Calls(l);
    assert EntryOk(l, os, i) && cs[i] == l.entries[i].call;
    var f := FirstWith(cs, i);
    assert cs[f] == l.entries[f].call && EntryOk(l, os, f);
    assert Keepable(cs, f);
    var ks := KeptCalls(cs);
    assert f in ks;
    var k :| 0 <= k < |ks| && ks[k] == f;
    assert RepairedCalls(cs)[k].id == cs[i].id;
  }

  lemma ResultsSurvive(l: Ledger, os: seq<Origin>)
    requires LedgerOk(l, os)
    ensures Surviving(l.results, Ids(RepairedCalls(Calls(l)))) == l.results
  {
    hide IdOf, Settled, RepairedCalls, Ids, Surviving, Answered, Blank;
    forall k | 0 <= k < |l.results|
      ensures l.results[k].callId in Ids(RepairedCalls(Calls(l))) && !Blank(l.results[k].callId)
    {
      assert AnswersSome(l, os, l.results[k]);
      var i: nat :| Answers(l, os, l.results[k], i);
      assert EntryOk(l, os, i);
      KeptId(l, os, i);
    }
    AllResultsKept(l.results, Ids(RepairedCalls(Calls(l))));
  }

  lemma {:induction false} AbortedIff(cs: seq<Call>, answered: set<string>, id: string)
    requires id in Ids(cs)
    ensures Aborted(id) in AbortedFor(cs, answered) <==> id !in answered
  {
    NoneAborted(cs, answered, id);
    var i :| 0 <= i < |cs| && cs[i].id == id;
    assert cs[i].id !in answered ==> Aborted(cs[i].id) in AbortedFor(cs, answered);
  }

  lemma {:induction false} NoneAborted(cs: seq<Call>, answered: set<string>, id: string)
    ensures id in answered ==> Aborted(id) !in AbortedFor(cs, answered)
  {
    if cs != [] {
      NoneAborted(cs[..|cs| - 1], answered, id);
    }
  }

  lemma {:induction false} AbortedOnce(cs: seq<Call>, answered: set<string>)
    requires forall i, j :: 0 <= i < j < |cs| ==> cs[i].id != cs[j].id
    ensures EachAbortedOnce(AbortedFor(cs, answered))
  {
    if cs != [] {
      var n := |cs| - 1;
      AbortedOnce(cs[..n], answered);
      var ab := AbortedFor(cs[..n], answered);
      forall j | 0 <= j < |ab| ensures ab[j].callId != cs[n].id {
        assert ab[j].callId in Ids(cs[..n]);
      }
      assert AbortedFor(cs, answered) == ab + if cs[n].id in answered then [] else [Aborted(cs[n].id)];
      hide AbortedFor, Ids;
      OnceSnoc(ab, cs[n].id);
      assert ab + [] == ab;
    }
  }

  lemma OnceSnoc(rs: seq<ToolResult>, id: string)
    requires EachAbortedOnce(rs) && forall j :: 0 <= j < |rs| ==> rs[j].callId != id
    ensures EachAbortedOnce(rs + [Aborted(id)])
  {
  }

  // ---------------------------------------------------------------- decisions about one ask

  /** The asks that decisions were recorded about, as the adapter names them. */
  function AskIds(ops: seq<Op>): seq<string> {
    if ops == [] then []
    else
      var op := ops[|ops| - 1];
      AskIds(ops[..|ops| - 1]) + if op.Permission? && TrimSpace(op.askId) != "" then [TrimSpace(op.askId)] else []
  }

  /** The ids the ledger made itself. */
  function Minted(os: seq<Origin>): set<string> {
    set i | 0 <= i < |os| && !os[i].Asked? :: IdOf(os[i])
  }

  function Asks(os: seq<Origin>): seq<string> {
    if os == [] then [] else Asks(os[..|os| - 1]) + if os[|os| - 1].Asked? then [os[|os| - 1].id] else []
  }

  predicate NoRepeats(ids: seq<string>) {
    forall i, j :: 0 <= i < j < |ids| ==> ids[i] != ids[j]
  }

  /** No ask was decided upon twice, and none has an id of the ledger's own. */
  predicate AsksApart(asks: seq<string>, minted: set<string>) {
    NoRepeats(asks) && forall i :: 0 <= i < |asks| ==> asks[i] !in minted
  }

  predicate DistinctOrigins(os: seq<Origin>) {
    forall i, j :: 0 <= i < j < |os| ==> IdOf(os[i]) != IdOf(os[j])
  }

  lemma {:induction false} AsksOfRun(ops: seq<Op>)
    ensures Asks(Origins(ops)) == AskIds(ops)
  {
    if ops != [] {
      var n := |ops| - 1;
      AsksOfRun(ops[..n]);
      if ops[n].Permission? {
        AppendsPermission(RunOps(ops[..n]), ops[n]);
      }
      hide Apply, RunOps, TrimSpace;
      AsksSnoc(Origins(ops[..n]), OriginOf(RunOps(ops[..n]), ops[n]));
      assert Origins(ops[..n]) + [] == Origins(ops[..n]);
    }
  }

  lemma AppendsPermission(l: Ledger, op: Op)
    requires op.Permission?
    ensures |Apply(l, op).entries| > |l.entries|
  {
  }

  lemma AsksSnoc(os: seq<Origin>, o: Origin)
    ensures Asks(os + [o]) == Asks(os) + if o.Asked? then [o.id] else []
    ensures Minted(os + [o]) == Minted(os) + if o.Asked? then {} else {IdOf(o)}
  {
    hide IdOf;
    var os' := os + [o];
    assert os'[..|os|] == os && os'[|os|] == o;
    forall x | x in Minted(os) ensures x in Minted(os') {
      var i :| 0 <= i < |os| && !os[i].Asked? && IdOf(os[i]) == x;
      assert os'[i] == os[i];
    }
    if !o.Asked? {
      assert IdOf(os'[|os|]) in Minted(os');
    }
  }

  lemma DistinctSnoc(os: seq<Origin>, o: Origin)
    ensures DistinctOrigins(os + [o]) <==> DistinctOrigins(os) && !Taken(os, IdOf(o))
  {
    hide IdOf;
    var os' := os + [o];
    assert os'[|os|] == o && forall i :: 0 <= i < |os| ==> os'[i] == os[i];
    if DistinctOrigins(os') {
      forall i, j | 0 <= i < j < |os| ensures IdOf(os[i]) != IdOf(os[j]) {
        assert IdOf(os'[i]) != IdOf(os'[j]);
      }
      forall i | 0 <= i < |os| ensures IdOf(os[i]) != IdOf(o) {
        assert IdOf(os'[i]) != IdOf(os'[|os|]);
      }
    }
  }

  predicate Taken(os: seq<Origin>, id: string) {
    exists i :: 0 <= i < |os| && IdOf(os[i]) == id
  }

  lemma {:induction false} TakenIff(os: seq<Origin>, id: string)
    ensures Taken(os, id) <==> id in Asks(os) || id in Minted(os)
  {
    if os != [] {
      var (before, o) := (os[..|os| - 1], os[|os| - 1]);
      assert os == before + [o];
      TakenIff(before, id);
      AsksSnoc(before, o);
      hide Asks, Minted, IdOf;
      TakenSnoc(before, o, id);
      AskedId(o);
    }
  }

  lemma TakenSnoc(os: seq<Origin>, o: Origin, id: string)
    ensures Taken(os + [o], id) <==> Taken(os, id) || IdOf(o) == id
  {
    hide IdOf;
    var os' := os + [o];
    assert os'[|os|] == o && forall i :: 0 <= i < |os| ==> os'[i] == os[i];
    if i :| 0 <= i < |os| && IdOf(os[i]) == id {
      assert IdOf(os'[i]) == id;
    }
    if IdOf(o) == id {
      assert IdOf(os'[|os|]) == id;
    }
  }

  lemma AskedId(o: Origin)
    ensures o.Asked? ==> IdOf(o) == o.id
  {
  }

  /** A number of the ledger's own is new. */
  lemma MintedIsNew(os: seq<Origin>, o: Origin, last: nat)
    requires Numbered(os + [o], last) && !o.Asked?
    ensures IdOf(o) !in Minted(os)
  {
    var os' := os + [o];
    forall i | 0 <= i < |os| && !os[i].Asked? ensures IdOf(os[i]) != IdOf(o) {
      assert os'[i] == os[i] && os'[|os|] == o;
      IdsDiffer(os[i].n, o.n);
      IdsDiffer(o.n, os[i].n);
    }
  }

  lemma NumberedBefore(os: seq<Origin>, o: Origin, last: nat)
    requires Numbered(os + [o], last)
    ensures Numbered(os, last)
  {
    var os' := os + [o];
    assert forall i :: 0 <= i < |os| ==> os'[i] == os[i];
  }

  lemma ApartSnoc(asks: seq<string>, minted: set<string>, id: string)
    ensures AsksApart(asks + [id], minted) <==> AsksApart(asks, minted) && id !in asks && id !in minted
    ensures AsksApart(asks, minted + {id}) <==> AsksApart(asks, minted) && id !in asks
  {
    var asks' := asks + [id];
    assert asks'[|asks|] == id && forall i :: 0 <= i < |asks| ==> asks'[i] == asks[i];
    if AsksApart(asks', minted) {
      forall i, j | 0 <= i < j < |asks| ensures asks[i] != asks[j] {
        assert asks'[i] != asks'[j];
      }
      forall i | 0 <= i < |asks| ensures asks[i] != id {
        assert asks'[i] != asks'[|asks|];
      }
    }
  }

  lemma {:induction false} ApartIff(os: seq<Origin>, last: nat)
    requires Numbered(os, last)
    ensures DistinctOrigins(os) <==> AsksApart(Asks(os), Minted(os))
  {
    if os != [] {
      var (before, o) := (os[..|os| - 1], os[|os| - 1]);
      assert os == before + [o];
      NumberedBefore(before, o, last);
      ApartIff(before, last);
      if o.Asked? {
        ApartAsked(before, o);
      } else {
        MintedIsNew(before, o, last);
        ApartMinted(before, o);
      }
    }
  }

  lemma ApartAsked(os: seq<Origin>, o: Origin)
    requires o.Asked? && (DistinctOrigins(os) <==> AsksApart(Asks(os), Minted(os)))
    ensures DistinctOrigins(os + [o]) <==> AsksApart(Asks(os + [o]), Minted(os + [o]))
  {
    AsksSnoc(os, o);
    AskedId(o);
    hide Asks, Minted, IdOf, AsksApart, DistinctOrigins, Taken;
    DistinctSnoc(os, o);
    TakenIff(os, o.id);
    ApartSnoc(Asks(os), Minted(os), o.id);
    assert Minted(os) + {} == Minted(os);
  }

  lemma ApartMinted(os: seq<Origin>, o: Origin)
    requires !o.Asked? && IdOf(o) !in Minted(os) && (DistinctOrigins(os) <==> AsksApart(Asks(os), Minted(os)))
    ensures DistinctOrigins(os + [o]) <==> AsksApart(Asks(os + [o]), Minted(os + [o]))
  {
    AsksSnoc(os, o);
    hide Asks, Minted, IdOf, AsksApart, DistinctOrigins, Taken;
    DistinctSnoc(os, o);
    TakenIff(os, IdOf(o));
    ApartSnoc(Asks(os), Minted(os), IdOf(o));
    assert Asks(os) + [] == Asks(os);
  }

  lemma DistinctIff(l: Ledger, os: seq<Origin>)
    requires LedgerOk(l, os)
    ensures RepairedCalls(Calls(l)) == Calls(l) <==> DistinctOrigins(os)
  {
    var cs := Calls(l);
    assert forall i :: 0 <= i < |os| ==> EntryOk(l, os, i) && cs[i] == l.entries[i].call;
    hide IdOf, Settled, Answered, AnswersSome, Blank, RepairedCalls, EntryOk, KeptCalls;
    CallsHaveIds(l, os);
    if RepairedCalls(cs) == cs {
      RepairedCallsOk(cs);
      forall i, j | 0 <= i < j < |os| ensures IdOf(os[i]) != IdOf(os[j]) {
        assert cs[i].id != cs[j].id;
      }
    }
    if DistinctOrigins(os) {
      forall i | 0 <= i < |cs| ensures Keepable(cs, i) && cs[i].kind != "" {
        forall j | 0 <= j < i ensures cs[j].id != cs[i].id {
          assert IdOf(os[j]) != IdOf(os[i]);
        }
      }
      AllCallsKept(cs);
    }
  }

  lemma CallsHaveIds(l: Ledger, os: seq<Origin>)
    requires LedgerOk(l, os)
    ensures forall i :: 0 <= i < |os| ==>
              Calls(l)[i].id == IdOf(os[i]) && !Blank(Calls(l)[i].id) && Calls(l)[i].kind != ""
  {
    hide IdOf, Settled, Answered, AnswersSome, Blank;
    forall i | 0 <= i < |os|
      ensures Calls(l)[i].id == IdOf(os[i]) && !Blank(Calls(l)[i].id) && Calls(l)[i].kind != ""
    {
      assert EntryOk(l, os, i);
    }
  }

  /** The terminal write keeps every call, as it was, exactly if no ask was decided upon twice and none carries an id
      that the ledger made itself. */
  lemma TerminalWriteKeepsCallsIff(ops: seq<Op>)
    ensures var cs := Calls(RunOps(ops));
            RepairedCalls(cs) == cs <==> AsksApart(AskIds(ops), Minted(Origins(ops)))
  {
    var (l, os) := (RunOps(ops), Origins(ops));
    RunOk(ops);
    AsksOfRun(ops);
    hide RunOps, Origins, EntryOk, AnswersSome, Asks, Minted, AsksApart, DistinctOrigins, RepairedCalls, AskIds;
    NumbersOk(l, os);
    hide Numbered, LedgerOk;
    DistinctIff(l, os);
    ApartIff(os, l.nextID);
  }

  /** Then it only appends: calls and results stay, and exactly the calls that are not settled get an aborted
      result. */
  lemma TerminalWriteOnlyAppends(ops: seq<Op>)
    requires AsksApart(AskIds(ops), Minted(Origins(ops)))
    ensures var (l, os) := (RunOps(ops), Origins(ops));
            var (cs, rs) := (Calls(l), RepairedResults(Calls(l), l.results));
            && |l.entries| == |os| && RepairedCalls(cs) == cs && l.results <= rs
            && forall i :: 0 <= i < |os| ==> (Aborted(cs[i].id) in rs[|l.results|..] <==> !Settled(l, os, i))
  {
    var (l, os) := (RunOps(ops), Origins(ops));
    RunOk(ops);
    TerminalWriteKeepsCallsIff(ops);
    TerminalWriteKeepsResults(ops);
    hide RunOps, Origins, AskIds, AsksApart, Minted, RepairedCalls, RepairedResults, SettledId, Aborted, Settled;
    DistinctIff(l, os);
    forall i | 0 <= i < |os| ensures SettledId(l, os, l.entries[i].call.id) <==> Settled(l, os, i) {
      SettledAlone(l, os, i);
    }
  }

  lemma SettledAlone(l: Ledger, os: seq<Origin>, i: nat)
    requires LedgerOk(l, os) && i < |os| && DistinctOrigins(os)
    ensures SettledId(l, os, l.entries[i].call.id) <==> Settled(l, os, i)
  {
    CallsHaveIds(l, os);
    hide IdOf, Settled, EntryOk, AnswersSome, Blank;
    if SettledId(l, os, l.entries[i].call.id) {
      var j: nat :| j < |os| && l.entries[j].call.id == l.entries[i].call.id && Settled(l, os, j);
      assert Calls(l)[i].id == IdOf(os[i]) && Calls(l)[j].id == IdOf(os[j]);
    }
  }

  lemma NumbersOk(l: Ledger, os: seq<Origin>)
    requires LedgerOk(l, os)
    ensures Numbered(os, l.nextID)
  {
  }

  /** An adapter's id that cannot be mistaken for one of the ledger's. */
  predicate OutsideOurs(id: string) {
    !("tc-" <= id) && !("perm-" <= id)
  }

  /** So, if the adapter's ids look different from the ledger's, exactly if no ask was decided upon twice. */
  lemma TerminalWriteKeepsCallsOfAdapter(ops: seq<Op>)
    requires forall i :: 0 <= i < |AskIds(ops)| ==> OutsideOurs(AskIds(ops)[i])
    ensures var cs := Calls(RunOps(ops)); RepairedCalls(cs) == cs <==> NoRepeats(AskIds(ops))
  {
    TerminalWriteKeepsCallsIff(ops);
    hide RunOps, Origins, AskIds, RepairedCalls, NoRepeats;
    var (asks, os) := (AskIds(ops), Origins(ops));
    forall i | 0 <= i < |asks| ensures asks[i] !in Minted(os) {
      MintedIsOurs(os, asks[i]);
    }
  }

  lemma MintedIsOurs(os: seq<Origin>, id: string)
    ensures id in Minted(os) ==> !OutsideOurs(id)
  {
    if id in Minted(os) {
      var i :| 0 <= i < |os| && !os[i].Asked? && IdOf(os[i]) == id;
      assert os[i].Called? ==> id[..3] == "tc-";
      assert os[i].Noted? ==> id[..5] == "perm-";
    }
  }

  /** A decision upon an ask that is already on record (the answer to a raised card, after the ask itself) leaves no
      call behind: the repair drops it, and what was decided survives only as one more result of the earlier call. */
  lemma SecondDecisionIsLost(ops: seq<Op>, op: Op)
    requires op.Permission? && TrimSpace(op.askId) in AskIds(ops)
    ensures var (l, l') := (RunOps(ops), RunOps(ops + [op]));
            && |Calls(l')| == |Calls(l)| + 1
            && RepairedCalls(Calls(l')) == RepairedCalls(Calls(l))
            && |l'.results| == |l.results| + 1
            && l'.results[..|l.results|] == l.results
            && l'.results[|l.results|].callId == TrimSpace(op.askId)
            && TrimSpace(op.askId) in Ids(RepairedCalls(Calls(l')))
  {
    var (l, l') := (RunOps(ops), RunOps(ops + [op]));
    assert (ops + [op])[..|ops|] == ops;
    AskIdsNotBlank(ops, TrimSpace(op.askId));
    RunOk(ops);
    AsksOfRun(ops);
    DecisionFields(l, op);
    hide RunOps, Apply, Origins, AskIds, LedgerOk, RepairedCalls, Ids, TrimSpace;
    AskedCall(l, Origins(ops), TrimSpace(op.askId));
    var cs' := Calls(l');
    var n := |l.entries|;
    assert cs'[..n] == Calls(l);
    assert cs'[..n + 1] == cs';
    KeptCallsStep(cs', n);
    AlreadyThere(cs', n);
    assert RepairedCalls(cs'[..n]) + [] == RepairedCalls(cs'[..n]);
  }

  lemma AlreadyThere(cs: seq<Call>, n: nat)
    requires n < |cs| && cs[n].id in Ids(cs[..n])
    ensures !Keepable(cs, n)
  {
    var i :| 0 <= i < |cs[..n]| && cs[..n][i].id == cs[n].id;
    assert cs[i].id == cs[n].id;
  }

  lemma DecisionFields(l: Ledger, op: Op)
    requires op.Permission? && TrimSpace(op.askId) != ""
    ensures var l' := Apply(l, op);
            && |l'.entries| == |l.entries| + 1 && l'.entries[..|l.entries|] == l.entries
            && l'.entries[|l.entries|].call.id == TrimSpace(op.askId)
            && |l'.results| == |l.results| + 1 && l'.results[..|l.results|] == l.results
            && l'.results[|l.results|].callId == TrimSpace(op.askId)
  {
    hide TrimSpace, Truncated;
  }

  lemma {:induction false} AskIdsNotBlank(ops: seq<Op>, id: string)
    requires id in AskIds(ops)
    ensures id != ""
  {
    if ops != [] && id in AskIds(ops[..|ops| - 1]) {
      AskIdsNotBlank(ops[..|ops| - 1], id);
    }
  }

  /** The call of an ask on record, and that the repair keeps its id. */
  lemma AskedCall(l: Ledger, os: seq<Origin>, id: string)
    requires LedgerOk(l, os) && id in Asks(os)
    ensures id in Ids(Calls(l)) && id in Ids(RepairedCalls(Calls(l)))
  {
    TakenIff(os, id);
    CallsHaveIds(l, os);
    SameLength(l, os);
    hide LedgerOk, Asks, Minted, IdOf, RepairedCalls, Blank;
    var i :| 0 <= i < |os| && IdOf(os[i]) == id;
    assert Calls(l)[i].id == id;
    KeptId(l, os, i);
  }

  /** What is left of a raised card: the ask, with the results of both. The decision's call is gone. */
  lemma RaisedCardKeepsOnlyTheAsk(card: Op, decision: Op)
    requires card.Permission? && decision.Permission? && TrimSpace(card.askId) == TrimSpace(decision.askId) != ""
    ensures var l := RunOps([card, decision]);
            var cs := Calls(l);
            && |cs| == 2 && cs[0].functionName == "permission." + card.verdict
            && cs[1].functionName == "permission." + decision.verdict
            && RepairedCalls(cs) == [cs[0]]
            && RepairedResults(cs, l.results) == l.results
            && |l.results| == 2 && l.results[0].callId == l.results[1].callId == cs[0].id
  {
    OneAsk(card);
    assert [card] + [decision] == [card, decision];
    TwoDecisions(card, decision);
    SecondDecisionIsLost([card], decision);
    var l := RunOps([card, decision]);
    hide RunOps, AskIds, TrimSpace, RepairedCalls, RepairedResults, Apply, Origins;
    assert Calls(RunOps([card])) == [Calls(l)[0]];
    RunOk([card, decision]);
    NothingAborted(l, Origins([card, decision]), Calls(l)[0]);
  }

  lemma OneAsk(op: Op)
    requires op.Permission? && TrimSpace(op.askId) != ""
    ensures AskIds([op]) == [TrimSpace(op.askId)] && RunOps([op]) == Apply(EMPTY, op)
    ensures |RunOps([op]).entries| == 1 && RepairedCalls(Calls(RunOps([op]))) == Calls(RunOps([op]))
  {
    assert [op][..0] == [];
    TrimmedNotBlank(op.askId);
    hide TrimSpace, Truncated;
    var cs := Calls(Apply(EMPTY, op));
    assert Keepable(cs, 0) && cs[0].kind != "";
    AllCallsKept(cs);
  }

  lemma TwoDecisions(op1: Op, op2: Op)
    requires op1.Permission? && op2.Permission? && TrimSpace(op1.askId) == TrimSpace(op2.askId) != ""
    ensures var (l1, l) := (RunOps([op1]), RunOps([op1, op2]));
            && |l1.entries| == 1 && |l.entries| == 2 == |l.results| && l.entries[0] == l1.entries[0]
            && l.entries[0].call.functionName == "permission." + op1.verdict
            && l.entries[1].call.functionName == "permission." + op2.verdict
            && l.results[0].callId == l.results[1].callId == l.entries[0].call.id
  {
    assert [op1, op2][..1] == [op1] && [op1][..0] == [];
    hide TrimSpace, Truncated;
    assert RunOps([op1]) == Apply(EMPTY, op1);
    assert RunOps([op1, op2]) == Apply(RunOps([op1]), op2);
  }

  lemma NothingAborted(l: Ledger, os: seq<Origin>, c: Call)
    requires LedgerOk(l, os) && RepairedCalls(Calls(l)) == [c] && |l.results| > 0 && l.results[0].callId == c.id
    ensures RepairedResults(Calls(l), l.results) == l.results
  {
    ResultsSurvive(l, os);
    assert c.id in Answered(l.results);
    hide LedgerOk, RepairedCalls, Surviving, Answered, Calls;
    NoneMissing([c], Answered(l.results));
    assert l.results + [] == l.results;
  }

  lemma NoneMissing(cs: seq<Call>, answered: set<string>)
    requires forall i :: 0 <= i < |cs| ==> cs[i].id in answered
    ensures AbortedFor(cs, answered) == []
  {
  }

  // ---------------------------------------------------------------- pairing

  /** How many calls of the tool there are, and how many of them are resolved. */
  function Named(entries: seq<Entry>, tool: string): nat {
    if entries == [] then 0
    else Named(entries[..|entries| - 1], tool) + if entries[|entries| - 1].call.functionName == tool then 1 else 0
  }

  function Done(entries: seq<Entry>, tool: string): nat {
    if entries == [] then 0
    else
      var e := entries[|entries| - 1];
      Done(entries[..|entries| - 1], tool) + if e.call.functionName == tool && e.resolved then 1 else 0
  }

  /** Calls of one tool are resolved in the order they were issued. */
  predicate InOrder(entries: seq<Entry>, tool: string) {
    forall i, j ::
      (0 <= i < j < |entries| && entries[i].call.functionName == tool == entries[j].call.functionName
       && entries[j].resolved) ==> entries[i].resolved
  }

  function Resolutions(ops: seq<Op>, tool: string): nat {
    if ops == [] then 0
    else Resolutions(ops[..|ops| - 1], tool) + if ops[|ops| - 1].Result? && ops[|ops| - 1].tool == tool then 1 else 0
  }

  lemma {:induction false} NamedIsDone(entries: seq<Entry>, tool: string, k: nat)
    requires k <= |entries|
    requires forall i :: 0 <= i < k ==> entries[i].call.functionName == tool ==> entries[i].resolved
    requires forall i :: k <= i < |entries| ==> entries[i].call.functionName == tool ==> !entries[i].resolved
    ensures Named(entries[..k], tool) == Done(entries, tool)
  {
    if entries != [] {
      var n := |entries| - 1;
      if k <= n {
        NamedIsDone(entries[..n], tool, k);
        assert entries[..n][..k] == entries[..k];
      } else {
        NamedIsDone(entries[..n], tool, n);
        assert entries[..k] == entries && entries[..n][..n] == entries[..n];
      }
    }
  }

  lemma {:induction false} DoneUpdate(entries: seq<Entry>, tool: string, k: nat, e: Entry)
    requires k < |entries| && !entries[k].resolved && e.resolved && e.call.functionName == entries[k].call.functionName
    ensures Done(entries[k := e], tool) == Done(entries, tool) + if e.call.functionName == tool then 1 else 0
    ensures forall m :: 0 <= m <= k ==> entries[k := e][..m] == entries[..m]
  {
    var n := |entries| - 1;
    if k < n {
      DoneUpdate(entries[..n], tool, k, e);
      assert entries[k := e][..n] == entries[..n][k := e];
    } else {
      assert entries[k := e][..n] == entries[..n];
    }
  }

  lemma DoneSnoc(entries: seq<Entry>, tool: string, e: Entry)
    ensures Done(entries + [e], tool) ==
            Done(entries, tool) + if e.call.functionName == tool && e.resolved then 1 else 0
    ensures (entries + [e])[..|entries|] == entries
  {
  }

  /** The tool is resolved by typed resolutions only; no decision is recorded under its name. */
  predicate OnlyTyped(ops: seq<Op>, tool: string) {
    forall k :: 0 <= k < |ops| ==> TypedFor(ops[k], tool)
  }

  predicate TypedFor(op: Op, tool: string) {
    (op.Part? ==> op.tool != tool) && (op.Permission? ==> "permission." + op.verdict != tool)
  }

  /** Before the first open call of the tool all its calls are resolved. */
  lemma ResolvedBefore(entries: seq<Entry>, tool: string)
    ensures forall i :: 0 <= i < FirstOpen(entries, tool) && entries[i].call.functionName == tool ==>
            entries[i].resolved
  {
    forall i | 0 <= i < FirstOpen(entries, tool) && entries[i].call.functionName == tool ensures entries[i].resolved {
      assert !Open(entries, tool, i);
    }
  }

  /** An entry of another tool, or one more open call of it, keeps the order. */
  lemma OrderSnoc(entries: seq<Entry>, tool: string, e: Entry)
    requires InOrder(entries, tool)
    requires e.call.functionName == tool && e.resolved ==>
               forall i :: 0 <= i < |entries| && entries[i].call.functionName == tool ==> entries[i].resolved
    ensures InOrder(entries + [e], tool)
  {
  }

  lemma OrderUpdate(entries: seq<Entry>, tool: string, k: nat, e: Entry)
    requires InOrder(entries, tool) && k < |entries| && e.call.functionName == entries[k].call.functionName
             && e.resolved
    requires entries[k].call.functionName == tool ==>
               forall i :: 0 <= i < k && entries[i].call.functionName == tool ==> entries[i].resolved
    ensures InOrder(entries[k := e], tool)
  {
  }

  /** What an operation does to the calls: nothing, resolve an open one, or add one. */
  predicate Appends(l: Ledger, op: Op) {
    var l' := Apply(l, op);
    && |l'.entries| == |l.entries| + 1 && l'.entries == l.entries + [l'.entries[|l.entries|]]
    && var e := l'.entries[|l.entries|];
       if op.Permission? then e.call.functionName == "permission." + op.verdict && !e.resolved
       else e.call.functionName == op.tool && (e.resolved <==> !op.Start?)
            && (op.Result? ==> FirstOpen(l.entries, op.tool) == |l.entries|)
  }

  predicate Resolves(l: Ledger, op: Op, k: nat) {
    var l' := Apply(l, op);
    && (op.Part? || op.Result?) && k < |l.entries| && Open(l.entries, op.tool, k)
    && (op.Result? ==> k == FirstOpen(l.entries, op.tool))
    && |l'.entries| == |l.entries| && l'.entries == l.entries[k := l'.entries[k]]
    && l'.entries[k].resolved && l'.entries[k].call.functionName == op.tool
    && l'.entries[k].call.id == l.entries[k].call.id
    && l'.results == l.results + [l'.results[|l.results|]] && l'.results[|l.results|].callId == l.entries[k].call.id
  }

  lemma ApplyEntries(l: Ledger, op: Op) returns (k: nat)
    ensures Appends(l, op) || Resolves(l, op, k) || (!op.Permission? && op.tool == "" && Apply(l, op) == l)
    ensures op.Result? ==> k == FirstOpen(l.entries, op.tool)
  {
    hide CallId, PermissionId, Truncated, TrimSpace, Blank, IsSpace;
    k := if op.Part? then LastOpen(l.entries, op.tool) else if op.Result? then FirstOpen(l.entries, op.tool) else 0;
    hide FirstOpen, LastOpen;
  }

  lemma FifoStep(l: Ledger, op: Op, tool: string)
    requires tool != "" && TypedFor(op, tool) && InOrder(l.entries, tool)
    ensures var l' := Apply(l, op);
            && InOrder(l'.entries, tool)
            && Done(l'.entries, tool) == Done(l.entries, tool) + if op.Result? && op.tool == tool then 1 else 0
  {
    var k := ApplyEntries(l, op);
    hide Apply, Done, FirstOpen, InOrder;
    var l' := Apply(l, op);
    if !op.Permission? {
      ResolvedBefore(l.entries, op.tool);
    }
    if Appends(l, op) {
      OrderSnoc(l.entries, tool, l'.entries[|l.entries|]);
      DoneSnoc(l.entries, tool, l'.entries[|l.entries|]);
    } else if Resolves(l, op, k) {
      OrderUpdate(l.entries, tool, k, l'.entries[k]);
      DoneUpdate(l.entries, tool, k, l'.entries[k]);
    }
  }

  lemma {:induction false} FifoInv(ops: seq<Op>, tool: string)
    requires OnlyTyped(ops, tool) && tool != ""
    ensures InOrder(RunOps(ops).entries, tool) && Done(RunOps(ops).entries, tool) == Resolutions(ops, tool)
  {
    hide Apply, Done, InOrder;
    if ops == [] {
      NoneDone(tool);
    } else {
      var n := |ops| - 1;
      FifoInv(ops[..n], tool);
      FifoStep(RunOps(ops[..n]), ops[n], tool);
    }
  }

  lemma NoneDone(tool: string)
    ensures Done([], tool) == 0 && InOrder([], tool)
  {
  }

  /** Call k of the ledger, the n-th of its tool counted from 0, has been answered by the newest result. */
  predicate AnsweredLast(l: Ledger, tool: string, k: nat, n: nat) {
    && k < |l.entries| && |l.results| > 0
    && l.entries[k].call.functionName == tool && l.entries[k].resolved
    && Named(l.entries[..k], tool) == n
    && l.results[|l.results| - 1].callId == l.entries[k].call.id
  }

  /** A transport that runs a round's calls one after the other: its n-th resolution for a tool is paired with the
      n-th call of that tool, so no call is shown with another's result, whatever else is recorded in between. */
  lemma ResolutionsPairInOrder(ops: seq<Op>, op: Op)
    requires op.Result? && op.tool != "" && OnlyTyped(ops, op.tool)
    ensures var l' := Apply(RunOps(ops), op);
            && |l'.results| == |RunOps(ops).results| + 1
            && exists k: nat :: AnsweredLast(l', op.tool, k, Resolutions(ops, op.tool))
  {
    FifoInv(ops, op.tool);
    hide RunOps, Resolutions;
    PairsNext(RunOps(ops), op);
    var k := FirstOpen(RunOps(ops).entries, op.tool);
    assert AnsweredLast(Apply(RunOps(ops), op), op.tool, k, Resolutions(ops, op.tool));
  }

  lemma PairsNext(l: Ledger, op: Op)
    requires op.Result? && op.tool != "" && InOrder(l.entries, op.tool)
    ensures var l' := Apply(l, op);
            && |l'.results| == |l.results| + 1
            && AnsweredLast(l', op.tool, FirstOpen(l.entries, op.tool), Done(l.entries, op.tool))
  {
    var k := FirstOpen(l.entries, op.tool);
    ResolvedBefore(l.entries, op.tool);
    UnresolvedAfter(l.entries, op.tool);
    NamedIsDone(l.entries, op.tool, k);
    hide CallId, Truncated, TrimSpace, FirstOpen, Done, Named, InOrder;
    assert Apply(l, op).entries[..k] == l.entries[..k];
  }

  lemma UnresolvedAfter(entries: seq<Entry>, tool: string)
    requires InOrder(entries, tool)
    ensures forall i :: FirstOpen(entries, tool) <= i < |entries| && entries[i].call.functionName == tool ==>
            !entries[i].resolved
  {
    hide FirstOpen;
    var k := FirstOpen(entries, tool);
    forall i | k <= i < |entries| && entries[i].call.functionName == tool ensures !entries[i].resolved {
      assert Open(entries, tool, k);
    }
  }

  /** Completed parts are paired backwards instead: of two open calls of a tool, the first part answers the later. */
  lemma PartsPairBackwards(tool: string, args: string, output: string, t0: int, t1: int, t2: int)
    requires tool != ""
    ensures var l := RunOps([Start(tool, t0), Start(tool, t1), Part(tool, args, output, false, t2)]);
            && |l.entries| == 2 && |l.results| == 1
            && l.entries[0].call.id != l.results[0].callId == l.entries[1].call.id
            && !l.entries[0].resolved && l.entries[1].resolved
  {
    var ops := [Start(tool, t0), Start(tool, t1), Part(tool, args, output, false, t2)];
    var l1 := Started(EMPTY, tool, t0);
    var l2 := Started(l1, tool, t1);
    assert ops[..2][..1] == ops[..1] && ops[..1][..0] == [];
    assert RunOps(ops[..1]) == l1 && RunOps(ops[..2]) == l2;
    IdsDiffer(1, 2);
    assert Open(l2.entries, tool, 1) && LastOpen(l2.entries, tool) == 1;
    assert RunOps(ops) == Apply(l2, ops[2]);
  }
}
