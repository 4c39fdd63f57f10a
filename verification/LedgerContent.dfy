/**
 What the live tool ledger of internal/askorchicon/tool_ledger.go says: that the names, arguments, outputs and error
 flags it shows are those of the events it was told of, and which event each of them comes from. Everything is stated
 on the fields of the operations.
 */
module LedgerContent {
  import opened Common
  import opened Text
  import opened LedgerRepair
  import opened ToolLedger

  const MARK := "…(truncated)"

  /** A text up to the limit is kept; of a longer one that many characters, and a mark. */
  lemma TruncatedIs(s: string, max: nat)
    ensures |s| <= max ==> Truncated(s, max) == s
    ensures |s| > max ==> |Truncated(s, max)| == max + |MARK| && Truncated(s, max)[..max] == s[..max]
                          && Truncated(s, max)[max..] == MARK
  {
  }

  predicate Resolution(op: Op) {
    (op.Part? || op.Result?) && op.tool != ""
  }

  predicate Ignored(op: Op) {
    !op.Permission? && op.tool == ""
  }

  /** No arguments arrived. */
  predicate Bare(args: string) {
    var a := TrimSpace(args);
    a == "" || a == "{}"
  }

  function NameOf(op: Op): string {
    if op.Permission? then "permission." + op.verdict else op.tool
  }

  /** The arguments of a call that the operation adds, and of one with these arguments that it resolves. */
  function FirstArgs(op: Op): string {
    match op
    case Start(_, _) => "{}"
    case Permission(target, _, _, _, _) => Truncated(target, 4000)
    case _ => Truncated(op.args, 4000)
  }

  function LaterArgs(op: Op, was: string): string
    requires op.Part? || op.Result?
  {
    if op.Result? && Bare(op.args) then was else Truncated(op.args, 4000)
  }

  predicate Reporting(op: Op) {
    op.Permission? || Resolution(op)
  }

  datatype Report = Report(output: string, isError: bool)

  /** What the result of an operation says. */
  function ReportOf(op: Op): Report
    requires Reporting(op)
  {
    match op
    case Permission(_, verdict, detail, _, _) =>
      Report(Truncated("permission " + verdict + (if detail == "" then "" else ": " + detail), 8000),
             verdict in {"deny", "never_allow", "policy_error"})
    case _ => Report(Truncated(op.output, 8000), op.isError)
  }

  function Said(r: ToolResult): Report {
    Report(r.output, r.isError)
  }

  /** A resolution takes the call of its tool that is open: a part the last one, a typed resolution the first. */
  predicate Takes(l: Ledger, op: Op, k: nat) {
    && k < |l.entries| && Resolution(op) && Open(l.entries, op.tool, k)
    && (op.Part? ==> forall i :: k < i < |l.entries| ==> !Open(l.entries, op.tool, i))
    && (op.Result? ==> forall i :: 0 <= i < k ==> !Open(l.entries, op.tool, i))
  }

  ghost predicate NoneOpen(l: Ledger, op: Op) {
    Resolution(op) ==> forall i :: 0 <= i < |l.entries| ==> !Open(l.entries, op.tool, i)
  }

  /** The call of an operation: added by it, or resolved by it. */
  predicate Adds(op: Op, e: Entry) {
    && e.call.kind == "function" && e.call.functionName == NameOf(op) && e.call.issuedAt == op.now
    && e.call.arguments == FirstArgs(op) && (e.resolved <==> Resolution(op))
  }

  /** What an operation does, on any ledger. Its result, if it has one, carries its own output and flag, and answers
      call k. That call was open and gets the operation's arguments, unless none arrived, and nothing else of it
      changes; or no call was open, and it is new. Every other call and result stays. */
  lemma RecordsExactly(l: Ledger, op: Op) returns (k: nat)
    ensures var l' := Apply(l, op);
            && (Ignored(op) ==> l' == l)
            && (!Ignored(op) ==> k < |l'.entries|)
            && (!Reporting(op) ==> l'.results == l.results)
            && (Reporting(op) ==>
                  var id := l'.entries[k].call.id;
                  l'.results == l.results + [ToolResult(id, ReportOf(op).output, ReportOf(op).isError)])
            && (!Ignored(op) && k < |l.entries| ==>
                  var call := l.entries[k].call;
                  && Takes(l, op, k)
                  && l'.entries == l.entries[k := Entry(call.(arguments := LaterArgs(op, call.arguments)), true)])
            && (!Ignored(op) && k >= |l.entries| ==>
                  && NoneOpen(l, op) && k == |l.entries|
                  && l'.entries == l.entries + [l'.entries[k]] && Adds(op, l'.entries[k]))
  {
    hide CallId, PermissionId, Truncated, TrimSpace, Blank, IsSpace;
    k := if op.Part? then LastOpen(l.entries, op.tool)
         else if op.Result? then FirstOpen(l.entries, op.tool)
         else |l.entries|;
    hide FirstOpen, LastOpen;
    assert l.results + [] == l.results;
    if op.Permission? {
      assert "permission " + op.verdict + "" == "permission " + op.verdict;
      assert "permission " + op.verdict + (": " + op.detail) == "permission " + op.verdict + ": " + op.detail;
    }
  }

  // ---------------------------------------------------------------- over runs

  /** What the results of a run say, told by its operations. */
  function Reports(ops: seq<Op>): seq<Report> {
    if ops == [] then []
    else
      var op := ops[|ops| - 1];
      Reports(ops[..|ops| - 1]) + if Reporting(op) then [ReportOf(op)] else []
  }

  function AllSaid(rs: seq<ToolResult>): (r: seq<Report>)
    ensures |r| == |rs| && forall i :: 0 <= i < |r| ==> r[i] == Said(rs[i])
  {
    seq(|rs|, i requires 0 <= i < |rs| => Said(rs[i]))
  }

  /** In every run the results say what the operations reported, each its own output and flag, in order. */
  lemma {:induction false} ResultsAreReported(ops: seq<Op>)
    ensures AllSaid(RunOps(ops).results) == Reports(ops)
  {
    hide Apply, ReportOf;
    if ops != [] {
      var (before, op) := (ops[..|ops| - 1], ops[|ops| - 1]);
      ResultsAreReported(before);
      var k := RecordsExactly(RunOps(before), op);
      var rs := RunOps(before).results;
      if Reporting(op) {
        var r := RunOps(ops).results[|rs|];
        assert AllSaid(rs + [r]) == AllSaid(rs) + [Said(r)];
      }
    }
  }

  /** The result that the r-th operation brought is on record, under this id. */
  predicate Answered(l: Ledger, ops: seq<Op>, r: nat, id: string)
    requires r < |ops|
  {
    var n := |Reports(ops[..r])|;
    n < |l.results| && l.results[n].callId == id && Reporting(ops[r]) && Said(l.results[n]) == ReportOf(ops[r])
  }

  /** The story of a call: operation b added it, and operation r is the last that did something with it. */
  ghost predicate Story(e: Entry, l: Ledger, ops: seq<Op>, b: nat, r: nat)
    requires b <= r < |ops|
  {
    && !Ignored(ops[b])
    && e.call.kind == "function" && e.call.functionName == NameOf(ops[b]) && e.call.issuedAt == ops[b].now
    && (Reporting(ops[b]) ==> Answered(l, ops, b, e.call.id))
    && (if b == r then e.call.arguments == FirstArgs(ops[b]) && (e.resolved <==> Resolution(ops[b]))
        else
          && !Resolution(ops[b]) && Resolution(ops[r]) && ops[r].tool == NameOf(ops[b]) && e.resolved
          && e.call.arguments == LaterArgs(ops[r], FirstArgs(ops[b])) && Answered(l, ops, r, e.call.id))
  }

  ghost predicate HasStory(l: Ledger, ops: seq<Op>, i: nat)
    requires i < |l.entries|
  {
    exists b: nat, r: nat | b <= r < |ops| :: Story(l.entries[i], l, ops, b, r)
  }

  /** More operations do not change what was answered. */
  lemma AnsweredKept(l: Ledger, ops: seq<Op>, op: Op, r: nat, id: string)
    requires r < |ops| && Answered(l, ops, r, id)
    ensures Answered(Apply(l, op), ops + [op], r, id)
  {
    var k := RecordsExactly(l, op);
    hide Apply, Reports, ReportOf;
    assert (ops + [op])[..r] == ops[..r] && (ops + [op])[r] == ops[r];
  }

  lemma StoryKept(e: Entry, l: Ledger, ops: seq<Op>, op: Op, b: nat, r: nat)
    requires b <= r < |ops| && Story(e, l, ops, b, r)
    ensures Story(e, Apply(l, op), ops + [op], b, r)
  {
    hide Apply, Answered, FirstArgs, LaterArgs;
    assert (ops + [op])[b] == ops[b] && (ops + [op])[r] == ops[r];
    if Reporting(ops[b]) {
      AnsweredKept(l, ops, op, b, e.call.id);
    }
    if b != r {
      AnsweredKept(l, ops, op, r, e.call.id);
    }
  }

  lemma NewAnswer(ops: seq<Op>, op: Op, id: string)
    requires Reporting(op)
    requires var l' := Apply(RunOps(ops), op);
             && |l'.results| > 0 && l'.results == RunOps(ops).results + [l'.results[|l'.results| - 1]]
             && l'.results[|l'.results| - 1] == ToolResult(id, ReportOf(op).output, ReportOf(op).isError)
    ensures Answered(Apply(RunOps(ops), op), ops + [op], |ops|, id)
  {
    ResultsAreReported(ops);
    hide Apply, RunOps, ReportOf;
    assert (ops + [op])[..|ops|] == ops;
  }

  lemma StoryStep(ops: seq<Op>, op: Op, i: nat)
    requires i < |Apply(RunOps(ops), op).entries|
    requires i < |RunOps(ops).entries| ==> HasStory(RunOps(ops), ops, i)
    ensures HasStory(Apply(RunOps(ops), op), ops + [op], i)
  {
    var l := RunOps(ops);
    var l' := Apply(l, op);
    var k := RecordsExactly(l, op);
    hide Apply, RunOps, Story, FirstArgs, LaterArgs, ReportOf;
    var (ops', n) := (ops + [op], |ops|);
    if i < |l.entries| {
      var b: nat, r: nat :| b <= r < n && Story(l.entries[i], l, ops, b, r);
      StoryKept(l.entries[i], l, ops, op, b, r);
      if !Ignored(op) && i == k {
        Resolved(l.entries[i], ops, op, b, r, l'.entries[i]);
        assert Story(l'.entries[i], l', ops', b, n);
      } else {
        assert l'.entries[i] == l.entries[i];
      }
    } else {
      Added(ops, op, l'.entries[i]);
      assert Story(l'.entries[i], l', ops', n, n);
    }
  }

  lemma Resolved(e: Entry, ops: seq<Op>, op: Op, b: nat, r: nat, e': Entry)
    requires b <= r < |ops| && Story(e, RunOps(ops), ops, b, r) && !e.resolved
    requires Resolution(op) && e.call.functionName == op.tool
    requires e' == Entry(e.call.(arguments := LaterArgs(op, e.call.arguments)), true)
    requires var l' := Apply(RunOps(ops), op);
             && |l'.results| > 0 && l'.results == RunOps(ops).results + [l'.results[|l'.results| - 1]]
             && l'.results[|l'.results| - 1] == ToolResult(e.call.id, ReportOf(op).output, ReportOf(op).isError)
    ensures Story(e', Apply(RunOps(ops), op), ops + [op], b, |ops|)
  {
    NewAnswer(ops, op, e.call.id);
    hide Apply, RunOps, Answered, FirstArgs, LaterArgs, ReportOf;
    assert (ops + [op])[b] == ops[b] && (ops + [op])[|ops|] == op;
    assert b == r;
    if Reporting(ops[b]) {
      AnsweredKept(RunOps(ops), ops, op, b, e.call.id);
    }
  }

  lemma Added(ops: seq<Op>, op: Op, e: Entry)
    requires !Ignored(op) && Adds(op, e)
    requires var l' := Apply(RunOps(ops), op);
             Reporting(op) ==>
               && |l'.results| > 0 && l'.results == RunOps(ops).results + [l'.results[|l'.results| - 1]]
               && l'.results[|l'.results| - 1] == ToolResult(e.call.id, ReportOf(op).output, ReportOf(op).isError)
    ensures Story(e, Apply(RunOps(ops), op), ops + [op], |ops|, |ops|)
  {
    assert (ops + [op])[|ops|] == op;
    if Reporting(op) {
      NewAnswer(ops, op, e.call.id);
    }
    hide Apply, RunOps, Answered, FirstArgs, LaterArgs, ReportOf;
  }

  /** In every run each call on record has the name and the time of the operation that added it. A call that was
      issued and not resolved since shows the placeholder; one that was resolved shows the arguments of the very
      operation whose result, with that operation's output and flag, is recorded under its id; and a decision, or a
      call made up for a result, shows its own. */
  lemma {:induction false} CallsTellTheirStory(ops: seq<Op>, i: nat)
    requires i < |RunOps(ops).entries|
    ensures HasStory(RunOps(ops), ops, i)
    decreases |ops|
  {
    var (before, op) := (ops[..|ops| - 1], ops[|ops| - 1]);
    assert before + [op] == ops;
    if i < |RunOps(before).entries| {
      CallsTellTheirStory(before, i);
    }
    hide HasStory, Apply;
    StoryStep(before, op, i);
  }
}
