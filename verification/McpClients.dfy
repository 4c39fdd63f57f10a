/**
 The MCP clients of ask conversations (internal/askorchicon/ask_mcp.go): one long-lived client per conversation,
 created on first use, swapped when what it was resolved for changes, and closed with its conversation or the
 plane. A client stands for child processes and connections, so none may be lost track of.
 */
module McpClients {
  import opened Common
  import opened Text

  /** `client` is None for a conversation that resolves no servers, which is an answer worth keeping. */
  datatype Entry = Entry(client: Option<nat>, projectID: string, fingerprint: string)

  /** What the scope resolver says, and whether the servers can be started. */
  datatype Resolution = Unresolvable | Resolved(servers: seq<string>, missing: bool, startable: bool)

  /** The clients that are running, those that were closed, and the conversations' entries. */
  datatype State = State(entries: map<string, Entry>, open: set<nat>, closed: multiset<nat>, next: nat)

  const EMPTY := State(map[], {}, multiset{}, 0)

  function Joined(names: seq<string>): string {
    if names == [] then ""
    else if |names| == 1 then names[0]
    else names[0] + "," + Joined(names[1..])
  }

  function Fingerprint(projectID: string, servers: seq<string>): string {
    projectID + ";" + Joined(servers)
  }

  // ---------------------------------------------------------------- the operations

  function Closed(s: State, c: Option<nat>): State {
    match c
    case None => s
    case Some(id) => s.(open := s.open - {id}, closed := s.closed + multiset{id})
  }

  function Started(s: State, projectID: string, r: Resolution): (State, Option<Entry>) {
    if r.Unresolvable? || r.missing then (s, None)
    else
      var fp := Fingerprint(projectID, r.servers);
      if r.servers == [] then (s, Some(Entry(None, projectID, fp)))
      else if !r.startable then (s, None)
      else (s.(open := s.open + {s.next}, next := s.next + 1), Some(Entry(Some(s.next), projectID, fp)))
  }

  function ClientOf(s: State, conv: string): Option<nat> {
    if conv in s.entries then s.entries[conv].client else None
  }

  function ClosedFor(s: State, conv: string): State {
    if conv == "" then s else Closed(s, ClientOf(s, conv)).(entries := s.entries - {conv})
  }

  /** The client for one call: kept while the project is the same. */
  function LookedUp(s: State, conv: string, projectID: string, r: Resolution): (State, Option<Entry>) {
    if conv == "" then Started(s, projectID, r)
    else if conv in s.entries && s.entries[conv].projectID == projectID then (s, Some(s.entries[conv]))
    else
      var (s1, e) := Started(ClosedFor(s, conv), projectID, r);
      (if e.Some? then s1.(entries := s1.entries[conv := e.value]) else s1, e)
  }

  /** The reconciliation of one turn: kept while the fingerprint is the same. */
  function Refreshed(s: State, conv: string, projectID: string, r: Resolution): State {
    if conv == "" || r.Unresolvable? then s
    else if conv in s.entries && s.entries[conv].fingerprint == Fingerprint(projectID, r.servers) then s
    else
      var (s1, e) := Started(s, projectID, r);
      if e.None? then s1 else Closed(s1, ClientOf(s, conv)).(entries := s1.entries[conv := e.value])
  }

  function Clients(entries: map<string, Entry>): set<nat> {
    set conv | conv in entries && entries[conv].client.Some? :: entries[conv].client.value
  }

  function ClosedAll(s: State): State {
    State(map[], s.open - Clients(s.entries), s.closed + multiset(Clients(s.entries)), s.next)
  }

  class AskMcp {
    var askMCP: map<string, Entry>
    var open: set<nat>
    var closed: multiset<nat>
    var next: nat

    function Value(): State
      reads this
    {
      State(askMCP, open, closed, next)
    }

    constructor ()
      ensures Value() == EMPTY
    {
      askMCP, open, closed, next := map[], {}, multiset{}, 0;
    }

    method CloseClient(c: nat)
      modifies this
      ensures Value() == Closed(old(Value()), Some(c))
    {
      open, closed := open - {c}, closed + multiset{c};
    }

    method StartEntry(projectID: string, r: Resolution) returns (e: Option<Entry>)
      modifies this
      ensures (Value(), e) == Started(old(Value()), projectID, r)
    {
      if r.Unresolvable? || r.missing {
        return None;
      }
      var fp := Fingerprint(projectID, r.servers);
      if |r.servers| == 0 {
        return Some(Entry(None, projectID, fp));
      }
      if !r.startable {
        return None;
      }
      var c := next;
      open, next := open + {c}, next + 1;
      e := Some(Entry(Some(c), projectID, fp));
    }

    method CloseAskMCP(conv: string)
      modifies this
      ensures Value() == ClosedFor(old(Value()), conv)
    {
      if conv == "" {
        return;
      }
      var c := if conv in askMCP then askMCP[conv].client else None;
      askMCP := askMCP - {conv};
      if c.Some? {
        CloseClient(c.value);
      }
    }

    method AskMCPFor(conv: string, projectID: string, r: Resolution) returns (e: Option<Entry>)
      modifies this
      ensures (Value(), e) == LookedUp(old(Value()), conv, projectID, r)
    {
      if conv == "" {
        e := StartEntry(projectID, r);
        return;
      }
      if conv in askMCP && askMCP[conv].projectID == projectID {
        return Some(askMCP[conv]);
      }
      if conv in askMCP {
        CloseAskMCP(conv);
      } else {
        assert askMCP - {conv} == askMCP;
      }
      e := StartEntry(projectID, r);
      if e.None? {
        return;
      }
      askMCP := askMCP[conv := e.value];
    }

    method RefreshAskMCP(conv: string, projectID: string, r: Resolution)
      modifies this
      ensures Value() == Refreshed(old(Value()), conv, projectID, r)
    {
      if conv == "" || r.Unresolvable? {
        return;
      }
      var fp := Fingerprint(projectID, r.servers);
      var c := if conv in askMCP then askMCP[conv].client else None;
      if conv in askMCP && askMCP[conv].fingerprint == fp {
        return;
      }
      var e := StartEntry(projectID, r);
      if e.None? {
        return;
      }
      if c.Some? {
        CloseClient(c.value);
      }
      askMCP := askMCP[conv := e.value];
    }

    method CloseAll()
      requires Inv(Value())
      modifies this
      ensures Value() == ClosedAll(old(Value()))
    {
      hide Inv, ClosedIn, ClosedAll;
      var entries := askMCP;
      NoneIn(Value());
      askMCP := map[];
      var todo := entries.Keys;
      ghost var done: set<string> := {};
      while todo != {}
        invariant todo + done == entries.Keys && todo !! done
        invariant Value() == ClosedIn(old(Value()), done)
        decreases |todo|
      {
        var conv :| conv in todo;
        OneMoreClosed(old(Value()), done, conv);
        if entries[conv].client.Some? {
          CloseClient(entries[conv].client.value);
        }
        todo, done := todo - {conv}, done + {conv};
      }
      AllIn(old(Value()), done);
    }
  }

  function ClientsIn(entries: map<string, Entry>, convs: set<string>): set<nat> {
    set conv | conv in convs && conv in entries && entries[conv].client.Some? :: entries[conv].client.value
  }

  lemma ClientsInGrow(entries: map<string, Entry>, done: set<string>, conv: string)
    requires conv in entries
    ensures ClientsIn(entries, done + {conv}) ==
              ClientsIn(entries, done) + if entries[conv].client.Some? then {entries[conv].client.value} else {}
  {
    var c := entries[conv].client;
    forall x | x in ClientsIn(entries, done) || (c.Some? && x == c.value)
      ensures x in ClientsIn(entries, done + {conv}) {
      if x in ClientsIn(entries, done) {
        var k :| k in done && k in entries && entries[k].client == Some(x);
        assert k in done + {conv};
      } else {
        assert conv in done + {conv};
      }
    }
  }

  /** What is left when the clients of some conversations have been closed, and all entries dropped. */
  function ClosedIn(s: State, convs: set<string>): State {
    State(map[], s.open - ClientsIn(s.entries, convs), s.closed + multiset(ClientsIn(s.entries, convs)), s.next)
  }

  lemma NoneIn(s: State)
    ensures ClosedIn(s, {}) == s.(entries := map[])
  {
    assert ClientsIn(s.entries, {}) == {};
  }

  lemma AllIn(s: State, convs: set<string>)
    requires convs == s.entries.Keys
    ensures ClosedIn(s, convs) == ClosedAll(s)
  {
    assert ClientsIn(s.entries, convs) == Clients(s.entries);
  }

  lemma OneMoreClosed(s: State, done: set<string>, conv: string)
    requires Inv(s) && conv in s.entries && conv !in done
    ensures ClosedIn(s, done + {conv}) == Closed(ClosedIn(s, done), s.entries[conv].client)
  {
    ClientsInGrow(s.entries, done, conv);
    var c := s.entries[conv].client;
    var before := ClientsIn(s.entries, done);
    if c.Some? {
      assert c.value !in before;
      assert multiset(before + {c.value}) == multiset(before) + multiset{c.value};
      assert s.open - (before + {c.value}) == s.open - before - {c.value};
    } else {
      assert before + {} == before;
    }
  }

  // ---------------------------------------------------------------- conservation

  /** The running clients are exactly those of the entries, no two conversations share one, and none that runs was
      closed, nor any closed twice. */
  ghost predicate Inv(s: State) {
    && s.open == Clients(s.entries)
    && (forall a, b | a in s.entries && b in s.entries ::
          s.entries[a].client.Some? && s.entries[a].client == s.entries[b].client ==> a == b)
    && (forall c :: c in s.open || c in s.closed ==> c < s.next)
    && (forall c :: c in s.closed ==> s.closed[c] == 1 && c !in s.open)
  }

  datatype Op =
    | LookUp(conv: string, projectID: string, r: Resolution)
    | Refresh(conv: string, projectID: string, r: Resolution)
    | Close(conv: string)
    | CloseEverything

  function Apply(s: State, op: Op): State {
    match op
    case LookUp(conv, p, r) => LookedUp(s, conv, p, r).0
    case Refresh(conv, p, r) => Refreshed(s, conv, p, r)
    case Close(conv) => ClosedFor(s, conv)
    case CloseEverything => ClosedAll(s)
  }

  function Run(ops: seq<Op>): State {
    if ops == [] then EMPTY else Apply(Run(ops[..|ops| - 1]), ops[|ops| - 1])
  }

  predicate Named(ops: seq<Op>) {
    forall k :: 0 <= k < |ops| ==> !ops[k].CloseEverything? ==> ops[k].conv != ""
  }

  lemma ClosedForInv(s: State, conv: string)
    requires Inv(s)
    ensures Inv(ClosedFor(s, conv))
  {
    var s' := ClosedFor(s, conv);
    if conv != "" {
      forall c | c in s.open ensures c in s'.open <==> c in Clients(s'.entries) {
        var k :| k in s.entries && s.entries[k].client == Some(c);
        if k != conv {
          assert k in s'.entries;
        }
      }
      assert s'.open == Clients(s'.entries);
    }
  }

  /** Storing an entry for a conversation that has no client; a new client is one that nobody has. */
  lemma StoredInv(s: State, conv: string, e: Entry)
    requires Inv(s) && ClientOf(s, conv).None?
    requires e.client.Some? ==> e.client.value == s.next
    ensures Inv(State(s.entries[conv := e], if e.client.Some? then s.open + {s.next} else s.open, s.closed,
                      if e.client.Some? then s.next + 1 else s.next))
  {
    var entries := s.entries[conv := e];
    forall c ensures c in Clients(entries) <==> c in s.open || e.client == Some(c) {
      if c in s.open {
        var k :| k in s.entries && s.entries[k].client == Some(c);
        assert k in entries && entries[k].client == Some(c);
      } else if e.client == Some(c) {
        assert conv in entries;
      }
    }
    assert forall k :: k in s.entries && s.entries[k].client.Some? ==> s.entries[k].client.value in s.open;
  }

  lemma LookUpInv(s: State, conv: string, projectID: string, r: Resolution)
    requires Inv(s) && conv != ""
    ensures Inv(LookedUp(s, conv, projectID, r).0)
  {
    if !(conv in s.entries && s.entries[conv].projectID == projectID) {
      ClosedForInv(s, conv);
      var s0 := ClosedFor(s, conv);
      var (s1, e) := Started(s0, projectID, r);
      if e.Some? {
        hide Inv, Fingerprint;
        StoredInv(s0, conv, e.value);
      }
    }
  }

  /** Swapping starts the new client first; the result is as if the old one had been closed before. */
  lemma RefreshIsCloseThenStart(s: State, conv: string, projectID: string, r: Resolution)
    requires Inv(s) && conv != "" && Started(s, projectID, r).1.Some?
    requires !(conv in s.entries && s.entries[conv].fingerprint == Fingerprint(projectID, r.servers))
    ensures var (s1, e) := Started(ClosedFor(s, conv), projectID, r);
            e.Some? && Refreshed(s, conv, projectID, r) == s1.(entries := s1.entries[conv := e.value])
  {
    var c := ClientOf(s, conv);
    assert c.Some? ==> c.value in s.open && c.value < s.next;
    assert (s.entries - {conv})[conv := Started(s, projectID, r).1.value] ==
        s.entries[conv := Started(s, projectID, r).1.value];
  }

  lemma RefreshInv(s: State, conv: string, projectID: string, r: Resolution)
    requires Inv(s) && conv != ""
    ensures Inv(Refreshed(s, conv, projectID, r))
  {
    if Refreshed(s, conv, projectID, r) != s && Started(s, projectID, r).1.Some? {
      RefreshIsCloseThenStart(s, conv, projectID, r);
      ClosedForInv(s, conv);
      var s0 := ClosedFor(s, conv);
      hide Inv, Fingerprint;
      StoredInv(s0, conv, Started(s0, projectID, r).1.value);
    }
  }

  lemma ClosedAllInv(s: State)
    requires Inv(s)
    ensures Inv(ClosedAll(s)) && ClosedAll(s).open == {}
  {
  }

  lemma {:induction false} RunInv(ops: seq<Op>)
    requires Named(ops)
    ensures Inv(Run(ops))
  {
    hide Inv, LookedUp, Refreshed, ClosedFor, ClosedAll;
    if ops == [] {
      EmptyInv();
    } else {
      var s, op := Run(ops[..|ops| - 1]), ops[|ops| - 1];
      RunInv(ops[..|ops| - 1]);
      match op
      case LookUp(conv, p, r) => LookUpInv(s, conv, p, r);
      case Refresh(conv, p, r) => RefreshInv(s, conv, p, r);
      case Close(conv) => ClosedForInv(s, conv);
      case CloseEverything => ClosedAllInv(s);
    }
  }

  lemma EmptyInv()
    ensures Inv(EMPTY)
  {
  }

  /** No client is leaked and none is closed twice: over any sequence of operations for named conversations, whatever
      resolves or fails, every client ever started is either the one client of one conversation, or was closed. */
  lemma {:induction false} ClientsAreConserved(ops: seq<Op>, c: nat)
    requires Named(ops) && c < Run(ops).next
    ensures var s := Run(ops);
            && (c in s.open <==> exists conv :: conv in s.entries && s.entries[conv].client == Some(c))
            && s.closed[c] == (if c in s.open then 0 else 1)
            && (forall a, b | a in s.entries && b in s.entries ::
                  s.entries[a].client == Some(c) == s.entries[b].client ==> a == b)
  {
    RunInv(ops);
    EveryClientAccounted(ops, c);
  }

  lemma StartedAccounts(s: State, projectID: string, r: Resolution, c: nat)
    ensures var (s', e) := Started(s, projectID, r);
            (c < s'.next ==> c < s.next || c in s'.open)
            && s.open <= s'.open && s'.closed == s.closed && s'.entries == s.entries
  {
  }

  lemma StepAccounts(s: State, op: Op, c: nat)
    requires s.open == Clients(s.entries) && c < Apply(s, op).next
    requires c < s.next ==> c in s.open || c in s.closed
    ensures c in Apply(s, op).open || c in Apply(s, op).closed
  {
    hide Fingerprint, Clients, Started;
    match op
    case LookUp(conv, p, r) =>
      StartedAccounts(s, p, r, c);
      StartedAccounts(ClosedFor(s, conv), p, r, c);
    case Refresh(conv, p, r) =>
      StartedAccounts(s, p, r, c);
    case _ =>
  }

  lemma {:induction false} EveryClientAccounted(ops: seq<Op>, c: nat)
    requires Named(ops) && c < Run(ops).next
    ensures c in Run(ops).open || c in Run(ops).closed
  {
    hide Inv, Clients, Apply;
    if ops != [] {
      var s := Run(ops[..|ops| - 1]);
      RunInv(ops[..|ops| - 1]);
      OpenAreClients(s);
      if c < s.next {
        EveryClientAccounted(ops[..|ops| - 1], c);
      }
      StepAccounts(s, ops[|ops| - 1], c);
    }
  }

  lemma OpenAreClients(s: State)
    requires Inv(s)
    ensures s.open == Clients(s.entries)
    ensures forall c :: c in s.open ==> c < s.next
    ensures forall conv :: conv in s.entries && s.entries[conv].client.Some? ==> s.entries[conv].client.value < s.next
  {
    forall conv | conv in s.entries && s.entries[conv].client.Some? ensures s.entries[conv].client.value < s.next {
      assert s.entries[conv].client.value in s.open;
    }
  }

  // ---------------------------------------------------------------- steady state

  /** A turn that resolves what the last one resolved starts and closes nothing; a turn that resolves something else
      and can start it leaves the conversation with an entry for exactly that; one that cannot keeps the old. */
  lemma RefreshSettles(s: State, conv: string, projectID: string, r: Resolution)
    requires Inv(s) && conv != "" && r.Resolved?
    ensures var fp, s' := Fingerprint(projectID, r.servers), Refreshed(s, conv, projectID, r);
            && (conv in s.entries && s.entries[conv].fingerprint == fp ==> s' == s)
            && ((conv in s'.entries && s'.entries[conv].fingerprint == fp) <==>
                  (conv in s.entries && s.entries[conv].fingerprint == fp)
                  || (!r.missing && (r.servers == [] || r.startable)))
            && (s' != s ==> conv in s'.entries && s'.entries[conv].projectID == projectID)
            && Refreshed(s', conv, projectID, r) == (if s' == s then s else s')
            && (forall k :: k != conv ==>
                  (k in s'.entries <==> k in s.entries) && (k in s.entries ==> s'.entries[k] == s.entries[k]))
  {
    hide Fingerprint;
  }

  /** Every call is served by a client resolved for the project the conversation is in now. */
  lemma LookUpServesCurrentProject(ops: seq<Op>, conv: string, projectID: string, r: Resolution)
    requires Named(ops) && conv != "" && LookedUp(Run(ops), conv, projectID, r).1.Some?
    ensures var (s, e) := LookedUp(Run(ops), conv, projectID, r);
            && e.value.projectID == projectID && conv in s.entries && s.entries[conv] == e.value
            && (e.value.client.Some? ==> e.value.client.value in s.open)
  {
    RunInv(ops);
    LookUpInv(Run(ops), conv, projectID, r);
    hide Inv, Run, Fingerprint;
    OpenAreClients(LookedUp(Run(ops), conv, projectID, r).0);
  }

  // ---------------------------------------------------------------- fingerprints

  /** The pieces of a text between its commas; there is always one. */
  function Pieces(t: string): (ps: seq<string>)
    ensures ps != []
  {
    var i := IndexOf(t, ',');
    if i < 0 then [t] else [t[..i]] + Pieces(t[i + 1..])
  }

  /** What joining the ids of servers leaves of them: those with commas fall apart, and no server is like one without
      a name. */
  function Parts(names: seq<string>): seq<string> {
    if names == [] then [""]
    else if |names| == 1 then Pieces(names[0])
    else Pieces(names[0]) + Parts(names[1..])
  }

  lemma FirstAt(a: string, c: char, x: string)
    requires c !in a
    ensures IndexOf(a + [c] + x, c) == |a|
  {
    var l := a + [c] + x;
    assert l[|a|] == c && forall k :: 0 <= k < |a| ==> l[k] == a[k];
  }

  lemma PiecesAt(a: string, x: string)
    requires ',' !in a
    ensures Pieces(a + "," + x) == [a] + Pieces(x)
  {
    FirstAt(a, ',', x);
    assert (a + "," + x)[..|a|] == a && (a + "," + x)[|a| + 1..] == x;
  }

  lemma {:induction false} PiecesConcat(t: string, u: string)
    ensures Pieces(t + "," + u) == Pieces(t) + Pieces(u)
    decreases |t|
  {
    var i := IndexOf(t, ',');
    if i < 0 {
      PiecesAt(t, u);
    } else {
      var (a, x) := (t[..i], t[i + 1..]);
      assert t == a + "," + x;
      PiecesConcat(x, u);
      PiecesMoreAt(a, x, u);
    }
  }

  lemma PiecesMoreAt(a: string, x: string, u: string)
    requires ',' !in a && Pieces(x + "," + u) == Pieces(x) + Pieces(u)
    ensures Pieces(a + "," + x + "," + u) == Pieces(a + "," + x) + Pieces(u)
  {
    hide Pieces;
    PiecesAt(a, x);
    PiecesAt(a, x + "," + u);
    Regroup(a, x, u);
    assert [a] + (Pieces(x) + Pieces(u)) == [a] + Pieces(x) + Pieces(u);
  }

  lemma Regroup(a: string, x: string, u: string)
    ensures a + "," + x + "," + u == a + "," + (x + "," + u)
  {
  }

  lemma {:induction false} PartsAreWhatIsLeft(names: seq<string>)
    ensures Parts(names) == Pieces(Joined(names))
  {
    hide Pieces;
    if names == [] {
      NoPieces();
    } else if |names| > 1 {
      PartsAreWhatIsLeft(names[1..]);
      PiecesConcat(names[0], Joined(names[1..]));
    }
  }

  lemma NoPieces()
    ensures Pieces("") == [""]
  {
  }

  lemma {:induction false} PiecesRejoin(t: string)
    ensures Joined(Pieces(t)) == t
    decreases |t|
  {
    var i := IndexOf(t, ',');
    if i >= 0 {
      PiecesRejoin(t[i + 1..]);
      assert ([t[..i]] + Pieces(t[i + 1..]))[1..] == Pieces(t[i + 1..]);
      assert t == t[..i] + "," + t[i + 1..];
    }
  }

  lemma JoinedAgreesIff(a: seq<string>, b: seq<string>)
    ensures Joined(a) == Joined(b) <==> Parts(a) == Parts(b)
  {
    PartsAreWhatIsLeft(a);
    PartsAreWhatIsLeft(b);
    PiecesRejoin(Joined(a));
    PiecesRejoin(Joined(b));
  }

  /** The id of project q goes on, behind a separator, with x, where the ids of the servers in p begin with it. */
  predicate GoesOn(p: string, a: seq<string>, q: string, b: seq<string>, x: string) {
    q == p + ";" + x && Joined(a) == x + ";" + Joined(b)
  }

  ghost predicate Overrun(p: string, a: seq<string>, q: string, b: seq<string>) {
    exists x :: GoesOn(p, a, q, b, x)
  }

  lemma LongerProject(p: string, j: string, q: string, k: string)
    requires |p| < |q| && p + ";" + j == q + ";" + k
    ensures q == p + ";" + q[|p| + 1..] && j == q[|p| + 1..] + ";" + k
  {
    var (t, x) := (p + ";" + j, q[|p| + 1..]);
    assert t[..|q|] == q && t[..|p|] == p == q[..|p|] && t[|p|] == ';' == q[|p|];
    assert q == q[..|p|] + [q[|p|]] + x;
    assert q + ";" + k == p + ";" + (x + ";" + k);
    assert j == t[|p| + 1..] == (p + ";" + (x + ";" + k))[|p| + 1..] == x + ";" + k;
  }

  lemma GoesOnAgrees(p: string, a: seq<string>, q: string, b: seq<string>)
    ensures Overrun(p, a, q, b) ==> Fingerprint(p, a) == Fingerprint(q, b)
  {
    if x :| GoesOn(p, a, q, b, x) {
      assert p + ";" + (x + ";" + Joined(b)) == p + ";" + x + ";" + Joined(b);
    }
  }

  /** Exactly when two fingerprints agree: the projects are the same and so is what joining leaves of the servers, or
      the id of one project runs on, behind a separator, into the servers of the other. */
  lemma FingerprintsAgreeIff(p: string, a: seq<string>, q: string, b: seq<string>)
    ensures Fingerprint(p, a) == Fingerprint(q, b) <==>
              (p == q && Parts(a) == Parts(b)) || Overrun(p, a, q, b) || Overrun(q, b, p, a)
  {
    JoinedAgreesIff(a, b);
    GoesOnAgrees(p, a, q, b);
    GoesOnAgrees(q, b, p, a);
    hide Joined, Parts;
    if Fingerprint(p, a) == Fingerprint(q, b) {
      if |p| < |q| {
        LongerProject(p, Joined(a), q, Joined(b));
        assert GoesOn(p, a, q, b, q[|p| + 1..]);
      } else if |q| < |p| {
        LongerProject(q, Joined(b), p, Joined(a));
        assert GoesOn(q, b, p, a, p[|q| + 1..]);
      } else {
        SameLengthProject(p, Joined(a), q, Joined(b));
      }
    }
  }

  lemma SameLengthProject(p: string, j: string, q: string, k: string)
    requires |p| == |q| && p + ";" + j == q + ";" + k
    ensures p == q && j == k
  {
    assert (p + ";" + j)[..|p|] == p && (q + ";" + k)[..|q|] == q;
    assert (p + ";" + j)[|p| + 1..] == j && (q + ";" + k)[|q| + 1..] == k;
  }

  predicate PlainNames(names: seq<string>) {
    forall k :: 0 <= k < |names| ==> names[k] != "" && ',' !in names[k]
  }

  lemma {:induction false} PlainParts(names: seq<string>)
    requires PlainNames(names) && names != []
    ensures Parts(names) == names
  {
    if |names| > 1 {
      PlainParts(names[1..]);
      assert names == [names[0]] + names[1..];
    }
  }

  /** For project ids without a semicolon and server ids without a comma, a fingerprint says which servers, in which
      order, in which project: a changed set never passes for an unchanged one. */
  lemma FingerprintInjective(p: string, a: seq<string>, q: string, b: seq<string>)
    requires ';' !in p && ';' !in q && PlainNames(a) && PlainNames(b)
    ensures Fingerprint(p, a) == Fingerprint(q, b) <==> p == q && a == b
  {
    FingerprintsAgreeIff(p, a, q, b);
    if a != [] {
      PlainParts(a);
    }
    if b != [] {
      PlainParts(b);
    }
    NoOverrun(p, a, q, b);
    NoOverrun(q, b, p, a);
  }

  lemma NoOverrun(p: string, a: seq<string>, q: string, b: seq<string>)
    requires ';' !in q
    ensures !Overrun(p, a, q, b)
  {
    hide Joined;
    forall x ensures !GoesOn(p, a, q, b, x) {
      assert (p + ";" + x)[|p|] == ';';
    }
  }

  /** Without those conditions it does not. */
  lemma FingerprintsCollide(p: string, x: string, y: string)
    ensures Fingerprint(p + ";" + x, []) == Fingerprint(p, [x + ";"])
    ensures Fingerprint(p, [x + "," + y]) == Fingerprint(p, [x, y])
    ensures Fingerprint(p, []) == Fingerprint(p, [""])
  {
    assert p + ";" + x + ";" == p + ";" + (x + ";");
    assert Joined([x, y]) == x + "," + Joined([y]) by { assert [x, y][1..] == [y]; }
  }
}
