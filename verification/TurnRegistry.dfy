/**
 The registry of in-flight Ask turns (internal/askorchicon/chat.go). Every method of `Turns` is one
 critical section of the registry's mutex; a function says what the section does to the registry as
 a value, and `TurnProtocol` interleaves those values.
 */
module TurnRegistry {

  /** Why a turn's collector was cancelled. */
  datatype Cause = UserStop | Superseded | Expired

  datatype Entry = Entry(token: nat, started: int, tenant: string, assistantMsgId: string,
                         wedged: bool, lastActivity: int)

  datatype Candidate = Candidate(conv: string, tenant: string, token: nat)

  datatype Eviction = Eviction(conv: string, tenant: string)

  /** `causes` holds, per token, the cause with which the turn's context was cancelled. */
  datatype Registry = Registry(nextTok: nat, turns: map<string, Entry>, causes: map<nat, Cause>)

  const EMPTY := Registry(0, map[], map[])

  predicate Holds(r: Registry, conv: string, token: nat) {
    conv in r.turns && r.turns[conv].token == token
  }

  /** A cancellation context keeps the cause of its first cancellation. */
  function CancelContext(causes: map<nat, Cause>, token: nat, cause: Cause): map<nat, Cause> {
    if token in causes then causes else causes[token := cause]
  }

  function Registered(r: Registry, conv: string, tenant: string, msgId: string, started: int, active: int)
    : (Registry, nat, bool)
  {
    if conv in r.turns then (r, 0, false)
    else
      var token := r.nextTok + 1;
      (r.(nextTok := token, turns := r.turns[conv := Entry(token, started, tenant, msgId, false, active)]),
       token, true)
  }

  function MarkedWedged(r: Registry, conv: string, token: nat): Registry {
    if Holds(r, conv, token) then r.(turns := r.turns[conv := r.turns[conv].(wedged := true)]) else r
  }

  function MarkedActive(r: Registry, conv: string, token: nat, now: int): Registry {
    if Holds(r, conv, token) then r.(turns := r.turns[conv := r.turns[conv].(lastActivity := now)]) else r
  }

  function Cancelled(r: Registry, conv: string, cause: Cause): (Registry, nat, bool) {
    if conv in r.turns then
      (r.(causes := CancelContext(r.causes, r.turns[conv].token, cause)), r.turns[conv].token, true)
    else (r, 0, false)
  }

  function Removed(r: Registry, conv: string, token: nat): Registry {
    if Holds(r, conv, token) then r.(turns := r.turns - {conv}) else r
  }

  predicate Quiet(e: Entry, now: int, maxAge: int) {
    now - e.lastActivity > maxAge
  }

  /** The first critical section of a sweep lists exactly the quiet entries, in any order. */
  predicate IsScan(r: Registry, now: int, maxAge: int, cands: seq<Candidate>) {
    && (forall i :: 0 <= i < |cands| ==>
          Holds(r, cands[i].conv, cands[i].token)
          && cands[i].tenant == r.turns[cands[i].conv].tenant
          && Quiet(r.turns[cands[i].conv], now, maxAge))
    && (forall i, j :: 0 <= i < j < |cands| ==> cands[i].conv != cands[j].conv)
    && (forall c :: c in r.turns && Quiet(r.turns[c], now, maxAge) ==>
          exists i :: 0 <= i < |cands| && cands[i].conv == c)
  }

  /** The second critical section evicts one candidate, if its generation is still the registered one. */
  function Evicted(r: Registry, cd: Candidate): Registry {
    if Holds(r, cd.conv, cd.token) then
      r.(turns := r.turns - {cd.conv}, causes := CancelContext(r.causes, cd.token, Expired))
    else r
  }

  /** The second phase of a sweep that nothing interleaves with: per candidate, ask whether the turn is
      parked on a human, then evict it; the evictions are reported in order. */
  function Swept(r: Registry, cands: seq<Candidate>, parked: string -> bool): (Registry, seq<Eviction>)
    decreases |cands|
  {
    if cands == [] then (r, [])
    else if parked(cands[0].conv) || !Holds(r, cands[0].conv, cands[0].token) then Swept(r, cands[1..], parked)
    else
      var (r', evicted) := Swept(Evicted(r, cands[0]), cands[1..], parked);
      (r', [Eviction(cands[0].conv, cands[0].tenant)] + evicted)
  }

  /** Calls made on behalf of a generation the registry no longer holds change nothing. */
  lemma StaleCallsAreNoOps(r: Registry, conv: string, token: nat, now: int, tenant: string)
    requires !Holds(r, conv, token)
    ensures Removed(r, conv, token) == MarkedWedged(r, conv, token) == MarkedActive(r, conv, token, now)
            == Evicted(r, Candidate(conv, tenant, token)) == r
  {
  }

  /** No token was issued that the counter has not passed, and no two conversations share one. */
  predicate Issued(r: Registry) {
    && (forall c :: c in r.turns ==> 1 <= r.turns[c].token <= r.nextTok)
    && (forall c, d :: c in r.turns && d in r.turns && c != d ==> r.turns[c].token != r.turns[d].token)
  }

  lemma RegisterKeepsIssued(r: Registry, conv: string, tenant: string, msgId: string, started: int, active: int)
    requires Issued(r)
    ensures Issued(Registered(r, conv, tenant, msgId, started, active).0) && Issued(EMPTY)
  {
  }

  lemma OperationsKeepIssued(r: Registry, conv: string, token: nat, cause: Cause, now: int, cd: Candidate)
    requires Issued(r)
    ensures Issued(MarkedWedged(r, conv, token)) && Issued(MarkedActive(r, conv, token, now))
    ensures Issued(Cancelled(r, conv, cause).0) && Issued(Removed(r, conv, token)) && Issued(Evicted(r, cd))
  {
    TokensStay(r, MarkedWedged(r, conv, token));
    TokensStay(r, MarkedActive(r, conv, token, now));
    TokensStay(r, Cancelled(r, conv, cause).0);
    TokensStay(r, Removed(r, conv, token));
    TokensStay(r, Evicted(r, cd));
    hide Issued, MarkedWedged, MarkedActive, Cancelled, Removed, Evicted;
  }

  lemma TokensStay(r: Registry, r': Registry)
    requires Issued(r) && r'.nextTok == r.nextTok
    requires forall c :: c in r'.turns ==> c in r.turns && r'.turns[c].token == r.turns[c].token
    ensures Issued(r')
  {
  }

  /** An interjection takes a busy conversation over: it cancels the running turn, removes it under the token the
      cancellation returned, and registers its own. That always succeeds, with a token larger than any before; the
      running turn is cancelled for it unless it was cancelled before, and nothing else changes. */
  lemma SupersedeTakesOver(r: Registry, conv: string, tenant: string, msgId: string, started: int, active: int)
    requires Issued(r) && conv in r.turns
    ensures var (r1, token, found) := Cancelled(r, conv, Superseded);
            var (r2, mine, ok) := Registered(Removed(r1, conv, token), conv, tenant, msgId, started, active);
            && found && ok
            && (forall c :: c in r.turns ==> r.turns[c].token < mine)
            && Holds(r2, conv, mine) && r2.turns - {conv} == r.turns - {conv}
            && r2.turns[conv] == Entry(mine, started, tenant, msgId, false, active)
            && token in r2.causes && (token !in r.causes ==> r2.causes[token] == Superseded)
            && (forall t :: t != token ==> (t in r2.causes <==> t in r.causes))
            && (forall t :: t in r.causes ==> r2.causes[t] == r.causes[t])
  {
  }

  class Turns {
    var nextTok: nat
    var turns: map<string, Entry>
    var causes: map<nat, Cause>

    function Value(): Registry
      reads this
    {
      Registry(nextTok, turns, causes)
    }

    constructor ()
      ensures Value() == EMPTY
    {
      nextTok, turns, causes := 0, map[], map[];
    }

    method Register(conv: string, tenant: string, msgId: string, started: int, active: int)
      returns (token: nat, ok: bool)
      modifies this
      ensures (Value(), token, ok) == Registered(old(Value()), conv, tenant, msgId, started, active)
      ensures ok <==> conv !in old(turns)
      ensures if ok then Holds(Value(), conv, token) else token == 0 && Value() == old(Value())
    {
      if conv in turns {
        return 0, false;
      }
      nextTok := nextTok + 1;
      token := nextTok;
      turns := turns[conv := Entry(token, started, tenant, msgId, false, active)];
      ok := true;
    }

    method Get(conv: string) returns (entry: Entry, running: bool)
      ensures running <==> conv in turns
      ensures running ==> entry == turns[conv]
    {
      running := conv in turns;
      entry := if running then turns[conv] else Entry(0, 0, "", "", false, 0);
    }

    method Len() returns (n: nat)
      ensures n == |turns|
    {
      n := |turns|;
    }

    method MarkWedged(conv: string, token: nat)
      modifies this
      ensures Value() == MarkedWedged(old(Value()), conv, token)
    {
      if conv in turns && turns[conv].token == token {
        var entry := turns[conv];
        turns := turns[conv := entry.(wedged := true)];
      }
    }

    method MarkActivity(conv: string, token: nat, now: int)
      modifies this
      ensures Value() == MarkedActive(old(Value()), conv, token, now)
    {
      if conv in turns && turns[conv].token == token {
        var entry := turns[conv];
        turns := turns[conv := entry.(lastActivity := now)];
      }
    }

    method CancelTurn(token: nat, cause: Cause)
      modifies this
      ensures Value() == old(Value()).(causes := CancelContext(old(causes), token, cause))
    {
      if token !in causes {
        causes := causes[token := cause];
      }
    }

    method Cancel(conv: string, cause: Cause) returns (token: nat, ok: bool)
      modifies this
      ensures (Value(), token, ok) == Cancelled(old(Value()), conv, cause)
      ensures ok <==> conv in old(turns)
      ensures if ok then Holds(old(Value()), conv, token) && turns == old(turns)
              else token == 0 && Value() == old(Value())
    {
      ok := conv in turns;
      token := 0;
      if ok {
        token := turns[conv].token;
        CancelTurn(token, cause);
      }
    }

    method Remove(conv: string, token: nat)
      modifies this
      ensures Value() == Removed(old(Value()), conv, token)
    {
      if conv in turns && turns[conv].token == token {
        turns := turns - {conv};
      }
    }

    method Scan(now: int, maxAge: int) returns (cands: seq<Candidate>)
      ensures IsScan(Value(), now, maxAge, cands)
    {
      cands := [];
      var left := turns.Keys;
      while left != {}
        invariant left <= turns.Keys
        invariant forall i :: 0 <= i < |cands| ==>
                    Holds(Value(), cands[i].conv, cands[i].token) && cands[i].conv !in left
                    && cands[i].tenant == turns[cands[i].conv].tenant
                    && Quiet(turns[cands[i].conv], now, maxAge)
        invariant forall i, j :: 0 <= i < j < |cands| ==> cands[i].conv != cands[j].conv
        invariant forall c :: c in turns && c !in left && Quiet(turns[c], now, maxAge) ==>
                    exists i :: 0 <= i < |cands| && cands[i].conv == c
        decreases left
      {
        var id :| id in left;
        left := left - {id};
        ghost var before := cands;
        if now - turns[id].lastActivity > maxAge {
          cands := cands + [Candidate(id, turns[id].tenant, turns[id].token)];
          assert cands[|before|].conv == id;
        }
        forall c | c in turns && c !in left && Quiet(turns[c], now, maxAge)
          ensures exists i :: 0 <= i < |cands| && cands[i].conv == c
        {
          if c != id {
            var i :| 0 <= i < |before| && before[i].conv == c;
            assert cands[i].conv == c;
          }
        }
      }
    }

    /** One candidate's turn under the re-taken lock. */
    method EvictIfCurrent(cd: Candidate) returns (evicted: bool)
      modifies this
      ensures Value() == Evicted(old(Value()), cd)
      ensures evicted <==> Holds(old(Value()), cd.conv, cd.token)
    {
      evicted := cd.conv in turns && turns[cd.conv].token == cd.token;
      if evicted {
        CancelTurn(cd.token, Expired);
        turns := turns - {cd.conv};
      }
    }

    method Sweep(now: int, maxAge: int, parked: string -> bool)
      returns (evicted: seq<Eviction>, ghost cands: seq<Candidate>)
      modifies this
      ensures IsScan(old(Value()), now, maxAge, cands)
      ensures (Value(), evicted) == Swept(old(Value()), cands, parked)
    {
      var todo := Scan(now, maxAge);
      cands := todo;
      evicted := [];
      hide Holds;
      assert [] + Swept(Value(), todo, parked).1 == Swept(Value(), todo, parked).1;
      while todo != []
        invariant var (r, rest) := Swept(Value(), todo, parked);
                  (r, evicted + rest) == Swept(old(Value()), cands, parked)
        decreases |todo|
      {
        var cd := todo[0];
        ghost var before := evicted;
        if !parked(cd.conv) {
          var was := EvictIfCurrent(cd);
          if was {
            evicted := evicted + [Eviction(cd.conv, cd.tenant)];
            ghost var after := Swept(Value(), todo[1..], parked).1;
            assert before + ([Eviction(cd.conv, cd.tenant)] + after) == evicted + after;
          }
        }
        todo := todo[1..];
      }
      assert evicted + [] == evicted;
    }
  }

  predicate Distinct(cands: seq<Candidate>) {
    forall i, j :: 0 <= i < j < |cands| ==> cands[i].conv != cands[j].conv
  }

  predicate AllHeld(r: Registry, cands: seq<Candidate>) {
    forall i :: 0 <= i < |cands| ==> Holds(r, cands[i].conv, cands[i].token)
  }

  function Unparked(cands: seq<Candidate>, parked: string -> bool): seq<Eviction> {
    if cands == [] then []
    else (if parked(cands[0].conv) then [] else [Eviction(cands[0].conv, cands[0].tenant)])
         + Unparked(cands[1..], parked)
  }

  function Reaped(cands: seq<Candidate>, parked: string -> bool): (convs: set<string>)
    ensures forall c :: c in convs <==> exists i :: 0 <= i < |cands| && cands[i].conv == c && !parked(c)
  {
    if cands == [] then {}
    else
      var rest := Reaped(cands[1..], parked);
      assert forall i :: 0 < i < |cands| ==> cands[i] == cands[1..][i - 1];
      rest + (if parked(cands[0].conv) then {} else {cands[0].conv})
  }

  /** The contexts after every turn of `convs` has been cancelled as expired. */
  function ExpireAll(causes: map<nat, Cause>, turns: map<string, Entry>, convs: set<string>): map<nat, Cause>
    requires convs <= turns.Keys
  {
    map t | t in causes.Keys + (set c | c in convs :: turns[c].token) ::
      if t in causes then causes[t] else Expired
  }

  lemma EvictedThenReaped(r: Registry, cd: Candidate, convs: set<string>)
    requires Holds(r, cd.conv, cd.token) && convs <= r.turns.Keys - {cd.conv}
    ensures Evicted(r, cd).turns - convs == r.turns - (convs + {cd.conv})
    ensures ExpireAll(Evicted(r, cd).causes, Evicted(r, cd).turns, convs)
            == ExpireAll(r.causes, r.turns, convs + {cd.conv})
  {
    var r1 := Evicted(r, cd);
    assert (set c | c in convs + {cd.conv} :: r.turns[c].token) ==
           (set c | c in convs :: r1.turns[c].token) + {cd.token};
  }

  lemma {:induction false} SweptFacts(r: Registry, cands: seq<Candidate>, parked: string -> bool)
    requires Distinct(cands) && AllHeld(r, cands)
    ensures Reaped(cands, parked) <= r.turns.Keys
    ensures Swept(r, cands, parked) ==
              (Registry(r.nextTok, r.turns - Reaped(cands, parked),
                        ExpireAll(r.causes, r.turns, Reaped(cands, parked))),
               Unparked(cands, parked))
    decreases |cands|
  {
    if cands == [] {
      assert ExpireAll(r.causes, r.turns, {}) == r.causes;
      assert r.turns - {} == r.turns;
    } else {
      var rest := cands[1..];
      var r1 := if parked(cands[0].conv) then r else Evicted(r, cands[0]);
      assert forall i :: 0 <= i < |rest| ==> rest[i] == cands[i + 1];
      SweptFacts(r1, rest, parked);
      var x, y := Reaped(rest, parked), Reaped(cands, parked);
      if parked(cands[0].conv) {
        assert x == y && [] + Unparked(rest, parked) == Unparked(rest, parked);
      } else {
        assert y == x + {cands[0].conv};
        EvictedThenReaped(r, cands[0], x);
      }
    }
  }

  /** A sweep removes exactly the turns that are quiet and not parked, expires each of those and no other,
      and leaves the rest of the registry alone. */
  lemma SweepIsExact(r: Registry, now: int, maxAge: int, cands: seq<Candidate>, parked: string -> bool)
    requires IsScan(r, now, maxAge, cands)
    ensures var (r', evicted) := Swept(r, cands, parked);
            && (forall c :: c in r'.turns <==>
                  c in r.turns && !(Quiet(r.turns[c], now, maxAge) && !parked(c)))
            && (forall c :: c in r'.turns ==> r'.turns[c] == r.turns[c])
            && (forall c :: c in r.turns && c !in r'.turns ==> r.turns[c].token in r'.causes)
            && (forall t :: t in r'.causes && t !in r.causes ==>
                  r'.causes[t] == Expired && exists c :: c in r.turns && c !in r'.turns && r.turns[c].token == t)
            && evicted == Unparked(cands, parked)
  {
    SweptFacts(r, cands, parked);
  }
}
