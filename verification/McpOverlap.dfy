/**
 Overlapping calls on the MCP clients of conversations (internal/askorchicon/ask_mcp.go): what a call reads and stores
 happens under the lock, resolving, starting and closing between. A world is the state of module McpClients and, per
 goroutine, how far its call has come.
 */
module McpOverlap {
  import opened Common
  import opened McpClients

  datatype Pc =
    | Idle
    | UseStart(conv: string, projectID: string)
    | UseTake(conv: string, projectID: string)
    | UseClosing(conv: string, projectID: string, stale: Option<nat>)
    | Store(conv: string, made: Entry)
    | RefreshStart(conv: string, projectID: string, r: Resolution, stale: Option<nat>)
    | RefreshClose(conv: string, made: Entry, stale: Option<nat>)
    | Swap(conv: string, made: Entry, stale: Option<nat>)
    | Closing(conv: string, stale: Option<nat>)
    | ClosingAll(left: set<nat>)

  datatype World = World(s: State, actors: map<nat, Pc>)

  const INIT := World(EMPTY, map[])

  datatype Event =
    | BeginUse(a: nat, conv: string, projectID: string)
    | BeginRefresh(a: nat, conv: string, projectID: string, r: Resolution)
    | BeginClose(a: nat, conv: string)
    | BeginCloseAll(a: nat)
    | Take(a: nat)
    | Start(a: nat, r: Resolution)
    | CloseOld(a: nat)
    | StoreMade(a: nat)
    | CloseOne(a: nat, c: nat)
    | FinishCloseAll(a: nat)

  function PcOf(w: World, a: nat): Pc {
    if a in w.actors then w.actors[a] else Idle
  }

  predicate Enabled(w: World, e: Event) {
    var pc := PcOf(w, e.a);
    match e
    case BeginUse(_, conv, _) => pc.Idle? && conv != ""
    case BeginRefresh(_, conv, _, _) => pc.Idle? && conv != ""
    case BeginClose(_, conv) => pc.Idle? && conv != ""
    case BeginCloseAll(_) => pc.Idle?
    case Take(_) => pc.UseTake?
    case Start(_, _) => pc.UseStart? || pc.RefreshStart?
    case CloseOld(_) => pc.UseClosing? || pc.RefreshClose? || pc.Closing?
    case StoreMade(_) => pc.Store? || pc.Swap?
    case CloseOne(_, c) => pc.ClosingAll? && c in pc.left
    case FinishCloseAll(_) => pc.ClosingAll? && pc.left == {}
  }

  function NextState(w: World, e: Event): State
    requires Enabled(w, e)
  {
    var (s, pc) := (w.s, PcOf(w, e.a));
    match e
    case BeginClose(_, conv) => s.(entries := s.entries - {conv})
    case BeginCloseAll(_) => s.(entries := map[])
    case Take(_) => s.(entries := s.entries - {pc.conv})
    case Start(_, r) => Started(s, pc.projectID, if pc.UseStart? then r else pc.r).0
    case CloseOld(_) => Closed(s, pc.stale)
    case StoreMade(_) => s.(entries := s.entries[pc.conv := pc.made])
    case CloseOne(_, c) => Closed(s, Some(c))
    case _ => s
  }

  function NextPc(w: World, e: Event): Pc
    requires Enabled(w, e)
  {
    var (s, pc) := (w.s, PcOf(w, e.a));
    match e
    case BeginUse(_, conv, projectID) =>
      if conv !in s.entries then UseStart(conv, projectID)
      else if s.entries[conv].projectID == projectID then Idle
      else UseTake(conv, projectID)
    case BeginRefresh(_, conv, projectID, r) =>
      if r.Unresolvable? || (conv in s.entries && s.entries[conv].fingerprint == Fingerprint(projectID, r.servers))
      then Idle
      else RefreshStart(conv, projectID, r, ClientOf(s, conv))
    case BeginClose(_, conv) => Closing(conv, ClientOf(s, conv))
    case BeginCloseAll(_) => ClosingAll(Clients(s.entries))
    case Take(_) => UseClosing(pc.conv, pc.projectID, ClientOf(s, pc.conv))
    case Start(_, r) =>
      (match Started(s, pc.projectID, if pc.UseStart? then r else pc.r).1
       case None => Idle
       case Some(made) => if pc.UseStart? then Store(pc.conv, made) else RefreshClose(pc.conv, made, pc.stale))
    case CloseOld(_) =>
      (match pc
       case UseClosing(conv, projectID, _) => UseStart(conv, projectID)
       case RefreshClose(conv, made, stale) => Swap(conv, made, stale)
       case _ => Idle)
    case CloseOne(_, c) => ClosingAll(pc.left - {c})
    case _ => Idle
  }

  function Step(w: World, e: Event): World
    requires Enabled(w, e)
  {
    World(NextState(w, e), w.actors[e.a := NextPc(w, e)])
  }

  ghost predicate IsRun(ws: seq<World>, es: seq<Event>) {
    && |ws| == |es| + 1 && ws[0] == INIT
    && forall i :: 0 <= i < |es| ==> Enabled(ws[i], es[i]) && ws[i + 1] == Step(ws[i], es[i])
  }

  // ---------------------------------------------------------------- calls that keep apart

  datatype Kind = Using | Refreshing | Retiring | ShuttingDown

  function KindOf(pc: Pc): Kind
    requires !pc.Idle?
  {
    if pc.ClosingAll? then ShuttingDown
    else if pc.Closing? then Retiring
    else if pc.RefreshStart? || pc.RefreshClose? || pc.Swap? then Refreshing
    else Using
  }

  /** Two calls in progress work on the same conversation; a shutdown works on all of them. */
  predicate Meet(p: Pc, q: Pc) {
    !p.Idle? && !q.Idle? && (p.ClosingAll? || q.ClosingAll? || p.conv == q.conv)
  }

  /** A refresh overlaps with nothing, a use with no other use; closing a conversation, or all, overlaps with
      the rest. */
  predicate KindsClash(k: Kind, l: Kind) {
    k.Refreshing? || l.Refreshing? || (k.Using? && l.Using?)
  }

  predicate Clash(p: Pc, q: Pc) {
    Meet(p, q) && KindsClash(KindOf(p), KindOf(q))
  }

  ghost predicate Apart(w: World) {
    forall a, b :: a != b ==> !Clash(PcOf(w, a), PcOf(w, b))
  }

  /** Who is answerable for a client: the entry of a conversation, or the call that has it in hand. */
  datatype Owner = ByEntry(conv: string) | ByActor(a: nat)

  function Just(c: Option<nat>): set<nat> {
    if c.Some? then {c.value} else {}
  }

  function Hand(pc: Pc): set<nat> {
    match pc
    case UseClosing(_, _, stale) => Just(stale)
    case Closing(_, stale) => Just(stale)
    case Store(_, made) => Just(made.client)
    case RefreshClose(_, made, _) => Just(made.client)
    case Swap(_, made, _) => Just(made.client)
    case ClosingAll(left) => left
    case _ => {}
  }

  /** Its old client has been closed, and the new one is not stored yet. */
  ghost predicate Swapping(w: World, conv: string) {
    exists a :: PcOf(w, a).Swap? && PcOf(w, a).conv == conv
  }

  ghost predicate Owns(w: World, o: Owner, c: nat) {
    match o
    case ByEntry(conv) => conv in w.s.entries && w.s.entries[conv].client == Some(c) && !Swapping(w, conv)
    case ByActor(a) => c in Hand(PcOf(w, a))
  }

  ghost predicate Owned(w: World, c: nat) {
    exists o :: Owns(w, o, c)
  }

  /** What a call knows of the entries, while no other works on its conversation. */
  predicate PcOk(s: State, pc: Pc) {
    match pc
    case UseStart(conv, _) => conv !in s.entries
    case UseClosing(conv, _, _) => conv !in s.entries
    case Store(conv, _) => conv !in s.entries
    case RefreshStart(conv, _, _, stale) => stale == ClientOf(s, conv)
    case RefreshClose(conv, _, stale) => stale == ClientOf(s, conv)
    case Swap(conv, _, stale) => stale == ClientOf(s, conv)
    case _ => true
  }

  /** A client that was started runs, and has one owner, or was closed, once. */
  ghost predicate ClientOk(w: World, c: nat) {
    && (c < w.s.next <==> c in w.s.open || c in w.s.closed)
    && w.s.closed[c] <= 1
    && (c in w.s.open <==> Owned(w, c))
    && (c in w.s.open ==> c !in w.s.closed)
  }

  ghost predicate OneOwner(w: World, c: nat) {
    forall o, o' :: Owns(w, o, c) && Owns(w, o', c) ==> o == o'
  }

  ghost predicate Inv(w: World) {
    && (forall a :: PcOk(w.s, PcOf(w, a)))
    && (forall c :: ClientOk(w, c))
    && (forall c :: OneOwner(w, c))
  }

  // ---------------------------------------------------------------- what a step does to the owners

  /** The owner after the step of what this one owned before. */
  function Moved(w: World, e: Event, o: Owner): Owner
    requires Enabled(w, e)
  {
    match e
    case Take(a) => if o == ByEntry(PcOf(w, a).conv) then ByActor(a) else o
    case BeginClose(a, conv) => if o == ByEntry(conv) then ByActor(a) else o
    case BeginCloseAll(a) => if o.ByEntry? then ByActor(a) else o
    case StoreMade(a) => if o == ByActor(a) then ByEntry(PcOf(w, a).conv) else o
    case _ => o
  }

  /** The client that the step starts, the one it closes, and who owned that. */
  function Starts(w: World, e: Event): Option<nat>
    requires Enabled(w, e)
  {
    if NextState(w, e).next > w.s.next then Some(w.s.next) else None
  }

  function Closes(w: World, e: Event): Option<nat>
    requires Enabled(w, e)
  {
    match e
    case CloseOld(a) => PcOf(w, a).stale
    case CloseOne(_, c) => Some(c)
    case _ => None
  }

  function Closer(w: World, e: Event): Owner
    requires Enabled(w, e)
  {
    if e.CloseOld? && PcOf(w, e.a).RefreshClose? then ByEntry(PcOf(w, e.a).conv) else ByActor(e.a)
  }

  lemma StateStep(w: World, e: Event)
    requires Enabled(w, e)
    ensures var s' := NextState(w, e);
            && s'.open == w.s.open + Just(Starts(w, e)) - Just(Closes(w, e))
            && s'.closed == w.s.closed + multiset(Just(Closes(w, e)))
            && s'.next == w.s.next + |Just(Starts(w, e))|
    ensures Starts(w, e).Some? ==> Closes(w, e).None?
  {
    hide Fingerprint;
    if e.Start? {
      StartedState(w.s, PcOf(w, e.a).projectID, if PcOf(w, e.a).UseStart? then e.r else PcOf(w, e.a).r);
    } else if Closes(w, e).Some? {
      JustOne(Closes(w, e).value);
    }
  }

  lemma StartedState(s: State, projectID: string, r: Resolution)
    ensures var s' := Started(s, projectID, r).0;
            && s'.closed == s.closed && s'.entries == s.entries
            && if s'.next > s.next then s'.next == s.next + 1 && s'.open == s.open + {s.next} else s' == s
  {
    hide Fingerprint;
  }

  lemma JustOne(c: nat)
    ensures multiset(Just(Some(c))) == multiset{c}
  {
  }

  /** Only the goroutine that takes the step, or is about to, swaps this conversation's client. */
  lemma SwapsAlone(w: World, a: nat, conv: string)
    requires Apart(w) && !PcOf(w, a).Idle? && (PcOf(w, a).ClosingAll? || PcOf(w, a).conv == conv)
    ensures Swapping(w, conv) <==> PcOf(w, a).Swap?
  {
    if Swapping(w, conv) {
      var b :| PcOf(w, b).Swap? && PcOf(w, b).conv == conv;
      assert a != b ==> !Clash(PcOf(w, a), PcOf(w, b));
    }
  }

  lemma SwappingStep(w: World, e: Event, conv: string)
    requires Enabled(w, e)
    ensures var w' := Step(w, e);
            Swapping(w', conv) <==>
              (NextPc(w, e).Swap? && NextPc(w, e).conv == conv)
              || exists b :: b != e.a && PcOf(w, b).Swap? && PcOf(w, b).conv == conv
  {
    hide NextPc, NextState, Enabled;
    var w' := Step(w, e);
    assert PcOf(w', e.a) == NextPc(w, e) && forall b :: b != e.a ==> PcOf(w', b) == PcOf(w, b);
  }

  /** Whoever owns a client after the step has just started it, or has it from its owner before. */
  lemma OwnsBefore(w: World, e: Event, o: Owner, c: nat) returns (o0: Owner)
    requires Apart(w) && Enabled(w, e) && Apart(Step(w, e)) && PcOk(w.s, PcOf(w, e.a)) && Owns(Step(w, e), o, c)
    ensures (Starts(w, e) == Some(c) && o == ByActor(e.a))
            || (Owns(w, o0, c) && Moved(w, e, o0) == o && (Closes(w, e) == Some(c) ==> o0 != Closer(w, e)))
  {
    if o.ByEntry? {
      o0 := EntryBefore(w, e, o.conv, c);
    } else if o.a != e.a {
      o0 := o;
      OtherHand(w, e, o.a, c);
    } else {
      o0 := HandBefore(w, e, c);
    }
  }

  lemma OtherHand(w: World, e: Event, b: nat, c: nat)
    requires Enabled(w, e) && b != e.a
    ensures Owns(Step(w, e), ByActor(b), c) <==> Owns(w, ByActor(b), c)
    ensures Moved(w, e, ByActor(b)) == ByActor(b) && Closer(w, e) != ByActor(b)
  {
    hide NextPc, NextState;
  }

  lemma HandBefore(w: World, e: Event, c: nat) returns (o0: Owner)
    requires Apart(w) && Enabled(w, e) && Apart(Step(w, e)) && PcOk(w.s, PcOf(w, e.a)) && c in Hand(NextPc(w, e))
    ensures Starts(w, e) == Some(c)
            || (Owns(w, o0, c) && Moved(w, e, o0) == ByActor(e.a) && (Closes(w, e) == Some(c) ==> o0 != Closer(w, e)))
  {
    hide Fingerprint, Apart;
    o0 := ByActor(e.a);
    var pc := PcOf(w, e.a);
    if e.Take? {
      o0 := ByEntry(pc.conv);
      SwapsAlone(w, e.a, pc.conv);
    } else if e.BeginClose? {
      o0 := ByEntry(e.conv);
      NoSwapBefore(w, e, e.conv);
    } else if e.BeginCloseAll? {
      var conv :| conv in w.s.entries && w.s.entries[conv].client.Some? && w.s.entries[conv].client.value == c;
      o0 := ByEntry(conv);
      NoSwapBefore(w, e, conv);
    }
  }

  /** A call that starts on a conversation finds nobody swapping its client. */
  lemma NoSwapBefore(w: World, e: Event, conv: string)
    requires Enabled(w, e) && Apart(Step(w, e)) && ((e.BeginClose? && e.conv == conv) || e.BeginCloseAll?)
    ensures !Swapping(w, conv)
  {
    hide Apart;
    SwapsAlone(Step(w, e), e.a, conv);
    SwappingStep(w, e, conv);
  }

  lemma EntryBefore(w: World, e: Event, conv: string, c: nat) returns (o0: Owner)
    requires Apart(w) && Enabled(w, e) && PcOk(w.s, PcOf(w, e.a)) && Owns(Step(w, e), ByEntry(conv), c)
    ensures Owns(w, o0, c) && Moved(w, e, o0) == ByEntry(conv) && (Closes(w, e) == Some(c) ==> o0 != Closer(w, e))
  {
    hide Fingerprint, Apart;
    SwappingStep(w, e, conv);
    var pc := PcOf(w, e.a);
    if e.StoreMade? && pc.conv == conv {
      o0 := ByActor(e.a);
    } else {
      o0 := ByEntry(conv);
    }
  }

  /** And what somebody owns before the step has an owner after it, unless the step closes it. */
  lemma OwnsAfter(w: World, e: Event, o: Owner, c: nat)
    requires Apart(w) && Enabled(w, e) && Apart(Step(w, e)) && PcOk(w.s, PcOf(w, e.a)) && Owns(w, o, c)
    ensures Closes(w, e) == Some(c) || Owns(Step(w, e), Moved(w, e, o), c)
  {
    hide Fingerprint, Apart;
    var pc := PcOf(w, e.a);
    if o.ByActor? {
      if o.a != e.a {
        OtherHand(w, e, o.a, c);
      } else if e.StoreMade? {
        SwapEnds(w, e);
      }
    } else {
      SwappingStep(w, e, o.conv);
      EntryAfter(w, e, o.conv, c);
    }
  }

  lemma SwapEnds(w: World, e: Event)
    requires Apart(w) && Enabled(w, e) && e.StoreMade?
    ensures !Swapping(Step(w, e), PcOf(w, e.a).conv)
  {
    var conv := PcOf(w, e.a).conv;
    SwappingStep(w, e, conv);
    assert forall b :: b != e.a ==> !Clash(PcOf(w, e.a), PcOf(w, b));
  }

  lemma EntryAfter(w: World, e: Event, conv: string, c: nat)
    requires Enabled(w, e) && PcOk(w.s, PcOf(w, e.a)) && Owns(w, ByEntry(conv), c)
    requires Swapping(Step(w, e), conv) <==>
               (NextPc(w, e).Swap? && NextPc(w, e).conv == conv)
               || exists b :: b != e.a && PcOf(w, b).Swap? && PcOf(w, b).conv == conv
    ensures Closes(w, e) == Some(c) || Owns(Step(w, e), Moved(w, e, ByEntry(conv)), c)
  {
    hide Fingerprint;
    assert !exists b :: b != e.a && PcOf(w, b).Swap? && PcOf(w, b).conv == conv;
  }

  lemma CloserOwns(w: World, e: Event)
    requires Apart(w) && Enabled(w, e) && PcOk(w.s, PcOf(w, e.a)) && Closes(w, e).Some?
    ensures Owns(w, Closer(w, e), Closes(w, e).value)
  {
    hide Apart;
    if e.CloseOld? && PcOf(w, e.a).RefreshClose? {
      SwapsAlone(w, e.a, PcOf(w, e.a).conv);
    }
  }

  lemma StarterOwns(w: World, e: Event)
    requires Enabled(w, e) && Starts(w, e).Some?
    ensures Owns(Step(w, e), ByActor(e.a), Starts(w, e).value)
  {
    hide Fingerprint;
  }

  // ---------------------------------------------------------------- conservation under overlap

  lemma OneOwnerStep(w: World, e: Event, c: nat)
    requires Inv(w) && Apart(w) && Enabled(w, e) && Apart(Step(w, e))
    ensures OneOwner(Step(w, e), c)
  {
    hide Step, Owns, Moved, Starts, Closes, Closer, Apart, PcOk, NextState, NextPc, Enabled, ClientOk;
    var w' := Step(w, e);
    assert OneOwner(w, c) && PcOk(w.s, PcOf(w, e.a));
    forall o, o' | Owns(w', o, c) && Owns(w', o', c) ensures o == o' {
      var p := OwnsBefore(w, e, o, c);
      var p' := OwnsBefore(w, e, o', c);
      if Starts(w, e) == Some(c) {
        NotOwnedYet(w, e, c);
        assert !Owns(w, p, c) && !Owns(w, p', c);
      }
    }
  }

  lemma NotOwnedYet(w: World, e: Event, c: nat)
    requires Enabled(w, e) && ClientOk(w, w.s.next) && Starts(w, e) == Some(c)
    ensures c == w.s.next && !Owned(w, c) && c !in w.s.open && c !in w.s.closed
  {
    hide NextState, Owned;
  }

  lemma OwnedStep(w: World, e: Event, c: nat)
    requires Inv(w) && Apart(w) && Enabled(w, e) && Apart(Step(w, e))
    ensures Owned(Step(w, e), c) <==> (Owned(w, c) && Closes(w, e) != Some(c)) || Starts(w, e) == Some(c)
    ensures Closes(w, e) == Some(c) ==> Owned(w, c)
  {
    hide Step, Owns, Moved, Starts, Closes, Closer, Apart, PcOk, NextState, NextPc, Enabled, ClientOk;
    var w' := Step(w, e);
    assert OneOwner(w, c) && PcOk(w.s, PcOf(w, e.a));
    if Closes(w, e) == Some(c) {
      CloserOwns(w, e);
    }
    if Starts(w, e) == Some(c) {
      StarterOwns(w, e);
    }
    if Owned(w', c) {
      var o :| Owns(w', o, c);
      var p := OwnsBefore(w, e, o, c);
    }
    if o :| Owns(w, o, c) {
      OwnsAfter(w, e, o, c);
    }
  }

  /** What the step does to one client. */
  lemma CountStep(w: World, e: Event, c: nat)
    requires Enabled(w, e)
    ensures var s' := Step(w, e).s;
            && (c in s'.open <==> (c in w.s.open || Starts(w, e) == Some(c)) && Closes(w, e) != Some(c))
            && s'.closed[c] == w.s.closed[c] + (if Closes(w, e) == Some(c) then 1 else 0)
            && s'.next == w.s.next + (if Starts(w, e).Some? then 1 else 0)
    ensures Starts(w, e).Some? ==> Starts(w, e).value == w.s.next
  {
    StateStep(w, e);
    hide Closes, NextState, NextPc, Enabled;
    StepState(w, e);
  }

  lemma StepState(w: World, e: Event)
    requires Enabled(w, e)
    ensures Step(w, e).s == NextState(w, e)
  {
    hide NextState;
  }

  lemma ClientOkStep(w: World, e: Event, c: nat)
    requires Inv(w) && Apart(w) && Enabled(w, e) && Apart(Step(w, e))
    ensures ClientOk(Step(w, e), c)
  {
    assert ClientOk(w, c) && ClientOk(w, w.s.next);
    hide Inv, Owned, Apart, PcOk, NextPc, NextState, Enabled, OneOwner, Closes, Starts, Step;
    OwnedStep(w, e, c);
    CountStep(w, e, c);
    if Starts(w, e) == Some(c) {
      NotOwnedYet(w, e, c);
    }
  }

  lemma OwnPcOk(w: World, e: Event)
    requires PcOk(w.s, PcOf(w, e.a)) && Enabled(w, e)
    ensures PcOk(NextState(w, e), NextPc(w, e))
  {
    hide Fingerprint;
  }

  lemma OtherPcOk(w: World, e: Event, b: nat)
    requires Enabled(w, e) && b != e.a && PcOk(w.s, PcOf(w, b))
    requires !Clash(PcOf(w, e.a), PcOf(w, b)) && !Clash(NextPc(w, e), PcOf(w, b))
    ensures PcOk(NextState(w, e), PcOf(w, b))
  {
    hide Fingerprint;
  }

  lemma InvStep(w: World, e: Event)
    requires Inv(w) && Apart(w) && Enabled(w, e) && Apart(Step(w, e))
    ensures Inv(Step(w, e))
  {
    hide NextState, NextPc, Enabled, PcOk, ClientOk, OneOwner, Clash;
    var w' := Step(w, e);
    forall a ensures PcOk(w'.s, PcOf(w', a)) {
      if a == e.a {
        OwnPcOk(w, e);
      } else {
        assert PcOf(w', a) == PcOf(w, a) && PcOf(w', e.a) == NextPc(w, e);
        OtherPcOk(w, e, a);
      }
    }
    hide Step, Inv, Apart;
    forall c: nat ensures ClientOk(w', c) {
      ClientOkStep(w, e, c);
    }
    forall c: nat ensures OneOwner(w', c) {
      OneOwnerStep(w, e, c);
    }
    InvIntro(w');
  }

  lemma InvIntro(w: World)
    requires (forall a :: PcOk(w.s, PcOf(w, a))) && (forall c :: ClientOk(w, c)) && (forall c :: OneOwner(w, c))
    ensures Inv(w)
  {
  }

  lemma InitInv()
    ensures Inv(INIT)
  {
  }

  lemma {:induction false} RunInv(ws: seq<World>, es: seq<Event>, i: nat)
    requires IsRun(ws, es) && i < |ws| && forall k :: 0 <= k < |ws| ==> Apart(ws[k])
    ensures Inv(ws[i])
  {
    hide Step, Enabled, Apart, Inv;
    if i == 0 {
      InitInv();
    } else {
      RunInv(ws, es, i - 1);
      assert ws[i] == Step(ws[i - 1], es[i - 1]) && Apart(ws[i - 1]) && Apart(ws[i]);
      InvStep(ws[i - 1], es[i - 1]);
    }
  }

  /** However calls overlap, lock section by lock section, if no two of kinds that clash work on one conversation at a
      time: at every moment each client that was started is running and has exactly one owner, the entry of a
      conversation or the call that has it in hand, or it has been closed, once. When no call is in progress the
      running clients are those of the entries. */
  lemma ConservedWhileApart(ws: seq<World>, es: seq<Event>, i: nat, c: nat)
    requires IsRun(ws, es) && i < |ws| && c < ws[i].s.next && forall k :: 0 <= k < |ws| ==> Apart(ws[k])
    ensures var w := ws[i];
            && (c in w.s.open <==> exists o :: Owns(w, o, c))
            && (forall o, o' :: Owns(w, o, c) && Owns(w, o', c) ==> o == o')
            && w.s.closed[c] == (if c in w.s.open then 0 else 1)
            && ((forall a :: PcOf(w, a).Idle?) ==>
                  (c in w.s.open <==> exists conv :: conv in w.s.entries && w.s.entries[conv].client == Some(c)))
  {
    hide Step, Enabled, Apart;
    RunInv(ws, es, i);
    var w := ws[i];
    assert ClientOk(w, c) && OneOwner(w, c);
    hide Inv, IsRun;
    if forall a :: PcOf(w, a).Idle? {
      if o :| Owns(w, o, c) {
        assert o.ByEntry?;
      }
      if conv :| conv in w.s.entries && w.s.entries[conv].client == Some(c) {
        assert Owns(w, ByEntry(conv), c);
      }
    }
  }

  // ---------------------------------------------------------------- stores that lose a client

  /** An entry holds the client, or a call has it in hand. */
  predicate HeldBy(w: World, o: Owner, c: nat) {
    match o
    case ByEntry(conv) => conv in w.s.entries && w.s.entries[conv].client == Some(c)
    case ByActor(a) => c in Hand(PcOf(w, a))
  }

  ghost predicate OneHolder(w: World, c: nat) {
    forall o, o' :: HeldBy(w, o, c) && HeldBy(w, o', c) ==> o == o'
  }

  ghost predicate AllOld(w: World, c: nat) {
    forall o :: HeldBy(w, o, c) ==> c < w.s.next
  }

  lemma HeldBefore(w: World, e: Event, o: Owner, c: nat) returns (o0: Owner)
    requires Enabled(w, e) && HeldBy(Step(w, e), o, c)
    ensures (Starts(w, e) == Some(c) && o == ByActor(e.a)) || (HeldBy(w, o0, c) && Moved(w, e, o0) == o)
  {
    hide Fingerprint;
    var pc := PcOf(w, e.a);
    o0 := o;
    if o == ByActor(e.a) {
      if e.Take? {
        o0 := ByEntry(pc.conv);
      } else if e.BeginClose? {
        o0 := ByEntry(e.conv);
      } else if e.BeginCloseAll? {
        var conv :| conv in w.s.entries && w.s.entries[conv].client == Some(c);
        o0 := ByEntry(conv);
      }
    } else if e.StoreMade? && o == ByEntry(pc.conv) {
      o0 := ByActor(e.a);
    }
  }

  /** Whether calls overlap or not, no client is held twice. */
  lemma HolderStep(w: World, e: Event, c: nat)
    requires Enabled(w, e) && OneHolder(w, c) && AllOld(w, c)
    ensures OneHolder(Step(w, e), c) && AllOld(Step(w, e), c)
  {
    CountStep(w, e, c);
    hide Step, HeldBy, Moved, Starts, Closes, Enabled;
    var w' := Step(w, e);
    forall o, o' | HeldBy(w', o, c) && HeldBy(w', o', c) ensures o == o' {
      var p := HeldBefore(w, e, o, c);
      var p' := HeldBefore(w, e, o', c);
      assert Starts(w, e) == Some(c) ==> !HeldBy(w, p, c) && !HeldBy(w, p', c);
    }
    forall o | HeldBy(w', o, c) ensures c < w'.s.next {
      var p := HeldBefore(w, e, o, c);
    }
  }

  lemma {:induction false} RunHolders(ws: seq<World>, es: seq<Event>, i: nat, c: nat)
    requires IsRun(ws, es) && i < |ws|
    ensures OneHolder(ws[i], c) && AllOld(ws[i], c)
  {
    hide Step, Enabled, OneHolder, AllOld;
    if i == 0 {
      InitHolders(c);
    } else {
      RunHolders(ws, es, i - 1, c);
      HolderStep(ws[i - 1], es[i - 1], c);
    }
  }

  lemma InitHolders(c: nat)
    ensures OneHolder(INIT, c) && AllOld(INIT, c)
  {
  }

  /** A refresh has the client still to close. */
  predicate StillCloses(w: World, a: nat, c: nat) {
    PcOf(w, a).RefreshClose? && PcOf(w, a).stale == Some(c)
  }

  ghost predicate Reachable(w: World, c: nat) {
    (exists o :: HeldBy(w, o, c)) || exists a :: StillCloses(w, a, c)
  }

  lemma HeldAfter(w: World, e: Event, o: Owner, c: nat)
    requires Enabled(w, e) && HeldBy(w, o, c) && Closes(w, e) != Some(c)
    ensures HeldBy(Step(w, e), Moved(w, e, o), c)
            || (e.StoreMade? && o == ByEntry(PcOf(w, e.a).conv))
  {
    hide Fingerprint;
  }

  lemma StillClosesStep(w: World, e: Event, a: nat, c: nat)
    requires Enabled(w, e) && Closes(w, e) != Some(c)
    ensures StillCloses(w, a, c) ==> StillCloses(Step(w, e), a, c)
    ensures e.StoreMade? && StillCloses(Step(w, e), a, c) ==> StillCloses(w, a, c)
  {
    hide Fingerprint;
  }

  /** The step stores over an entry that holds this client. */
  predicate StoresOver(w: World, e: Event, c: nat)
    requires Enabled(w, e)
  {
    e.StoreMade? && HeldBy(w, ByEntry(PcOf(w, e.a).conv), c)
  }

  /** In every run, however calls overlap: a step loses a client, so that it goes on running and nobody is left to
      close it, exactly if it stores over the entry that holds it and no refresh has it still to close. */
  lemma StoreLosesIff(ws: seq<World>, es: seq<Event>, i: nat, c: nat)
    requires IsRun(ws, es) && i < |es| && Reachable(ws[i], c) && c in ws[i + 1].s.open
    ensures !Reachable(ws[i + 1], c) <==> StoresOver(ws[i], es[i], c) && forall a :: !StillCloses(ws[i], a, c)
  {
    var (w, e) := (ws[i], es[i]);
    assert Enabled(w, e) && ws[i + 1] == Step(w, e);
    RunHolders(ws, es, i, c);
    CountStep(w, e, c);
    hide IsRun, Step, HeldBy, StillCloses, Enabled, Closes, Starts;
    var w' := Step(w, e);
    if a :| StillCloses(w, a, c) {
      StillClosesStep(w, e, a, c);
      assert StillCloses(w', a, c);
    } else {
      var o :| HeldBy(w, o, c);
      HeldAfter(w, e, o, c);
      StoredOver(w, e, o, c);
      forall a ensures e.StoreMade? ==> !StillCloses(w', a, c) {
        StillClosesStep(w, e, a, c);
      }
    }
  }

  lemma StoredOver(w: World, e: Event, o: Owner, c: nat)
    requires Enabled(w, e) && HeldBy(w, o, c) && OneHolder(w, c) && Closes(w, e) != Some(c) && AllOld(w, c)
    ensures StoresOver(w, e, c) <==> e.StoreMade? && o == ByEntry(PcOf(w, e.a).conv)
    ensures StoresOver(w, e, c) ==> forall p :: !HeldBy(Step(w, e), p, c)
  {
    if StoresOver(w, e, c) {
      NotStoredAgain(w, e, c);
      StoreStartsNothing(w, e);
      hide Step, HeldBy, Enabled, Starts, Closes;
      forall p ensures !HeldBy(Step(w, e), p, c) {
        if HeldBy(Step(w, e), p, c) {
          var q := HeldBefore(w, e, p, c);
        }
      }
    }
  }

  lemma NotStoredAgain(w: World, e: Event, c: nat)
    requires Enabled(w, e) && StoresOver(w, e, c) && OneHolder(w, c)
    ensures !HeldBy(Step(w, e), ByEntry(PcOf(w, e.a).conv), c)
  {
    assert HeldBy(Step(w, e), ByEntry(PcOf(w, e.a).conv), c) ==> HeldBy(w, ByActor(e.a), c);
  }

  lemma StoreStartsNothing(w: World, e: Event)
    requires Enabled(w, e) && e.StoreMade?
    ensures Starts(w, e).None?
  {
  }

  // ---------------------------------------------------------------- which kinds of calls may overlap

  /** A client was closed twice, or runs with no call in progress and no entry that holds it. */
  ghost predicate Broken(w: World) {
    exists c :: w.s.closed[c] >= 2 || Lost(w, c)
  }

  ghost predicate Lost(w: World, c: nat) {
    c in w.s.open && c < w.s.next && (forall a :: PcOf(w, a).Idle?)
    && forall conv :: conv in w.s.entries ==> w.s.entries[conv].client != Some(c)
  }

  /** Wherever two calls in progress work on one conversation, they are of these kinds. */
  ghost predicate OnlyMeet(w: World, k: Kind, l: Kind) {
    forall a, b :: a != b && Meet(PcOf(w, a), PcOf(w, b)) ==> SameKinds(KindOf(PcOf(w, a)), KindOf(PcOf(w, b)), k, l)
  }

  predicate SameKinds(p: Kind, q: Kind, k: Kind, l: Kind) {
    (p == k && q == l) || (p == l && q == k)
  }

  ghost predicate RunOf(ws: seq<World>, es: seq<Event>, k: Kind, l: Kind) {
    IsRun(ws, es) && forall i :: 0 <= i < |ws| ==> OnlyMeet(ws[i], k, l)
  }

  ghost predicate BrokenRun(ws: seq<World>, es: seq<Event>, k: Kind, l: Kind) {
    RunOf(ws, es, k, l) && Broken(ws[|es|])
  }

  ghost predicate CanBreak(k: Kind, l: Kind) {
    exists ws, es :: BrokenRun(ws, es, k, l)
  }

  /** Actors 1 and 2 alone are at work, and if both are, with calls of these kinds. */
  predicate Pair(w: World, k: Kind, l: Kind) {
    && w.actors.Keys <= {1, 2}
    && (PcOf(w, 1).Idle? || PcOf(w, 2).Idle? || (KindOf(PcOf(w, 1)) == k && KindOf(PcOf(w, 2)) == l))
  }

  lemma PairMeets(w: World, k: Kind, l: Kind)
    requires Pair(w, k, l)
    ensures OnlyMeet(w, k, l)
  {
    forall a, b | a != b && Meet(PcOf(w, a), PcOf(w, b))
      ensures SameKinds(KindOf(PcOf(w, a)), KindOf(PcOf(w, b)), k, l) {
      assert a in {1, 2} && b in {1, 2};
    }
  }

  lemma Extend(ws: seq<World>, es: seq<Event>, k: Kind, l: Kind, e: Event, w: World)
    returns (ws': seq<World>, es': seq<Event>)
    requires RunOf(ws, es, k, l) && Enabled(ws[|es|], e) && Step(ws[|es|], e) == w && Pair(w, k, l)
    ensures RunOf(ws', es', k, l) && ws'[|es'|] == w && es' == es + [e]
  {
    PairMeets(w, k, l);
    hide Step, Enabled, OnlyMeet, Pair;
    ws', es' := ws + [w], es + [e];
    forall i | 0 <= i < |es'| ensures Enabled(ws'[i], es'[i]) && ws'[i + 1] == Step(ws'[i], es'[i]) {
      if i < |es| {
        assert ws'[i] == ws[i] && ws'[i + 1] == ws[i + 1] && es'[i] == es[i];
      }
    }
  }

  /** A resolution that starts a client. */
  predicate Startable(r: Resolution) {
    r.Resolved? && !r.missing && r.servers != [] && r.startable
  }

  function MadeFor(projectID: string, r: Resolution, c: nat): Entry
    requires Startable(r)
  {
    Entry(Some(c), projectID, Fingerprint(projectID, r.servers))
  }

  lemma StartsClient(s: State, projectID: string, r: Resolution)
    requires Startable(r)
    ensures Started(s, projectID, r) ==
              (s.(open := s.open + {s.next}, next := s.next + 1), Some(MadeFor(projectID, r, s.next)))
  {
  }

  lemma Made(projectID: string, r: Resolution, c: nat)
    requires Startable(r)
    ensures var m := MadeFor(projectID, r, c); m.client == Some(c) && m.fingerprint == Fingerprint(projectID, r.servers)
  {
  }

  lemma Begin(k: Kind, l: Kind)
    ensures RunOf([INIT], [], k, l)
  {
    PairMeets(INIT, k, l);
  }

  /** The worlds of two calls of one conversation that both have a client to store. */
  function TwoStarted(p: Pc, q: Pc): World {
    World(State(map[], {0, 1}, multiset{}, 2), map[1 := p, 2 := q])
  }

  lemma LostFirst(conv: string, m: Entry)
    requires m.client == Some(1)
    ensures Lost(World(State(map[conv := m], {0, 1}, multiset{}, 2), map[1 := Idle, 2 := Idle]), 0)
  {
  }

  /** Two first uses of a conversation: both start a client, and the later store overwrites the earlier. */
  lemma OverlappingFirstUsesLeak(conv: string, projectID: string, r: Resolution)
    returns (ws: seq<World>, es: seq<Event>)
    requires conv != "" && Startable(r)
    ensures RunOf(ws, es, Using, Using) && Lost(ws[|es|], 0)
  {
    hide RunOf, Fingerprint, MadeFor, Lost;
    var (m0, m1) := (MadeFor(projectID, r, 0), MadeFor(projectID, r, 1));
    ws, es := BothStart(conv, projectID, r);
    var s := State(map[], {0, 1}, multiset{}, 2);
    var (w1, w2) := (World(s.(entries := map[conv := m0]), map[1 := Idle, 2 := Store(conv, m1)]),
                     World(s.(entries := map[conv := m1]), map[1 := Idle, 2 := Idle]));
    ws, es := Extend(ws, es, Using, Using, StoreMade(1), w1);
    ws, es := Extend(ws, es, Using, Using, StoreMade(2), w2);
    Made(projectID, r, 1);
    LostFirst(conv, m1);
  }

  lemma BothStart(conv: string, projectID: string, r: Resolution) returns (ws: seq<World>, es: seq<Event>)
    requires conv != "" && Startable(r)
    ensures RunOf(ws, es, Using, Using)
    ensures ws[|es|] == TwoStarted(Store(conv, MadeFor(projectID, r, 0)), Store(conv, MadeFor(projectID, r, 1)))
  {
    hide RunOf, Fingerprint, MadeFor;
    var (m0, m1) := (MadeFor(projectID, r, 0), MadeFor(projectID, r, 1));
    ws, es := [INIT], [];
    Begin(Using, Using);
    StartsClient(EMPTY, projectID, r);
    var s1 := State(map[], {0}, multiset{}, 1);
    assert {} + {0} == {0} && {0} + {1} == {0, 1};
    StartsClient(s1, projectID, r);
    var u := UseStart(conv, projectID);
    ws, es := Extend(ws, es, Using, Using, BeginUse(1, conv, projectID), World(EMPTY, map[1 := u]));
    ws, es := Extend(ws, es, Using, Using, BeginUse(2, conv, projectID), World(EMPTY, map[1 := u, 2 := u]));
    hide Started;
    ws, es := Extend(ws, es, Using, Using, Start(1, r), World(s1, map[1 := Store(conv, m0), 2 := u]));
    ws, es := Extend(ws, es, Using, Using, Start(2, r), TwoStarted(Store(conv, m0), Store(conv, m1)));
  }

  /** A first use of a conversation and a refresh of it: the refresh, which saw no client, stores over that
      of the use. */
  lemma OverlappingUseAndRefreshLeak(conv: string, projectID: string, r: Resolution)
    returns (ws: seq<World>, es: seq<Event>)
    requires conv != "" && Startable(r)
    ensures RunOf(ws, es, Using, Refreshing) && Lost(ws[|es|], 0)
  {
    hide RunOf, Fingerprint, MadeFor, Lost;
    var (m0, m1) := (MadeFor(projectID, r, 0), MadeFor(projectID, r, 1));
    ws, es := UseAndRefreshStart(conv, projectID, r);
    var s := State(map[conv := m0], {0, 1}, multiset{}, 2);
    ws, es := Extend(ws, es, Using, Refreshing, StoreMade(1),
                     World(s, map[1 := Idle, 2 := RefreshClose(conv, m1, None)]));
    ws, es := Extend(ws, es, Using, Refreshing, CloseOld(2), World(s, map[1 := Idle, 2 := Swap(conv, m1, None)]));
    ws, es := Extend(ws, es, Using, Refreshing, StoreMade(2),
                     World(s.(entries := map[conv := m1]), map[1 := Idle, 2 := Idle]));
    Made(projectID, r, 1);
    LostFirst(conv, m1);
  }

  lemma UseAndRefreshStart(conv: string, projectID: string, r: Resolution) returns (ws: seq<World>, es: seq<Event>)
    requires conv != "" && Startable(r)
    ensures RunOf(ws, es, Using, Refreshing)
    ensures ws[|es|] == TwoStarted(Store(conv, MadeFor(projectID, r, 0)),
            RefreshClose(conv, MadeFor(projectID, r, 1), None))
  {
    hide RunOf, Fingerprint, MadeFor, Started;
    ws, es := UseAndRefreshBegin(conv, projectID, r);
    var (m0, m1, f) := (MadeFor(projectID, r, 0), MadeFor(projectID, r, 1), RefreshStart(conv, projectID, r, None));
    var s1 := State(map[], {0}, multiset{}, 1);
    StartsClient(EMPTY, projectID, r);
    StartsClient(s1, projectID, r);
    assert {} + {0} == {0} && {0} + {1} == {0, 1};
    ws, es := Extend(ws, es, Using, Refreshing, Start(1, r), World(s1, map[1 := Store(conv, m0), 2 := f]));
    ws, es := Extend(ws, es, Using, Refreshing, Start(2, r), TwoStarted(Store(conv, m0), RefreshClose(conv, m1, None)));
  }

  lemma UseAndRefreshBegin(conv: string, projectID: string, r: Resolution) returns (ws: seq<World>, es: seq<Event>)
    requires conv != "" && Startable(r)
    ensures RunOf(ws, es, Using, Refreshing)
    ensures ws[|es|] == World(EMPTY, map[1 := UseStart(conv, projectID), 2 := RefreshStart(conv, projectID, r, None)])
  {
    hide RunOf, Fingerprint, MadeFor;
    ws, es := [INIT], [];
    Begin(Using, Refreshing);
    var (u, f) := (UseStart(conv, projectID), RefreshStart(conv, projectID, r, None));
    ws, es := Extend(ws, es, Using, Refreshing, BeginUse(1, conv, projectID), World(EMPTY, map[1 := u]));
    ws, es := Extend(ws, es, Using, Refreshing, BeginRefresh(2, conv, projectID, r), World(EMPTY, map[1 := u, 2 := f]));
  }

  // ---------------------------------------------------------------- refreshes that close what another closes

  /** A conversation with its first client. */
  function OneStored(conv: string, m: Entry, p: map<nat, Pc>): World {
    World(State(map[conv := m], {0}, multiset{}, 1), p)
  }

  lemma OneClient(conv: string, projectID: string, r: Resolution, k: Kind, l: Kind)
    returns (ws: seq<World>, es: seq<Event>)
    requires conv != "" && Startable(r)
    ensures RunOf(ws, es, k, l) && ws[|es|] == OneStored(conv, MadeFor(projectID, r, 0), map[1 := Idle])
  {
    hide RunOf, Fingerprint, MadeFor;
    var m0 := MadeFor(projectID, r, 0);
    ws, es := [INIT], [];
    Begin(k, l);
    StartsClient(EMPTY, projectID, r);
    assert {} + {0} == {0};
    var s1 := State(map[], {0}, multiset{}, 1);
    ws, es := Extend(ws, es, k, l, BeginUse(1, conv, projectID), World(EMPTY, map[1 := UseStart(conv, projectID)]));
    hide Started;
    ws, es := Extend(ws, es, k, l, Start(1, r), World(s1, map[1 := Store(conv, m0)]));
    ws, es := Extend(ws, es, k, l, StoreMade(1), OneStored(conv, m0, map[1 := Idle]));
  }

  /** Actor 1 has read client 0, which its refresh is to replace. */
  lemma RefreshBegins(conv: string, projectID: string, r: Resolution, r': Resolution, l: Kind)
    returns (ws: seq<World>, es: seq<Event>)
    requires conv != "" && Startable(r) && Startable(r')
    requires Fingerprint(projectID, r.servers) != Fingerprint(projectID, r'.servers)
    ensures RunOf(ws, es, Refreshing, l)
    ensures ws[|es|] == OneStored(conv, MadeFor(projectID, r, 0), map[1 := RefreshStart(conv, projectID, r', Some(0))])
  {
    Made(projectID, r, 0);
    hide RunOf, Fingerprint, MadeFor;
    var (m, f) := (MadeFor(projectID, r, 0), RefreshStart(conv, projectID, r', Some(0)));
    ws, es := OneClient(conv, projectID, r, Refreshing, l);
    ws, es := Extend(ws, es, Refreshing, l, BeginRefresh(1, conv, projectID, r'), OneStored(conv, m, map[1 := f]));
  }

  /** The refresh starts its client and closes the old one, which q closes too. */
  lemma RefreshCloses(ws0: seq<World>, es0: seq<Event>, conv: string, projectID: string, r': Resolution, l: Kind,
                      entries: map<string, Entry>, q: Pc) returns (ws: seq<World>, es: seq<Event>)
    requires Startable(r') && RunOf(ws0, es0, Refreshing, l) && !q.Idle? && KindOf(q) == l
    requires ws0[|es0|] == World(State(entries, {0}, multiset{}, 1),
                                 map[1 := RefreshStart(conv, projectID, r', Some(0)), 2 := q])
    ensures RunOf(ws, es, Refreshing, l)
    ensures ws[|es|] == World(State(entries, {1}, multiset{0}, 2),
                              map[1 := Swap(conv, MadeFor(projectID, r', 1), Some(0)), 2 := q])
  {
    hide RunOf, Fingerprint, MadeFor;
    var (m1, s0) := (MadeFor(projectID, r', 1), State(entries, {0}, multiset{}, 1));
    StartsClient(s0, projectID, r');
    assert {0} + {1} == {0, 1} && {0, 1} - {0} == {1} && multiset{} + multiset{0} == multiset{0};
    var w1 := World(State(entries, {0, 1}, multiset{}, 2), map[1 := RefreshClose(conv, m1, Some(0)), 2 := q]);
    ws, es := Extend(ws0, es0, Refreshing, l, Start(1, r'), w1);
    hide Started;
    ws, es := Extend(ws, es, Refreshing, l, CloseOld(1),
                     World(State(entries, {1}, multiset{0}, 2), map[1 := Swap(conv, m1, Some(0)), 2 := q]));
  }

  /** A refresh and a close of one conversation: both close the client that the refresh was to replace. */
  lemma OverlappingRefreshAndCloseCloseTwice(conv: string, projectID: string, r: Resolution, r': Resolution)
    returns (ws: seq<World>, es: seq<Event>)
    requires conv != "" && Startable(r) && Startable(r')
    requires Fingerprint(projectID, r.servers) != Fingerprint(projectID, r'.servers)
    ensures RunOf(ws, es, Refreshing, Retiring) && ws[|es|].s.closed[0] == 2
  {
    Made(projectID, r, 0);
    hide RunOf, Fingerprint, MadeFor;
    ws, es := RefreshBegins(conv, projectID, r, r', Retiring);
    var (f, q) := (RefreshStart(conv, projectID, r', Some(0)), Closing(conv, Some(0)));
    Emptied(conv, MadeFor(projectID, r, 0));
    ws, es := Extend(ws, es, Refreshing, Retiring, BeginClose(2, conv),
                     World(State(map[], {0}, multiset{}, 1), map[1 := f, 2 := q]));
    ws, es := RefreshCloses(ws, es, conv, projectID, r', Retiring, map[], q);
    var w := World(State(map[], {1}, multiset{0, 0}, 2),
                   map[1 := Swap(conv, MadeFor(projectID, r', 1), Some(0)), 2 := Idle]);
    assert {1} - {0} == {1} && multiset{0} + multiset{0} == multiset{0, 0};
    ws, es := Extend(ws, es, Refreshing, Retiring, CloseOld(2), w);
  }

  lemma Emptied(conv: string, m: Entry)
    ensures map[conv := m] - {conv} == map[]
    ensures m.client.Some? ==> Clients(map[conv := m]) == {m.client.value}
  {
    assert conv in map[conv := m];
  }

  /** A refresh and a shutdown do so too. */
  lemma OverlappingRefreshAndShutdownCloseTwice(conv: string, projectID: string, r: Resolution, r': Resolution)
    returns (ws: seq<World>, es: seq<Event>)
    requires conv != "" && Startable(r) && Startable(r')
    requires Fingerprint(projectID, r.servers) != Fingerprint(projectID, r'.servers)
    ensures RunOf(ws, es, Refreshing, ShuttingDown) && ws[|es|].s.closed[0] == 2
  {
    Made(projectID, r, 0);
    hide RunOf, Fingerprint, MadeFor, Clients;
    ws, es := RefreshBegins(conv, projectID, r, r', ShuttingDown);
    var (f, q) := (RefreshStart(conv, projectID, r', Some(0)), ClosingAll({0}));
    Emptied(conv, MadeFor(projectID, r, 0));
    ws, es := Extend(ws, es, Refreshing, ShuttingDown, BeginCloseAll(2),
                     World(State(map[], {0}, multiset{}, 1), map[1 := f, 2 := q]));
    ws, es := RefreshCloses(ws, es, conv, projectID, r', ShuttingDown, map[], q);
    var p := Swap(conv, MadeFor(projectID, r', 1), Some(0));
    assert {1} - {0} == {1} && {0} - {0} == {} && multiset{0} + multiset{0} == multiset{0, 0};
    ws, es := Extend(ws, es, Refreshing, ShuttingDown, CloseOne(2, 0),
                     World(State(map[], {1}, multiset{0, 0}, 2), map[1 := p, 2 := ClosingAll({})]));
  }

  /** Two refreshes do so too, and of the two clients they start one is lost. */
  lemma OverlappingRefreshesCloseTwice(conv: string, projectID: string, r: Resolution, r': Resolution)
    returns (ws: seq<World>, es: seq<Event>)
    requires conv != "" && Startable(r) && Startable(r')
    requires Fingerprint(projectID, r.servers) != Fingerprint(projectID, r'.servers)
    ensures RunOf(ws, es, Refreshing, Refreshing) && ws[|es|].s.closed[0] == 2 && Lost(ws[|es|], 1)
  {
    Made(projectID, r, 0);
    hide RunOf, Fingerprint, MadeFor, Lost;
    ws, es := RefreshBegins(conv, projectID, r, r', Refreshing);
    var (m, f) := (MadeFor(projectID, r, 0), RefreshStart(conv, projectID, r', Some(0)));
    ws, es := Extend(ws, es, Refreshing, Refreshing, BeginRefresh(2, conv, projectID, r'),
                     OneStored(conv, m, map[1 := f, 2 := f]));
    ws, es := RefreshCloses(ws, es, conv, projectID, r', Refreshing, map[conv := m], f);
    ws, es := SecondRefresh(ws, es, conv, projectID, r', m);
  }

  lemma SecondRefresh(ws0: seq<World>, es0: seq<Event>, conv: string, projectID: string, r': Resolution, m: Entry)
    returns (ws: seq<World>, es: seq<Event>)
    requires Startable(r') && RunOf(ws0, es0, Refreshing, Refreshing)
    requires ws0[|es0|] == World(State(map[conv := m], {1}, multiset{0}, 2),
                                 map[1 := Swap(conv, MadeFor(projectID, r', 1), Some(0)),
                                     2 := RefreshStart(conv, projectID, r', Some(0))])
    ensures RunOf(ws, es, Refreshing, Refreshing) && ws[|es|].s.closed[0] == 2 && Lost(ws[|es|], 1)
  {
    hide RunOf, Fingerprint, MadeFor, Lost, Started;
    var (m1, m2) := (MadeFor(projectID, r', 1), MadeFor(projectID, r', 2));
    var p := Swap(conv, m1, Some(0));
    StartsClient(State(map[conv := m], {1}, multiset{0}, 2), projectID, r');
    assert {1} + {2} == {1, 2} && {1, 2} - {0} == {1, 2} && multiset{0} + multiset{0} == multiset{0, 0};
    var w1 := World(State(map[conv := m], {1, 2}, multiset{0}, 3), map[1 := p, 2 := RefreshClose(conv, m2, Some(0))]);
    ws, es := Extend(ws0, es0, Refreshing, Refreshing, Start(2, r'), w1);
    var s := State(map[conv := m], {1, 2}, multiset{0, 0}, 3);
    ws, es := Extend(ws, es, Refreshing, Refreshing, CloseOld(2), World(s, map[1 := p, 2 := Swap(conv, m2, Some(0))]));
    Made(projectID, r', 2);
    ws, es := BothStore(ws, es, conv, s, m1, m2);
  }

  lemma BothStore(ws0: seq<World>, es0: seq<Event>, conv: string, s: State, m1: Entry, m2: Entry)
    returns (ws: seq<World>, es: seq<Event>)
    requires RunOf(ws0, es0, Refreshing, Refreshing) && m2.client == Some(2)
    requires s.open == {1, 2} && s.closed == multiset{0, 0} && s.next == 3 && s.entries.Keys == {conv}
    requires ws0[|es0|] == World(s, map[1 := Swap(conv, m1, Some(0)), 2 := Swap(conv, m2, Some(0))])
    ensures RunOf(ws, es, Refreshing, Refreshing) && ws[|es|].s.closed[0] == 2 && Lost(ws[|es|], 1)
  {
    hide RunOf, Lost;
    var (e1, e2) := (s.entries[conv := m1], s.entries[conv := m1][conv := m2]);
    ws, es := Extend(ws0, es0, Refreshing, Refreshing, StoreMade(1),
                     World(s.(entries := e1), map[1 := Idle, 2 := Swap(conv, m2, Some(0))]));
    var w := World(s.(entries := e2), map[1 := Idle, 2 := Idle]);
    ws, es := Extend(ws, es, Refreshing, Refreshing, StoreMade(2), w);
    LostSecond(w, conv);
  }

  lemma LostSecond(w: World, conv: string)
    requires w.s.open == {1, 2} && w.s.next == 3 && w.actors == map[1 := Idle, 2 := Idle]
    requires w.s.entries.Keys == {conv} && w.s.entries[conv].client == Some(2)
    ensures Lost(w, 1)
  {
  }

  // ---------------------------------------------------------------- exactly these

  lemma MeetsSwapped(ws: seq<World>, es: seq<Event>, k: Kind, l: Kind)
    requires RunOf(ws, es, k, l)
    ensures RunOf(ws, es, l, k)
  {
    forall i | 0 <= i < |ws| ensures OnlyMeet(ws[i], l, k) {
      assert OnlyMeet(ws[i], k, l);
    }
  }

  lemma BreaksEitherWay(ws: seq<World>, es: seq<Event>, k: Kind, l: Kind, c: nat)
    requires RunOf(ws, es, k, l) && (ws[|es|].s.closed[c] >= 2 || Lost(ws[|es|], c))
    ensures CanBreak(k, l) && CanBreak(l, k)
  {
    hide RunOf, Lost;
    MeetsSwapped(ws, es, k, l);
    assert BrokenRun(ws, es, k, l) && BrokenRun(ws, es, l, k);
  }

  lemma ClashingBreak(k: Kind, l: Kind)
    requires KindsClash(k, l)
    ensures CanBreak(k, l)
  {
    var (r, r') := (Resolved(["a"], false, true), Resolved(["b"], false, true));
    DifferentSets();
    hide CanBreak, RunOf, Lost, Fingerprint;
    var ws, es;
    if k.Using? && l.Using? {
      ws, es := OverlappingFirstUsesLeak("c", "", r);
      BreaksEitherWay(ws, es, Using, Using, 0);
    } else if k.Using? || l.Using? {
      ws, es := OverlappingUseAndRefreshLeak("c", "", r);
      BreaksEitherWay(ws, es, Using, Refreshing, 0);
    } else if k.Retiring? || l.Retiring? {
      ws, es := OverlappingRefreshAndCloseCloseTwice("c", "", r, r');
      BreaksEitherWay(ws, es, Refreshing, Retiring, 0);
    } else if k.ShuttingDown? || l.ShuttingDown? {
      ws, es := OverlappingRefreshAndShutdownCloseTwice("c", "", r, r');
      BreaksEitherWay(ws, es, Refreshing, ShuttingDown, 0);
    } else {
      ws, es := OverlappingRefreshesCloseTwice("c", "", r, r');
      BreaksEitherWay(ws, es, Refreshing, Refreshing, 0);
    }
  }

  lemma DifferentSets()
    ensures Fingerprint("", ["a"]) != Fingerprint("", ["b"])
  {
    assert Fingerprint("", ["a"]) == ";a" && Fingerprint("", ["b"]) == ";b";
  }

  lemma NotClashingConserves(ws: seq<World>, es: seq<Event>, k: Kind, l: Kind)
    requires RunOf(ws, es, k, l) && !KindsClash(k, l)
    ensures !Broken(ws[|es|])
  {
    forall i | 0 <= i < |ws| ensures Apart(ws[i]) {
      assert OnlyMeet(ws[i], k, l);
    }
    var w := ws[|es|];
    RunInv(ws, es, |es|);
    hide IsRun, Step, Enabled, Apart, OnlyMeet;
    forall c: nat ensures w.s.closed[c] <= 1 && !Lost(w, c) {
      assert ClientOk(w, c);
      if c in w.s.open && c < w.s.next {
        ConservedWhileApart(ws, es, |es|, c);
      }
    }
  }

  /** The kinds decide: some run in which only calls of kinds k and l overlap on a conversation closes a client twice
      or loses one, exactly if one of the two is a refresh or both are uses. So a conversation may be closed, or the
      plane shut down, under a use; a refresh must be kept apart from everything, and uses from each other. */
  lemma CanBreakIff(k: Kind, l: Kind)
    ensures CanBreak(k, l) <==> KindsClash(k, l)
  {
    if KindsClash(k, l) {
      ClashingBreak(k, l);
    }
    hide RunOf, Broken;
    if CanBreak(k, l) && !KindsClash(k, l) {
      var ws, es :| BrokenRun(ws, es, k, l);
      NotClashingConserves(ws, es, k, l);
    }
  }
}
