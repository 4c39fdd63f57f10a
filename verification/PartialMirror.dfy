/**
 The partial-reply mirror of a running turn (startConversationTurnOpts in internal/askorchicon/chat.go): the drain
 loop posts snapshots into a shared cell, a flusher writes the newest one to the message row now and then, and
 the finalizer stops the flusher and writes the terminal row.
 */
module PartialMirror {

  datatype Snapshot = Snapshot(text: string, reasoning: seq<string>)

  /** What the mirror's mutex guards. */
  datatype Cell = Cell(snap: Snapshot, dirty: bool)

  const BLANK := Cell(Snapshot("", []), false)

  function Posted(snap: Snapshot): Cell {
    Cell(snap, true)
  }

  /** The flusher clears the flag as it looks; the finalizer only looks. */
  function Cleared(c: Cell): Cell {
    c.(dirty := false)
  }

  class Mirror {
    var partialText: string
    var partialReasoning: seq<string>
    var partialDirty: bool

    function Value(): Cell
      reads this
    {
      Cell(Snapshot(partialText, partialReasoning), partialDirty)
    }

    constructor ()
      ensures Value() == BLANK
    {
      partialText, partialReasoning, partialDirty := "", [], false;
    }

    method OnPartial(text: string, reasoning: seq<string>)
      modifies this
      ensures Value() == Posted(Snapshot(text, reasoning))
    {
      partialText, partialReasoning, partialDirty := text, reasoning, true;
    }

    method TakeDirty() returns (dirty: bool, text: string, reasoning: seq<string>)
      modifies this
      ensures Value() == Cleared(old(Value())) && Cell(Snapshot(text, reasoning), dirty) == old(Value())
    {
      dirty, text, reasoning := partialDirty, partialText, partialReasoning;
      if dirty {
        partialDirty := false;
      }
    }
  }

  // ---------------------------------------------------------------- the protocol

  /** How a turn ended, as far as its terminal write depends on it. */
  datatype End = Replied | Stopped | Failed | Superseded(hasText: bool, hasCalls: bool)

  /** An interjection over a turn that brought nothing leaves no row of its own. */
  predicate WritesTerminal(end: End) {
    !end.Superseded? || end.hasText || end.hasCalls
  }

  datatype Flusher = Look | Writing(n: nat, snap: Snapshot) | Asleep | Exited

  datatype Finalizer = Collecting | Stopping(end: End) | LastFlush(end: End, n: nat, snap: Snapshot)
      | Closing(end: End) | Done(end: End)

  datatype Write = Partial(n: nat, snap: Snapshot) | Terminal

  /** `posted` is every snapshot the drain loop made; `lost` the numbers of those whose write was cut off. */
  datatype World = World(cell: Cell, posted: seq<Snapshot>, flusher: Flusher, finalizer: Finalizer,
      writes: seq<Write>, lost: set<nat>)

  const INIT := World(BLANK, [], Look, Collecting, [], {})

  datatype Event =
    | Post(snap: Snapshot)
    | FlusherLooks
    | FlusherWrites(ok: bool)
    | FlusherWakes
    | FlusherExits
    | CollectorReturns(end: End)
    | FinalizerLooks
    | FinalizerFlushes
    | FinalizerWrites

  /** The flusher's context is cancelled when the collector returns; only then can its write fail. */
  predicate Enabled(w: World, e: Event) {
    match e
    case Post(_) => w.finalizer.Collecting?
    case FlusherLooks => w.flusher.Look?
    case FlusherWrites(ok) => w.flusher.Writing? && (ok || !w.finalizer.Collecting?)
    case FlusherWakes => w.flusher.Asleep?
    case FlusherExits => w.flusher.Asleep? && !w.finalizer.Collecting?
    case CollectorReturns(_) => w.finalizer.Collecting?
    case FinalizerLooks => w.finalizer.Stopping? && w.flusher.Exited?
    case FinalizerFlushes => w.finalizer.LastFlush?
    case FinalizerWrites => w.finalizer.Closing?
  }

  function Apply(w: World, e: Event): World
    requires Enabled(w, e)
  {
    match e
    case Post(snap) => w.(cell := Posted(snap), posted := w.posted + [snap])
    case FlusherLooks =>
      if w.cell.dirty then w.(cell := Cleared(w.cell), flusher := Writing(|w.posted|, w.cell.snap))
      else w.(flusher := Asleep)
    case FlusherWrites(ok) =>
      if ok then w.(flusher := Look, writes := w.writes + [Partial(w.flusher.n, w.flusher.snap)])
      else w.(flusher := Look, lost := w.lost + {w.flusher.n})
    case FlusherWakes => w.(flusher := Look)
    case FlusherExits => w.(flusher := Exited)
    case CollectorReturns(end) => w.(finalizer := Stopping(end))
    case FinalizerLooks =>
      w.(finalizer := if w.cell.dirty then LastFlush(w.finalizer.end, |w.posted|, w.cell.snap)
                      else Closing(w.finalizer.end))
    case FinalizerFlushes =>
      w.(finalizer := Closing(w.finalizer.end), writes := w.writes + [Partial(w.finalizer.n, w.finalizer.snap)])
    case FinalizerWrites =>
      w.(finalizer := Done(w.finalizer.end),
         writes := if WritesTerminal(w.finalizer.end) then w.writes + [Terminal] else w.writes)
  }

  predicate IsRun(ws: seq<World>, es: seq<Event>) {
    && |ws| == |es| + 1 && ws[0] == INIT
    && forall i :: 0 <= i < |es| ==> Enabled(ws[i], es[i]) && ws[i + 1] == Apply(ws[i], es[i])
  }

  predicate NumberOk(w: World, n: nat, snap: Snapshot) {
    1 <= n <= |w.posted| && snap == w.posted[n - 1]
  }

  predicate WritesOk(w: World) {
    && (forall k :: 0 <= k < |w.writes| ==> w.writes[k].Partial? ==> NumberOk(w, w.writes[k].n, w.writes[k].snap))
    && (forall k :: 0 <= k < |w.writes| ==> w.writes[k].Terminal? ==> k == |w.writes| - 1 && w.finalizer.Done?)
    && (forall j, k :: 0 <= j < k < |w.writes| && w.writes[k].Partial? ==>
          w.writes[j].Partial? && w.writes[j].n < w.writes[k].n)
  }

  predicate Late(f: Finalizer) {
    f.LastFlush? || f.Closing? || f.Done?
  }

  /** Everything written is older than what a write is still in hand for, and than what waits in the cell. */
  predicate Fresher(w: World) {
    forall k :: 0 <= k < |w.writes| && w.writes[k].Partial? ==>
      && (w.flusher.Writing? ==> w.writes[k].n < w.flusher.n)
      && (w.cell.dirty && !w.finalizer.Closing? && !w.finalizer.Done? ==> w.writes[k].n < |w.posted|)
  }

  predicate HandsOk(w: World) {
    && (w.posted != [] ==> w.cell.snap == w.posted[|w.posted| - 1])
    && (w.cell.dirty ==> w.posted != [])
    && (w.flusher.Writing? ==> NumberOk(w, w.flusher.n, w.flusher.snap))
    && (w.flusher.Writing? && w.cell.dirty ==> w.flusher.n < |w.posted|)
    && (Late(w.finalizer) ==> w.flusher.Exited?)
    && (w.flusher.Exited? ==> !w.finalizer.Collecting?)
    && (w.finalizer.LastFlush? ==>
          w.cell.dirty && w.finalizer.n == |w.posted| && NumberOk(w, w.finalizer.n, w.finalizer.snap))
  }

  predicate DoneOk(w: World) {
    w.finalizer.Done? ==>
      if WritesTerminal(w.finalizer.end) then w.writes != [] && w.writes[|w.writes| - 1].Terminal?
      else forall k :: 0 <= k < |w.writes| ==> w.writes[k].Partial?
  }

  predicate Inv(w: World) {
    WritesOk(w) && Fresher(w) && HandsOk(w) && DoneOk(w)
  }

  lemma HandsStep(w: World, e: Event)
    requires HandsOk(w) && Enabled(w, e)
    ensures HandsOk(Apply(w, e))
  {
  }

  lemma FresherStep(w: World, e: Event)
    requires Fresher(w) && HandsOk(w) && WritesOk(w) && Enabled(w, e)
    ensures Fresher(Apply(w, e))
  {
  }

  lemma WritesStep(w: World, e: Event)
    requires WritesOk(w) && Fresher(w) && HandsOk(w) && Enabled(w, e)
    ensures WritesOk(Apply(w, e))
  {
  }

  lemma DoneStep(w: World, e: Event)
    requires DoneOk(w) && WritesOk(w) && HandsOk(w) && Enabled(w, e)
    ensures DoneOk(Apply(w, e))
  {
  }

  lemma InvStep(w: World, e: Event)
    requires Inv(w) && Enabled(w, e)
    ensures Inv(Apply(w, e))
  {
    hide HandsOk, Fresher, WritesOk, DoneOk, Apply, Enabled;
    HandsStep(w, e);
    FresherStep(w, e);
    WritesStep(w, e);
    DoneStep(w, e);
  }

  lemma {:induction false} RunInv(ws: seq<World>, es: seq<Event>, i: nat)
    requires IsRun(ws, es) && i < |ws|
    ensures Inv(ws[i])
  {
    hide Apply, Enabled, Inv;
    if i == 0 {
      InitInv();
    } else {
      RunInv(ws, es, i - 1);
      InvStep(ws[i - 1], es[i - 1]);
    }
  }

  lemma InitInv()
    ensures Inv(INIT)
  {
  }

  /** However the drain loop, the flusher and the finalizer interleave, the row is never overwritten with an older
      snapshot, nor twice with the same; each write carries the snapshot of its number. */
  lemma WritesNeverGoBack(ws: seq<World>, es: seq<Event>, i: nat, j: nat, k: nat)
    requires IsRun(ws, es) && i < |ws| && j < k < |ws[i].writes| && ws[i].writes[k].Partial?
    ensures var (w, a, b) := (ws[i], ws[i].writes[j], ws[i].writes[k]);
            a.Partial? && 1 <= a.n < b.n <= |w.posted| && a.snap == w.posted[a.n - 1] && b.snap == w.posted[b.n - 1]
  {
    hide Apply, Enabled;
    RunInv(ws, es, i);
    assert ws[i].writes[j].Partial? ==> NumberOk(ws[i], ws[i].writes[j].n, ws[i].writes[j].snap);
  }

  /** The flusher is gone before the finalizer writes anything, and nothing follows the terminal row. */
  lemma TerminalWriteIsLast(ws: seq<World>, es: seq<Event>, i: nat)
    requires IsRun(ws, es) && i < |ws|
    ensures Late(ws[i].finalizer) ==> ws[i].flusher.Exited?
    ensures forall k :: 0 <= k < |ws[i].writes| && ws[i].writes[k].Terminal? ==> k == |ws[i].writes| - 1
    ensures ws[i].finalizer.Done? ==>
              (WritesTerminal(ws[i].finalizer.end)
               <==> ws[i].writes != [] && ws[i].writes[|ws[i].writes| - 1].Terminal?)
  {
    hide Apply, Enabled;
    RunInv(ws, es, i);
  }

  // ---------------------------------------------------------------- the turn that leaves no terminal row

  /** A snapshot that still waits in the cell, or that the flusher holds. */
  predicate InHand(w: World, n: nat) {
    (w.cell.dirty && !w.finalizer.Closing? && !w.finalizer.Done? && n == |w.posted|)
    || (w.flusher.Writing? && w.flusher.n == n)
  }

  /** The newest snapshot is still in hand, or in the row, or was lost in a write that was cut off. */
  predicate NewestOk(w: World) {
    && (forall n :: n in w.lost ==> n <= |w.posted|)
    && (w.posted != [] ==>
          var n := |w.posted|;
          if InHand(w, n) then n !in w.lost
          else Partial(n, w.posted[n - 1]) in w.writes <==> n !in w.lost)
  }

  lemma NewestStep(w: World, e: Event)
    requires Inv(w) && NewestOk(w) && Enabled(w, e)
    ensures NewestOk(Apply(w, e))
  {
    hide Fresher, DoneOk;
    if e.FlusherWrites? && !e.ok {
      NotWritten(w);
    }
  }

  lemma NotWritten(w: World)
    requires Inv(w) && w.flusher.Writing?
    ensures Partial(w.flusher.n, w.flusher.snap) !in w.writes
  {
  }

  lemma {:induction false} RunNewest(ws: seq<World>, es: seq<Event>, i: nat)
    requires IsRun(ws, es) && i < |ws|
    ensures NewestOk(ws[i])
  {
    hide Apply, Enabled, NewestOk, Inv;
    if i == 0 {
      assert NewestOk(INIT) by { InitNewest(); }
    } else {
      RunNewest(ws, es, i - 1);
      RunInv(ws, es, i - 1);
      NewestStep(ws[i - 1], es[i - 1]);
    }
  }

  lemma InitNewest()
    ensures NewestOk(INIT)
  {
  }

  /** A turn that ends without a terminal row leaves its newest snapshot in the row exactly if no write of that
      snapshot was cut off by the flusher's cancelled context. */
  lemma NewestSurvivesIff(ws: seq<World>, es: seq<Event>, i: nat)
    requires IsRun(ws, es) && i < |ws| && ws[i].posted != []
    requires ws[i].finalizer.Done? && !WritesTerminal(ws[i].finalizer.end)
    ensures var w := ws[i];
            (w.writes != [] && w.writes[|w.writes| - 1] == Partial(|w.posted|, w.posted[|w.posted| - 1]))
            <==> |w.posted| !in w.lost
  {
    hide Apply, Enabled;
    RunInv(ws, es, i);
    RunNewest(ws, es, i);
    var w := ws[i];
    var p := Partial(|w.posted|, w.posted[|w.posted| - 1]);
    if p in w.writes {
      var k :| 0 <= k < |w.writes| && w.writes[k] == p;
      var last := |w.writes| - 1;
      assert w.writes[last].Partial? && NumberOk(w, w.writes[last].n, w.writes[last].snap);
    }
  }

  ghost predicate Reachable(w: World) {
    exists ws: seq<World>, es: seq<Event> :: IsRun(ws, es) && ws[|es|] == w
  }

  lemma ReachStep(w: World, e: Event, w': World)
    requires Reachable(w) && Enabled(w, e) && w' == Apply(w, e)
    ensures Reachable(w')
  {
    hide Enabled, Apply;
    var ws: seq<World>, es: seq<Event> :| IsRun(ws, es) && ws[|es|] == w;
    assert IsRun(ws + [w'], es + [e]) && (ws + [w'])[|es + [e]|] == w';
  }

  lemma InitReachable()
    ensures Reachable(INIT)
  {
    var ws: seq<World>, es: seq<Event> := [INIT], [];
    assert IsRun(ws, es) && ws[|es|] == INIT;
  }

  /** It does happen: the flusher looks after the turn was superseded, clears the flag, and its write fails. */
  lemma NewestCanBeLost(snap: Snapshot)
    ensures Reachable(World(Cell(snap, false), [snap], Exited, Done(Superseded(false, false)), [], {1}))
  {
    hide Reachable;
    var end := Superseded(false, false);
    var w1 := World(Posted(snap), [snap], Look, Collecting, [], {});
    var w2 := w1.(finalizer := Stopping(end));
    var w3 := w2.(cell := Cell(snap, false), flusher := Writing(1, snap));
    var w4 := w3.(flusher := Look, lost := {1});
    var w5 := w4.(flusher := Asleep);
    var w6 := w5.(flusher := Exited);
    var w7 := w6.(finalizer := Closing(end));
    InitReachable();
    ReachStep(INIT, Post(snap), w1);
    ReachStep(w1, CollectorReturns(end), w2);
    ReachStep(w2, FlusherLooks, w3);
    ReachStep(w3, FlusherWrites(false), w4);
    ReachStep(w4, FlusherLooks, w5);
    ReachStep(w5, FlusherExits, w6);
    ReachStep(w6, FinalizerLooks, w7);
    ReachStep(w7, FinalizerWrites, w7.(finalizer := Done(end)));
  }

  /** While the turn runs, a tick brings the row up to date: a flusher that sleeps on a dirty cell can wake, look and
      write, and then the newest snapshot is the last thing written and the cell is clean. */
  lemma TickWritesNewest(w: World)
    requires Reachable(w) && w.flusher.Asleep? && w.finalizer.Collecting? && w.cell.dirty
    ensures Enabled(w, FlusherWakes)
    ensures var w1 := Apply(w, FlusherWakes);
            && Enabled(w1, FlusherLooks)
            && var w2 := Apply(w1, FlusherLooks);
               && Enabled(w2, FlusherWrites(true))
               && var w3 := Apply(w2, FlusherWrites(true));
                  && w3.posted == w.posted != []
                  && w3.writes == w.writes + [Partial(|w.posted|, w.posted[|w.posted| - 1])]
                  && !w3.cell.dirty && w3.flusher == Look
  {
    var ws: seq<World>, es: seq<Event> :| IsRun(ws, es) && ws[|es|] == w;
    RunInv(ws, es, |es|);
  }
}
