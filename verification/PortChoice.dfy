/**
 Which answer of the operator `orchicon install` takes, which ports a plan ends with, and exactly when and why there is
 none (cmd/orchicon/install_ports.go), in terms of the lines typed, the ports that are free and the pins.
 */
module PortChoice {
  import opened Common
  import opened Text
  import opened PortPlan

  /** How a prompt ends: with a port, by an empty line, or by the default when tries or lines run out. */
  datatype Answer = Port(n: int) | Enter | NoMore

  /** A line that is neither empty nor the number of a port. */
  predicate Declined(entry: string) {
    TrimSpace(entry) != "" && match Atoi(TrimSpace(entry))
                              case None => true
                              case Some(n) => n < 1 || n > 65535
  }

  /** The prompt ends at line i, all before it having been declined. */
  predicate EndsAt(input: seq<string>, tries: nat, i: nat, a: Answer) {
    && i <= |input| && i <= tries && (forall j :: 0 <= j < i ==> Declined(input[j]))
    && match a
       case Port(n) => i < tries && i < |input| && Atoi(TrimSpace(input[i])) == Some(n) && 1 <= n <= 65535
       case Enter => i < tries && i < |input| && TrimSpace(input[i]) == ""
       case NoMore => i == tries || i == |input|
  }

  /** The first line that is a port or empty decides, if it is among the tries: the port is taken, and an empty line
      means the default, as does the end of the tries or of the input. One line is read per try. */
  lemma {:induction false} AskedIs(input: seq<string>, def: int, tries: nat) returns (i: nat, a: Answer)
    ensures EndsAt(input, tries, i, a)
    ensures Asked(input, def, tries) ==
            (if a.Port? then a.n else def, if a.NoMore? then input[i..] else input[i + 1..])
  {
    if tries == 0 || input == [] {
      return 0, NoMore;
    }
    var line := TrimSpace(input[0]);
    AskedNext(input, def, tries);
    hide TrimSpace, Atoi, Asked;
    if line == "" {
      return 0, Enter;
    }
    if Atoi(line).Some? && 1 <= Atoi(line).value <= 65535 {
      return 0, Port(Atoi(line).value);
    }
    i, a := AskedIs(input[1..], def, tries - 1);
    EndsLater(input, tries, i, a);
    hide EndsAt, Declined;
    assert input[1..][i..] == input[i + 1..];
    assert !a.NoMore? ==> input[1..][i + 1..] == input[i + 2..];
    i := i + 1;
  }

  /** What the first line does. */
  lemma AskedNext(input: seq<string>, def: int, tries: nat)
    requires tries > 0 && input != []
    ensures var line := TrimSpace(input[0]);
            Asked(input, def, tries) ==
            if line == "" then (def, input[1..])
            else if Atoi(line).Some? && 1 <= Atoi(line).value <= 65535 then (Atoi(line).value, input[1..])
            else Asked(input[1..], def, tries - 1)
  {
    hide TrimSpace, Atoi;
  }

  lemma EndsLater(input: seq<string>, tries: nat, i: nat, a: Answer)
    requires tries > 0 && input != [] && Declined(input[0]) && EndsAt(input[1..], tries - 1, i, a)
    ensures EndsAt(input, tries, i + 1, a)
  {
    hide Atoi, TrimSpace, Declined;
    forall j | 0 <= j < i + 1 ensures Declined(input[j]) {
      assert j > 0 ==> input[j] == input[1..][j - 1];
    }
    assert i < |input| - 1 ==> input[1..][i] == input[i + 1];
  }

  /** Numbers are read as they are written, with a sign or without. */
  lemma AtoiReadsDecimals(n: nat)
    ensures Atoi(Decimal(n)) == Some(n as int) == Atoi("+" + Decimal(n)) && Atoi("-" + Decimal(n)) == Some(-(n as int))
  {
    DecimalValue(n);
    hide Decimal, DigitsValue;
    SignsAreNoDigits(Decimal(n));
  }

  lemma SignsAreNoDigits(d: string)
    ensures !AllDigits("+" + d) && !AllDigits("-" + d) && ("+" + d)[1..] == ("-" + d)[1..] == d
    ensures ("+" + d)[0] == '+' && ("-" + d)[0] == '-'
  {
    var (p, m) := ("+" + d, "-" + d);
    assert p[0] == '+' && m[0] == '-';
    assert p[1..] == d && m[1..] == d;
  }

  predicate Numeral(s: string) {
    s != "" && forall c :: c in s ==> c in "0123456789"
  }

  /** And nothing else is a number. */
  lemma AtoiReadsNumerals(s: string)
    ensures Atoi(s).Some? <==> Numeral(s) || (s != "" && s[0] in "+-" && Numeral(s[1..]))
  {
    NumeralIff(s);
    if s != "" {
      NumeralIff(s[1..]);
    }
    hide Numeral, AllDigits;
  }

  lemma NumeralIff(s: string)
    ensures AllDigits(s) <==> Numeral(s)
  {
    forall c: char ensures c in "0123456789" <==> '0' <= c <= '9' {
      assert "0123456789" == ['0', '1', '2', '3', '4', '5', '6', '7', '8', '9'];
    }
    if Numeral(s) {
      forall k | 0 <= k < |s| ensures '0' <= s[k] <= '9' {
        assert s[k] in s;
      }
    }
  }

  /** There is one way only in which a prompt can end. */
  lemma AnswerIsUnique(input: seq<string>, tries: nat, i: nat, a: Answer, j: nat, b: Answer)
    requires EndsAt(input, tries, i, a) && EndsAt(input, tries, j, b)
    ensures i == j && a == b
  {
    NothingBetween("");
    hide Atoi, TrimSpace;
  }

  /** So a port that is typed is taken, and only that one, if it is typed within the tries and after nothing but
      lines that are declined. */
  lemma TypedIsTaken(input: seq<string>, def: int, tries: nat, n: int)
    requires Typed(input, tries, n)
    ensures Asked(input, def, tries).0 == n
  {
    var k: nat :| k < tries && TypedAt(input, k, n);
    var i, a := AskedIs(input, def, tries);
    assert EndsAt(input, tries, k, Port(n)) by {
      hide Atoi, TrimSpace;
    }
    AnswerIsUnique(input, tries, i, a, k, Port(n));
  }

  // ---------------------------------------------------------------- one port

  /** No port of the window above is free. */
  ghost predicate NoneAbove(def: int, claimed: set<int>, probe: Probe) {
    forall q :: InWindow(q, def + 1) ==> !Free(q, claimed, probe)
  }

  /** When no port can be offered, and why. */
  lemma OfferedFailsIff(s: State, p: Spec, c: Setting, e: Error)
    ensures Offered(s, p, c) == Err(e) <==>
            if c.instance !in p.defaults then e == NoDefault(p.env)
            else
              var def := p.defaults[c.instance];
              && !Free(def, s.claimed, c.probe)
              && (if NoneAbove(def, s.claimed, c.probe) then e == NoFreePort(p.env)
                  else c.strict && e == DefaultInUse(p.env))
  {
    if c.instance in p.defaults {
      var def := p.defaults[c.instance];
      ScanFinds(def + 1, def + 1, s.claimed, c.probe);
      var next := NextFree(def + 1, s.claimed, c.probe);
      hide Free, NextFree, InWindow;
      if next.Some? {
        assert InWindow(next.value, def + 1) && Free(next.value, s.claimed, c.probe);
      }
    }
  }

  /** A spec fails exactly if no port can be offered. The operator, if asked, gets the port typed, unless another spec
      of this plan has it; otherwise the port is the offered one. Lines are read only if the operator is asked. */
  lemma DecidedIs(s: State, p: Spec, c: Setting)
    ensures Decided(s, p, c).Err? <==> Offered(s, p, c).Err?
    ensures Decided(s, p, c).Err? ==> Decided(s, p, c).error == Offered(s, p, c).error
    ensures Decided(s, p, c).Ok? ==>
              var (s', offered) := (Decided(s, p, c).value, Offered(s, p, c).value);
              && p.env in s'.ports && s'.ports == s.ports[p.env := s'.ports[p.env]]
              && s'.claimed == s.claimed + {s'.ports[p.env]}
              && (!(c.asking && p.prompt) ==> s'.ports[p.env] == offered && s'.input == s.input)
              && (c.asking && p.prompt ==> s'.input == Asked(s.input, offered, 3).1)
              && (forall n :: c.asking && p.prompt && Typed(s.input, 3, n) ==>
                    s'.ports[p.env] == if n in s.claimed then offered else n)
              && ((forall n :: !Typed(s.input, 3, n)) ==> s'.ports[p.env] == offered)
  {
    var o := Offered(s, p, c);
    if o.Ok? && c.asking && p.prompt {
      forall n | Typed(s.input, 3, n) ensures Asked(s.input, o.value, 3).0 == n {
        TypedIsTaken(s.input, o.value, 3, n);
      }
      NotOfferedIsTyped(s.input, o.value, 3);
    }
    hide Asked, Offered, Typed;
  }

  // ---------------------------------------------------------------- the whole plan

  predicate PinnedTo(p: Spec, c: Setting, n: int) {
    p.env in c.pinned && c.pinned[p.env] == n
  }

  ghost predicate SomePinnedTo(specs: seq<Spec>, c: Setting, n: int) {
    exists i :: 0 <= i < |specs| && PinnedTo(specs[i], c, n)
  }

  /** Spec j is pinned to the port of an earlier one. */
  ghost predicate Collides(specs: seq<Spec>, c: Setting, j: nat)
    requires j < |specs|
  {
    specs[j].env in c.pinned && SomePinnedTo(specs[..j], c, c.pinned[specs[j].env])
  }

  ghost predicate FirstCollision(specs: seq<Spec>, c: Setting, j: nat)
    requires j < |specs|
  {
    Collides(specs, c, j) && forall i :: 0 <= i < j ==> !Collides(specs, c, i)
  }

  /** This is what comes of the pins. */
  ghost predicate PinsGive(specs: seq<Spec>, input: seq<string>, c: Setting, r: Result<State>) {
    match r
    case Err(e) => exists j: nat | j < |specs| :: FirstCollision(specs, c, j) && e == PinsCollide(specs[j].env)
    case Ok(s) =>
      && s.input == input && (forall j :: 0 <= j < |specs| ==> !Collides(specs, c, j))
      && (forall n :: n in s.claimed <==> SomePinnedTo(specs, c, n))
  }

  lemma CollidesPrefix(specs: seq<Spec>, c: Setting, n: nat, j: nat)
    requires j < n <= |specs|
    ensures Collides(specs[..n], c, j) <==> Collides(specs, c, j)
    ensures FirstCollision(specs[..n], c, j) <==> FirstCollision(specs, c, j)
  {
    hide SomePinnedTo;
    forall i | 0 <= i <= j ensures Collides(specs[..n], c, i) <==> Collides(specs, c, i) {
      assert specs[..n][..i] == specs[..i];
    }
  }

  lemma SomePinnedSnoc(specs: seq<Spec>, p: Spec, c: Setting, n: int)
    ensures SomePinnedTo(specs + [p], c, n) <==> SomePinnedTo(specs, c, n) || PinnedTo(p, c, n)
  {
    hide PinnedTo;
    var xs := specs + [p];
    assert xs[|specs|] == p;
    if i :| 0 <= i < |specs| && PinnedTo(specs[i], c, n) {
      assert PinnedTo(xs[i], c, n);
    }
  }

  /** The pins fail exactly at the first that collides, and else are what is claimed. */
  lemma {:induction false} PinnedIs(specs: seq<Spec>, input: seq<string>, c: Setting)
    ensures PinsGive(specs, input, c, Pinned(specs, input, c))
  {
    if specs != [] {
      var n := |specs| - 1;
      PinnedIs(specs[..n], input, c);
      PinsGiveNext(specs, input, c, Pinned(specs[..n], input, c));
    }
  }

  lemma PinsGiveNext(specs: seq<Spec>, input: seq<string>, c: Setting, r: Result<State>)
    requires specs != [] && PinsGive(specs[..|specs| - 1], input, c, r)
    requires r == Pinned(specs[..|specs| - 1], input, c)
    ensures PinsGive(specs, input, c, Pinned(specs, input, c))
  {
    var (n, p) := (|specs| - 1, specs[|specs| - 1]);
    forall j | 0 <= j < n
      ensures Collides(specs[..n], c, j) <==> Collides(specs, c, j)
      ensures FirstCollision(specs[..n], c, j) <==> FirstCollision(specs, c, j)
    {
      CollidesPrefix(specs, c, n, j);
    }
    assert specs[..n] + [p] == specs;
    forall m ensures SomePinnedTo(specs, c, m) <==> SomePinnedTo(specs[..n], c, m) || PinnedTo(p, c, m) {
      SomePinnedSnoc(specs[..n], p, c, m);
    }
    hide SomePinnedTo;
    match r
    case Err(e) =>
      hide FirstCollision;
      var j: nat :| j < n && FirstCollision(specs[..n], c, j) && e == PinsCollide(specs[..n][j].env);
      assert FirstCollision(specs, c, j) && e == PinsCollide(specs[j].env);
    case Ok(s) =>
      if Collides(specs, c, n) {
        assert FirstCollision(specs, c, n);
      }
  }

  /** The first port that cannot be decided, among those that are not pinned. */
  ghost predicate StopsAt(specs: seq<Spec>, input: seq<string>, c: Setting, k: nat, e: Error)
    requires k < |Pending(specs, c)|
  {
    Before(specs, input, k, c).Ok? && Offered(Before(specs, input, k, c).value, Pending(specs, c)[k], c) == Err(e)
  }

  ghost predicate FailsAt(s: State, pending: seq<Spec>, c: Setting, k: nat, e: Error)
    requires k < |pending|
  {
    var r := AllDecided(s, pending[..k], c);
    r.Ok? && Offered(r.value, pending[k], c) == Err(e)
  }

  lemma {:induction false} AllDecidedFailsIff(s: State, pending: seq<Spec>, c: Setting, e: Error)
    ensures AllDecided(s, pending, c) == Err(e) <==> exists k: nat | k < |pending| :: FailsAt(s, pending, c, k, e)
  {
    if pending != [] {
      var n := |pending| - 1;
      AllDecidedFailsIff(s, pending[..n], c, e);
      forall k: nat | k < n ensures FailsAt(s, pending[..n], c, k, e) <==> FailsAt(s, pending, c, k, e) {
        hide AllDecided, Offered;
        assert pending[..n][..k] == pending[..k] && pending[..n][k] == pending[k];
      }
      if AllDecided(s, pending[..n], c).Ok? {
        DecidedIs(AllDecided(s, pending[..n], c).value, pending[n], c);
      }
      FailsLast(s, pending, c, e);
      hide FailsAt, Decided, Offered;
      if k: nat :| k < n && FailsAt(s, pending, c, k, e) {
        assert FailsAt(s, pending[..n], c, k, e);
      }
      if k: nat :| k < n && FailsAt(s, pending[..n], c, k, e) {
        assert FailsAt(s, pending, c, k, e);
      }
    }
  }

  lemma FailsLast(s: State, pending: seq<Spec>, c: Setting, e: Error)
    requires pending != []
    ensures var n := |pending| - 1;
            FailsAt(s, pending, c, n, e) <==>
              AllDecided(s, pending[..n], c).Ok? && AllDecided(s, pending, c) == Err(e)
  {
    var n := |pending| - 1;
    if AllDecided(s, pending[..n], c).Ok? {
      DecidedIs(AllDecided(s, pending[..n], c).value, pending[n], c);
    }
    hide Decided, Offered;
  }

  /** There is no plan exactly if a spec is pinned to the port of an earlier one, and then the first such is named; or
      else if for some other spec, in their order and after the ports given before it, no port can be offered, and
      then that is the error. */
  lemma PlanFailsIff(specs: seq<Spec>, input: seq<string>, c: Setting, e: Error)
    ensures Plan(specs, input, c) == Err(e) <==>
            || (exists j: nat | j < |specs| :: FirstCollision(specs, c, j) && e == PinsCollide(specs[j].env))
            || ((forall j :: 0 <= j < |specs| ==> !Collides(specs, c, j))
                && exists k: nat | k < |Pending(specs, c)| :: StopsAt(specs, input, c, k, e))
  {
    PinnedIs(specs, input, c);
    match Pinned(specs, input, c)
    case Err(_) =>
      hide Pinned, Collides;
    case Ok(s) =>
      var pending := Pending(specs, c);
      AllDecidedFailsIff(s, pending, c, e);
      forall k: nat | k < |pending| ensures FailsAt(s, pending, c, k, e) <==> StopsAt(specs, input, c, k, e) {
        hide Offered, AllDecided, Pinned;
      }
      hide Pinned, AllDecided, Pending, Collides, FailsAt, StopsAt;
  }

  /** And a plan gives the k-th spec that is not pinned, after the ports given before it and with the lines not read
      before it, the port that the operator types if asked, unless that is taken, and else the offered one. */
  lemma PlanGivesWhatWasTyped(specs: seq<Spec>, input: seq<string>, k: nat, c: Setting)
    requires SettingOk(specs, c) && Plan(specs, input, c).Ok? && k < |Pending(specs, c)|
    ensures Before(specs, input, k, c).Ok? && Before(specs, input, k + 1, c).Ok?
    ensures var p := Pending(specs, c)[k];
            var (s, s', ports) := (Before(specs, input, k, c).value, Before(specs, input, k + 1, c).value,
                                   Plan(specs, input, c).value.ports);
            && Offered(s, p, c).Ok? && p.env in ports
            && s'.claimed == s.claimed + {ports[p.env]}
            && s'.input == (if c.asking && p.prompt then Asked(s.input, Offered(s, p, c).value, 3).1 else s.input)
            && (forall n :: c.asking && p.prompt && Typed(s.input, 3, n) ==>
                  ports[p.env] == if n in s.claimed then Offered(s, p, c).value else n)
            && (!(c.asking && p.prompt) || (forall n :: !Typed(s.input, 3, n)) ==>
                  ports[p.env] == Offered(s, p, c).value)
  {
    PinnedOk(specs, input, c);
    PendingSpecs(specs, c);
    var (s0, pending) := (Pinned(specs, input, c).value, Pending(specs, c));
    hide Pinned, Pending, Offered, SettingOk, Decided, StateOk, Typed, Asked, Envs;
    DecidedStep(s0, pending, k, c);
    DecidedIs(AllDecided(s0, pending[..k], c).value, pending[k], c);
  }

  /** What was decided about the k-th is what the plan says. */
  lemma DecidedStep(s: State, pending: seq<Spec>, k: nat, c: Setting)
    requires StateOk(s) && SettingOk(pending, c) && AllDecided(s, pending, c).Ok? && Envs(pending) !! s.ports.Keys
    requires k < |pending|
    ensures AllDecided(s, pending[..k], c).Ok? && AllDecided(s, pending[..k + 1], c).Ok?
    ensures AllDecided(s, pending[..k + 1], c) == Decided(AllDecided(s, pending[..k], c).value, pending[k], c)
    ensures var e := pending[k].env;
            var (a, b) := (AllDecided(s, pending[..k + 1], c).value.ports, AllDecided(s, pending, c).value.ports);
            e in a && e in b && a[e] == b[e]
  {
    hide StateOk, Decided, DecidedWell, Envs;
    DecidedAt(s, pending, k, c);
    assert pending[..k + 1][..k] == pending[..k];
    if AllDecided(s, pending[..k + 1], c).Err? {
      DecidedErrStays(s, pending, k + 1, c);
    }
    KeptLater(s, pending, k + 1, c);
  }

  lemma {:induction false} KeptLater(s: State, pending: seq<Spec>, k: nat, c: Setting)
    requires StateOk(s) && SettingOk(pending, c) && AllDecided(s, pending, c).Ok? && Envs(pending) !! s.ports.Keys
    requires k <= |pending| && AllDecided(s, pending[..k], c).Ok?
    ensures var (a, b) := (AllDecided(s, pending[..k], c).value.ports, AllDecided(s, pending, c).value.ports);
            forall e :: e in a ==> e in b && b[e] == a[e]
    ensures k > 0 ==> pending[k - 1].env in AllDecided(s, pending[..k], c).value.ports
    decreases |pending|
  {
    hide StateOk, Decided, DecidedWell, Envs;
    if k == |pending| {
      assert pending[..k] == pending;
      if k > 0 {
        DecidedAt(s, pending, k - 1, c);
      }
    } else {
      var n := |pending| - 1;
      EnvsSnoc(pending);
      NewName(pending);
      assert SettingOk(pending[..n], c) && pending[..n][..k] == pending[..k];
      AllDecidedOk(s, pending[..n], c);
      DecidedOk(AllDecided(s, pending[..n], c).value, pending[n], c);
      KeptLater(s, pending[..n], k, c);
      var (a, m) := (AllDecided(s, pending[..k], c).value.ports, AllDecided(s, pending[..n], c).value.ports);
      hide AllDecided;
      forall e | e in a ensures e in AllDecided(s, pending, c).value.ports {
        assert e in m;
      }
    }
  }
}
