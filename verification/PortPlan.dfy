/**
 The port decision of `orchicon install` (cmd/orchicon/install_ports.go): pins win, defaults are kept where they
 can be, conflicts are moved upward or refused, and an operator may choose. Probing a port and the lines the
 operator types are parameters.
 */
module PortPlan {
  import opened Common
  import opened Text

  datatype Spec = Spec(env: string, defaults: map<string, int>, prompt: bool)

  datatype Error = PinsCollide(env: string) | NoDefault(env: string) | NoFreePort(env: string)
      | DefaultInUse(env: string)

  datatype Result<T> = Ok(value: T) | Err(error: Error)

  type Probe = int -> bool

  /** What does not change during one plan; `asking` is whether there is a terminal to ask on. */
  datatype Setting = Setting(instance: string, pinned: map<string, int>, probe: Probe, strict: bool, asking: bool)

  /** The ports assigned so far, as the code keeps them, and the lines not read yet. */
  datatype State = State(ports: map<string, int>, claimed: set<int>, input: seq<string>)

  const WINDOW := 1000
  const MAX_PORT := 65535

  // ---------------------------------------------------------------- a free port

  predicate Free(p: int, claimed: set<int>, probe: Probe) {
    p !in claimed && probe(p)
  }

  predicate InWindow(p: int, from: int) {
    from <= p < from + WINDOW && p <= MAX_PORT
  }

  /** The least free port of the window from `from` on. */
  ghost predicate IsNextFree(r: Option<int>, from: int, claimed: set<int>, probe: Probe) {
    match r
    case Some(n) =>
      InWindow(n, from) && Free(n, claimed, probe) && forall p :: from <= p < n ==> !Free(p, claimed, probe)
    case None => forall p :: InWindow(p, from) ==> !Free(p, claimed, probe)
  }

  function Scan(from: int, p: int, claimed: set<int>, probe: Probe): Option<int>
    decreases from + WINDOW - p
  {
    if !(p < from + WINDOW && p <= MAX_PORT) then None
    else if Free(p, claimed, probe) then Some(p)
    else Scan(from, p + 1, claimed, probe)
  }

  lemma {:induction false} ScanFinds(from: int, p: int, claimed: set<int>, probe: Probe)
    requires from <= p && forall q :: from <= q < p ==> !Free(q, claimed, probe)
    ensures IsNextFree(Scan(from, p, claimed, probe), from, claimed, probe)
    decreases from + WINDOW - p
  {
    if p < from + WINDOW && p <= MAX_PORT && !Free(p, claimed, probe) {
      ScanFinds(from, p + 1, claimed, probe);
    }
  }

  function NextFree(from: int, claimed: set<int>, probe: Probe): Option<int> {
    Scan(from, from, claimed, probe)
  }

  method NextFreePortFor(from: int, claimed: set<int>, probe: Probe) returns (r: Option<int>)
    ensures IsNextFree(r, from, claimed, probe) && r == NextFree(from, claimed, probe)
  {
    ScanFinds(from, from, claimed, probe);
    var p := from;
    while p < from + WINDOW && p <= MAX_PORT
      invariant from <= p && Scan(from, p, claimed, probe) == NextFree(from, claimed, probe)
    {
      if p in claimed {
        p := p + 1;
        continue;
      }
      if probe(p) {
        return Some(p);
      }
      p := p + 1;
    }
    r := None;
  }

  // ---------------------------------------------------------------- asking

  predicate AllDigits(s: string) {
    s != "" && forall k :: 0 <= k < |s| ==> '0' <= s[k] <= '9'
  }

  /** strconv.Atoi, without its limit of 64 bits: a number beyond it is no port either way. */
  function Atoi(s: string): Option<int> {
    if AllDigits(s) then Some(DigitsValue(s) as int)
    else if s != "" && s[0] == '+' && AllDigits(s[1..]) then Some(DigitsValue(s[1..]) as int)
    else if s != "" && s[0] == '-' && AllDigits(s[1..]) then Some(-(DigitsValue(s[1..]) as int))
    else None
  }

  predicate IsPort(n: int) {
    1 <= n <= MAX_PORT
  }

  /** The port chosen and the lines left: enter, the end of the input, and three bad entries all mean the default. */
  function Asked(input: seq<string>, def: int, tries: nat): (int, seq<string>) {
    if tries == 0 || input == [] then (def, input)
    else
      var line := TrimSpace(input[0]);
      if line == "" then (def, input[1..])
      else if Atoi(line).Some? && IsPort(Atoi(line).value) then (Atoi(line).value, input[1..])
      else Asked(input[1..], def, tries - 1)
  }

  lemma {:induction false} AskedIsPort(input: seq<string>, def: int, tries: nat)
    ensures var (n, rest) := Asked(input, def, tries);
            (n == def || IsPort(n)) && |input| - tries <= |rest| <= |input| && rest == input[|input| - |rest|..]
  {
    if tries > 0 && input != [] {
      AskedIsPort(input[1..], def, tries - 1);
    }
  }

  /** An entry that is asked about again. */
  predicate Refused(entry: string) {
    TrimSpace(entry) != "" && (Atoi(TrimSpace(entry)).Some? ==> !IsPort(Atoi(TrimSpace(entry)).value))
  }

  /** Entry i is the number of this port, and the entries before it were refused. */
  predicate TypedAt(input: seq<string>, i: nat, port: int) {
    && i < |input| && Atoi(TrimSpace(input[i])) == Some(port) && IsPort(port)
    && forall j :: 0 <= j < i ==> Refused(input[j])
  }

  ghost predicate Typed(input: seq<string>, tries: nat, port: int) {
    exists i: nat :: i < tries && TypedAt(input, i, port)
  }

  /** A port that was not offered was typed, in one of the tries. */
  lemma {:induction false} NotOfferedIsTyped(input: seq<string>, def: int, tries: nat)
    ensures var n := Asked(input, def, tries).0; n != def ==> Typed(input, tries, n)
  {
    hide Atoi, TrimSpace;
    var n := Asked(input, def, tries).0;
    if n != def && tries > 0 && input != [] {
      if Refused(input[0]) {
        NotOfferedIsTyped(input[1..], def, tries - 1);
        TypedLater(input, tries, n);
      } else {
        NothingBetween(TrimSpace(input[0]));
        assert TypedAt(input, 0, n);
      }
    }
  }

  lemma NothingBetween(entry: string)
    ensures entry == "" ==> Atoi(entry).None?
  {
  }

  lemma TypedLater(input: seq<string>, tries: nat, n: int)
    requires tries > 0 && input != [] && Refused(input[0]) && Typed(input[1..], tries - 1, n)
    ensures Typed(input, tries, n)
  {
    hide Atoi, TrimSpace, Refused, IsPort;
    var i: nat :| i < tries - 1 && TypedAt(input[1..], i, n);
    forall j | 0 <= j < i + 1 ensures Refused(input[j]) {
      assert j > 0 ==> input[j] == input[1..][j - 1];
    }
    assert TypedAt(input, i + 1, n);
  }

  method AskInstallPort(input: seq<string>, def: int) returns (n: int, rest: seq<string>)
    ensures (n, rest) == Asked(input, def, 3)
    ensures n == def || IsPort(n)
  {
    AskedIsPort(input, def, 3);
    rest := input;
    for attempt := 0 to 3
      invariant Asked(input, def, 3) == Asked(rest, def, 3 - attempt)
    {
      if |rest| == 0 {
        return def, rest;
      }
      var line := TrimSpace(rest[0]);
      rest := rest[1..];
      if line == "" {
        return def, rest;
      }
      var v := Atoi(line);
      if v.Some? && 1 <= v.value <= 65535 {
        return v.value, rest;
      }
    }
    n := def;
  }

  // ---------------------------------------------------------------- the plan

  function Assigned(s: State, env: string, port: int): State {
    s.(ports := s.ports[env := port], claimed := s.claimed + {port})
  }

  function Pinned(specs: seq<Spec>, input: seq<string>, c: Setting): Result<State> {
    if specs == [] then Ok(State(map[], {}, input))
    else
      var p := specs[|specs| - 1];
      match Pinned(specs[..|specs| - 1], input, c)
      case Err(e) => Err(e)
      case Ok(s) =>
        if p.env !in c.pinned then Ok(s)
        else if c.pinned[p.env] in s.claimed then Err(PinsCollide(p.env))
        else Ok(Assigned(s, p.env, c.pinned[p.env]))
  }

  function Pending(specs: seq<Spec>, c: Setting): seq<Spec> {
    if specs == [] then []
    else Pending(specs[..|specs| - 1], c) + if specs[|specs| - 1].env in c.pinned then [] else [specs[|specs| - 1]]
  }

  /** The port a spec gets unless the operator says otherwise. */
  function Offered(s: State, p: Spec, c: Setting): Result<int> {
    if c.instance !in p.defaults then Err(NoDefault(p.env))
    else
      var def := p.defaults[c.instance];
      if Free(def, s.claimed, c.probe) then Ok(def)
      else match NextFree(def + 1, s.claimed, c.probe)
        case None => Err(NoFreePort(p.env))
        case Some(n) => if c.strict then Err(DefaultInUse(p.env)) else Ok(n)
  }

  predicate IsAsked(p: Spec, c: Setting) {
    c.asking && p.prompt
  }

  function Decided(s: State, p: Spec, c: Setting): Result<State> {
    match Offered(s, p, c)
    case Err(e) => Err(e)
    case Ok(offered) =>
      if !IsAsked(p, c) then Ok(Assigned(s, p.env, offered))
      else
        var (chosen, rest) := Asked(s.input, offered, 3);
        Ok(Assigned(s.(input := rest), p.env, if chosen in s.claimed then offered else chosen))
  }

  function AllDecided(s: State, pending: seq<Spec>, c: Setting): Result<State> {
    if pending == [] then Ok(s)
    else match AllDecided(s, pending[..|pending| - 1], c)
      case Err(e) => Err(e)
      case Ok(s1) => Decided(s1, pending[|pending| - 1], c)
  }

  function Plan(specs: seq<Spec>, input: seq<string>, c: Setting): Result<State> {
    match Pinned(specs, input, c)
    case Err(e) => Err(e)
    case Ok(s) => AllDecided(s, Pending(specs, c), c)
  }

  lemma {:induction false} DecidedErrStays(s: State, pending: seq<Spec>, i: nat, c: Setting)
    requires i <= |pending| && AllDecided(s, pending[..i], c).Err?
    ensures AllDecided(s, pending, c) == AllDecided(s, pending[..i], c)
    decreases |pending|
  {
    hide Decided;
    if i == |pending| {
      assert pending[..i] == pending;
    } else {
      var n := |pending| - 1;
      assert pending[..n][..i] == pending[..i];
      DecidedErrStays(s, pending[..n], i, c);
    }
  }

  lemma {:induction false} PinnedErrStays(specs: seq<Spec>, input: seq<string>, i: nat, c: Setting)
    requires i <= |specs| && Pinned(specs[..i], input, c).Err?
    ensures Pinned(specs, input, c) == Pinned(specs[..i], input, c)
    decreases |specs|
  {
    if i == |specs| {
      assert specs[..i] == specs;
    } else {
      var n := |specs| - 1;
      assert specs[..n][..i] == specs[..i];
      PinnedErrStays(specs[..n], input, i, c);
    }
  }

  method PlanInstallPorts(specs: seq<Spec>, input: seq<string>, c: Setting) returns (r: Result<map<string, int>>)
    ensures match Plan(specs, input, c)
            case Ok(s) => r == Ok(s.ports)
            case Err(e) => r == Err(e)
  {
    hide Decided, Free, NextFree;
    var ports: map<string, int>, claimed: set<int>, pending: seq<Spec> := map[], {}, [];
    for i := 0 to |specs|
      invariant Pinned(specs[..i], input, c) == Ok(State(ports, claimed, input)) && pending == Pending(specs[..i], c)
    {
      var p := specs[i];
      assert specs[..i + 1][..i] == specs[..i];
      if p.env !in c.pinned {
        pending := pending + [p];
        continue;
      }
      var n := c.pinned[p.env];
      if n in claimed {
        PinnedErrStays(specs, input, i + 1, c);
        return Err(PinsCollide(p.env));
      }
      ports, claimed := ports[p.env := n], claimed + {n};
    }
    assert specs[..|specs|] == specs;
    ghost var s0 := State(ports, claimed, input);
    var rest := input;
    for i := 0 to |pending|
      invariant AllDecided(s0, pending[..i], c) == Ok(State(ports, claimed, rest))
    {
      var p := pending[i];
      assert pending[..i + 1][..i] == pending[..i];
      ghost var s := State(ports, claimed, rest);
      var port, left, error := DecideOne(p, ports, claimed, rest, c);
      if error.Some? {
        DecidedErrStays(s0, pending, i + 1, c);
        return Err(error.value);
      }
      ports, claimed, rest := ports[p.env := port], claimed + {port}, left;
    }
    assert pending[..|pending|] == pending;
    r := Ok(ports);
  }

  method DecideOne(p: Spec, ports: map<string, int>, claimed: set<int>, input: seq<string>, c: Setting)
    returns (port: int, rest: seq<string>, error: Option<Error>)
    ensures match Decided(State(ports, claimed, input), p, c)
            case Err(e) => error == Some(e)
            case Ok(s) => error == None && s == State(ports[p.env := port], claimed + {port}, rest)
  {
    hide NextFree, Asked;
    rest, error := input, None;
    if c.instance !in p.defaults {
      return 0, rest, Some(NoDefault(p.env));
    }
    var def := p.defaults[c.instance];
    if def in claimed || !c.probe(def) {
      var next := NextFreePortFor(def + 1, claimed, c.probe);
      if next.None? {
        return 0, rest, Some(NoFreePort(p.env));
      }
      if c.strict {
        return 0, rest, Some(DefaultInUse(p.env));
      }
      def := next.value;
    }
    if !c.asking || !p.prompt {
      return def, rest, None;
    }
    port, rest := AskInstallPort(input, def);
    if port in claimed {
      port := def;
    }
  }

  // ---------------------------------------------------------------- what a plan is worth

  /** Every name once, and pins that are ports, as the caller of the plan checks. */
  predicate SettingOk(specs: seq<Spec>, c: Setting) {
    && (forall i, j :: 0 <= i < j < |specs| ==> specs[i].env != specs[j].env)
    && (forall e :: e in c.pinned ==> IsPort(c.pinned[e]))
    && (forall i :: 0 <= i < |specs| && c.instance in specs[i].defaults ==> IsPort(specs[i].defaults[c.instance]))
  }

  function Envs(specs: seq<Spec>): set<string> {
    set i | 0 <= i < |specs| :: specs[i].env
  }

  lemma EnvsSnoc(specs: seq<Spec>)
    requires specs != []
    ensures var n := |specs| - 1; Envs(specs) == Envs(specs[..n]) + {specs[n].env}
  {
    var n := |specs| - 1;
    forall e | e in Envs(specs[..n]) ensures e in Envs(specs) {
      var i :| 0 <= i < n && specs[..n][i].env == e;
      assert specs[i].env == e;
    }
    forall e | e in Envs(specs) && e != specs[n].env ensures e in Envs(specs[..n]) {
      var i :| 0 <= i < |specs| && specs[i].env == e;
      assert specs[..n][i].env == e;
    }
  }

  /** `claimed` is exactly what was assigned, each port once, and all are ports. */
  ghost predicate StateOk(s: State) {
    && (forall e :: e in s.ports ==> s.ports[e] in s.claimed && IsPort(s.ports[e]))
    && (forall n :: n in s.claimed ==> exists e :: e in s.ports && s.ports[e] == n)
    && (forall e, f :: e in s.ports && f in s.ports && s.ports[e] == s.ports[f] ==> e == f)
  }

  lemma AssignedOk(s: State, env: string, port: int)
    requires StateOk(s) && env !in s.ports && port !in s.claimed && IsPort(port)
    ensures StateOk(Assigned(s, env, port))
  {
    var s' := Assigned(s, env, port);
    forall n | n in s'.claimed ensures exists e :: e in s'.ports && s'.ports[e] == n {
      if n in s.claimed {
        var e :| e in s.ports && s.ports[e] == n;
        assert e in s'.ports && s'.ports[e] == n;
      } else {
        assert env in s'.ports && s'.ports[env] == n;
      }
    }
  }

  /** How the port of an unpinned spec comes about. */
  predicate DecidedWell(s: State, p: Spec, port: int, c: Setting) {
    var o := Offered(s, p, c);
    && o.Ok? && port !in s.claimed
    && (port != o.value ==> IsAsked(p, c) && port == Asked(s.input, o.value, 3).0)
    && (!IsAsked(p, c) ==> port == o.value)
  }

  lemma DecidedOk(s: State, p: Spec, c: Setting)
    requires StateOk(s) && p.env !in s.ports && Decided(s, p, c).Ok?
    requires c.instance in p.defaults ==> IsPort(p.defaults[c.instance])
    ensures var s' := Decided(s, p, c).value;
            && StateOk(s') && s'.ports.Keys == s.ports.Keys + {p.env}
            && (forall e :: e in s.ports ==> s'.ports[e] == s.ports[e])
            && DecidedWell(s, p, s'.ports[p.env], c)
  {
    hide StateOk, NextFree, Asked;
    OfferedIsFree(s, p, c);
    var o := Offered(s, p, c).value;
    AskedIsPort(s.input, o, 3);
    var port := Decided(s, p, c).value.ports[p.env];
    AssignedOk(s, p.env, port);
    StateOkInput(Assigned(s, p.env, port), Decided(s, p, c).value);
  }

  lemma StateOkInput(s: State, s': State)
    requires StateOk(s) && s'.ports == s.ports && s'.claimed == s.claimed
    ensures StateOk(s')
  {
  }

  /** The default wherever it is free and unclaimed; else, and never in strict mode, the least port above it
      that is. */
  lemma OfferedIsFree(s: State, p: Spec, c: Setting)
    requires c.instance in p.defaults
    ensures var def, o := p.defaults[c.instance], Offered(s, p, c);
            && (o.Ok? ==> Free(o.value, s.claimed, c.probe) && (IsPort(def) ==> IsPort(o.value)))
            && (Free(def, s.claimed, c.probe) ==> o == Ok(def))
            && (!Free(def, s.claimed, c.probe) && c.strict ==> o.Err?)
            && (!Free(def, s.claimed, c.probe) && !c.strict ==>
                  IsNextFree(if o.Ok? then Some(o.value) else None, def + 1, s.claimed, c.probe))
  {
    var def := p.defaults[c.instance];
    ScanFinds(def + 1, def + 1, s.claimed, c.probe);
  }

  lemma {:induction false} PinnedOk(specs: seq<Spec>, input: seq<string>, c: Setting)
    requires SettingOk(specs, c) && Pinned(specs, input, c).Ok?
    ensures var s := Pinned(specs, input, c).value;
            StateOk(s) && s.ports.Keys == Envs(specs) * c.pinned.Keys
            && forall e :: e in s.ports ==> s.ports[e] == c.pinned[e]
  {
    hide StateOk, Envs;
    if specs == [] {
      NothingAssigned(input);
    } else {
      var n := |specs| - 1;
      EnvsSnoc(specs);
      NewName(specs);
      PinnedOk(specs[..n], input, c);
      var s, p := Pinned(specs[..n], input, c).value, specs[n];
      if p.env in c.pinned {
        AssignedOk(s, p.env, c.pinned[p.env]);
      }
    }
  }

  lemma NewName(specs: seq<Spec>)
    requires specs != [] && forall i, j :: 0 <= i < j < |specs| ==> specs[i].env != specs[j].env
    ensures specs[|specs| - 1].env !in Envs(specs[..|specs| - 1])
  {
  }

  lemma NothingAssigned(input: seq<string>)
    ensures StateOk(State(map[], {}, input)) && Envs([]) == {}
  {
  }

  lemma EnvsAppend(specs: seq<Spec>, p: Spec)
    ensures Envs(specs + [p]) == Envs(specs) + {p.env}
  {
    assert (specs + [p])[..|specs|] == specs;
    EnvsSnoc(specs + [p]);
  }

  /** The pending specs are the unpinned ones, in order. */
  lemma {:induction false} PendingEnvs(specs: seq<Spec>, c: Setting)
    ensures Envs(Pending(specs, c)) == Envs(specs) - c.pinned.Keys
  {
    hide Envs;
    if specs == [] {
      NothingAssigned([]);
    } else {
      var n := |specs| - 1;
      PendingEnvs(specs[..n], c);
      EnvsSnoc(specs);
      EnvsAppend(Pending(specs[..n], c), specs[n]);
      assert Pending(specs[..n], c) + [] == Pending(specs[..n], c);
    }
  }

  lemma {:induction false} PendingSpecs(specs: seq<Spec>, c: Setting)
    requires SettingOk(specs, c)
    ensures SettingOk(Pending(specs, c), c) && Envs(Pending(specs, c)) == Envs(specs) - c.pinned.Keys
  {
    PendingEnvs(specs, c);
    if specs != [] {
      var n := |specs| - 1;
      assert SettingOk(specs[..n], c);
      PendingSpecs(specs[..n], c);
      NewName(specs);
      AppendedSetting(Pending(specs[..n], c), specs[n], c);
    }
  }

  lemma AppendedSetting(specs: seq<Spec>, p: Spec, c: Setting)
    requires SettingOk(specs, c) && p.env !in Envs(specs)
    requires c.instance in p.defaults ==> IsPort(p.defaults[c.instance])
    ensures SettingOk(specs + [p], c)
  {
    forall i | 0 <= i < |specs| ensures specs[i].env != p.env {
      assert specs[i].env in Envs(specs);
    }
  }

  lemma {:induction false} AllDecidedOk(s: State, pending: seq<Spec>, c: Setting)
    requires StateOk(s) && SettingOk(pending, c) && AllDecided(s, pending, c).Ok? && Envs(pending) !! s.ports.Keys
    ensures var s' := AllDecided(s, pending, c).value;
            && StateOk(s') && s'.ports.Keys == s.ports.Keys + Envs(pending)
            && (forall e :: e in s.ports ==> s'.ports[e] == s.ports[e])
  {
    hide StateOk, Decided, DecidedWell, Envs;
    if pending == [] {
      NothingAssigned([]);
    } else {
      var n := |pending| - 1;
      EnvsSnoc(pending);
      NewName(pending);
      assert SettingOk(pending[..n], c);
      AllDecidedOk(s, pending[..n], c);
      DecidedOk(AllDecided(s, pending[..n], c).value, pending[n], c);
    }
  }

  /** What the k-th pending spec was given, seen from the end. */
  lemma {:induction false} DecidedAt(s: State, pending: seq<Spec>, k: nat, c: Setting)
    requires StateOk(s) && SettingOk(pending, c) && AllDecided(s, pending, c).Ok? && Envs(pending) !! s.ports.Keys
    requires k < |pending|
    ensures AllDecided(s, pending[..k], c).Ok?
    ensures var ports := AllDecided(s, pending, c).value.ports;
            && pending[k].env in ports
            && DecidedWell(AllDecided(s, pending[..k], c).value, pending[k], ports[pending[k].env], c)
    decreases |pending|
  {
    hide StateOk, Decided, DecidedWell, Envs;
    var n := |pending| - 1;
    EnvsSnoc(pending);
    NewName(pending);
    assert SettingOk(pending[..n], c);
    AllDecidedOk(s, pending[..n], c);
    DecidedOk(AllDecided(s, pending[..n], c).value, pending[n], c);
    if k < n {
      assert pending[..n][..k] == pending[..k] && pending[..n][k] == pending[k];
      DecidedAt(s, pending[..n], k, c);
    }
  }

  /** A plan that succeeds gives every spec a port, no two the same, all in range, and honours every pin. */
  lemma PlanIsComplete(specs: seq<Spec>, input: seq<string>, c: Setting)
    requires SettingOk(specs, c) && Plan(specs, input, c).Ok?
    ensures var ports := Plan(specs, input, c).value.ports;
            && ports.Keys == Envs(specs)
            && (forall e, f :: e in ports && f in ports && ports[e] == ports[f] ==> e == f)
            && (forall e :: e in ports ==> IsPort(ports[e]))
            && (forall e :: e in ports && e in c.pinned ==> ports[e] == c.pinned[e])
  {
    hide Envs, AllDecided, Pinned, Pending, SettingOk;
    PinnedOk(specs, input, c);
    PendingSpecs(specs, c);
    AllDecidedOk(Pinned(specs, input, c).value, Pending(specs, c), c);
  }

  /** The ports taken before an unpinned spec is decided. */
  function Before(specs: seq<Spec>, input: seq<string>, k: nat, c: Setting): Result<State>
    requires k <= |Pending(specs, c)|
  {
    match Pinned(specs, input, c)
    case Err(e) => Err(e)
    case Ok(s) => AllDecided(s, Pending(specs, c)[..k], c)
  }

  /** How an unpinned port of a plan is related to its default: it is the default if that is free and was not taken
      before, else the least free port above it that was not; in strict mode the default and nothing else; and only
      if the operator, being asked, typed another port within three tries, it is that one. So a port that was busy
      when the plan was made is in it only because somebody pinned it or typed it. */
  lemma PlanMovesOnlyWhatItMust(specs: seq<Spec>, input: seq<string>, k: nat, c: Setting)
    requires SettingOk(specs, c) && Plan(specs, input, c).Ok? && k < |Pending(specs, c)|
    ensures Before(specs, input, k, c).Ok?
    ensures var p := Pending(specs, c)[k];
            var (s, ports) := (Before(specs, input, k, c).value, Plan(specs, input, c).value.ports);
            && p.env in ports && c.instance in p.defaults && ports[p.env] !in s.claimed && Offered(s, p, c).Ok?
            && var n, def := ports[p.env], p.defaults[c.instance];
               if n == Offered(s, p, c).value then
                 && c.probe(n)
                 && (Free(def, s.claimed, c.probe) ==> n == def)
                 && (c.strict ==> n == def)
                 && (!Free(def, s.claimed, c.probe) ==> IsNextFree(Some(n), def + 1, s.claimed, c.probe))
               else IsAsked(p, c) && Typed(s.input, 3, n)
  {
    hide AllDecided, Pinned, Pending, SettingOk, Asked, NextFree, StateOk, Envs, IsNextFree, Typed;
    PinnedOk(specs, input, c);
    PendingSpecs(specs, c);
    var s0, pending := Pinned(specs, input, c).value, Pending(specs, c);
    DecidedAt(s0, pending, k, c);
    PlanIsComplete(specs, input, c);
    var s, p := Before(specs, input, k, c).value, pending[k];
    OfferedIsFree(s, p, c);
    NotOfferedIsTyped(s.input, Offered(s, p, c).value, 3);
    assert p.env in Plan(specs, input, c).value.ports;
  }
}
