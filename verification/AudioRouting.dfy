/**
  Audio stream routing: each session is routed to a set of ports, and an open
  stream holds one COPP (an opened port instance on the DSP) per routed port.

  Opening a COPP may fail; `adm` gives the handle for each port, or a negative
  value for a failure. The DSP may hand out one handle more than once, so handles
  are counted.

  Mixer controls take no lock, so a port map can change at any moment of an open:
  what its empty test and each of its searches read are inputs of the open. A
  close looks its session up before it takes the lock, so the session it closes
  is an input too.
*/
module AudioRouting {

  const EINVAL := 22
  const ENOSPC := 28

  /** A COPP array keeps its old entries past the count. */
  datatype Session = Session(ports: set<nat>, fedaiId: int, copps: seq<int>, numCopps: nat)

  /** The sessions, and every COPP ever opened and closed. */
  datatype State = State(sessions: seq<Session>, acquired: multiset<int>, released: multiset<int>)

  /** How many ports there are, and how many COPPs a session has room for. */
  datatype Limits = Limits(maxPorts: nat, maxCopps: nat)

  /** The route that a successful open sends to the DSP. */
  datatype Payload = Payload(ports: seq<nat>, copps: seq<int>)

  datatype Opened = Opened(ret: int, payload: Payload)

  predicate ValidSession(l: Limits, s: Session) {
    |s.copps| == l.maxCopps && s.numCopps <= l.maxCopps && forall p :: p in s.ports ==> p < l.maxPorts
  }

  function Held(s: Session): seq<int>
    requires s.numCopps <= |s.copps|
  {
    s.copps[..s.numCopps]
  }

  predicate Valid(l: Limits, sessions: seq<Session>) {
    forall i :: 0 <= i < |sessions| ==> ValidSession(l, sessions[i])
  }

  // ---------- specification ----------

  /** The first set bit of a map from `from` on, or max. */
  function NextBit(m: set<nat>, from: nat, max: nat): (p: nat)
    requires from <= max
    ensures from <= p <= max && (p < max ==> p in m) && forall q :: from <= q < p ==> q !in m
    decreases max - from
  {
    if from == max || from in m then from else NextBit(m, from + 1, max)
  }

  /** The ports found by searching on, from turn t: maps(t) is what turn t's search reads. */
  function Found(maps: nat -> set<nat>, t: nat, from: nat, max: nat): seq<nat>
    requires from <= max
    decreases max - from
  {
    var p := NextBit(maps(t), from, max);
    if p == max then [] else [p] + Found(maps, t + 1, p + 1, max)
  }

  datatype Acquired = Acquired(ret: int, got: seq<int>)

  /** Opens the listed ports in order until one fails or there is no room. */
  function Acquire(ports: seq<nat>, room: nat, adm: nat -> int): (a: Acquired)
    ensures |a.got| <= room && |a.got| <= |ports|
    decreases |ports|
  {
    if ports == [] then Acquired(0, [])
    else if room == 0 then Acquired(-ENOSPC, [])
    else if adm(ports[0]) < 0 then Acquired(-EINVAL, [])
    else
      var a := Acquire(ports[1..], room - 1, adm);
      Acquired(a.ret, [adm(ports[0])] + a.got)
  }

  function Release(s: State, i: nat): State
    requires i < |s.sessions| && s.sessions[i].numCopps <= |s.sessions[i].copps|
  {
    State(s.sessions[i := s.sessions[i].(numCopps := 0)], s.acquired, s.released + multiset(Held(s.sessions[i])))
  }

  function Ports(l: Limits, maps: nat -> set<nat>): seq<nat> { Found(maps, 0, 0, l.maxPorts) }

  predicate Empty(l: Limits, tested: set<nat>) { NextBit(tested, 0, l.maxPorts) == l.maxPorts }

  /** An open whose empty test reads `tested` and whose searches read `maps`. */
  function StreamOpen(l: Limits, s: State, i: nat, fedaiId: int, tested: set<nat>, maps: nat -> set<nat>,
                      adm: nat -> int): State
    requires i < |s.sessions| && Valid(l, s.sessions)
  {
    var x := s.sessions[i];
    if Empty(l, tested) then s
    else
      var a := Acquire(Ports(l, maps), l.maxCopps, adm);
      var y := Session(x.ports, fedaiId, a.got + x.copps[|a.got|..], if a.ret == 0 then |a.got| else 0);
      State(s.sessions[i := y], s.acquired + multiset(a.got),
            s.released + multiset(Held(x)) + if a.ret == 0 then multiset{} else multiset(a.got))
  }

  function OpenResult(l: Limits, tested: set<nat>, maps: nat -> set<nat>, adm: nat -> int): Opened {
    var a := Acquire(Ports(l, maps), l.maxCopps, adm);
    if Empty(l, tested) then Opened(-EINVAL, Payload([], []))
    else Opened(a.ret, if a.ret == 0 then Payload(Ports(l, maps), a.got) else Payload([], []))
  }

  /** The first session of a frontend. */
  function Find(sessions: seq<Session>, fedaiId: int, from: nat := 0): (i: nat)
    requires from <= |sessions|
    ensures from <= i <= |sessions| && (i < |sessions| ==> sessions[i].fedaiId == fedaiId)
    ensures forall k :: from <= k < i ==> sessions[k].fedaiId != fedaiId
    decreases |sessions| - from
  {
    if from == |sessions| || sessions[from].fedaiId == fedaiId then from else Find(sessions, fedaiId, from + 1)
  }

  /** A close of the session found, whoever has opened it since. */
  function StreamClose(l: Limits, s: State, i: nat): State
    requires Valid(l, s.sessions) && i < |s.sessions|
  {
    var r := Release(s, i);
    r.(sessions := r.sessions[i := r.sessions[i].(fedaiId := -1)])
  }

  function Route(s: State, i: nat, port: nat, on: bool): State
    requires i < |s.sessions|
  {
    var x := s.sessions[i];
    s.(sessions := s.sessions[i := x.(ports := if on then x.ports + {port} else x.ports - {port})])
  }

  datatype Action =
    | Mixer(i: nat, port: nat, on: bool)
    | Open(i: nat, fedaiId: int, tested: set<nat>, maps: nat -> set<nat>, adm: nat -> int)
    | Close(i: nat)

  /** A control or stream that does not exist changes nothing. */
  function Step(l: Limits, s: State, a: Action): State
    requires Valid(l, s.sessions)
  {
    match a
    case Mixer(i, port, on) => if i < |s.sessions| && port < l.maxPorts then Route(s, i, port, on) else s
    case Open(i, fedaiId, tested, maps, adm) =>
      if i < |s.sessions| then StreamOpen(l, s, i, fedaiId, tested, maps, adm) else s
    case Close(i) => if i < |s.sessions| then StreamClose(l, s, i) else s
  }

  // ---------- conservation ----------

  /** Every COPP some session holds, counted. */
  function AllHeld(l: Limits, sessions: seq<Session>): multiset<int>
    requires Valid(l, sessions)
    decreases |sessions|
  {
    if sessions == [] then multiset{}
    else AllHeld(l, sessions[..|sessions| - 1]) + multiset(Held(sessions[|sessions| - 1]))
  }

  /** What was opened is what was closed and what is held: nothing leaks, and nothing is closed twice. */
  predicate Conserved(l: Limits, s: State) {
    Valid(l, s.sessions) && s.acquired == s.released + AllHeld(l, s.sessions)
  }

  lemma Shuffle(a: multiset<int>, b: multiset<int>, c: multiset<int>, d: multiset<int>, e: multiset<int>)
    requires a + b == c + d
    ensures (a + e) + b == (c + e) + d
  {
    assert (a + e) + b == (a + b) + e;
    assert (c + e) + d == (c + d) + e;
  }

  lemma {:induction false} HeldUpdate(l: Limits, sessions: seq<Session>, i: nat, x: Session)
    requires Valid(l, sessions) && i < |sessions| && ValidSession(l, x)
    ensures Valid(l, sessions[i := x])
    ensures AllHeld(l, sessions[i := x]) + multiset(Held(sessions[i])) == AllHeld(l, sessions) + multiset(Held(x))
    decreases |sessions|
  {
    hide Held;
    var n := |sessions| - 1;
    var pre, last := sessions[..n], sessions[n];
    var after := sessions[i := x];
    if i == n {
      assert after[..n] == pre;
      var p := AllHeld(l, pre);
      assert (p + multiset(Held(x))) + multiset(Held(last)) == (p + multiset(Held(last))) + multiset(Held(x));
    } else {
      HeldUpdate(l, pre, i, x);
      assert after[..n] == pre[i := x] && after[n] == last;
      Shuffle(AllHeld(l, pre[i := x]), multiset(Held(pre[i])), AllHeld(l, pre), multiset(Held(x)),
              multiset(Held(last)));
    }
  }

  /** One session's books: g newly held, o no longer, b opened and closed at once. */
  lemma Balance(acq: multiset<int>, rel: multiset<int>, was: multiset<int>, now: multiset<int>,
                o: multiset<int>, g: multiset<int>, b: multiset<int>)
    requires acq == rel + was && now + o == was + g
    ensures acq + (g + b) == (rel + o + b) + now
  {
    assert acq + (g + b) == rel + (was + g) + b;
    assert (rel + o + b) + now == rel + (now + o) + b;
  }

  lemma OpenConserves(l: Limits, s: State, i: nat, fedaiId: int, tested: set<nat>, maps: nat -> set<nat>,
                      adm: nat -> int)
    requires Conserved(l, s) && i < |s.sessions|
    ensures Conserved(l, StreamOpen(l, s, i, fedaiId, tested, maps, adm))
  {
    hide Acquire, Ports, AllHeld, Empty;
    var x := s.sessions[i];
    if !Empty(l, tested) {
      var a := Acquire(Ports(l, maps), l.maxCopps, adm);
      var y := Session(x.ports, fedaiId, a.got + x.copps[|a.got|..], if a.ret == 0 then |a.got| else 0);
      assert Held(y) == if a.ret == 0 then a.got else [];
      HeldUpdate(l, s.sessions, i, y);
      var got := multiset(a.got);
      var was, now := AllHeld(l, s.sessions), AllHeld(l, s.sessions[i := y]);
      hide Held, ValidSession, Valid;
      if a.ret == 0 {
        Balance(s.acquired, s.released, was, now, multiset(Held(x)), got, multiset{});
        assert got + multiset{} == got;
      } else {
        assert multiset(Held(y)) == multiset{};
        Balance(s.acquired, s.released, was, now, multiset(Held(x)), multiset{}, got);
        assert multiset{} + got == got;
      }
    }
  }

  /** A session that gives up its COPPs, if it held any. */
  lemma ReleaseConserves(l: Limits, s: State, i: nat, y: Session)
    requires Conserved(l, s) && i < |s.sessions| && ValidSession(l, y) && y.numCopps == 0
    ensures Conserved(l, State(s.sessions[i := y], s.acquired, s.released + multiset(Held(s.sessions[i]))))
  {
    hide AllHeld;
    assert Held(y) == [];
    HeldUpdate(l, s.sessions, i, y);
    var o := multiset(Held(s.sessions[i]));
    hide Held, ValidSession, Valid;
    Balance(s.acquired, s.released, AllHeld(l, s.sessions), AllHeld(l, s.sessions[i := y]), o, multiset{}, multiset{});
    assert s.acquired + (multiset{} + multiset{}) == s.acquired;
    assert s.released + o + multiset{} == s.released + o;
  }

  lemma CloseConserves(l: Limits, s: State, i: nat)
    requires Conserved(l, s) && i < |s.sessions|
    ensures Conserved(l, StreamClose(l, s, i))
  {
    hide AllHeld, Held;
    var y := s.sessions[i].(numCopps := 0, fedaiId := -1);
    ReleaseConserves(l, s, i, y);
    var r := Release(s, i);
    assert r.sessions[i := r.sessions[i].(fedaiId := -1)] == s.sessions[i := y];
  }

  lemma RouteConserves(l: Limits, s: State, i: nat, port: nat, on: bool)
    requires Conserved(l, s) && i < |s.sessions| && port < l.maxPorts
    ensures Conserved(l, Route(s, i, port, on))
  {
    hide AllHeld;
    var x := s.sessions[i];
    var y := x.(ports := if on then x.ports + {port} else x.ports - {port});
    assert Held(y) == Held(x);
    HeldUpdate(l, s.sessions, i, y);
    var h := multiset(Held(x));
    SameSum(AllHeld(l, s.sessions[i := y]), AllHeld(l, s.sessions), h);
  }

  lemma SameSum(a: multiset<int>, b: multiset<int>, c: multiset<int>)
    requires a + c == b + c
    ensures a == b
  {
    assert (a + c) - c == a && (b + c) - c == b;
  }

  lemma StepConserves(l: Limits, s: State, a: Action)
    requires Conserved(l, s)
    ensures Conserved(l, Step(l, s, a))
  {
    hide AllHeld, StreamOpen, StreamClose, Route;
    match a
    case Mixer(i, port, on) =>
      if i < |s.sessions| && port < l.maxPorts {
        RouteConserves(l, s, i, port, on);
      }
    case Open(i, fedaiId, tested, maps, adm) =>
      if i < |s.sessions| {
        OpenConserves(l, s, i, fedaiId, tested, maps, adm);
      }
    case Close(i) =>
      if i < |s.sessions| {
        CloseConserves(l, s, i);
      }
  }

  lemma Counts(a: multiset<int>, b: multiset<int>, c: multiset<int>)
    requires a == b + c
    ensures b <= a && |a| == |b| + |c|
  {
  }

  /** The states of a run. */
  ghost predicate Reaches(l: Limits, s: State, actions: seq<Action>, t: State)
    decreases |actions|
  {
    if actions == [] then t == s
    else Valid(l, s.sessions) && Reaches(l, Step(l, s, actions[0]), actions[1..], t)
  }

  function SumCopps(sessions: seq<Session>): nat
    decreases |sessions|
  {
    if sessions == [] then 0 else SumCopps(sessions[..|sessions| - 1]) + sessions[|sessions| - 1].numCopps
  }

  lemma {:induction false} CountsHeld(l: Limits, sessions: seq<Session>)
    requires Valid(l, sessions)
    ensures |AllHeld(l, sessions)| == SumCopps(sessions)
    decreases |sessions|
  {
    if sessions != [] {
      var n := |sessions| - 1;
      CountsHeld(l, sessions[..n]);
      Counts(AllHeld(l, sessions), AllHeld(l, sessions[..n]), multiset(Held(sessions[n])));
    }
  }

  /**
    Over any run of mixer changes, also in the middle of an open, opens that fail
    anywhere, and closes, also of a session that was opened again since: COPPs
    opened minus COPPs closed is the number the sessions hold, handle by handle,
    and never more is closed than was opened.
  */
  lemma {:induction false} RunConserves(l: Limits, s: State, actions: seq<Action>, t: State)
    requires Conserved(l, s) && Reaches(l, s, actions, t)
    ensures Conserved(l, t) && t.released <= t.acquired && |t.acquired| - |t.released| == SumCopps(t.sessions)
    decreases |actions|
  {
    hide AllHeld, Step;
    if actions == [] {
      CountsHeld(l, t.sessions);
      Counts(t.acquired, t.released, AllHeld(l, t.sessions));
    } else {
      StepConserves(l, s, actions[0]);
      RunConserves(l, Step(l, s, actions[0]), actions[1..], t);
    }
  }

  /** A port map changes by mixer controls only, and then in the one bit of the control. */
  lemma StepPorts(l: Limits, s: State, a: Action)
    requires Valid(l, s.sessions)
    ensures var t := Step(l, s, a);
            && |t.sessions| == |s.sessions|
            && forall k, p :: 0 <= k < |s.sessions| ==>
                 (p in t.sessions[k].ports <==>
                  if a.Mixer? && a.i == k && a.port == p && p < l.maxPorts then a.on else p in s.sessions[k].ports)
  {
    hide Acquire, Ports, Empty, Held;
  }

  // ---------- what an open leaves ----------

  predicate Ascending(s: seq<nat>) {
    forall i, j :: 0 <= i < j < |s| ==> s[i] < s[j]
  }

  /** Where the k-th search starts. */
  function After(f: seq<nat>, from: nat, k: nat): nat
    requires k <= |f|
  {
    if k == 0 then from else f[k - 1] + 1
  }

  /** Turn k of a loop that has found f finds f[k], or nothing more after the last. */
  predicate Turn(f: seq<nat>, k: nat, maps: nat -> set<nat>, t: nat, from: nat, max: nat)
    requires k <= |f|
  {
    After(f, from, k) <= max && NextBit(maps(t + k), After(f, from, k), max) == if k < |f| then f[k] else max
  }

  /**
    The ports found, whatever the searches read: each is the next bit set in the
    map its own turn read, and the turn after the last finds none. So they ascend.
  */
  lemma {:induction false} FoundFacts(maps: nat -> set<nat>, t: nat, from: nat, max: nat)
    requires from <= max
    ensures var f := Found(maps, t, from, max);
            Ascending(f) && forall k :: 0 <= k <= |f| ==> Turn(f, k, maps, t, from, max)
    decreases max - from
  {
    hide NextBit, Found, Turn, Ascending;
    var p := NextBit(maps(t), from, max);
    FoundNext(maps, t, from, max);
    FirstTurn(maps, t, from, max);
    if p < max {
      var rest := Found(maps, t + 1, p + 1, max);
      FoundFacts(maps, t + 1, p + 1, max);
      forall k | 1 <= k <= |rest| + 1
        ensures Turn([p] + rest, k, maps, t, from, max)
      {
        assert Turn(rest, k - 1, maps, t + 1, p + 1, max);
        LaterTurn(p, rest, k, maps, t, from, max);
      }
      FirstTurn(maps, t + 1, p + 1, max);
      FoundNext(maps, t + 1, p + 1, max);
      TurnsAscend(p, rest);
    } else {
      NoneAscend();
    }
  }

  lemma NoneAscend()
    ensures Ascending([])
  {
  }

  lemma FirstTurn(maps: nat -> set<nat>, t: nat, from: nat, max: nat)
    requires from <= max
    ensures Turn(Found(maps, t, from, max), 0, maps, t, from, max)
  {
    hide NextBit;
  }

  lemma LaterTurn(p: nat, rest: seq<nat>, k: nat, maps: nat -> set<nat>, t: nat, from: nat, max: nat)
    requires 1 <= k <= |rest| + 1 && p < max && Turn(rest, k - 1, maps, t + 1, p + 1, max)
    ensures Turn([p] + rest, k, maps, t, from, max)
  {
    hide NextBit;
    assert (t + 1) + (k - 1) == t + k && After(rest, p + 1, k - 1) == After([p] + rest, from, k);
  }

  lemma TurnsAscend(p: nat, rest: seq<nat>)
    requires Ascending(rest) && (rest != [] ==> p < rest[0])
    ensures Ascending([p] + rest)
  {
    var f := [p] + rest;
    forall i, j | 0 <= i < j < |f|
      ensures f[i] < f[j]
    {
      assert f[j] == rest[j - 1];
    }
  }

  lemma FoundNext(maps: nat -> set<nat>, t: nat, from: nat, max: nat)
    requires from <= max
    ensures var p := NextBit(maps(t), from, max);
            Found(maps, t, from, max) == if p == max then [] else [p] + Found(maps, t + 1, p + 1, max)
  {
    hide NextBit;
  }

  /** With a map that does not change, the ports found are its set bits. */
  lemma {:induction false} FoundQuiet(m: set<nat>, maps: nat -> set<nat>, t: nat, from: nat, max: nat)
    requires from <= max && forall k :: maps(k) == m
    ensures forall p: nat :: p in Found(maps, t, from, max) <==> p in m && from <= p < max
    decreases max - from
  {
    var p := NextBit(m, from, max);
    if p < max {
      FoundQuiet(m, maps, t + 1, p + 1, max);
    }
  }

  /** The outcome of opening a list of ports: all of them, or the first obstacle. */
  lemma {:induction false} AcquireFacts(ports: seq<nat>, room: nat, adm: nat -> int)
    ensures var a := Acquire(ports, room, adm);
            var k := |a.got|;
            k <= room && k <= |ports| &&
            (forall i :: 0 <= i < k ==> a.got[i] == adm(ports[i]) >= 0) &&
            (a.ret == 0 <==> k == |ports|) &&
            (a.ret == -ENOSPC <==> k < |ports| && k == room) &&
            (a.ret == -EINVAL <==> k < |ports| && k < room && adm(ports[k]) < 0) &&
            a.ret in {0, -ENOSPC, -EINVAL}
    decreases |ports|
  {
    if ports != [] && room > 0 && adm(ports[0]) >= 0 {
      AcquireFacts(ports[1..], room - 1, adm);
    }
  }

  /**
    An open succeeds exactly when its test read some port, every port its searches
    found opens and there is room; the session then holds one COPP per port
    found, in ascending port order, as the payload says. A failure past the test
    leaves it with none.
  */
  lemma OpenOutcome(l: Limits, s: State, i: nat, fedaiId: int, tested: set<nat>, maps: nat -> set<nat>,
                    adm: nat -> int)
    requires i < |s.sessions| && Valid(l, s.sessions)
    ensures var t := StreamOpen(l, s, i, fedaiId, tested, maps, adm);
            var r := OpenResult(l, tested, maps, adm);
            var found := Ports(l, maps);
            && Valid(l, t.sessions) && Ascending(found)
            && (r.ret == 0 <==> !Empty(l, tested) && |found| <= l.maxCopps && forall p :: p in found ==> adm(p) >= 0)
            && (r.ret == 0 ==>
                  && r.payload.ports == found && Held(t.sessions[i]) == r.payload.copps && |r.payload.copps| == |found|
                  && forall k :: 0 <= k < |found| ==> r.payload.copps[k] == adm(found[k]))
            && (r.ret != 0 && !Empty(l, tested) ==> t.sessions[i].numCopps == 0)
            && (!Empty(l, tested) ==> t.sessions[i].fedaiId == fedaiId)
            && |t.sessions| == |s.sessions|
            && (forall k :: 0 <= k < |s.sessions| && k != i ==> t.sessions[k] == s.sessions[k])
            && (Empty(l, tested) ==> t == s)
  {
    var x := s.sessions[i];
    var found := Ports(l, maps);
    FoundFacts(maps, 0, 0, l.maxPorts);
    hide Found, Acquire, Empty, NextBit;
    AcquireFacts(found, l.maxCopps, adm);
    var a := Acquire(found, l.maxCopps, adm);
    if a.ret == 0 {
      forall p | p in found
        ensures adm(p) >= 0
      {
        var k :| 0 <= k < |found| && found[k] == p;
        assert a.got[k] == adm(p);
      }
    } else if a.ret == -EINVAL {
      assert found[|a.got|] in found;
    }
  }

  /**
    Success does not mean that anything was opened: an open succeeds without a
    COPP exactly when its test read a port and its first search read none, so
    only if a mixer control cleared the map in between.
  */
  lemma EmptySuccess(l: Limits, tested: set<nat>, maps: nat -> set<nat>, adm: nat -> int)
    ensures var r := OpenResult(l, tested, maps, adm);
            (r.ret == 0 && r.payload.copps == [] <==> !Empty(l, tested) && Empty(l, maps(0))) &&
            (r.ret == 0 && r.payload.copps == [] ==> exists p :: p in tested && p !in maps(0))
  {
    AcquireFacts(Ports(l, maps), l.maxCopps, adm);
    hide Acquire;
    if !Empty(l, tested) && Empty(l, maps(0)) {
      var p := NextBit(tested, 0, l.maxPorts);
      assert p in tested && p !in maps(0);
    }
  }

  /** With no mixer change an open succeeds exactly when some port is routed, all of them open and there is room. */
  lemma QuietOpen(l: Limits, s: State, i: nat, tested: set<nat>, maps: nat -> set<nat>, adm: nat -> int)
    requires i < |s.sessions| && Valid(l, s.sessions)
    requires tested == s.sessions[i].ports && forall k :: maps(k) == tested
    ensures var r := OpenResult(l, tested, maps, adm);
            && (forall p: nat :: p in Ports(l, maps) <==> p in tested)
            && (r.ret == 0 <==> tested != {} && |tested| <= l.maxCopps && forall p :: p in tested ==> adm(p) >= 0)
            && (r.ret == 0 ==> |r.payload.copps| == |tested|)
  {
    var found := Ports(l, maps);
    FoundQuiet(tested, maps, 0, 0, l.maxPorts);
    OpenOutcome(l, s, i, 0, tested, maps, adm);
    hide Found, Acquire;
    AscendingSet(found, tested);
    if p :| p in tested {
      BitSet(tested, p, l.maxPorts);
    }
  }

  lemma BitSet(m: set<nat>, p: nat, max: nat)
    requires p in m && p < max
    ensures NextBit(m, 0, max) < max
  {
    hide NextBit;
  }

  lemma {:induction false} AscendingSet(f: seq<nat>, m: set<nat>)
    requires Ascending(f) && forall p: nat :: p in f <==> p in m
    ensures |f| == |m|
  {
    if f == [] {
      assert m == {};
    } else {
      var n := |f| - 1;
      assert f == f[..n] + [f[n]];
      forall p: nat
        ensures p in f[..n] <==> p in m - {f[n]}
      {
      }
      AscendingSet(f[..n], m - {f[n]});
      assert f[n] in m;
    }
  }

  lemma {:induction false} RunKeepsSize(l: Limits, s: State, actions: seq<Action>, t: State)
    requires Reaches(l, s, actions, t)
    ensures |t.sessions| == |s.sessions|
    decreases |actions|
  {
    hide StreamOpen;
    if actions != [] {
      StepKeepsSize(l, s, actions[0]);
      RunKeepsSize(l, Step(l, s, actions[0]), actions[1..], t);
    }
  }

  lemma StepKeepsSize(l: Limits, s: State, a: Action)
    requires Valid(l, s.sessions)
    ensures |Step(l, s, a).sessions| == |s.sessions|
  {
  }

  /**
    The session a close has looked up may have changed hands when the lock is
    taken, after any run in between: the close spares every stream of another
    frontend exactly if the session is still that of the frontend it was asked for,
    or has been closed already. Without anything in between it always does.
  */
  lemma CloseSpares(l: Limits, s: State, fedaiId: int, actions: seq<Action>, t: State)
    requires Conserved(l, s) && Find(s.sessions, fedaiId) < |s.sessions| && Reaches(l, s, actions, t)
    ensures var i := Find(s.sessions, fedaiId);
            Conserved(l, t) && |t.sessions| == |s.sessions| &&
            ((forall k :: 0 <= k < |t.sessions| && t.sessions[k].fedaiId != fedaiId ==>
                            StreamClose(l, t, i).sessions[k] == t.sessions[k]) <==>
             t.sessions[i].fedaiId == fedaiId || (t.sessions[i].fedaiId == -1 && t.sessions[i].numCopps == 0)) &&
            (actions == [] ==> t.sessions[i].fedaiId == fedaiId)
  {
    hide AllHeld, Step;
    RunConserves(l, s, actions, t);
    RunKeepsSize(l, s, actions, t);
  }

  /**
    It does change hands: frontend `mine` is looked up, another close of it gets
    the lock first, and frontend `other` opens the session. The close of `mine`
    then ends the stream of `other` and closes all its COPPs.
  */
  lemma StaleClose(l: Limits, s: State, mine: int, other: int, tested: set<nat>, maps: nat -> set<nat>,
                   adm: nat -> int)
    requires Conserved(l, s) && Find(s.sessions, mine) < |s.sessions| && mine != other
    requires OpenResult(l, tested, maps, adm).ret == 0
    ensures var i := Find(s.sessions, mine);
            var s1 := Step(l, s, Close(i));
            Valid(l, s1.sessions) &&
            var s2 := Step(l, s1, Open(i, other, tested, maps, adm));
            Valid(l, s2.sessions) &&
            var s3 := Step(l, s2, Close(i));
            && Reaches(l, s, [Close(i), Open(i, other, tested, maps, adm)], s2)
            && i < |s2.sessions| && s2.sessions[i].fedaiId == other
            && Held(s2.sessions[i]) == OpenResult(l, tested, maps, adm).payload.copps
            && s3.sessions[i].fedaiId == -1 && s3.sessions[i].numCopps == 0
            && s3.released == s2.released + multiset(OpenResult(l, tested, maps, adm).payload.copps)
            && s3.acquired == s2.acquired
  {
    hide AllHeld, Acquire, Ports, Empty;
    var i := Find(s.sessions, mine);
    var a := Acquire(Ports(l, maps), l.maxCopps, adm);
    StepConserves(l, s, Close(i));
    var s1 := Step(l, s, Close(i));
    StepConserves(l, s1, Open(i, other, tested, maps, adm));
    var s2 := Step(l, s1, Open(i, other, tested, maps, adm));
    assert Held(s2.sessions[i]) == a.got;
    var run := [Close(i), Open(i, other, tested, maps, adm)];
    assert run[1..] == [run[1]] && run[1..][1..] == [];
    assert Reaches(l, s1, run[1..], s2);
  }

  /** Opening `all` comes to opening `rest` after `got`. */
  ghost predicate Continues(all: seq<nat>, rest: seq<nat>, room: nat, adm: nat -> int, got: seq<int>) {
    |got| <= room &&
    var more := Acquire(rest, room - |got|, adm);
    Acquire(all, room, adm) == Acquired(more.ret, got + more.got)
  }

  lemma AcquireNone(room: nat, adm: nat -> int)
    ensures Acquire([], room, adm) == Acquired(0, [])
  {
  }

  /** One more port of the list, after `got` has been opened. */
  lemma AcquireNext(port: nat, rest: seq<nat>, room: nat, adm: nat -> int, got: seq<int>)
    ensures var a := Acquire([port] + rest, room, adm);
            if room == 0 then a.ret == -ENOSPC && got + a.got == got
            else if adm(port) < 0 then a.ret == -EINVAL && got + a.got == got
            else var more := Acquire(rest, room - 1, adm);
                 a.ret == more.ret && got + a.got == (got + [adm(port)]) + more.got
  {
    assert ([port] + rest)[1..] == rest;
  }

  // ---------- the driver ----------

  class Driver {
    const limits: Limits
    var sessions: seq<Session>
    ghost var acquired: multiset<int>
    ghost var released: multiset<int>

    ghost function Model(): State
      reads this
    {
      State(sessions, acquired, released)
    }

    /** After probe: no routes, no streams. */
    constructor (limits: Limits, maxSessions: nat)
      ensures this.limits == limits && Conserved(limits, Model())
    {
      this.limits := limits;
      sessions := seq(maxSessions, _ => Session({}, -1, seq(limits.maxCopps, _ => 0), 0));
      acquired, released := multiset{}, multiset{};
      new;
      NothingHeld(limits, sessions);
    }

    /** Closes every COPP a session holds. */
    method CloseCopps(i: nat)
      requires i < |sessions| && sessions[i].numCopps <= |sessions[i].copps|
      modifies this
      ensures Model() == Release(old(Model()), i)
    {
      var k := 0;
      while k < sessions[i].numCopps
        invariant sessions == old(sessions) && acquired == old(acquired) && 0 <= k <= sessions[i].numCopps
        invariant released == old(released) + multiset(sessions[i].copps[..k])
      {
        released := released + multiset{sessions[i].copps[k]};
        assert sessions[i].copps[..k + 1] == sessions[i].copps[..k] + [sessions[i].copps[k]];
        k := k + 1;
      }
      sessions := sessions[i := sessions[i].(numCopps := 0)];
    }

    /** Opens a stream's COPPs, one per port found set. */
    method Open(i: nat, fedaiId: int, tested: set<nat>, maps: nat -> set<nat>, adm: nat -> int) returns (r: Opened)
      requires i < |sessions| && Valid(limits, sessions)
      modifies this
      ensures Model() == StreamOpen(limits, old(Model()), i, fedaiId, tested, maps, adm)
      ensures r == OpenResult(limits, tested, maps, adm)
    {
      hide Acquire, Ports;
      var x := sessions[i];
      if NextBit(tested, 0, limits.maxPorts) == limits.maxPorts {
        return Opened(-EINVAL, Payload([], []));
      }
      sessions := sessions[i := sessions[i].(fedaiId := fedaiId)];
      CloseCopps(i);
      assert sessions == old(sessions)[i := Session(x.ports, fedaiId, x.copps, 0)];
      r := Fill(i, maps, adm);
    }

    /** A COPP for every port found set in the session's map, or none. */
    method Fill(i: nat, maps: nat -> set<nat>, adm: nat -> int) returns (r: Opened)
      requires i < |sessions| && ValidSession(limits, sessions[i])
      modifies this
      ensures var x := old(sessions)[i];
              var a := Acquire(Ports(limits, maps), limits.maxCopps, adm);
              && sessions == old(sessions)[i := x.(copps := a.got + x.copps[|a.got|..],
                                                   numCopps := if a.ret == 0 then |a.got| else 0)]
              && acquired == old(acquired) + multiset(a.got)
              && released == old(released) + (if a.ret == 0 then multiset{} else multiset(a.got))
              && r == Opened(a.ret, if a.ret == 0 then Payload(Ports(limits, maps), a.got) else Payload([], []))
    {
      hide Acquire, Ports;
      var x := sessions[i];
      var ret, ports, copps := OpenPorts(maps, adm);
      acquired := acquired + multiset(copps);
      sessions := sessions[i := x.(copps := copps + x.copps[|copps|..], numCopps := |copps|)];
      if ret != 0 {
        assert Held(sessions[i]) == copps;
        CloseCopps(i);
        return Opened(ret, Payload([], []));
      }
      r := Opened(0, Payload(ports, copps));
    }

    /** Opens one COPP per set bit found, until one fails or the session is full; each turn searches anew. */
    method OpenPorts(maps: nat -> set<nat>, adm: nat -> int) returns (ret: int, ports: seq<nat>, copps: seq<int>)
      ensures Acquire(Ports(limits, maps), limits.maxCopps, adm) == Acquired(ret, copps)
      ensures ret == 0 ==> ports == Ports(limits, maps)
    {
      hide Acquire, Found, NextBit;
      ret, ports, copps := 0, [], [];
      var max := limits.maxPorts;
      var from := 0;
      var port := NextBit(maps(0), 0, max);
      ghost var all := Found(maps, 0, 0, max);
      while port < max
        invariant from <= port <= max && port == NextBit(maps(|ports|), from, max)
        invariant |copps| == |ports| <= limits.maxCopps
        invariant all == ports + Found(maps, |ports|, from, max)
        invariant Continues(all, Found(maps, |ports|, from, max), limits.maxCopps, adm, copps)
        decreases max - from
      {
        ghost var rest := Found(maps, |ports| + 1, port + 1, max);
        FoundNext(maps, |ports|, from, max);
        AcquireNext(port, rest, limits.maxCopps - |copps|, adm, copps);
        if |copps| == limits.maxCopps {
          return -ENOSPC, ports, copps;
        }
        if adm(port) < 0 {
          return -EINVAL, ports, copps;
        }
        assert ports + ([port] + rest) == (ports + [port]) + rest;
        copps := copps + [adm(port)];
        ports := ports + [port];
        from := port + 1;
        port := NextBit(maps(|ports|), from, max);
      }
      FoundNext(maps, |ports|, from, max);
      AcquireNone(limits.maxCopps - |copps|, adm);
      assert copps + [] == copps && ports + [] == ports;
    }

    /** Looks a frontend's session up, without the lock: the number of sessions if it has none. */
    method FindSession(fedaiId: int) returns (i: nat)
      ensures i == Find(sessions, fedaiId)
    {
      i := 0;
      while i < |sessions| && sessions[i].fedaiId != fedaiId
        invariant 0 <= i <= |sessions|
        invariant Find(sessions, fedaiId) == Find(sessions, fedaiId, i)
      {
        i := i + 1;
      }
    }

    /** The locked part of a close. */
    method Close(i: nat)
      requires i < |sessions| && Valid(limits, sessions)
      modifies this
      ensures Model() == StreamClose(limits, old(Model()), i)
    {
      CloseCopps(i);
      sessions := sessions[i := sessions[i].(fedaiId := -1)];
    }

    /** A mixer control: sets or clears one bit of a session's port map; true when it changed. */
    method PutMixer(i: nat, port: nat, on: bool) returns (changed: bool)
      requires i < |sessions|
      modifies this
      ensures Model() == Route(old(Model()), i, port, on)
      ensures changed <==> (port in old(sessions)[i].ports) != on
    {
      var x := sessions[i];
      if on {
        if port in x.ports {
          assert x.ports + {port} == x.ports;
          return false;
        }
        sessions := sessions[i := x.(ports := x.ports + {port})];
      } else {
        if port !in x.ports {
          assert x.ports - {port} == x.ports;
          return false;
        }
        sessions := sessions[i := x.(ports := x.ports - {port})];
      }
      changed := true;
    }
  }

  lemma {:induction false} NothingHeld(l: Limits, sessions: seq<Session>)
    requires Valid(l, sessions) && forall i :: 0 <= i < |sessions| ==> sessions[i].numCopps == 0
    ensures AllHeld(l, sessions) == multiset{}
    decreases |sessions|
  {
    if sessions != [] {
      NothingHeld(l, sessions[..|sessions| - 1]);
    }
  }
}
