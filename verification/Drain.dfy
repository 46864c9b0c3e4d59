// drainNodes of cmd/scale.go: one goroutine per node sends its result on a channel with room
// for all results; the caller receives until the first error, and closes the channel when it
// returns.  The goroutines and the caller interleave arbitrarily.
module Drain {

  datatype Worker = NotStarted | Draining | Drained(ok: bool) | Sent(ok: bool)

  datatype Caller = Spawning(next: nat) | Receiving | Returned(ok: bool)

  datatype State = State(
    workers: seq<Worker>,
    channel: seq<bool>,        // true stands for a nil error
    received: seq<bool>,
    caller: Caller,
    panicked: bool)            // a send on the closed channel
  {
    predicate Closed() { caller.Returned? }
  }

  datatype Action =
    | Spawn                         // the next `go func`
    | StartReceiving                // all goroutines are started
    | Finish(node: nat, ok: bool)   // SafelyDrainNode returns
    | Send(node: nat)
    | Receive
    | ReturnNil

  function Init(n: nat): State {
    State(seq(n, _ => NotStarted), [], [], Spawning(0), false)
  }

  predicate Enabled(s: State, a: Action) {
    && !s.panicked
    && match a
       case Spawn => s.caller.Spawning? && s.caller.next < |s.workers|
       case StartReceiving => s.caller == Spawning(|s.workers|)
       case Finish(node, _) => node < |s.workers| && s.workers[node] == Draining
       case Send(node) =>
         node < |s.workers| && s.workers[node].Drained? && (s.Closed() || |s.channel| < |s.workers|)
       case Receive => s.caller.Receiving? && |s.received| < |s.workers| && s.channel != []
       case ReturnNil => s.caller.Receiving? && |s.received| == |s.workers|
  }

  function Do(s: State, a: Action): State
    requires Enabled(s, a)
  {
    match a
    case Spawn =>
      s.(workers := s.workers[s.caller.next := Draining], caller := Spawning(s.caller.next + 1))
    case StartReceiving => s.(caller := Receiving)
    case Finish(node, ok) => s.(workers := s.workers[node := Drained(ok)])
    case Send(node) =>
      if s.Closed() then s.(panicked := true)
      else s.(workers := s.workers[node := Sent(s.workers[node].ok)], channel := s.channel + [s.workers[node].ok])
    case Receive =>
      var s' := s.(received := s.received + [s.channel[0]], channel := s.channel[1..]);
      if s.channel[0] then s' else s'.(caller := Returned(false))
    case ReturnNil => s.(caller := Returned(true))
  }

  // Every run: the actions happen one after the other, each when it is enabled.
  predicate Run(s: State, actions: seq<Action>)
    decreases actions
  {
    actions == [] || (Enabled(s, actions[0]) && Run(Do(s, actions[0]), actions[1..]))
  }

  function After(s: State, actions: seq<Action>): State
    requires Run(s, actions)
    decreases actions
  {
    if actions == [] then s else After(Do(s, actions[0]), actions[1..])
  }

  // ---- The invariant ----

  function Count(workers: seq<Worker>): nat {
    if workers == [] then 0 else (if workers[0].Sent? then 1 else 0) + Count(workers[1..])
  }

  function CountFailed(workers: seq<Worker>): nat {
    if workers == [] then 0 else (if workers[0] == Sent(false) then 1 else 0) + CountFailed(workers[1..])
  }

  function CountFalse(results: seq<bool>): nat {
    if results == [] then 0 else (if results[0] then 0 else 1) + CountFalse(results[1..])
  }

  lemma {:induction false} CountAfterUpdate(workers: seq<Worker>, i: nat, w: Worker)
    requires i < |workers|
    ensures Count(workers[i := w]) + (if workers[i].Sent? then 1 else 0) == Count(workers) + (if w.Sent? then 1 else 0)
    ensures CountFailed(workers[i := w]) + (if workers[i] == Sent(false) then 1 else 0)
         == CountFailed(workers) + (if w == Sent(false) then 1 else 0)
  {
    if i == 0 {
      assert workers[i := w][1..] == workers[1..];
    } else {
      CountAfterUpdate(workers[1..], i - 1, w);
      assert workers[i := w][1..] == workers[1..][i - 1 := w];
    }
  }

  lemma {:induction false} CountBounds(workers: seq<Worker>)
    ensures CountFailed(workers) <= Count(workers) <= |workers|
    ensures Count(workers) == |workers| ==> forall i :: 0 <= i < |workers| ==> workers[i].Sent?
    ensures Count(workers) == |workers| && CountFailed(workers) == 0 ==> forall i :: 0 <= i < |workers| ==> workers[i] == Sent(true)
    ensures (exists i :: 0 <= i < |workers| && !workers[i].Sent?) ==> Count(workers) < |workers|
    ensures CountFailed(workers) > 0 <==> exists i :: 0 <= i < |workers| && workers[i] == Sent(false)
  {
    if workers != [] {
      CountBounds(workers[1..]);
      assert forall i :: 0 < i < |workers| ==> workers[i] == workers[1..][i - 1];
    }
  }

  lemma {:induction false} CountFalseConcat(a: seq<bool>, b: seq<bool>)
    ensures CountFalse(a + b) == CountFalse(a) + CountFalse(b)
  {
    if a == [] {
      assert a + b == b;
    } else {
      CountFalseConcat(a[1..], b);
      assert (a + b)[1..] == a[1..] + b;
    }
  }

  ghost predicate Inv(s: State) {
    && |s.received| + |s.channel| == Count(s.workers)
    && CountFalse(s.received) + CountFalse(s.channel) == CountFailed(s.workers)
    && (s.caller.Spawning? ==> s.caller.next <= |s.workers| && s.received == [])
    && (forall i :: 0 <= i < |s.workers| ==> (s.workers[i] == NotStarted <==> s.caller.Spawning? && s.caller.next <= i))
    && (s.caller.Spawning? || s.caller.Receiving? ==> CountFalse(s.received) == 0)
    && (s.caller == Returned(true) ==> CountFalse(s.received) == 0 && |s.received| == |s.workers|)
    && (s.caller == Returned(false) ==> CountFalse(s.received) > 0)
    && (s.panicked ==> s.caller == Returned(false) && Count(s.workers) < |s.workers|)
  }

  lemma {:induction false} NoneSent(n: nat)
    ensures Count(seq(n, _ => NotStarted)) == 0 && CountFailed(seq(n, _ => NotStarted)) == 0
  {
    if n > 0 {
      NoneSent(n - 1);
      assert seq(n, _ => NotStarted)[1..] == seq(n - 1, _ => NotStarted);
    }
  }

  lemma InvSend(s: State, node: nat)
    requires Inv(s) && Enabled(s, Send(node))
    ensures Inv(Do(s, Send(node)))
  {
    CountBounds(s.workers);
    CountAfterUpdate(s.workers, node, Sent(s.workers[node].ok));
    CountFalseConcat(s.channel, [s.workers[node].ok]);
  }

  lemma InvReceive(s: State)
    requires Inv(s) && Enabled(s, Receive)
    ensures Inv(Do(s, Receive))
  {
    hide Count, CountFailed;
    var got := s.channel[0];
    CountFalseConcat(s.received, [got]);
    CountFalseConcat([got], s.channel[1..]);
    assert [got] + s.channel[1..] == s.channel;
  }

  lemma InvLocal(s: State, a: Action)
    requires Inv(s) && Enabled(s, a) && !a.Send? && !a.Receive?
    ensures Inv(Do(s, a))
  {
    hide CountFalse;
    match a {
      case Spawn => CountAfterUpdate(s.workers, s.caller.next, Draining);
      case Finish(node, ok) => CountAfterUpdate(s.workers, node, Drained(ok));
      case _ =>
    }
  }

  lemma InvStep(s: State, a: Action)
    requires Inv(s) && Enabled(s, a)
    ensures Inv(Do(s, a)) && |Do(s, a).workers| == |s.workers|
  {
    hide Inv;
    match a {
      case Send(node) => InvSend(s, node);
      case Receive => InvReceive(s);
      case _ => InvLocal(s, a);
    }
  }

  lemma {:induction false} InvRun(s: State, actions: seq<Action>)
    requires Inv(s) && Run(s, actions)
    ensures Inv(After(s, actions)) && |After(s, actions).workers| == |s.workers|
    decreases actions
  {
    if actions != [] {
      InvStep(s, actions[0]);
      InvRun(Do(s, actions[0]), actions[1..]);
    }
  }

  lemma InvReachable(n: nat, actions: seq<Action>)
    requires Run(Init(n), actions)
    ensures Inv(After(Init(n), actions)) && |After(Init(n), actions).workers| == n
  {
    NoneSent(n);
    InvRun(Init(n), actions);
  }

  // ---- What every run guarantees ----

  // A drained node's send never waits for room in the channel.
  lemma SendNeverBlocks(n: nat, actions: seq<Action>, node: nat)
    requires Run(Init(n), actions)
    requires node < n && var s := After(Init(n), actions); |s.workers| == n && s.workers[node].Drained? && !s.panicked
    ensures Enabled(After(Init(n), actions), Send(node))
  {
    InvReachable(n, actions);
    CountBounds(After(Init(n), actions).workers);
  }

  // drainNodes returns nil only after every node reported success.
  lemma NilMeansAllDrained(n: nat, actions: seq<Action>)
    requires Run(Init(n), actions) && After(Init(n), actions).caller == Returned(true)
    ensures |After(Init(n), actions).workers| == n && After(Init(n), actions).channel == []
    ensures forall i :: 0 <= i < n ==> After(Init(n), actions).workers[i] == Sent(true)
  {
    InvReachable(n, actions);
    CountBounds(After(Init(n), actions).workers);
  }

  // It returns an error only if some node reported one.
  lemma ErrorMeansFailure(n: nat, actions: seq<Action>)
    requires Run(Init(n), actions) && After(Init(n), actions).caller == Returned(false)
    ensures |After(Init(n), actions).workers| == n
    ensures exists i :: 0 <= i < n && After(Init(n), actions).workers[i] == Sent(false)
  {
    InvReachable(n, actions);
    CountBounds(After(Init(n), actions).workers);
  }

  // Without failures the close comes after the last send, and nothing panics.
  lemma CloseAfterSends(n: nat, actions: seq<Action>)
    requires Run(Init(n), actions)
    requires |After(Init(n), actions).workers| == n
    requires forall i :: 0 <= i < n ==> After(Init(n), actions).workers[i] != Sent(false)
    ensures !After(Init(n), actions).panicked
    ensures After(Init(n), actions).Closed() ==> forall i :: 0 <= i < n ==> After(Init(n), actions).workers[i] == Sent(true)
  {
    InvReachable(n, actions);
    CountBounds(After(Init(n), actions).workers);
  }

  // Until the caller returns, something can always happen.
  lemma NeverStuck(n: nat, actions: seq<Action>)
    requires Run(Init(n), actions) && !After(Init(n), actions).Closed()
    ensures exists a :: Enabled(After(Init(n), actions), a)
  {
    InvReachable(n, actions);
    SomeEnabled(After(Init(n), actions));
  }

  lemma SomeEnabled(s: State)
    requires Inv(s) && !s.Closed()
    ensures exists a :: Enabled(s, a)
  {
    CountBounds(s.workers);
    if s.caller.Spawning? {
      assert Enabled(s, if s.caller.next < |s.workers| then Spawn else StartReceiving);
    } else if |s.received| == |s.workers| {
      assert Enabled(s, ReturnNil);
    } else if s.channel != [] {
      assert Enabled(s, Receive);
    } else {
      var i := SomeUnsent(s.workers);
      assert Enabled(s, if s.workers[i] == Draining then Finish(i, true) else Send(i));
    }
  }

  lemma {:induction false} SomeUnsent(workers: seq<Worker>) returns (i: nat)
    requires Count(workers) < |workers|
    ensures i < |workers| && !workers[i].Sent?
  {
    if workers[0].Sent? {
      var j := SomeUnsent(workers[1..]);
      i := j + 1;
    } else {
      i := 0;
    }
  }

  // ---- The send that comes too late ----

  function Spawns(k: nat): seq<Action> {
    seq(k, _ => Spawn)
  }

  function Spawned(n: nat, k: nat): State
    requires k <= n
  {
    State(seq(n, i => if 0 <= i < k then Draining else NotStarted), [], [], Spawning(k), false)
  }

  lemma {:induction false} SpawnRest(n: nat, k: nat, rest: seq<Action>)
    requires k <= n && Run(Spawned(n, n), rest)
    ensures Run(Spawned(n, k), Spawns(n - k) + rest)
    ensures After(Spawned(n, k), Spawns(n - k) + rest) == After(Spawned(n, n), rest)
    decreases n - k
  {
    if k == n {
      assert Spawns(0) + rest == rest;
    } else {
      var s, all := Spawned(n, k), Spawns(n - k) + rest;
      assert all[0] == Spawn && all[1..] == Spawns(n - (k + 1)) + rest;
      assert Do(s, Spawn).workers == Spawned(n, k + 1).workers;
      SpawnRest(n, k + 1, rest);
    }
  }

  lemma LateSendPanics(n: nat)
    requires n >= 2
    ensures var rest := [StartReceiving, Finish(0, false), Send(0), Receive, Finish(1, true), Send(1)];
            Run(Spawned(n, n), rest) && After(Spawned(n, n), rest).panicked
  {
    var s0 := Spawned(n, n);
    var s1 := Do(s0, StartReceiving);
    var s2 := Do(s1, Finish(0, false));
    var s3 := Do(s2, Send(0));
    var s4 := Do(s3, Receive);
    assert s4.workers[1] == Draining;
    var s5 := Do(s4, Finish(1, true));
    assert Enabled(s5, Send(1));
    RunCons(s5, Send(1), []);
    RunCons(s4, Finish(1, true), [Send(1)]);
    RunCons(s3, Receive, [Finish(1, true), Send(1)]);
    RunCons(s2, Send(0), [Receive, Finish(1, true), Send(1)]);
    RunCons(s1, Finish(0, false), [Send(0), Receive, Finish(1, true), Send(1)]);
    RunCons(s0, StartReceiving, [Finish(0, false), Send(0), Receive, Finish(1, true), Send(1)]);
  }

  lemma RunCons(s: State, a: Action, rest: seq<Action>)
    requires Enabled(s, a) && Run(Do(s, a), rest)
    ensures Run(s, [a] + rest) && After(s, [a] + rest) == After(Do(s, a), rest)
  {
    assert ([a] + rest)[1..] == rest;
  }

  // When a node fails, the channel is closed while others may still send: some run of n nodes
  // panics exactly if n >= 2.
  lemma PanicsWithTwoNodes(n: nat)
    ensures (exists actions :: Run(Init(n), actions) && After(Init(n), actions).panicked) <==> n >= 2
  {
    if n >= 2 {
      LateSendPanics(n);
      var rest := [StartReceiving, Finish(0, false), Send(0), Receive, Finish(1, true), Send(1)];
      SpawnRest(n, 0, rest);
      assert Init(n).workers == Spawned(n, 0).workers;
      assert Run(Init(n), Spawns(n) + rest) && After(Init(n), Spawns(n) + rest).panicked;
    }
    if exists actions :: Run(Init(n), actions) && After(Init(n), actions).panicked {
      var actions :| Run(Init(n), actions) && After(Init(n), actions).panicked;
      InvReachable(n, actions);
      CountBounds(After(Init(n), actions).workers);
    }
  }

  // ---- Every run ends ----

  function Rank(w: Worker): nat {
    match w
    case NotStarted => 3
    case Draining => 2
    case Drained(_) => 1
    case Sent(_) => 0
  }

  function Ranks(workers: seq<Worker>): nat {
    if workers == [] then 0 else Rank(workers[0]) + Ranks(workers[1..])
  }

  // An upper bound on the number of actions still to come.
  function Remaining(s: State): int {
    Ranks(s.workers) + |s.workers| - |s.received|
    + (match s.caller case Spawning(_) => 2 case Receiving => 1 case Returned(_) => 0)
    + (if s.panicked then 0 else 1)
  }

  lemma {:induction false} RanksAfterUpdate(workers: seq<Worker>, i: nat, w: Worker)
    requires i < |workers|
    ensures Ranks(workers[i := w]) + Rank(workers[i]) == Ranks(workers) + Rank(w)
  {
    if i == 0 {
      assert workers[i := w][1..] == workers[1..];
    } else {
      RanksAfterUpdate(workers[1..], i - 1, w);
      assert workers[i := w][1..] == workers[1..][i - 1 := w];
    }
  }

  lemma StepsRemain(s: State, a: Action)
    requires Inv(s) && Enabled(s, a)
    ensures Remaining(Do(s, a)) < Remaining(s)
  {
    hide Ranks;
    match a
    case Spawn => RanksAfterUpdate(s.workers, s.caller.next, Draining);
    case Finish(node, ok) => RanksAfterUpdate(s.workers, node, Drained(ok));
    case Send(node) => RanksAfterUpdate(s.workers, node, Sent(s.workers[node].ok));
    case _ =>
  }

  lemma {:induction false} RunBounded(s: State, actions: seq<Action>)
    requires Inv(s) && Run(s, actions)
    ensures |actions| <= Remaining(s)
    decreases actions
  {
    CountBounds(s.workers);
    if actions != [] {
      StepsRemain(s, actions[0]);
      InvStep(s, actions[0]);
      RunBounded(Do(s, actions[0]), actions[1..]);
    }
  }

  lemma {:induction false} NotStartedRanks(n: nat)
    ensures Ranks(seq(n, _ => NotStarted)) == 3 * n
  {
    if n > 0 {
      assert seq(n, _ => NotStarted)[1..] == seq(n - 1, _ => NotStarted);
      NotStartedRanks(n - 1);
    }
  }

  // drainNodes always returns: no run is longer than 4n + 3 actions, and a run that cannot be
  // continued has returned.
  lemma AlwaysReturns(n: nat, actions: seq<Action>)
    requires Run(Init(n), actions)
    ensures |actions| <= 4 * n + 3
    ensures (forall a :: !Enabled(After(Init(n), actions), a)) ==> After(Init(n), actions).Closed()
  {
    NoneSent(n);
    InvReachable(n, []);
    RunBounded(Init(n), actions);
    NotStartedRanks(n);
    if !After(Init(n), actions).Closed() {
      NeverStuck(n, actions);
    }
  }
}
