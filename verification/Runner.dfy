/** The agent's `Run` loop and `runOnce`: what they report, hold open and expose as health, in order. */
module Runner {
  import opened Wrappers
  import B = Backoff

  /** The steps of `runOnce` that can fail, in the order of the code. */
  datatype Stage = Connect | Properties | Client | Dial | Open | ReadProperties | ReadAddress | Report | Serve

  function Rank(stage: Stage): nat {
    match stage
    case Connect => 0
    case Properties => 1
    case Client => 2
    case Dial => 3
    case Open => 4
    case ReadProperties => 5
    case ReadAddress => 6
    case Report => 7
    case Serve => 8
  }

  /** How one attempt goes: where it fails, if anywhere, and what the context does meanwhile. */
  datatype Round = Round(failsAt: Option<Stage>, canceled: bool, doneWhileWaiting: bool) {
    predicate Passes(stage: Stage) {
      failsAt.Some? ==> Rank(stage) < Rank(failsAt.value)
    }

    /** `err == nil || errors.Is(err, context.Canceled)`. */
    predicate EndsRun() {
      failsAt.None? || canceled
    }
  }

  datatype Event =
    | Connecting | Online(accepted: bool) | Disconnected
    | ControlOpened | ControlClosed | TunnelOpened | TunnelClosed
    | Health(ready: bool)
    | Waiting(duration: int)

  function Closing(tunnel: bool): seq<Event> {
    (if tunnel then [TunnelClosed] else []) + [ControlClosed]
  }

  function RoundEvents(r: Round): seq<Event> {
    [Connecting] +
    if !r.Passes(Dial) then []
    else if !r.Passes(Open) then [ControlOpened] + Closing(false)
    else if !r.Passes(ReadAddress) then [ControlOpened, TunnelOpened] + Closing(true)
    else if !r.Passes(Report) then [ControlOpened, TunnelOpened, Online(false)] + Closing(true)
    else [ControlOpened, TunnelOpened, Online(true), Health(true)] + Closing(true)
  }

  /** The events of one turn of the retry loop, whose wait, if any, is number `k`. */
  function Turn(r: Round, d: B.Durations, k: nat): seq<Event> {
    [Health(false)] + RoundEvents(r) + [Health(false)]
    + if r.EndsRun() then [] else [Disconnected, Waiting(B.Wait(d.initial, d.max, k))]
  }

  /** The events of a run whose first wait is number `k`; the context is done after the last round. */
  function RunEvents(rounds: seq<Round>, d: B.Durations, k: nat): seq<Event> {
    if rounds == [] then [Health(false)]
    else
      var turn := Turn(rounds[0], d, k);
      if rounds[0].EndsRun() || rounds[0].doneWhileWaiting then turn
      else turn + RunEvents(rounds[1..], d, k + 1)
  }

  class Agent {
    var health: bool
    var events: seq<Event>

    constructor ()
      ensures !health && events == []
    {
      health := false;
      events := [];
    }

    method Emit(e: Event)
      modifies this
      ensures events == old(events) + [e]
      ensures health == if e.Health? then e.ready else old(health)
    {
      events := events + [e];
      if e.Health? {
        health := e.ready;
      }
    }

    /** The deferred closes, last opened first. */
    method Close(tunnel: bool)
      modifies this
      ensures events == old(events) + Closing(tunnel) && health == old(health)
    {
      if tunnel {
        Emit(TunnelClosed);
      }
      Emit(ControlClosed);
    }

    method RunOnce(r: Round) returns (failed: bool)
      requires !health
      modifies this
      ensures events == old(events) + RoundEvents(r)
      ensures failed <==> r.failsAt.Some?
      ensures health <==> r.Passes(Report)
    {
      Emit(Connecting);
      if r.failsAt in {Some(Connect), Some(Properties), Some(Client), Some(Dial)} {
        return true;
      }
      Emit(ControlOpened);
      if r.failsAt == Some(Open) {
        Close(false);
        return true;
      }
      Emit(TunnelOpened);
      if r.failsAt in {Some(ReadProperties), Some(ReadAddress)} {
        Close(true);
        return true;
      }
      Emit(Online(r.failsAt != Some(Report)));
      if r.failsAt == Some(Report) {
        Close(true);
        return true;
      }
      Emit(Health(true));
      Close(true);
      failed := r.failsAt == Some(Serve);
    }

    /** One turn of the retry loop, up to the wait. */
    method Attempt(r: Round, backoff: B.Schedule, ghost d: B.Durations, ghost k: nat) returns (exit: bool)
      requires backoff.next == B.Wait(d.initial, d.max, k) && backoff.max == d.max
      modifies this, backoff
      ensures exit <==> r.EndsRun()
      ensures events == old(events) + Turn(r, d, k)
      ensures !exit ==> backoff.next == B.Wait(d.initial, d.max, k + 1)
      ensures !health
    {
      hide RoundEvents, Closing, B.CappedDoubling;
      Emit(Health(false));
      var failed := RunOnce(r);
      Emit(Health(false));
      exit := !failed || r.canceled;
      if !exit {
        Emit(Disconnected);
        var wait := backoff.Next();
        Emit(Waiting(wait));
      }
    }

    /** The retry loop, for a context that is done once `rounds` are used up. */
    method Run(rounds: seq<Round>, d: B.Durations)
      modifies this
      ensures events == old(events) + RunEvents(rounds, d, 0)
      ensures !health
    {
      var backoff := new B.Schedule(d.initial, d.max);
      ghost var all := events + RunEvents(rounds, d, 0);
      var i := 0;
      while i < |rounds|
        invariant 0 <= i <= |rounds|
        invariant backoff.next == B.Wait(d.initial, d.max, i) && backoff.max == d.max
        invariant events + RunEvents(rounds[i..], d, i) == all
        modifies this, backoff
      {
        ghost var sofar := events;
        assert rounds[i..][0] == rounds[i] && rounds[i..][1..] == rounds[i + 1..];
        var exit := Attempt(rounds[i], backoff, d, i);
        if exit || rounds[i].doneWhileWaiting {
          return;
        }
        Append(sofar, Turn(rounds[i], d, i), RunEvents(rounds[i + 1..], d, i + 1));
        i := i + 1;
      }
      Emit(Health(false));
    }
  }

  lemma Append(a: seq<Event>, b: seq<Event>, c: seq<Event>)
    ensures (a + b) + c == a + (b + c)
  {
  }

  /** An observer of the events; `ok` turns false at the first event that is out of place. */
  datatype Observer = Observer(
    ok: bool, reporting: bool, asked: bool, online: bool, control: bool, tunnel: bool, health: bool, waits: nat)

  const START := Observer(true, false, false, false, false, false, false, 0)

  /**
   What may happen when: reports come as Connecting, at most one Online, Disconnected; Online needs an open
   tunnel; nothing is open when Disconnected is reported or a wait begins; health turns true only after an
   accepted Online of the same attempt, and is false at every Connecting, Disconnected and wait; the n-th
   wait has the length the schedule says.
   */
  function Observe(o: Observer, e: Event, d: B.Durations): Observer {
    match e
    case Connecting =>
      o.(ok := o.ok && !o.reporting && !o.control && !o.tunnel && !o.health,
         reporting := true, asked := false, online := false)
    case ControlOpened => o.(ok := o.ok && o.reporting && !o.control, control := true)
    case TunnelOpened => o.(ok := o.ok && o.control && !o.tunnel, tunnel := true)
    case Online(accepted) =>
      o.(ok := o.ok && o.reporting && o.tunnel && !o.asked, asked := true, online := accepted)
    case Health(ready) => o.(ok := o.ok && (ready ==> o.reporting && o.online && o.tunnel), health := ready)
    case TunnelClosed => o.(ok := o.ok && o.tunnel, tunnel := false)
    case ControlClosed => o.(ok := o.ok && o.control && !o.tunnel, control := false)
    case Disconnected =>
      o.(ok := o.ok && o.reporting && !o.control && !o.tunnel && !o.health, reporting := false)
    case Waiting(duration) =>
      o.(ok := o.ok && !o.reporting && !o.control && !o.tunnel && !o.health
               && duration == B.Wait(d.initial, d.max, o.waits),
         waits := o.waits + 1)
  }

  function ObserveAll(o: Observer, events: seq<Event>, d: B.Durations): Observer
    decreases events
  {
    if events == [] then o else ObserveAll(Observe(o, events[0], d), events[1..], d)
  }

  lemma ObserveCons(o: Observer, e: Event, rest: seq<Event>, d: B.Durations)
    ensures ObserveAll(o, [e] + rest, d) == ObserveAll(Observe(o, e, d), rest, d)
  {
    assert ([e] + rest)[1..] == rest;
  }

  lemma ObserveTwo(o: Observer, a: Event, b: Event, rest: seq<Event>, d: B.Durations)
    ensures ObserveAll(o, [a, b] + rest, d) == ObserveAll(Observe(Observe(o, a, d), b, d), rest, d)
  {
    assert [a, b] + rest == [a] + ([b] + rest);
    ObserveCons(o, a, [b] + rest, d);
    ObserveCons(Observe(o, a, d), b, rest, d);
  }

  lemma {:induction false} ObserveConcat(o: Observer, a: seq<Event>, b: seq<Event>, d: B.Durations)
    ensures ObserveAll(o, a + b, d) == ObserveAll(ObserveAll(o, a, d), b, d)
    decreases a
  {
    if a == [] {
      assert a + b == b;
    } else {
      assert a + b == [a[0]] + (a[1..] + b);
      ObserveCons(o, a[0], a[1..] + b, d);
      ObserveConcat(Observe(o, a[0], d), a[1..], b, d);
    }
  }

  /** Between two attempts nothing is open and nothing is reported as ready. */
  predicate Quiet(o: Observer) {
    o.ok && !o.reporting && !o.control && !o.tunnel
  }

  lemma RoundIsOrderly(o: Observer, r: Round, d: B.Durations)
    requires Quiet(o)
    ensures var after := ObserveAll(o, [Health(false)] + RoundEvents(r) + [Health(false)], d);
            && after.ok && after.reporting && !after.control && !after.tunnel && !after.health
            && after.waits == o.waits
  {
    var rest := RoundEvents(r)[1..];
    assert [Health(false)] + RoundEvents(r) + [Health(false)] == [Health(false), Connecting] + (rest + [Health(false)]);
    ObserveTwo(o, Health(false), Connecting, rest + [Health(false)], d);
    var begun := Observe(Observe(o, Health(false), d), Connecting, d);
    ObserveConcat(begun, rest, [Health(false)], d);
    AttemptIsOrderly(begun, r, d);
    ObserveCons(ObserveAll(begun, rest, d), Health(false), [], d);
  }

  /** The events of an attempt between opening its tunnel and closing it. */
  function WhileOpen(r: Round): seq<Event> {
    if !r.Passes(ReadAddress) then []
    else if !r.Passes(Report) then [Online(false)]
    else [Online(true), Health(true)]
  }

  lemma RoundParts(r: Round)
    ensures RoundEvents(r)[1..] ==
              if !r.Passes(Dial) then []
              else if !r.Passes(Open) then [ControlOpened, ControlClosed]
              else [ControlOpened, TunnelOpened] + (WhileOpen(r) + Closing(true))
  {
  }

  lemma AttemptIsOrderly(o: Observer, r: Round, d: B.Durations)
    requires o.ok && o.reporting && !o.control && !o.tunnel && !o.health && !o.asked && !o.online
    ensures var after := ObserveAll(o, RoundEvents(r)[1..], d);
            after.ok && after.reporting && !after.control && !after.tunnel && after.waits == o.waits
  {
    hide RoundEvents, WhileOpen, Closing;
    RoundParts(r);
    if !r.Passes(Dial) {
    } else if !r.Passes(Open) {
      assert [ControlOpened, ControlClosed] == [ControlOpened, ControlClosed] + [];
      ObserveTwo(o, ControlOpened, ControlClosed, [], d);
    } else {
      var up := Observe(Observe(o, ControlOpened, d), TunnelOpened, d);
      ObserveTwo(o, ControlOpened, TunnelOpened, WhileOpen(r) + Closing(true), d);
      ObserveConcat(up, WhileOpen(r), Closing(true), d);
      OpenIsOrderly(up, r, d);
      ClosingIsOrderly(ObserveAll(up, WhileOpen(r), d), d);
    }
  }

  lemma OpenIsOrderly(o: Observer, r: Round, d: B.Durations)
    requires o.ok && o.reporting && o.control && o.tunnel && !o.asked && !o.online
    ensures var after := ObserveAll(o, WhileOpen(r), d);
            after.ok && after.reporting && after.control && after.tunnel && after.waits == o.waits
  {
    var events := WhileOpen(r);
    if events == [Online(false)] {
      ObserveCons(o, Online(false), [], d);
      assert [Online(false)] == [Online(false)] + [];
    } else if events != [] {
      assert events == [Online(true), Health(true)] + [];
      ObserveTwo(o, Online(true), Health(true), [], d);
    }
  }

  lemma ClosingIsOrderly(o: Observer, d: B.Durations)
    requires o.ok && o.control && o.tunnel
    ensures ObserveAll(o, Closing(true), d) == o.(control := false, tunnel := false)
  {
    assert Closing(true) == [TunnelClosed, ControlClosed] + [];
    ObserveTwo(o, TunnelClosed, ControlClosed, [], d);
  }

  /** Every run, over any rounds, is in order, follows the schedule, and ends unready with nothing open. */
  lemma {:induction false} EveryRunIsOrderly(o: Observer, rounds: seq<Round>, d: B.Durations)
    requires Quiet(o)
    ensures var after := ObserveAll(o, RunEvents(rounds, d, o.waits), d);
            after.ok && !after.control && !after.tunnel && !after.health
    decreases |rounds|
  {
    if rounds == [] {
      ObserveCons(o, Health(false), [], d);
    } else {
      var r, rest := rounds[0], rounds[1..];
      var head := [Health(false)] + RoundEvents(r) + [Health(false)];
      RoundIsOrderly(o, r, d);
      if r.EndsRun() {
        assert RunEvents(rounds, d, o.waits) == head;
      } else {
        var tail := [Disconnected, Waiting(B.Wait(d.initial, d.max, o.waits))];
        var o1 := ObserveAll(o, head, d);
        ObserveConcat(o, head, tail, d);
        assert tail == tail + [];
        ObserveTwo(o1, tail[0], tail[1], [], d);
        if !r.doneWhileWaiting {
          ObserveConcat(o, head + tail, RunEvents(rest, d, o.waits + 1), d);
          EveryRunIsOrderly(ObserveAll(o1, tail, d), rest, d);
        }
      }
    }
  }

  /** What `Run` does, observed from the start of the agent. */
  lemma RunIsOrderly(rounds: seq<Round>, d: B.Durations)
    ensures var after := ObserveAll(START, RunEvents(rounds, d, 0), d);
            after.ok && !after.control && !after.tunnel && !after.health
  {
    EveryRunIsOrderly(START, rounds, d);
  }

  // ---- Which attempts are made, and what is in them ----

  /** What an attempt does, by the step that fails. */
  lemma RoundMeans(r: Round)
    ensures var events := RoundEvents(r);
            && Connecting in events
            && (ControlOpened in events <==> r.failsAt !in {Some(Connect), Some(Properties), Some(Client), Some(Dial)})
            && (TunnelOpened in events <==> ControlOpened in events && r.failsAt != Some(Open))
            && (TunnelClosed in events <==> TunnelOpened in events)
            && (ControlClosed in events <==> ControlOpened in events)
            && (Online(true) in events <==> r.failsAt in {None, Some(Serve)})
            && (Online(false) in events <==> r.failsAt == Some(Report))
            && (Health(true) in events <==> Online(true) in events)
  {
    match r.failsAt {
      case None => assert RoundEvents(r) == Served();
      case Some(Serve) => assert RoundEvents(r) == Served();
      case Some(Report) =>
        assert RoundEvents(r) == [Connecting, ControlOpened, TunnelOpened, Online(false), TunnelClosed, ControlClosed];
      case Some(ReadProperties) => assert RoundEvents(r) == Unreported();
      case Some(ReadAddress) => assert RoundEvents(r) == Unreported();
      case Some(Open) => assert RoundEvents(r) == [Connecting, ControlOpened, ControlClosed];
      case Some(_) => assert RoundEvents(r) == [Connecting];
    }
  }

  function Served(): seq<Event> {
    [Connecting, ControlOpened, TunnelOpened, Online(true), Health(true), TunnelClosed, ControlClosed]
  }

  function Unreported(): seq<Event> {
    [Connecting, ControlOpened, TunnelOpened, TunnelClosed, ControlClosed]
  }

  /** The attempt failed while the context was not done, and the context was not done in the wait after it either. */
  predicate Retried(r: Round) {
    r.failsAt.Some? && !r.canceled && !r.doneWhileWaiting
  }

  lemma TurnCounts(r: Round, d: B.Durations, k: nat)
    ensures multiset(Turn(r, d, k))[Connecting] == 1
    ensures multiset(Turn(r, d, k))[Disconnected] == if r.failsAt.Some? && !r.canceled then 1 else 0
  {
    hide B.Wait;
    var round := RoundEvents(r);
    var tail := if r.EndsRun() then [] else [Disconnected, Waiting(B.Wait(d.initial, d.max, k))];
    RoundCounts(r);
    assert Turn(r, d, k) == [Health(false)] + round + [Health(false)] + tail;
    assert multiset(Turn(r, d, k))
        == multiset([Health(false)]) + multiset(round) + multiset([Health(false)]) + multiset(tail);
  }

  lemma RoundCounts(r: Round)
    ensures multiset(RoundEvents(r))[Connecting] == 1 && multiset(RoundEvents(r))[Disconnected] == 0
  {
    var rest := RoundEvents(r)[1..];
    assert RoundEvents(r) == [Connecting] + rest;
    assert Connecting !in rest && Disconnected !in rest;
  }

  /**
   Attempt `i` is made exactly if every attempt before it was retried; and it is reported as disconnected exactly if it
   is made and fails while the context is not done.
   */
  lemma {:induction false} AttemptsMade(rounds: seq<Round>, d: B.Durations, k: nat, i: nat)
    requires i < |rounds|
    ensures var events := multiset(RunEvents(rounds, d, k));
            && (events[Connecting] > i <==> forall j | 0 <= j < i :: Retried(rounds[j]))
            && (events[Disconnected] > i <==>
                  events[Connecting] > i && rounds[i].failsAt.Some? && !rounds[i].canceled)
    decreases i
  {
    hide Turn, B.Wait;
    var rest, turn := rounds[1..], Turn(rounds[0], d, k);
    TurnCounts(rounds[0], d, k);
    if Retried(rounds[0]) {
      assert multiset(turn + RunEvents(rest, d, k + 1)) == multiset(turn) + multiset(RunEvents(rest, d, k + 1));
      if i > 0 {
        AttemptsMade(rest, d, k + 1, i - 1);
        assert forall j | 0 < j < |rounds| :: rounds[j] == rest[j - 1];
      }
    } else {
      assert RunEvents(rounds, d, k) == turn;
    }
  }

  /** No attempt is made twice. */
  lemma {:induction false} OneAttemptPerRound(rounds: seq<Round>, d: B.Durations, k: nat)
    ensures multiset(RunEvents(rounds, d, k))[Connecting] <= |rounds|
    decreases |rounds|
  {
    hide Turn, B.Wait;
    if rounds != [] {
      var rest, turn := rounds[1..], Turn(rounds[0], d, k);
      TurnCounts(rounds[0], d, k);
      assert multiset(turn + RunEvents(rest, d, k + 1)) == multiset(turn) + multiset(RunEvents(rest, d, k + 1));
      OneAttemptPerRound(rest, d, k + 1);
    }
  }
}
