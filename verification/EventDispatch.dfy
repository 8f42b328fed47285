/** The event dispatch protocol (abcipp/mempool_event.go): producers append under a mutex and then post a one-slot
    wake-up token; one dispatcher per channel waits for the token, drains its queue and sends. Every atomic action of
    every goroutine is one step, so a run is any interleaving. */
module EventDispatch {
  import opened MempoolTypes

  /** Where a dispatcher goroutine stands. A dispatcher that stopped while sending keeps the event in hand. */
  datatype Pc = Idle | Woken | Draining | Sending(ev: Event) | Done(last: seq<Event>)

  /** One channel's side: `wired` is whether the channel was set, `token` the one-slot notify channel, `posting` the
      number of goroutines that have appended (or wired the channel) and are about to post a token. `produced` and
      `delivered` are histories. */
  datatype Side = Side(wired: bool, queue: seq<Event>, token: bool, posting: nat, pc: Pc,
                       produced: seq<Event>, delivered: seq<Event>)

  datatype State = State(comet: Side, app: Side, stopped: bool)

  const QUIET := Side(false, [], false, 0, Idle, [], [])

  const START := State(QUIET, QUIET, false)

  // ---- steps ----------------------------------------------------------------------------------

  /** Actions on one side. */
  datatype Act =
    | Wire       // SetEventCh stores the channel
    | Post       // a pending post, dropped when the token is already there
    | Wake       // the dispatcher takes the token
    | Load       // ... and looks for the channel
    | Pop        // ... locks, and takes the front event or goes back to waiting
    | Send       // ... hands it to the channel
    | Quit       // ... sees the stop signal while waiting or sending

  predicate CanAct(d: Side, stopped: bool, act: Act) {
    match act
    case Wire => true
    case Post => d.posting > 0
    case Wake => d.pc == Idle && d.token
    case Load => d.pc == Woken
    case Pop => d.pc == Draining
    case Send => d.pc.Sending?
    case Quit => stopped && (d.pc == Idle || d.pc.Sending?)
  }

  function DoAct(d: Side, stopped: bool, act: Act): Side
    requires CanAct(d, stopped, act)
  {
    match act
    case Wire => d.(wired := true, posting := d.posting + 1)
    case Post => d.(token := true, posting := d.posting - 1)
    case Wake => d.(token := false, pc := Woken)
    case Load => d.(pc := if d.wired then Draining else Idle)
    case Pop => if d.queue == [] then d.(pc := Idle) else d.(queue := d.queue[1..], pc := Sending(d.queue[0]))
    case Send => d.(delivered := d.delivered + [d.pc.ev], pc := Draining)
    case Quit => d.(pc := Done(Hand(d)))
  }

  /** The event a dispatcher has taken from the queue and not handed over. */
  function Hand(d: Side): seq<Event> {
    match d.pc
    case Sending(ev) => [ev]
    case Done(last) => last
    case _ => []
  }

  /** The locked part of `enqueueEvent` for one side. */
  function Append(d: Side, ev: Event): Side {
    d.(queue := d.queue + [ev], posting := d.posting + 1, produced := d.produced + [ev])
  }

  datatype Step =
    | Produce(ev: Event, toComet: bool, toApp: bool)   // `toComet` and `toApp` are the channels the producer saw wired
    | Comet(act: Act)
    | App(act: Act)
    | Stop

  /** `EventTxQueued` is kept from the comet channel. */
  predicate ForComet(step: Step) {
    step.Produce? && step.toComet && step.ev.kind != TxQueued
  }

  predicate Enabled(s: State, step: Step) {
    match step
    case Produce(_, toComet, toApp) => !s.stopped && (toComet ==> s.comet.wired) && (toApp ==> s.app.wired)
    case Comet(act) => CanAct(s.comet, s.stopped, act)
    case App(act) => CanAct(s.app, s.stopped, act)
    case Stop => true
  }

  function Next(s: State, step: Step): State
    requires Enabled(s, step)
  {
    match step
    case Produce(ev, toComet, toApp) =>
      s.(comet := if ForComet(step) then Append(s.comet, ev) else s.comet,
         app := if toApp then Append(s.app, ev) else s.app)
    case Comet(act) => s.(comet := DoAct(s.comet, s.stopped, act))
    case App(act) => s.(app := DoAct(s.app, s.stopped, act))
    case Stop => s.(stopped := true)
  }

  ghost predicate Run(steps: seq<Step>)
    decreases |steps|, 0
  {
    steps == [] || (Run(steps[..|steps| - 1]) && Enabled(After(steps[..|steps| - 1]), steps[|steps| - 1]))
  }

  ghost function After(steps: seq<Step>): State
    requires Run(steps)
    decreases |steps|, 1
  {
    if steps == [] then START else Next(After(steps[..|steps| - 1]), steps[|steps| - 1])
  }

  // ---- safety ---------------------------------------------------------------------------------

  /** Nothing is lost, duplicated or reordered, and no wake-up is missed. */
  ghost predicate SideInv(d: Side, stopped: bool) {
    && d.delivered + Hand(d) + d.queue == d.produced
    && (d.queue != [] ==> d.wired)
    && (d.pc == Idle && d.queue != [] ==> d.token || d.posting > 0)
    && (d.pc == Draining || d.pc.Sending? ==> d.wired)
    && (d.pc.Done? ==> stopped && |d.pc.last| <= 1)
  }

  lemma ActInv(d: Side, stopped: bool, act: Act)
    requires SideInv(d, stopped) && CanAct(d, stopped, act)
    ensures SideInv(DoAct(d, stopped, act), stopped)
    ensures DoAct(d, stopped, act).produced == d.produced
  {
    match act
    case Pop =>
      if d.queue != [] {
        assert d.queue == [d.queue[0]] + d.queue[1..];
        assert d.delivered + [] + d.queue == d.delivered + [d.queue[0]] + d.queue[1..];
      }
    case Send =>
      assert d.delivered + [d.pc.ev] + [] + d.queue == d.delivered + [d.pc.ev] + d.queue;
    case _ =>
  }

  lemma AppendInv(d: Side, ev: Event)
    requires SideInv(d, false) && d.wired
    ensures SideInv(Append(d, ev), false)
  {
    assert d.delivered + Hand(d) + (d.queue + [ev]) == (d.delivered + Hand(d) + d.queue) + [ev];
  }

  /** In every state of every run, on both channels: delivered events, the one in hand and the queued ones are
      together the produced sequence; and a waiting dispatcher with a non-empty queue has a token waiting or about to
      be posted. */
  lemma {:induction false} RunKeepsEvents(steps: seq<Step>)
    requires Run(steps)
    ensures SideInv(After(steps).comet, After(steps).stopped) && SideInv(After(steps).app, After(steps).stopped)
  {
    if steps != [] {
      var s := After(steps[..|steps| - 1]);
      var step := steps[|steps| - 1];
      RunKeepsEvents(steps[..|steps| - 1]);
      hide SideInv, DoAct, Append;
      match step
      case Produce(ev, toComet, toApp) =>
        if ForComet(step) { AppendInv(s.comet, ev); }
        if toApp { AppendInv(s.app, ev); }
      case Comet(act) => ActInv(s.comet, s.stopped, act);
      case App(act) => ActInv(s.app, s.stopped, act);
      case Stop =>
        StopInv(s.comet, s.stopped);
        StopInv(s.app, s.stopped);
    }
  }

  lemma StopInv(d: Side, stopped: bool)
    requires SideInv(d, stopped)
    ensures SideInv(d, true)
  {
  }

  /** The events the producers announced to each channel, read off the run. */
  ghost function AppStream(steps: seq<Step>): seq<Event> {
    if steps == [] then []
    else
      var step := steps[|steps| - 1];
      AppStream(steps[..|steps| - 1]) + (if step.Produce? && step.toApp then [step.ev] else [])
  }

  ghost function CometStream(steps: seq<Step>): seq<Event> {
    if steps == [] then []
    else
      var step := steps[|steps| - 1];
      CometStream(steps[..|steps| - 1]) + (if ForComet(step) then [step.ev] else [])
  }

  lemma {:induction false} ProducedIsStream(steps: seq<Step>)
    requires Run(steps)
    ensures After(steps).app.produced == AppStream(steps) && After(steps).comet.produced == CometStream(steps)
  {
    if steps != [] {
      ProducedIsStream(steps[..|steps| - 1]);
    }
  }

  /** Each channel receives a prefix of what its producers announced, in order; before the stop signal everything
      missing is still in hand or queued. */
  lemma DeliveredIsPrefix(steps: seq<Step>)
    requires Run(steps)
    ensures var s := After(steps);
            && s.app.delivered <= AppStream(steps) && s.comet.delivered <= CometStream(steps)
            && s.app.delivered + Hand(s.app) + s.app.queue == AppStream(steps)
            && s.comet.delivered + Hand(s.comet) + s.comet.queue == CometStream(steps)
  {
    RunKeepsEvents(steps);
    ProducedIsStream(steps);
  }

  ghost function NotQueued(evs: seq<Event>): seq<Event> {
    if evs == [] then []
    else NotQueued(evs[..|evs| - 1]) + (if evs[|evs| - 1].kind != TxQueued then [evs[|evs| - 1]] else [])
  }

  /** When every producer sees both channels, the comet stream is the app stream without the Queued events. */
  lemma {:induction false} CometIsFiltered(steps: seq<Step>)
    requires forall i {:trigger steps[i]} :: 0 <= i < |steps| && steps[i].Produce? ==>
              steps[i].toComet && steps[i].toApp
    ensures CometStream(steps) == NotQueued(AppStream(steps))
  {
    if steps != [] {
      var init := steps[..|steps| - 1];
      var step := steps[|steps| - 1];
      assert forall i {:trigger init[i]} :: 0 <= i < |init| ==> init[i] == steps[i];
      CometIsFiltered(init);
      if step.Produce? {
        assert step == steps[|steps| - 1];
        var evs := AppStream(init) + [step.ev];
        assert evs[..|evs| - 1] == AppStream(init);
      } else {
        assert AppStream(init) + [] == AppStream(init) && CometStream(init) + [] == CometStream(init);
      }
    }
  }

  // ---- progress -------------------------------------------------------------------------------

  /** No side takes more actions than this without new producers. */
  ghost function Work(d: Side): nat {
    4 * d.posting + (if d.token then 3 else 0) + 2 * |d.queue| +
    (match d.pc case Idle => 0 case Woken => 2 case Draining => 1 case Sending(_) => 2 case Done(_) => 0)
  }

  /** A sequence of actions on one side, in any order, in which no channel is wired anew. */
  ghost predicate ActsFrom(d: Side, stopped: bool, acts: seq<Act>)
    decreases |acts|
  {
    acts == [] ||
    (acts[0] != Wire && CanAct(d, stopped, acts[0]) && ActsFrom(DoAct(d, stopped, acts[0]), stopped, acts[1..]))
  }

  ghost function AfterActs(d: Side, stopped: bool, acts: seq<Act>): Side
    requires ActsFrom(d, stopped, acts)
    decreases |acts|
  {
    if acts == [] then d else AfterActs(DoAct(d, stopped, acts[0]), stopped, acts[1..])
  }

  /** Nothing is left to do: no post is pending and the dispatcher waits for a token that is not there. */
  ghost predicate AtRest(d: Side, stopped: bool) {
    forall act :: act != Wire ==> !CanAct(d, stopped, act)
  }

  lemma RestIsDelivered(d: Side)
    requires SideInv(d, false) && AtRest(d, false)
    ensures d.delivered == d.produced && d.queue == [] && d.pc == Idle
  {
    assert !CanAct(d, false, Post) && !CanAct(d, false, Wake) && !CanAct(d, false, Load);
    assert !CanAct(d, false, Pop) && !CanAct(d, false, Send);
    assert d.delivered + [] + [] == d.delivered;
  }

  /** From any state before the stop signal, every order in which pending posts and the dispatcher act comes to rest
      within `Work(d)` actions, and at rest everything produced has been delivered: no event is stranded. */
  lemma {:induction false} EverythingIsDelivered(d: Side, acts: seq<Act>)
    requires SideInv(d, false) && ActsFrom(d, false, acts)
    ensures |acts| <= Work(d)
    ensures var t := AfterActs(d, false, acts);
            SideInv(t, false) && (AtRest(t, false) ==> t.delivered == d.produced && t.queue == [] && t.pc == Idle)
    decreases |acts|
  {
    if acts == [] {
      if AtRest(d, false) { RestIsDelivered(d); }
    } else {
      ActInv(d, false, acts[0]);
      EverythingIsDelivered(DoAct(d, false, acts[0]), acts[1..]);
    }
  }

  /** `StopEventDispatch` returns: after the stop signal the dispatcher always has an action that needs no consumer, and
      without new producers no interleaving takes more than `Work(d) + 1` actions. */
  lemma {:induction false} StopReturns(d: Side, acts: seq<Act>)
    requires SideInv(d, true)
    ensures d.pc.Done? || CanAct(d, true, Quit) || CanAct(d, true, Load) || CanAct(d, true, Pop)
    ensures ActsFrom(d, true, acts) ==> |acts| <= Work(d) + (if d.pc.Done? then 0 else 1)
    decreases |acts|
  {
    if acts != [] && ActsFrom(d, true, acts) {
      ActInv(d, true, acts[0]);
      StopReturns(DoAct(d, true, acts[0]), acts[1..]);
    }
  }
}
