/** The pool's events and their dispatch together: a consumer of the app channel knows the pool. */
module MempoolConsumer {
  import opened Common
  import opened MempoolTypes
  import opened MempoolState
  import opened MempoolRuns
  import opened MempoolReplay
  import opened MempoolRoom
  import Dispatch = EventDispatch

  /** Every event is announced under the pool's mutex, so the app stream of the dispatcher's run is the event stream
      of the pool's run. A consumer who folds what was delivered so far is behind by exactly the event in hand and the
      queued ones. */
  lemma ConsumerFollows(c: Config, steps: seq<Step>, keyOf: Bytes -> Key, dispatch: seq<Dispatch.Step>)
    requires c.Valid() && SafeRun(c, EMPTY, steps) && NamedRun(keyOf, steps) && UntroubledRun(c, EMPTY, steps)
    requires Dispatch.Run(dispatch) && Dispatch.AppStream(dispatch) == Produced(c, EMPTY, steps)
    ensures var side := Dispatch.After(dispatch).app;
            Replay(Replay({}, side.delivered), Dispatch.Hand(side) + side.queue) == Pooled(After(c, EMPTY, steps))
  {
    hide SafeRun, NamedRun, UntroubledRun, After, Pooled, Replay, Produced, Dispatch.AppStream, Dispatch.CometStream;
    var side := Dispatch.After(dispatch).app;
    Dispatch.DeliveredIsPrefix(dispatch);
    UntroubledRunReplays(c, steps, keyOf);
    ReplayJoin({}, side.delivered, Dispatch.Hand(side) + side.queue);
    assert side.delivered + (Dispatch.Hand(side) + side.queue) == side.delivered + Dispatch.Hand(side) + side.queue;
  }

  /** Whatever the app dispatcher still has to do, every order in which it is done comes to rest within a bound, and
      then the consumer knows exactly the pooled transactions. */
  lemma ConsumerCatchesUp(c: Config, steps: seq<Step>, keyOf: Bytes -> Key, dispatch: seq<Dispatch.Step>,
                          acts: seq<Dispatch.Act>)
    requires c.Valid() && SafeRun(c, EMPTY, steps) && NamedRun(keyOf, steps) && UntroubledRun(c, EMPTY, steps)
    requires Dispatch.Run(dispatch) && !Dispatch.After(dispatch).stopped
    requires Dispatch.AppStream(dispatch) == Produced(c, EMPTY, steps)
    requires Dispatch.ActsFrom(Dispatch.After(dispatch).app, false, acts)
    ensures |acts| <= Dispatch.Work(Dispatch.After(dispatch).app)
    ensures var side := Dispatch.AfterActs(Dispatch.After(dispatch).app, false, acts);
            Dispatch.AtRest(side, false) ==> Replay({}, side.delivered) == Pooled(After(c, EMPTY, steps))
  {
    hide SafeRun, NamedRun, UntroubledRun, After, Pooled, Replay, Produced, Dispatch.SideInv;
    Dispatch.RunKeepsEvents(dispatch);
    Dispatch.ProducedIsStream(dispatch);
    Dispatch.EverythingIsDelivered(Dispatch.After(dispatch).app, acts);
    UntroubledRunReplays(c, steps, keyOf);
  }
}
