/** The keeper's collections and the block's three walks over its queues, in place. */
module GovKeepers {
  import opened Common
  import opened GovCoins
  import opened GovTypes

  class GovKeeper {
    var proposals: map<nat, Proposal>
    var inactive: set<Due>
    var active: set<Due>
    var emergency: set<Due>
    var emergencyIds: set<nat>
    var votingIds: set<nat>
    var deposits: map<nat, map<string, Coins>>
    var paid: map<nat, seq<Payout>>
    var votes: map<nat, map<string, int>>
    /** The coins of the module account. */
    var balance: Coins
    var nextId: nat
    var params: Params
    var constitution: string

    ghost function Store(): Gov
      reads this
    {
      Gov(proposals, inactive, active, emergency, emergencyIds, votingIds, deposits, paid, votes, balance,
          nextId, params, constitution)
    }

    /** An empty store. */
    constructor (balance: Coins, nextId: nat, params: Params, constitution: string)
      ensures Store() == Gov(map[], {}, {}, {}, {}, {}, map[], map[], map[], balance, nextId, params, constitution)
      ensures Consistent(Store())
    {
      proposals, inactive, active, emergency, emergencyIds, votingIds := map[], {}, {}, {}, {}, {};
      deposits, paid, votes := map[], map[], map[];
      this.balance, this.nextId, this.params, this.constitution := balance, nextId, params, constitution;
    }

    /** One proposal's turn in `InitGenesis`. */
    method Restore(id: nat, p: Proposal)
      requires Consistent(Store()) && id !in proposals && WellFormed(p)
      modifies this`proposals, this`inactive, this`active, this`emergency, this`emergencyIds, this`votingIds
      ensures Consistent(Store()) && proposals == old(proposals)[id := p]
    {
      hide InactiveOf, ActiveOf, EmergencyOf, EmergencyIds, VotingIds, AllFormed;
      PutQueues(proposals, emergencyIds, id, p, p.status == VotingPeriod && p.emergency);
      NoEntries(proposals, emergencyIds, id);
      if p.status == DepositPeriod {
        inactive := inactive + {Due(p.depositEnd, id)};
      } else if p.status == VotingPeriod {
        active := active + {Due(p.votingEnd.value, id)};
        if p.emergency {
          emergency := emergency + {Due(p.nextTally.value, id)};
          emergencyIds := emergencyIds + {id};
        }
      }
      ghost var ps := proposals[id := p];
      assert inactive == InactiveOf(ps) && active == ActiveOf(ps);
      assert emergencyIds == EmergencyIds(ps) && emergency == EmergencyOf(ps, emergencyIds);
      SetProposal(id, p);
    }

    // ---- keeper operations ----------------------------------------------------------------------

    /** `SetProposal`. */
    method SetProposal(id: nat, p: Proposal)
      modifies this`proposals, this`votingIds
      ensures proposals == old(proposals)[id := p]
      ensures votingIds == if p.status == VotingPeriod then old(votingIds) + {id} else old(votingIds) - {id}
    {
      votingIds := if p.status == VotingPeriod then votingIds + {id} else votingIds - {id};
      proposals := proposals[id := p];
    }

    /** `RefundAndDeleteDeposits`, `DeleteAndBurnDeposits` and `ChargeDeposit`: one depositor after the other is paid
        from the module account, to the last coin; a solvent account always can. */
    method SettleDeposits(id: nat, how: How)
      requires Solvent(Store())
      modifies this`deposits, this`paid, this`balance
      ensures RecordAt(Store(), id) == Settle(old(RecordAt(Store(), id)), how) && OnlyAt(old(Store()), Store(), id)
      ensures Solvent(Store()) && Extra(Store()) == old(Extra(Store()))
    {
      hide Total, Sum, RecordAt, OnlyAt, Settle, Solvent, Extra;
      ghost var g := Store();
      SettlesNothing(g, id, how);
      if id in deposits {
        HeldCovered(g, id);
        PayOut(deposits[id]);
        paid := paid[id := (if id in paid then paid[id] else []) + [Payout(deposits[id], how)]];
        deposits := deposits - {id};
        SettlesRecord(g, Store(), id, how);
        SettlesCovered(g, Store(), id);
      }
    }

    /** Pays one depositor after the other. */
    method PayOut(held: map<string, Coins>)
      requires Sum(held) <= balance
      modifies this`balance
      ensures balance == old(balance) - Sum(held)
    {
      var todo := held;
      while todo != map[]
        invariant Sum(todo) <= balance && balance - Sum(todo) == old(balance) - Sum(held)
        decreases |todo|
      {
        var who :| who in todo;
        SumTakes(todo, who);
        balance := balance - todo[who];
        todo := todo - {who};
      }
    }

    /** `DeleteProposal`. */
    method DeleteProposal(id: nat)
      requires Coherent(Store()) && id in proposals
      modifies this`proposals, this`inactive, this`active, this`emergency, this`emergencyIds, this`votingIds
      ensures Coherent(Store()) && proposals == old(proposals) - {id} && emergencyIds == old(emergencyIds) - {id}
    {
      hide InactiveOf, ActiveOf, EmergencyOf, EmergencyIds, VotingIds, AllFormed;
      var p := proposals[id];
      DropQueues(proposals, emergencyIds, id);
      inactive := inactive - {Due(p.depositEnd, id)};
      if p.votingEnd.Some? {
        active := active - {Due(p.votingEnd.value, id)};
        votingIds := votingIds - {id};
        if p.emergency && p.nextTally.Some? {
          emergency := emergency - {Due(p.nextTally.value, id)};
          emergencyIds := emergencyIds - {id};
        }
      }
      proposals := proposals - {id};
    }

    /** `handleTallyResult`, with the votes that `Tally` used up. The queues stay those of `InitGenesis` except when an
        emergency proposal that is also expedited fails: it goes on voting, flagged as an emergency, but has left the
        emergency queue. */
    method HandleTallyResult(id: nat, t: Tally, executes: bool)
      requires Coherent(Store()) && Solvent(Store()) && id in proposals && proposals[id].status == VotingPeriod
      modifies this`proposals, this`inactive, this`active, this`emergency, this`emergencyIds, this`votingIds,
               this`deposits, this`paid, this`votes, this`balance
      ensures Coherent(Store()) && OnlyAt(old(Store()), Store(), id)
      ensures Solvent(Store()) && Extra(Store()) == old(Extra(Store()))
      ensures RecordAt(Store(), id) == AfterTally(params, old(RecordAt(Store(), id)), old(proposals[id]), t, executes)
      ensures old(Consistent(Store())) ==>
                var p := old(proposals[id]);
                (Consistent(Store()) <==> !(p.emergency && p.expedited && !t.passed))
    {
      hide Coherent, Consistent, Tallied, OnlyAt, RecordAt, AfterTally, Settle, Solvent, Extra;
      ghost var g := Store();
      Formed(g, id);
      OnlySelf(g, id);
      if !proposals[id].expedited || t.passed {
        SettleDeposits(id, HowOf(t.burn));
      }
      ghost var h := Store();
      votes := votes - {id};
      ghost var u := Store();
      SameQueues(g, u);
      OnlyVotes(h, u, id);
      OnlyThen(g, h, u, id);
      Conclude(id, t, executes);
      OnlyTallied(g, u, Store(), id);
      TallyRecord(params, g, id, t, executes);
      SameMoney(u, Store());
      TalliedStrands(params, g, Store(), id, t, executes);
    }

    /** `handleTallyResult` after the deposits: the queues and the proposal. */
    method Conclude(id: nat, t: Tally, executes: bool)
      requires Coherent(Store()) && id in proposals && proposals[id].status == VotingPeriod
      modifies this`proposals, this`active, this`emergency, this`emergencyIds, this`votingIds
      ensures Coherent(Store()) && proposals == old(proposals)[id := Tallied(params, old(proposals[id]), t, executes)]
      ensures emergencyIds == if old(proposals[id]).emergency then old(emergencyIds) - {id} else old(emergencyIds)
    {
      hide InactiveOf, ActiveOf, EmergencyOf, EmergencyIds, VotingIds, AllFormed;
      var p := proposals[id];
      FormedAt(proposals, id);
      TallyQueues(params, proposals, emergencyIds, id, t, executes);
      active := active - {Due(p.votingEnd.value, id)};
      if p.emergency {
        emergency := emergency - {Due(p.nextTally.value, id)};
        emergencyIds := emergencyIds - {id};
        p := p.(votingEnd := p.nextTally);
      }
      if t.passed {
        p := p.(status := if executes then Passed else Failed);
      } else if p.expedited {
        p := p.(expedited := false, votingEnd := Some(p.votingStart.value + params.votingPeriod));
        active := active + {Due(p.votingEnd.value, id)};
      } else {
        p := p.(status := Rejected);
      }
      p := p.(tally := t.result);
      ghost var ps := proposals[id := Tallied(params, proposals[id], t, executes)];
      assert p == ps[id] && active == ActiveOf(ps);
      assert emergencyIds == old(emergencyIds) - {id} && emergency == EmergencyOf(ps, emergencyIds);
      SetProposal(id, p);
    }

    /** The emergency walk's other outcome: a later tally. */
    method Reschedule(now: int, id: nat)
      requires Coherent(Store()) && id in proposals && DueEmergency(now, RecordAt(Store(), id)) && params.interval > 0
      requires proposals[id].votingEnd.Some? && proposals[id].votingEnd.value > now
      modifies this`proposals, this`emergency
      ensures Coherent(Store()) && proposals == old(proposals)[id := Rescheduled(params, now, old(proposals[id]))]
    {
      hide InactiveOf, ActiveOf, EmergencyOf, EmergencyIds, VotingIds, AllFormed;
      var p := proposals[id];
      var key := Due(p.nextTally.value, id);
      var next := now + params.interval;
      if next > p.votingEnd.value {
        next := p.votingEnd.value;
      }
      RescheduleQueues(params, now, proposals, emergencyIds, id);
      emergency := emergency + {Due(next, id)};
      emergency := emergency - {key};
      proposals := proposals[id := p.(nextTally := Some(next))];
    }

    // ---- messages -------------------------------------------------------------------------------

    /** `SubmitProposal`: takes the next number, which was never used. */
    method SubmitProposal(now: int, expedited: bool) returns (id: nat)
      requires Coherent(Store()) && Numbered(Store())
      modifies this`proposals, this`inactive, this`votingIds, this`nextId
      ensures id == old(nextId) && Coherent(Store()) && Numbered(Store()) && OnlyAt(old(Store()), Store(), id)
      ensures RecordAt(Store(), id) == Happens(params, BLANK, Submitted(now, expedited))
      ensures old(Consistent(Store())) ==> Consistent(Store())
    {
      hide Coherent, Consistent, RecordAt, OnlyAt, Numbered;
      ghost var g := Store();
      id := nextId;
      Unused(g, id);
      nextId := nextId + 1;
      NewNumber(g, Store());
      var p := NewProposal(params, now, expedited);
      EnterDeposit(id, p);
      OnlyNew(g, Store(), id);
      MessageConsistent(params, g, Store(), id, Submitted(now, expedited));
    }

    /** Stores a new proposal and queues it for the end of its deposit period. */
    method EnterDeposit(id: nat, p: Proposal)
      requires Coherent(Store()) && id !in proposals && WellFormed(p) && p.status == DepositPeriod
      modifies this`proposals, this`inactive, this`votingIds
      ensures Coherent(Store()) && proposals == old(proposals)[id := p]
    {
      hide InactiveOf, ActiveOf, EmergencyOf, EmergencyIds, VotingIds, AllFormed;
      PutQueues(proposals, emergencyIds, id, p, false);
      NoEntries(proposals, emergencyIds, id);
      SetProposal(id, p);
      inactive := inactive + {Due(p.depositEnd, id)};
    }

    /** `ActivateVotingPeriod`. */
    method ActivateVotingPeriod(now: int, id: nat)
      requires Coherent(Store()) && id in proposals && proposals[id].status == DepositPeriod
      modifies this`proposals, this`inactive, this`active, this`votingIds
      ensures Coherent(Store()) && proposals == old(proposals)[id := Opened(params, now, old(proposals[id]))]
    {
      hide InactiveOf, ActiveOf, EmergencyOf, EmergencyIds, VotingIds, AllFormed;
      Formed(Store(), id);
      var p := proposals[id];
      var period := if p.expedited then params.expeditedVotingPeriod else params.votingPeriod;
      p := p.(votingStart := Some(now), votingEnd := Some(now + period), status := VotingPeriod);
      PutQueues(proposals, emergencyIds, id, p, false);
      OwnEntries(proposals, emergencyIds, id);
      SetProposal(id, p);
      inactive := inactive - {Due(p.depositEnd, id)};
      active := active + {Due(p.votingEnd.value, id)};
    }

    /** `ActivateEmergencyProposal`. */
    method ActivateEmergencyProposal(now: int, id: nat)
      requires Coherent(Store()) && id in proposals && proposals[id].status == VotingPeriod && !proposals[id].emergency
      modifies this`proposals, this`emergency, this`emergencyIds, this`votingIds
      ensures Coherent(Store()) && proposals == old(proposals)[id := Alarmed(params, now, old(proposals[id]))]
      ensures emergencyIds == old(emergencyIds) + {id}
    {
      hide InactiveOf, ActiveOf, EmergencyOf, EmergencyIds, VotingIds, AllFormed;
      Formed(Store(), id);
      var p := proposals[id].(emergency := true, nextTally := Some(now + params.interval));
      PutQueues(proposals, emergencyIds, id, p, true);
      OwnEntries(proposals, emergencyIds, id);
      Returns(proposals, id);
      emergency := emergency + {Due(p.nextTally.value, id)};
      emergencyIds := emergencyIds + {id};
      SetProposal(id, p);
    }

    /** The proposal's `TotalDeposit` grows. */
    method RaiseTotal(id: nat, amount: Coins)
      requires Coherent(Store()) && id in proposals
      modifies this`proposals, this`votingIds
      ensures Coherent(Store())
      ensures proposals == old(proposals)[id := old(proposals[id]).(total := old(proposals[id]).total + amount)]
    {
      TotalQueues(proposals, emergencyIds, id, amount);
      hide InactiveOf, ActiveOf, EmergencyOf, EmergencyIds, VotingIds, AllFormed;
      SetProposal(id, proposals[id].(total := proposals[id].total + amount));
    }

    /** `AddDeposit`. */
    method AddDeposit(now: int, id: nat, d: Deposit) returns (ok: bool)
      requires Coherent(Store()) && Solvent(Store())
      modifies this`proposals, this`inactive, this`active, this`emergency, this`emergencyIds, this`votingIds,
               this`deposits, this`paid, this`votes, this`balance
      ensures ok <==> old(id in proposals && Open(proposals[id]) && Acceptable(params, proposals[id], d))
      ensures Coherent(Store()) && OnlyAt(old(Store()), Store(), id)
      ensures RecordAt(Store(), id) == Happens(params, old(RecordAt(Store(), id)), Deposited(now, d))
      ensures Solvent(Store()) && Extra(Store()) == old(Extra(Store()))
      ensures old(Consistent(Store())) ==> Consistent(Store())
    {
      hide Coherent, Consistent, Solvent, Extra, Acceptable, OnlyAt, RecordAt, AfterDeposit, Funded, MayAlarm,
           Happens, Added;
      ghost var g := Store();
      OnlySelf(g, id);
      if id !in proposals || !Open(proposals[id]) || !Acceptable(params, proposals[id], d) {
        DepositRefused(params, g, now, id, d);
        return false;
      }
      balance := balance + d.amount;
      SameQueues(g, Store());
      AdvanceProposal(now, id, d);
      ghost var h := Store();
      deposits := deposits[id := Added(if id in deposits then deposits[id] else map[], d.who, d.amount)];
      SameQueues(h, Store());
      DepositCovered(g, Store(), id, d);
      OnlyDeposit(g, h, Store(), id);
      DepositHappens(params, g, now, id, d);
      MessageConsistent(params, g, Store(), id, Deposited(now, d));
      ok := true;
    }

    /** What a deposit does to the proposal: the new total may open voting and raise an emergency. */
    method AdvanceProposal(now: int, id: nat, d: Deposit)
      requires Coherent(Store()) && id in proposals && Open(proposals[id])
      modifies this`proposals, this`inactive, this`active, this`emergency, this`emergencyIds, this`votingIds
      ensures Coherent(Store()) && proposals == old(proposals)[id := AfterDeposit(params, now, old(proposals[id]), d)]
      ensures emergencyIds == if MayAlarm(params, Funded(params, now, old(proposals[id]), d.amount), d.who)
                              then old(emergencyIds) + {id} else old(emergencyIds)
    {
      hide Coherent;
      var minDeposit := MinDepositOf(params, proposals[id]);
      RaiseTotal(id, d.amount);
      if proposals[id].status == DepositPeriod && minDeposit <= proposals[id].total {
        ActivateVotingPeriod(now, id);
      }
      if MayAlarm(params, proposals[id], d.who) {
        ActivateEmergencyProposal(now, id);
      }
    }

    /** The `ActivateEmergencyProposal` message. */
    method RaiseEmergency(now: int, id: nat, who: string) returns (ok: bool)
      requires Coherent(Store())
      modifies this`proposals, this`inactive, this`active, this`emergency, this`emergencyIds, this`votingIds
      ensures ok <==> old(id in proposals && MayAlarm(params, proposals[id], who))
      ensures Coherent(Store()) && OnlyAt(old(Store()), Store(), id)
      ensures RecordAt(Store(), id) == Happens(params, old(RecordAt(Store(), id)), Raised(now, who))
      ensures old(Consistent(Store())) ==> Consistent(Store())
    {
      hide Coherent, Consistent;
      if id !in proposals || proposals[id].emergency || proposals[id].status != VotingPeriod {
        return false;
      }
      if !(params.emergencyMinDeposit <= proposals[id].total) || who !in params.submitters {
        return false;
      }
      ghost var g := Store();
      ActivateEmergencyProposal(now, id);
      MessageConsistent(params, g, Store(), id, Raised(now, who));
      ok := true;
    }

    /** `AddVote`; `valid` says that the options and the metadata are. */
    method AddVote(now: int, id: nat, who: string, choice: int, valid: bool) returns (ok: bool)
      requires Coherent(Store())
      modifies this`votes
      ensures ok <==> id in proposals && proposals[id].status == VotingPeriod && valid
      ensures Coherent(Store()) && OnlyAt(old(Store()), Store(), id)
      ensures RecordAt(Store(), id) == Happens(params, old(RecordAt(Store(), id)), Voted(now, who, choice, valid))
      ensures old(Consistent(Store())) ==> Consistent(Store())
    {
      hide Coherent, Consistent, OnlyAt, Happens, RecordAt;
      ghost var g := Store();
      OnlySelf(g, id);
      VotingIndex(g, id);
      VoteRecord(params, g, id, now, who, choice, valid);
      if id !in votingIds || !valid {
        return false;
      }
      votes := votes[id := (if id in votes then votes[id] else map[])[who := choice]];
      SameQueues(g, Store());
      OnlyVote(g, Store(), id);
      ok := true;
    }

    /** `CancelProposal`. */
    method CancelProposal(now: int, id: nat, byProposer: bool) returns (ok: bool)
      requires Coherent(Store()) && Solvent(Store())
      modifies this`proposals, this`inactive, this`active, this`emergency, this`emergencyIds, this`votingIds,
               this`deposits, this`paid, this`votes, this`balance
      ensures ok <==> old(id in proposals && byProposer && Open(proposals[id]) &&
                          !(proposals[id].votingEnd.Some? && proposals[id].votingEnd.value < now))
      ensures Coherent(Store()) && OnlyAt(old(Store()), Store(), id)
      ensures RecordAt(Store(), id) == Happens(params, old(RecordAt(Store(), id)), Cancelled(now, byProposer))
      ensures Solvent(Store()) && Extra(Store()) == old(Extra(Store()))
      ensures old(Consistent(Store())) ==> Consistent(Store())
    {
      hide Coherent, Consistent, OnlyAt, RecordAt, Settle, Solvent, Extra, Happens;
      ghost var g := Store();
      OnlySelf(g, id);
      CancelRecord(params, g, id, now, byProposer);
      if id !in proposals || !byProposer || !Open(proposals[id]) {
        return false;
      }
      if proposals[id].votingEnd.Some? && proposals[id].votingEnd.value < now {
        return false;
      }
      SettleDeposits(id, Charged);
      ghost var h := Store();
      OnlySelf(h, id);
      if proposals[id].votingStart.Some? {
        votes := votes - {id};
        OnlyVotes(h, Store(), id);
      }
      ghost var u := Store();
      OnlyThen(g, h, u, id);
      SameQueues(g, u);
      DeleteProposal(id);
      OnlyDeleted(u, Store(), id);
      OnlyThen(g, u, Store(), id);
      SameMoney(u, Store());
      MessageConsistent(params, g, Store(), id, Cancelled(now, byProposer));
      ok := true;
    }

    // ---- the block ------------------------------------------------------------------------------

    /** The walk over the inactive queue, in any order: proposals that missed their deposit are deleted. */
    method WalkInactive(now: int)
      requires Coherent(Store()) && Solvent(Store())
      modifies this`proposals, this`inactive, this`active, this`emergency, this`emergencyIds, this`votingIds,
               this`deposits, this`paid, this`votes, this`balance
      ensures Coherent(Store()) && Solvent(Store()) && Extra(Store()) == old(Extra(Store()))
      ensures forall id: nat {:trigger RecordAt(Store(), id)} ::
                RecordAt(Store(), id) == DropTurn(params, now, RecordAt(old(Store()), id))
    {
      hide Coherent, Solvent, Extra, Walking, RecordAt, OnlyAt, DropTurn;
      ghost var ps := params;
      ghost var turn := (id: nat, r: Record) => DropTurn(ps, now, r);
      ghost var g := Store();
      var todo := set d | d in inactive && d.time <= now :: d.id;
      DropStart(params, now, g, todo, turn);
      while todo != {}
        invariant Coherent(Store()) && Walking(g, Store(), todo, turn)
        invariant Solvent(Store()) && Extra(Store()) == Extra(g)
        invariant forall id {:trigger id in todo} ::
                  id in todo ==> id in g.proposals && DueInactive(now, g.proposals[id])
        decreases todo
      {
        var id :| id in todo;
        ghost var h := Store();
        Unwalked(g, h, todo, id, turn);
        DropProposal(now, id);
        WalkOn(g, h, Store(), todo, id, turn);
        todo := todo - {id};
      }
      Walked(g, Store(), turn);
    }

    /** The walk over the active queue: regular and expedited proposals are tallied; emergency ones wait for theirs. */
    method WalkActive(now: int, tally: nat -> Tally, executes: nat -> bool)
      requires Coherent(Store()) && Solvent(Store())
      modifies this`proposals, this`inactive, this`active, this`emergency, this`emergencyIds, this`votingIds,
               this`deposits, this`paid, this`votes, this`balance
      ensures Coherent(Store()) && Solvent(Store()) && Extra(Store()) == old(Extra(Store()))
      ensures forall id: nat {:trigger RecordAt(Store(), id)} ::
                RecordAt(Store(), id) == TallyTurn(params, now, RecordAt(old(Store()), id), tally(id), executes(id))
    {
      hide Coherent, Solvent, Extra, Walking, RecordAt, OnlyAt, TallyTurn;
      ghost var ps := params;
      ghost var turn := (id: nat, r: Record) => TallyTurn(ps, now, r, tally(id), executes(id));
      ghost var g := Store();
      var todo := set d | d in active && d.time <= now :: d.id;
      TallyStart(params, now, g, todo, tally, executes, turn);
      while todo != {}
        invariant Coherent(Store()) && Walking(g, Store(), todo, turn)
        invariant Solvent(Store()) && Extra(Store()) == Extra(g)
        invariant forall id {:trigger id in todo} ::
                  id in todo ==> id in g.proposals && DueAsVoting(now, g.proposals[id])
        decreases todo
      {
        var id :| id in todo;
        ghost var h := Store();
        Unwalked(g, h, todo, id, turn);
        TallyProposal(now, id, tally(id), executes(id));
        WalkOn(g, h, Store(), todo, id, turn);
        todo := todo - {id};
      }
      Walked(g, Store(), turn);
    }

    /** The walk over the emergency queue: a proposal without quorum is tallied again later, the others are concluded.
        */
    method WalkEmergency(now: int, tally: nat -> Tally, executes: nat -> bool)
      requires Coherent(Store()) && Solvent(Store()) && params.interval > 0
      modifies this`proposals, this`inactive, this`active, this`emergency, this`emergencyIds, this`votingIds,
               this`deposits, this`paid, this`votes, this`balance
      ensures Coherent(Store()) && Solvent(Store()) && Extra(Store()) == old(Extra(Store()))
      ensures forall id: nat {:trigger RecordAt(Store(), id)} ::
                RecordAt(Store(), id) == EmergencyTurn(params, now, RecordAt(old(Store()), id), tally(id), executes(id))
    {
      hide Coherent, Solvent, Extra, Walking, RecordAt, OnlyAt, EmergencyTurn, DueEmergency;
      ghost var ps := params;
      ghost var turn := (id: nat, r: Record) => EmergencyTurn(ps, now, r, tally(id), executes(id));
      ghost var g := Store();
      var todo := set d | d in emergency && d.time <= now :: d.id;
      EmergencyStart(params, now, g, todo, tally, executes, turn);
      while todo != {}
        invariant Coherent(Store()) && Walking(g, Store(), todo, turn)
        invariant Solvent(Store()) && Extra(Store()) == Extra(g)
        invariant forall id {:trigger id in todo} :: id in todo ==> DueEmergency(now, RecordAt(g, id))
        decreases todo
      {
        var id :| id in todo;
        ghost var h := Store();
        Unwalked(g, h, todo, id, turn);
        TallyEmergency(now, id, tally(id), executes(id));
        WalkOn(g, h, Store(), todo, id, turn);
        todo := todo - {id};
      }
      Walked(g, Store(), turn);
    }

    /** `EndBlocker`. `tally` and `executes` say what `Tally` finds and whether the messages execute, for each
        proposal. */
    method EndBlocker(now: int, tally: nat -> Tally, executes: nat -> bool)
      requires Coherent(Store()) && Solvent(Store()) && params.interval > 0
      modifies this`proposals, this`inactive, this`active, this`emergency, this`emergencyIds, this`votingIds,
               this`deposits, this`paid, this`votes, this`balance
      ensures Coherent(Store()) && Solvent(Store()) && Extra(Store()) == old(Extra(Store()))
      ensures forall id: nat {:trigger RecordAt(Store(), id)} ::
                RecordAt(Store(), id) == Turn(params, now, RecordAt(old(Store()), id), tally(id), executes(id))
      ensures old(Consistent(Store())) ==>
                (Consistent(Store()) <==>
                 forall id: nat {:trigger RecordAt(old(Store()), id)} ::
                   !Strands(now, RecordAt(old(Store()), id), tally(id)))
    {
      hide Coherent, Consistent, Solvent, Extra, RecordAt, DropTurn, TallyTurn, EmergencyTurn, Turn, Strands;
      ghost var g := Store();
      WalkInactive(now);
      WalkActive(now, tally, executes);
      WalkEmergency(now, tally, executes);
      forall id: nat {:trigger RecordAt(Store(), id)} | true
        ensures RecordAt(Store(), id) == Turn(params, now, RecordAt(g, id), tally(id), executes(id))
      {
        WalksCompose(params, now, RecordAt(g, id), tally(id), executes(id));
      }
      BlockConsistent(params, now, g, Store(), tally, executes);
    }

    /** One proposal at the end of its voting period. */
    method TallyProposal(now: int, id: nat, t: Tally, executes: bool)
      requires Coherent(Store()) && Solvent(Store()) && id in proposals && DueAsVoting(now, proposals[id])
      modifies this`proposals, this`inactive, this`active, this`emergency, this`emergencyIds, this`votingIds,
               this`deposits, this`paid, this`votes, this`balance
      ensures Coherent(Store()) && OnlyAt(old(Store()), Store(), id)
      ensures Solvent(Store()) && Extra(Store()) == old(Extra(Store()))
      ensures RecordAt(Store(), id) == TallyTurn(params, now, old(RecordAt(Store(), id)), t, executes)
    {
      hide Coherent, Consistent, Solvent, Extra, OnlyAt, AfterTally;
      OnlySelf(Store(), id);
      if proposals[id].emergency {
        return;
      }
      HandleTallyResult(id, t, executes);
    }

    /** One emergency proposal whose tally is due. */
    method TallyEmergency(now: int, id: nat, t: Tally, executes: bool)
      requires Coherent(Store()) && Solvent(Store()) && params.interval > 0 && DueEmergency(now, RecordAt(Store(), id))
      modifies this`proposals, this`inactive, this`active, this`emergency, this`emergencyIds, this`votingIds,
               this`deposits, this`paid, this`votes, this`balance
      ensures Coherent(Store()) && OnlyAt(old(Store()), Store(), id)
      ensures Solvent(Store()) && Extra(Store()) == old(Extra(Store()))
      ensures RecordAt(Store(), id) == EmergencyTurn(params, now, old(RecordAt(Store(), id)), t, executes)
    {
      hide Coherent, Consistent, OnlyAt, AfterTally, Total;
      ghost var g := Store();
      Formed(g, id);
      OnlySelf(g, id);
      if !t.quorum && proposals[id].votingEnd.value > now {
        Reschedule(now, id);
        OnlyProposal(g, Store(), id);
        return;
      }
      HandleTallyResult(id, t, executes);
    }

    /** One dead proposal. */
    method DropProposal(now: int, id: nat)
      requires Coherent(Store()) && Solvent(Store()) && id in proposals && DueInactive(now, proposals[id])
      modifies this`proposals, this`inactive, this`active, this`emergency, this`emergencyIds, this`votingIds,
               this`deposits, this`paid, this`votes, this`balance
      ensures Coherent(Store()) && OnlyAt(old(Store()), Store(), id)
      ensures Solvent(Store()) && Extra(Store()) == old(Extra(Store()))
      ensures RecordAt(Store(), id) == DropTurn(params, now, old(RecordAt(Store(), id)))
    {
      hide Coherent, OnlyAt, Total;
      ghost var g := Store();
      DeleteProposal(id);
      OnlyDeleted(g, Store(), id);
      ghost var h := Store();
      SettleDeposits(id, HowOf(params.burnPrevote));
      OnlyThen(g, h, Store(), id);
      SameQueues(h, Store());
    }
  }

  /** Numbers from `nextId` on were never used. */
  ghost predicate Numbered(g: Gov) {
    forall id: nat {:trigger RecordAt(g, id)} :: id >= g.nextId ==> RecordAt(g, id) == BLANK
  }

  lemma OnlySelf(g: Gov, id: nat)
    ensures OnlyAt(g, g, id)
  {
  }

  lemma OnlyThen(g: Gov, h: Gov, k: Gov, id: nat)
    requires OnlyAt(g, h, id) && OnlyAt(h, k, id)
    ensures OnlyAt(g, k, id)
  {
  }

  lemma Unused(g: Gov, id: nat)
    requires Numbered(g) && id >= g.nextId
    ensures RecordAt(g, id) == BLANK && id !in g.proposals
  {
    assert RecordAt(g, id) == BLANK;
  }

  lemma NewNumber(g: Gov, h: Gov)
    requires Coherent(g) && h == g.(nextId := g.nextId + 1)
    ensures Coherent(h)
  {
  }

  lemma OnlyNew(g: Gov, h: Gov, id: nat)
    requires Numbered(g) && id == g.nextId && RecordAt(g, id) == BLANK && h.nextId == id + 1
    requires id in h.proposals && h.proposals == g.proposals[id := h.proposals[id]]
    requires h.deposits == g.deposits && h.paid == g.paid && h.votes == g.votes && h.emergencyIds == g.emergencyIds
    ensures OnlyAt(g, h, id) && Numbered(h) && RecordAt(h, id) == BLANK.(proposal := Some(h.proposals[id]))
  {
    assert OnlyAt(g, h, id);
    forall other: nat {:trigger RecordAt(h, other)} | other >= h.nextId ensures RecordAt(h, other) == BLANK {
      assert RecordAt(g, other) == BLANK;
    }
  }

  lemma OnlyDeleted(g: Gov, h: Gov, id: nat)
    requires h.proposals == g.proposals - {id} && h.deposits == g.deposits && h.paid == g.paid && h.votes == g.votes
    requires h.emergencyIds == g.emergencyIds - {id}
    ensures OnlyAt(g, h, id) && RecordAt(h, id) == RecordAt(g, id).(proposal := None, watched := false)
  {
  }

  lemma OnlyProposal(g: Gov, k: Gov, id: nat)
    requires id in k.proposals && k.proposals == g.proposals[id := k.proposals[id]]
    requires k.deposits == g.deposits && k.paid == g.paid && k.votes == g.votes && k.emergencyIds == g.emergencyIds
    ensures OnlyAt(g, k, id) && RecordAt(k, id) == RecordAt(g, id).(proposal := Some(k.proposals[id]))
  {
  }

  lemma OnlyTallied(g: Gov, h: Gov, k: Gov, id: nat)
    requires OnlyAt(g, h, id) && id in h.proposals && id in k.proposals
    requires k.proposals == h.proposals[id := k.proposals[id]]
    requires k.deposits == h.deposits && k.paid == h.paid && k.votes == h.votes
    requires k.emergencyIds == if h.proposals[id].emergency then h.emergencyIds - {id} else h.emergencyIds
    ensures OnlyAt(g, k, id)
    ensures RecordAt(k, id) == RecordAt(h, id).
              (proposal := Some(k.proposals[id]), watched := id in h.emergencyIds && !h.proposals[id].emergency)
  {
    assert OnlyAt(h, k, id);
  }

  lemma SameQueues(g: Gov, h: Gov)
    requires Coherent(g)
    requires h.(deposits := g.deposits, paid := g.paid, votes := g.votes, balance := g.balance) == g
    ensures Coherent(h) && (Consistent(g) <==> Consistent(h))
  {
  }

  lemma OnlyVotes(g: Gov, h: Gov, id: nat)
    requires h == g.(votes := g.votes - {id})
    ensures OnlyAt(g, h, id) && RecordAt(h, id) == RecordAt(g, id).(votes := map[])
    ensures (Solvent(g) ==> Solvent(h)) && Extra(h) == Extra(g)
  {
  }

  lemma SameMoney(g: Gov, h: Gov)
    requires h.deposits == g.deposits && h.balance == g.balance
    ensures (Solvent(g) ==> Solvent(h)) && Extra(h) == Extra(g)
  {
  }

  lemma SettlesNothing(g: Gov, id: nat, how: How)
    ensures OnlyAt(g, g, id) && (id !in g.deposits ==> Settle(RecordAt(g, id), how) == RecordAt(g, id))
  {
  }

  lemma SettlesRecord(g: Gov, h: Gov, id: nat, how: How)
    requires id in g.deposits && h.deposits == g.deposits - {id}
    requires h.paid == g.paid[id := (if id in g.paid then g.paid[id] else []) + [Payout(g.deposits[id], how)]]
    requires h.proposals == g.proposals && h.votes == g.votes && h.emergencyIds == g.emergencyIds
    ensures OnlyAt(g, h, id) && RecordAt(h, id) == Settle(RecordAt(g, id), how)
  {
  }

  lemma HeldCovered(g: Gov, id: nat)
    requires Solvent(g) && id in g.deposits
    ensures Sum(g.deposits[id]) <= g.balance
  {
    hide Sum, Total;
    TotalTakes(g.deposits, id);
  }

  lemma SettlesCovered(g: Gov, h: Gov, id: nat)
    requires Solvent(g) && id in g.deposits && h.deposits == g.deposits - {id}
    requires h.balance == g.balance - Sum(g.deposits[id])
    ensures Solvent(h) && Extra(h) == Extra(g)
  {
    hide Sum, Total;
    TotalTakes(g.deposits, id);
  }

  lemma TallyRecord(params: Params, g: Gov, id: nat, t: Tally, executes: bool)
    requires id in g.proposals
    ensures var p := g.proposals[id];
            var r := RecordAt(g, id);
            AfterTally(params, r, p, t, executes) ==
              (if !p.expedited || t.passed then Settle(r, HowOf(t.burn)) else r).
                (proposal := Some(Tallied(params, p, t, executes)), votes := map[],
                 watched := id in g.emergencyIds && !p.emergency)
  {
    hide Tallied;
  }

  lemma CancelRecord(params: Params, g: Gov, id: nat, now: int, byProposer: bool)
    ensures var r := RecordAt(g, id);
            Happens(params, r, Cancelled(now, byProposer)) ==
              if id in g.proposals && byProposer && Open(g.proposals[id]) &&
                 !(g.proposals[id].votingEnd.Some? && g.proposals[id].votingEnd.value < now)
              then
                var s := Settle(r, Charged).(proposal := None, watched := false);
                if g.proposals[id].votingStart.Some? then s.(votes := map[]) else s
              else r
  {
  }

  lemma OnlyDeposit(g: Gov, h: Gov, k: Gov, id: nat)
    requires id in g.proposals && id in h.proposals && h.proposals == g.proposals[id := h.proposals[id]]
    requires h.deposits == g.deposits && h.paid == g.paid && h.votes == g.votes
    requires h.emergencyIds == g.emergencyIds || h.emergencyIds == g.emergencyIds + {id}
    requires id in k.deposits && k == h.(deposits := h.deposits[id := k.deposits[id]])
    ensures OnlyAt(g, k, id)
    ensures RecordAt(k, id) == RecordAt(g, id).(proposal := Some(h.proposals[id]), deposits := Some(k.deposits[id]),
                                                watched := id in h.emergencyIds)
  {
  }

  lemma DepositRefused(params: Params, g: Gov, now: int, id: nat, d: Deposit)
    requires !(id in g.proposals && Open(g.proposals[id]) && Acceptable(params, g.proposals[id], d))
    ensures Happens(params, RecordAt(g, id), Deposited(now, d)) == RecordAt(g, id)
  {
    hide Acceptable;
  }

  lemma DepositHappens(params: Params, g: Gov, now: int, id: nat, d: Deposit)
    requires id in g.proposals && Open(g.proposals[id]) && Acceptable(params, g.proposals[id], d)
    ensures var p := g.proposals[id];
            Happens(params, RecordAt(g, id), Deposited(now, d)) ==
              RecordAt(g, id).(proposal := Some(AfterDeposit(params, now, p, d)),
                               deposits := Some(Added(if id in g.deposits then g.deposits[id] else map[],
                                                      d.who, d.amount)),
                               watched := id in g.emergencyIds ||
                                          MayAlarm(params, Funded(params, now, p, d.amount), d.who))
  {
    hide Acceptable, AfterDeposit, Funded, MayAlarm, Added;
  }

  /** The balance grows with the deposits. */
  lemma DepositCovered(g: Gov, h: Gov, id: nat, d: Deposit)
    requires Solvent(g) && h.balance == g.balance + d.amount
    requires var held := if id in g.deposits then g.deposits[id] else map[];
             h.deposits == g.deposits[id := Added(held, d.who, d.amount)]
    ensures Solvent(h) && Extra(h) == Extra(g)
  {
    hide Total, Sum, Added;
    var held: map<string, Coins> := if id in g.deposits then g.deposits[id] else map[];
    SumAdded(held, d.who, d.amount);
    TotalPut(g.deposits, id, Added(held, d.who, d.amount));
    if id in g.deposits {
      TotalTakes(g.deposits, id);
    } else {
      NothingHeld();
    }
  }

  lemma NothingHeld()
    ensures Sum<string>(map[]) == multiset{}
  {
  }

  lemma OnlyVote(g: Gov, h: Gov, id: nat)
    requires id in h.votes && h == g.(votes := g.votes[id := h.votes[id]])
    ensures OnlyAt(g, h, id) && RecordAt(h, id) == RecordAt(g, id).(votes := h.votes[id])
  {
  }

  lemma VoteRecord(params: Params, g: Gov, id: nat, now: int, who: string, choice: int, valid: bool)
    ensures var r := RecordAt(g, id);
            Happens(params, r, Voted(now, who, choice, valid)) ==
              if id in g.proposals && g.proposals[id].status == VotingPeriod && valid then
                r.(votes := (if id in g.votes then g.votes[id] else map[])[who := choice])
              else r
  {
  }

  lemma VotingIndex(g: Gov, id: nat)
    requires Coherent(g)
    ensures id in g.votingIds <==> id in g.proposals && g.proposals[id].status == VotingPeriod
  {
  }

  /** The total deposit plays no part in the queues. */
  lemma TotalQueues(ps: map<nat, Proposal>, w: set<nat>, id: nat, amount: Coins)
    requires AllFormed(ps) && id in ps
    ensures var ps' := ps[id := ps[id].(total := ps[id].total + amount)];
            && AllFormed(ps') && InactiveOf(ps') == InactiveOf(ps) && ActiveOf(ps') == ActiveOf(ps)
            && EmergencyOf(ps', w) == EmergencyOf(ps, w) && EmergencyIds(ps') == EmergencyIds(ps)
            && VotingIds(ps') == VotingIds(ps)
            && VotingIds(ps) == (if ps[id].status == VotingPeriod then VotingIds(ps) + {id} else VotingIds(ps) - {id})
  {
    assert WellFormed(ps[id]);
  }

  /** No message strands a proposal. */
  lemma MessageConsistent(params: Params, g: Gov, h: Gov, id: nat, e: Happening)
    requires Coherent(g) && Coherent(h) && OnlyAt(g, h, id) && !e.Block?
    requires RecordAt(h, id) == Happens(params, RecordAt(g, id), e)
    ensures Consistent(g) ==> Consistent(h)
  {
    hide Coherent, Consistent, RecordAt, Happens, Stranded, Sound;
    ConsistentExactly(g);
    ConsistentExactly(h);
    StrandsExactly(params, RecordAt(g, id), e);
    if Consistent(g) {
      forall other: nat {:trigger RecordAt(h, other)} | true ensures !Stranded(RecordAt(h, other)) {
        assert other != id ==> RecordAt(h, other) == RecordAt(g, other);
        assert !Stranded(RecordAt(g, id));
      }
    }
  }

  lemma TalliedStrands(params: Params, g: Gov, h: Gov, id: nat, t: Tally, executes: bool)
    requires Coherent(g) && Coherent(h) && OnlyAt(g, h, id)
    requires id in g.proposals && g.proposals[id].status == VotingPeriod && WellFormed(g.proposals[id])
    requires RecordAt(h, id) == AfterTally(params, RecordAt(g, id), g.proposals[id], t, executes)
    ensures Consistent(g) ==>
              var p := g.proposals[id];
              (Consistent(h) <==> !(p.emergency && p.expedited && !t.passed))
  {
    hide Coherent, Consistent;
    ConsistentExactly(g);
    ConsistentExactly(h);
    var p := g.proposals[id];
    assert !Stranded(RecordAt(h, id)) <==> !(p.emergency && p.expedited && !t.passed);
    if Consistent(g) && !Stranded(RecordAt(h, id)) {
      forall other: nat {:trigger RecordAt(h, other)} | true ensures !Stranded(RecordAt(h, other)) {
        assert other != id ==> RecordAt(h, other) == RecordAt(g, other);
      }
    }
  }

  /** A block keeps the queues those of `InitGenesis` exactly when it strands nothing. */
  lemma BlockConsistent(params: Params, now: int, g: Gov, h: Gov, tally: nat -> Tally, executes: nat -> bool)
    requires Coherent(g) && Coherent(h)
    requires forall id: nat {:trigger RecordAt(h, id)} ::
               RecordAt(h, id) == Turn(params, now, RecordAt(g, id), tally(id), executes(id))
    ensures Consistent(g) ==>
              (Consistent(h) <==>
               forall id: nat {:trigger RecordAt(g, id)} :: !Strands(now, RecordAt(g, id), tally(id)))
  {
    hide Coherent, Consistent, RecordAt, Turn, Strands, Stranded, Sound;
    ConsistentExactly(g);
    ConsistentExactly(h);
    forall id: nat {:trigger RecordAt(g, id)} {:trigger RecordAt(h, id)} | true
      ensures Stranded(RecordAt(h, id)) <==> Stranded(RecordAt(g, id)) || Strands(now, RecordAt(g, id), tally(id))
    {
      StrandsExactly(params, RecordAt(g, id), Block(now, tally(id), executes(id)));
    }
  }

  // ---- a walk ---------------------------------------------------------------------------------

  /** The walk from `g` has taken the turns of all proposals but those in `todo`. */
  ghost predicate Walking(g: Gov, h: Gov, todo: set<nat>, turn: (nat, Record) -> Record) {
    forall id: nat {:trigger RecordAt(h, id)} ::
      RecordAt(h, id) == if id in todo then RecordAt(g, id) else turn(id, RecordAt(g, id))
  }

  lemma WalkOn(g: Gov, h: Gov, k: Gov, todo: set<nat>, id: nat, turn: (nat, Record) -> Record)
    requires Walking(g, h, todo, turn) && id in todo
    requires OnlyAt(h, k, id) && RecordAt(k, id) == turn(id, RecordAt(h, id))
    ensures Walking(g, k, todo - {id}, turn)
  {
    hide RecordAt;
    assert RecordAt(h, id) == RecordAt(g, id);
    forall other: nat {:trigger RecordAt(k, other)} | true
      ensures RecordAt(k, other) == if other in todo - {id} then RecordAt(g, other) else turn(other, RecordAt(g, other))
    {
      assert other != id ==> RecordAt(k, other) == RecordAt(h, other);
    }
  }

  lemma Unwalked(g: Gov, h: Gov, todo: set<nat>, id: nat, turn: (nat, Record) -> Record)
    requires Walking(g, h, todo, turn) && id in todo
    ensures RecordAt(h, id) == RecordAt(g, id)
    ensures id in g.proposals ==> id in h.proposals && h.proposals[id] == g.proposals[id]
  {
    assert RecordAt(h, id) == RecordAt(g, id);
  }

  lemma Walked(g: Gov, h: Gov, turn: (nat, Record) -> Record)
    requires Walking(g, h, {}, turn)
    ensures forall id: nat {:trigger RecordAt(h, id)} :: RecordAt(h, id) == turn(id, RecordAt(g, id))
  {
    hide RecordAt;
  }

  /** Due in the active queue, whatever its kind. */
  predicate DueAsVoting(now: int, p: Proposal) {
    p.status == VotingPeriod && p.votingEnd.Some? && p.votingEnd.value <= now
  }

  lemma Formed(g: Gov, id: nat)
    requires Coherent(g) && id in g.proposals
    ensures WellFormed(g.proposals[id])
  {
  }

  lemma DropStart(params: Params, now: int, g: Gov, todo: set<nat>, turn: (nat, Record) -> Record)
    requires Coherent(g) && todo == (set d | d in g.inactive && d.time <= now :: d.id)
    requires forall id: nat, r: Record :: turn(id, r) == DropTurn(params, now, r)
    ensures Walking(g, g, todo, turn)
    ensures forall id {:trigger id in todo} :: id in todo ==> id in g.proposals && DueInactive(now, g.proposals[id])
  {
    forall id | id in g.proposals && DueInactive(now, g.proposals[id]) ensures id in todo {
      assert Due(g.proposals[id].depositEnd, id) in g.inactive;
    }
  }

  lemma TallyStart(params: Params, now: int, g: Gov, todo: set<nat>, tally: nat -> Tally, executes: nat -> bool,
                   turn: (nat, Record) -> Record)
    requires Coherent(g) && todo == (set d | d in g.active && d.time <= now :: d.id)
    requires forall id: nat, r: Record :: turn(id, r) == TallyTurn(params, now, r, tally(id), executes(id))
    ensures Walking(g, g, todo, turn)
    ensures forall id {:trigger id in todo} :: id in todo ==> id in g.proposals && DueAsVoting(now, g.proposals[id])
  {
    forall id | id in g.proposals && DueAsVoting(now, g.proposals[id]) ensures id in todo {
      assert Due(g.proposals[id].votingEnd.value, id) in g.active;
    }
  }

  lemma EmergencyStart(params: Params, now: int, g: Gov, todo: set<nat>, tally: nat -> Tally, executes: nat -> bool,
                       turn: (nat, Record) -> Record)
    requires Coherent(g) && todo == (set d | d in g.emergency && d.time <= now :: d.id)
    requires forall id: nat, r: Record :: turn(id, r) == EmergencyTurn(params, now, r, tally(id), executes(id))
    ensures Walking(g, g, todo, turn)
    ensures forall id {:trigger id in todo} :: id in todo ==> DueEmergency(now, RecordAt(g, id))
  {
    forall id: nat | DueEmergency(now, RecordAt(g, id)) ensures id in todo {
      assert Due(g.proposals[id].nextTally.value, id) in g.emergency;
    }
  }

  lemma RescheduleQueues(params: Params, now: int, ps: map<nat, Proposal>, w: set<nat>, id: nat)
    requires AllFormed(ps) && w <= EmergencyIds(ps) && id in w
    requires ps[id].nextTally.Some? && ps[id].nextTally.value <= now
    requires params.interval > 0 && ps[id].votingEnd.Some? && ps[id].votingEnd.value > now
    ensures var p := ps[id];
            var q := Rescheduled(params, now, p);
            var ps' := ps[id := q];
            && now < q.nextTally.value <= p.votingEnd.value
            && AllFormed(ps') && InactiveOf(ps') == InactiveOf(ps) && ActiveOf(ps') == ActiveOf(ps)
            && EmergencyOf(ps', w) == EmergencyOf(ps, w) + {Due(q.nextTally.value, id)} - {Due(p.nextTally.value, id)}
            && EmergencyIds(ps') == EmergencyIds(ps) && VotingIds(ps') == VotingIds(ps)
  {
    var p := ps[id];
    assert WellFormed(p);
    var q := Rescheduled(params, now, p);
    PutQueues(ps, w, id, q, true);
    OwnEntries(ps, w, id);
    assert Due(p.votingEnd.value, id) in ActiveOf(ps);
    assert w + {id} == w;
    assert EmergencyIds(ps[id := q]) == EmergencyIds(ps) && VotingIds(ps[id := q]) == VotingIds(ps);
    hide InactiveOf, ActiveOf, EmergencyOf, AllFormed;
  }

  /** The queue entries of all proposals but one. */
  ghost function Others(q: set<Due>, id: nat): (r: set<Due>)
    ensures forall d {:trigger d in r} :: d in r <==> d in q && d.id != id
  {
    set d | d in q && d.id != id
  }

  /** Storing a proposal, watched or not, replaces its own queue entries and no others. */
  lemma PutQueues(ps: map<nat, Proposal>, w: set<nat>, id: nat, p: Proposal, watch: bool)
    requires AllFormed(ps) && WellFormed(p) && w <= EmergencyIds(ps)
    requires watch ==> p.status == VotingPeriod && p.emergency
    ensures AllFormed(ps[id := p])
    ensures InactiveOf(ps[id := p]) == Others(InactiveOf(ps), id) +
              (if p.status == DepositPeriod then {Due(p.depositEnd, id)} else {})
    ensures ActiveOf(ps[id := p]) == Others(ActiveOf(ps), id) +
              (if p.status == VotingPeriod then {Due(p.votingEnd.value, id)} else {})
    ensures var w' := if watch then w + {id} else w - {id};
            && w' <= EmergencyIds(ps[id := p])
            && EmergencyOf(ps[id := p], w') == Others(EmergencyOf(ps, w), id) +
                 (if watch then {Due(p.nextTally.value, id)} else {})
    ensures EmergencyIds(ps[id := p]) ==
              EmergencyIds(ps) - {id} + (if p.status == VotingPeriod && p.emergency then {id} else {})
    ensures VotingIds(ps[id := p]) == VotingIds(ps) - {id} + (if p.status == VotingPeriod then {id} else {})
  {
  }

  lemma NoEntries(ps: map<nat, Proposal>, w: set<nat>, id: nat)
    requires AllFormed(ps) && id !in ps && w <= EmergencyIds(ps)
    ensures Others(InactiveOf(ps), id) == InactiveOf(ps) && Others(ActiveOf(ps), id) == ActiveOf(ps)
    ensures Others(EmergencyOf(ps, w), id) == EmergencyOf(ps, w) && id !in w && w - {id} == w
    ensures id !in EmergencyIds(ps) && id !in VotingIds(ps)
  {
  }

  lemma Returns(ps: map<nat, Proposal>, id: nat)
    requires AllFormed(ps) && id in ps && ps[id].status == VotingPeriod
    ensures ActiveOf(ps) - {Due(ps[id].votingEnd.value, id)} + {Due(ps[id].votingEnd.value, id)} == ActiveOf(ps)
    ensures VotingIds(ps) - {id} + {id} == VotingIds(ps) == VotingIds(ps) + {id}
  {
    assert Due(ps[id].votingEnd.value, id) in ActiveOf(ps);
  }

  /** A proposal's own entry is the only one under its number. */
  lemma OwnEntries(ps: map<nat, Proposal>, w: set<nat>, id: nat)
    requires AllFormed(ps) && id in ps && w <= EmergencyIds(ps)
    ensures Others(InactiveOf(ps), id) == InactiveOf(ps) - {Due(ps[id].depositEnd, id)}
    ensures ps[id].votingEnd.Some? ==> Others(ActiveOf(ps), id) == ActiveOf(ps) - {Due(ps[id].votingEnd.value, id)}
    ensures ps[id].emergency && ps[id].nextTally.Some? ==>
              Others(EmergencyOf(ps, w), id) == EmergencyOf(ps, w) - {Due(ps[id].nextTally.value, id)}
    ensures ps[id].status != DepositPeriod ==> Others(InactiveOf(ps), id) == InactiveOf(ps)
    ensures !ps[id].emergency || ps[id].status != VotingPeriod ==>
              Others(EmergencyOf(ps, w), id) == EmergencyOf(ps, w) && id !in w && w - {id} == w
  {
  }

  lemma FormedAt(ps: map<nat, Proposal>, id: nat)
    requires AllFormed(ps) && id in ps
    ensures WellFormed(ps[id])
  {
  }

  /** The queues that `handleTallyResult` leaves. */
  lemma TallyQueues(params: Params, ps: map<nat, Proposal>, w: set<nat>, id: nat, t: Tally, executes: bool)
    requires AllFormed(ps) && id in ps && ps[id].status == VotingPeriod && w <= EmergencyIds(ps)
    ensures var p := ps[id];
            var q := Tallied(params, p, t, executes);
            var ps' := ps[id := q];
            && AllFormed(ps') && InactiveOf(ps') == InactiveOf(ps)
            && ActiveOf(ps') ==
                 (if q.status == VotingPeriod
                  then ActiveOf(ps) - {Due(p.votingEnd.value, id)} + {Due(q.votingEnd.value, id)}
                  else ActiveOf(ps) - {Due(p.votingEnd.value, id)})
            && VotingIds(ps') == (if q.status == VotingPeriod then VotingIds(ps) + {id} else VotingIds(ps) - {id})
            && w - {id} <= EmergencyIds(ps')
            && EmergencyOf(ps', w - {id}) ==
                 (if p.emergency then EmergencyOf(ps, w) - {Due(p.nextTally.value, id)} else EmergencyOf(ps, w))
            && (!p.emergency ==> w - {id} == w)
  {
    var p := ps[id];
    var q := Tallied(params, p, t, executes);
    assert WellFormed(p);
    PutQueues(ps, w, id, q, false);
    OwnEntries(ps, w, id);
    hide InactiveOf, ActiveOf, EmergencyOf, EmergencyIds, VotingIds, AllFormed;
    assert VotingIds(ps) - {id} + {id} == VotingIds(ps) + {id};
  }

  /** Removing a proposal's own entries is all that its deletion does to the queues. */
  lemma DropQueues(ps: map<nat, Proposal>, w: set<nat>, id: nat)
    requires AllFormed(ps) && id in ps && w <= EmergencyIds(ps)
    ensures AllFormed(ps - {id}) && w - {id} <= EmergencyIds(ps - {id})
    ensures InactiveOf(ps - {id}) == InactiveOf(ps) - {Due(ps[id].depositEnd, id)}
    ensures ps[id].votingEnd.Some? ==> ActiveOf(ps - {id}) == ActiveOf(ps) - {Due(ps[id].votingEnd.value, id)}
    ensures ps[id].votingEnd.None? ==>
              ActiveOf(ps - {id}) == ActiveOf(ps) && VotingIds(ps - {id}) == VotingIds(ps) && w - {id} == w
    ensures ps[id].emergency && ps[id].nextTally.Some? ==>
              EmergencyOf(ps - {id}, w - {id}) == EmergencyOf(ps, w) - {Due(ps[id].nextTally.value, id)}
    ensures !(ps[id].emergency && ps[id].nextTally.Some?) || ps[id].votingEnd.None? ==>
              EmergencyOf(ps - {id}, w - {id}) == EmergencyOf(ps, w) && w - {id} == w
    ensures VotingIds(ps - {id}) == VotingIds(ps) - {id}
  {
  }
}
