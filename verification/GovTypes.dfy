/** Governance proposals and the queues over them (x/gov/abci.go, x/gov/genesis.go, x/gov/keeper/proposal.go). Times are
    integers in nanoseconds. */
module GovTypes {
  import opened Common
  import opened GovCoins

  datatype Status = DepositPeriod | VotingPeriod | Passed | Rejected | Failed

  datatype Proposal = Proposal(status: Status, expedited: bool, emergency: bool, depositEnd: int,
                               votingStart: Option<int>, votingEnd: Option<int>, nextTally: Option<int>, tally: int,
                               total: Coins)

  /** A queue entry: `collections.Join(time, id)`. */
  datatype Due = Due(time: int, id: nat)

  /** `minDepositRatio` counts in units of 10^-18, as the source's decimals do. */
  datatype Params = Params(burnPrevote: bool, votingPeriod: int, expeditedVotingPeriod: int, depositPeriod: int,
                           interval: int, minDeposit: Coins, expeditedMinDeposit: Coins, emergencyMinDeposit: Coins,
                           minDepositRatio: nat, submitters: set<string>)

  /** What `Tally` makes of the votes; how it weighs them is not modelled. */
  datatype Tally = Tally(quorum: bool, passed: bool, burn: bool, result: int)

  /** How the deposits of a proposal were settled; a cancellation refunds them less a charge. */
  datatype How = Refunded | Burned | Charged

  /** One settlement: all deposits of a proposal leave the module account together. */
  datatype Payout = Payout(amounts: map<string, Coins>, how: How)

  /** The times that a status needs are set. */
  predicate WellFormed(p: Proposal) {
    && (p.status == DepositPeriod ==> p.votingEnd.None? && !p.emergency)
    && (p.status == VotingPeriod ==> p.votingStart.Some? && p.votingEnd.Some? && (p.emergency ==> p.nextTally.Some?))
  }

  // ---- the queues as functions of the proposals -----------------------------------------------

  ghost predicate AllFormed(ps: map<nat, Proposal>) {
    forall id {:trigger id in ps} :: id in ps ==> WellFormed(ps[id])
  }

  ghost function InactiveOf(ps: map<nat, Proposal>): (q: set<Due>)
    ensures forall d {:trigger d in q} ::
              d in q <==> d.id in ps && ps[d.id].status == DepositPeriod && ps[d.id].depositEnd == d.time
  {
    set id {:trigger id in ps} | id in ps && ps[id].status == DepositPeriod :: Due(ps[id].depositEnd, id)
  }

  ghost function ActiveOf(ps: map<nat, Proposal>): (q: set<Due>)
    requires AllFormed(ps)
    ensures forall d {:trigger d in q} ::
              d in q <==> d.id in ps && ps[d.id].status == VotingPeriod && ps[d.id].votingEnd == Some(d.time)
  {
    set id {:trigger id in ps} | id in ps && ps[id].status == VotingPeriod :: Due(ps[id].votingEnd.value, id)
  }

  /** The tallies due for the emergency proposals among `watched`. */
  ghost function EmergencyOf(ps: map<nat, Proposal>, watched: set<nat>): (q: set<Due>)
    requires AllFormed(ps)
    ensures forall d {:trigger d in q} ::
              d in q <==>
                && d.id in watched && d.id in ps && ps[d.id].status == VotingPeriod && ps[d.id].emergency
                && ps[d.id].nextTally == Some(d.time)
  {
    set id {:trigger id in ps} | id in ps && id in watched && ps[id].status == VotingPeriod && ps[id].emergency ::
      Due(ps[id].nextTally.value, id)
  }

  ghost function EmergencyIds(ps: map<nat, Proposal>): set<nat> {
    set id {:trigger id in ps} | id in ps && ps[id].status == VotingPeriod && ps[id].emergency
  }

  ghost function VotingIds(ps: map<nat, Proposal>): set<nat> {
    set id {:trigger id in ps} | id in ps && ps[id].status == VotingPeriod
  }

  /** The keeper's collections. */
  datatype Gov = Gov(proposals: map<nat, Proposal>, inactive: set<Due>, active: set<Due>, emergency: set<Due>,
                     emergencyIds: set<nat>, votingIds: set<nat>, deposits: map<nat, map<string, Coins>>,
                     paid: map<nat, seq<Payout>>, votes: map<nat, map<string, int>>, balance: Coins,
                     nextId: nat, params: Params, constitution: string)

  /** `ModuleAccountInvariant`: the module account covers all deposits; it may hold more. */
  ghost predicate Solvent(g: Gov) { Total(g.deposits) <= g.balance }

  /** What the module account holds beyond the deposits. */
  ghost function Extra(g: Gov): Coins { g.balance - Total(g.deposits) }

  /** The queues are those of the proposals, except that voting emergency proposals may be missing from the emergency
      queue, though never from one of its two collections only. */
  ghost predicate Coherent(g: Gov) {
    && AllFormed(g.proposals)
    && g.inactive == InactiveOf(g.proposals) && g.active == ActiveOf(g.proposals)
    && g.votingIds == VotingIds(g.proposals)
    && g.emergencyIds <= EmergencyIds(g.proposals) && g.emergency == EmergencyOf(g.proposals, g.emergencyIds)
  }

  /** Every queue is the one that `InitGenesis` would rebuild from the proposals. */
  ghost predicate Consistent(g: Gov) {
    Coherent(g) && g.emergencyIds == EmergencyIds(g.proposals)
  }

  ghost function RecordAt(g: Gov, id: nat): Record {
    Record(if id in g.proposals then Some(g.proposals[id]) else None,
           if id in g.deposits then Some(g.deposits[id]) else None,
           if id in g.paid then g.paid[id] else [],
           if id in g.votes then g.votes[id] else map[],
           id in g.emergencyIds)
  }

  /** Everything stored under numbers other than `id` is the same. */
  ghost predicate OnlyAt(g: Gov, h: Gov, id: nat) {
    forall other: nat {:trigger RecordAt(h, other)} :: other != id ==> RecordAt(h, other) == RecordAt(g, other)
  }

  // ---- what a block does to one proposal ------------------------------------------------------

  /** Everything the keeper stores under one proposal number; `watched` says that the emergency queue has it. */
  datatype Record = Record(proposal: Option<Proposal>, deposits: Option<map<string, Coins>>, paid: seq<Payout>,
                           votes: map<string, int>, watched: bool)

  const BLANK := Record(None, None, [], map[], false)

  /** What holds of every record of a coherent store. */
  predicate Sound(r: Record) {
    && (r.proposal.Some? ==> WellFormed(r.proposal.value))
    && (r.watched ==> r.proposal.Some? && r.proposal.value.status == VotingPeriod && r.proposal.value.emergency)
  }

  /** Voting as an emergency outside the emergency queue: no walk concludes such a proposal. */
  predicate Stranded(r: Record) {
    r.proposal.Some? && r.proposal.value.status == VotingPeriod && r.proposal.value.emergency && !r.watched
  }

  /** `RefundAndDeleteDeposits`, `DeleteAndBurnDeposits` or `ChargeDeposit`. */
  function Settle(r: Record, how: How): Record {
    if r.deposits.None? then r
    else r.(deposits := None, paid := r.paid + [Payout(r.deposits.value, how)])
  }

  function HowOf(burn: bool): How { if burn then Burned else Refunded }

  predicate DueInactive(now: int, p: Proposal) { p.status == DepositPeriod && p.depositEnd <= now }

  predicate DueActive(now: int, p: Proposal) {
    p.status == VotingPeriod && !p.emergency && p.votingEnd.Some? && p.votingEnd.value <= now
  }

  predicate DueEmergency(now: int, r: Record) {
    && r.watched && r.proposal.Some? && r.proposal.value.status == VotingPeriod && r.proposal.value.emergency
    && r.proposal.value.nextTally.Some? && r.proposal.value.nextTally.value <= now
  }

  /** An emergency proposal that is also expedited and is concluded in this block without passing. */
  predicate Strands(now: int, r: Record, t: Tally) {
    && DueEmergency(now, r) && r.proposal.value.expedited && !t.passed
    && (t.quorum || (r.proposal.value.votingEnd.Some? && r.proposal.value.votingEnd.value <= now))
  }

  /** The proposal that `handleTallyResult` stores. */
  function Tallied(params: Params, p: Proposal, t: Tally, executes: bool): Proposal {
    var q := if p.emergency then p.(votingEnd := p.nextTally) else p;
    var r :=
      if t.passed then q.(status := if executes then Passed else Failed)
      else if q.expedited && q.votingStart.Some? then
        q.(expedited := false, votingEnd := Some(q.votingStart.value + params.votingPeriod))
      else q.(status := Rejected);
    r.(tally := t.result)
  }

  /** `Tally` and `handleTallyResult`: the votes are used up, and the proposal leaves the emergency queue whatever
      becomes of it. */
  function AfterTally(params: Params, r: Record, p: Proposal, t: Tally, executes: bool): Record {
    (if !p.expedited || t.passed then Settle(r, HowOf(t.burn)) else r).
      (proposal := Some(Tallied(params, p, t, executes)), votes := map[], watched := r.watched && !p.emergency)
  }

  /** The next tally of an emergency proposal without quorum: one interval on, but not past the voting end. */
  function Rescheduled(params: Params, now: int, p: Proposal): Proposal
    requires p.votingEnd.Some?
  {
    var next := now + params.interval;
    p.(nextTally := Some(if next > p.votingEnd.value then p.votingEnd.value else next))
  }

  /** The walk over the inactive queue, for one proposal. */
  function DropTurn(params: Params, now: int, r: Record): Record {
    if r.proposal.Some? && DueInactive(now, r.proposal.value) then
      Settle(r.(proposal := None, watched := false), HowOf(params.burnPrevote))
    else r
  }

  /** The walk over the active queue. */
  function TallyTurn(params: Params, now: int, r: Record, t: Tally, executes: bool): Record {
    if r.proposal.Some? && DueActive(now, r.proposal.value) then
      AfterTally(params, r, r.proposal.value, t, executes)
    else r
  }

  /** The walk over the emergency queue. */
  function EmergencyTurn(params: Params, now: int, r: Record, t: Tally, executes: bool): Record {
    if DueEmergency(now, r) then
      var p := r.proposal.value;
      if !t.quorum && p.votingEnd.Some? && p.votingEnd.value > now then
        r.(proposal := Some(Rescheduled(params, now, p)))
      else AfterTally(params, r, p, t, executes)
    else r
  }

  /** One proposal's share of a block: dropped, tallied, rescheduled or left alone. */
  function Turn(params: Params, now: int, r: Record, t: Tally, executes: bool): Record {
    if r.proposal.None? then r
    else if r.proposal.value.status == DepositPeriod then DropTurn(params, now, r)
    else if r.proposal.value.emergency then EmergencyTurn(params, now, r, t, executes)
    else TallyTurn(params, now, r, t, executes)
  }

  /** The three walks do not interfere: each proposal takes part in at most one. */
  lemma WalksCompose(params: Params, now: int, r: Record, t: Tally, executes: bool)
    ensures EmergencyTurn(params, now, TallyTurn(params, now, DropTurn(params, now, r), t, executes), t, executes)
         == Turn(params, now, r, t, executes)
  {
  }

  // ---- what the messages do to one proposal ---------------------------------------------------

  function NewProposal(params: Params, now: int, expedited: bool): Proposal {
    Proposal(DepositPeriod, expedited, false, now + params.depositPeriod, None, None, None, 0, multiset{})
  }

  /** `ActivateVotingPeriod`. */
  function Opened(params: Params, now: int, p: Proposal): Proposal {
    var period := if p.expedited then params.expeditedVotingPeriod else params.votingPeriod;
    p.(votingStart := Some(now), votingEnd := Some(now + period), status := VotingPeriod)
  }

  /** `ActivateEmergencyProposal`; the first tally is not capped at the voting end. */
  function Alarmed(params: Params, now: int, p: Proposal): Proposal {
    p.(emergency := true, nextTally := Some(now + params.interval))
  }

  predicate Open(p: Proposal) { p.status == DepositPeriod || p.status == VotingPeriod }

  /** `GetMinDepositFromParams`. */
  function MinDepositOf(params: Params, p: Proposal): Coins {
    if p.expedited then params.expeditedMinDeposit else params.minDeposit
  }

  /** A deposit; `funded` says whether the depositor has the coins. */
  datatype Deposit = Deposit(who: string, amount: Coins, funded: bool)

  const ONE := 1_000_000_000_000_000_000

  /** The part of the minimum deposit that a single deposit must bring, of some denomination. */
  function Threshold(params: Params, p: Proposal, denom: string): nat {
    MinDepositOf(params, p)[denom] * params.minDepositRatio / ONE
  }

  /** The checks of `AddDeposit`: known denominations, large enough in one of them, and funded. */
  predicate Acceptable(params: Params, p: Proposal, d: Deposit) {
    && (forall denom {:trigger d.amount[denom]} :: denom in d.amount ==> denom in params.minDeposit)
    && (params.minDepositRatio == 0 ||
        exists denom {:trigger d.amount[denom]} :: denom in d.amount &&
          denom in MinDepositOf(params, p) && d.amount[denom] >= Threshold(params, p, denom))
    && d.funded
  }

  /** A voting proposal that holds enough becomes an emergency on the word of an authorized submitter. */
  predicate MayAlarm(params: Params, p: Proposal, who: string) {
    !p.emergency && p.status == VotingPeriod && params.emergencyMinDeposit <= p.total && who in params.submitters
  }

  /** With the deposit added, and voting opened if that is enough. */
  function Funded(params: Params, now: int, p: Proposal, amount: Coins): Proposal {
    var q := p.(total := p.total + amount);
    if p.status == DepositPeriod && MinDepositOf(params, p) <= q.total then Opened(params, now, q) else q
  }

  function AfterDeposit(params: Params, now: int, p: Proposal, d: Deposit): Proposal {
    var q := Funded(params, now, p, d.amount);
    if MayAlarm(params, q, d.who) then Alarmed(params, now, q) else q
  }

  /** Everything that can happen to one proposal number. */
  datatype Happening =
    | Submitted(now: int, expedited: bool)
    | Deposited(now: int, deposit: Deposit)
    | Raised(now: int, who: string)
    | Voted(now: int, who: string, choice: int, valid: bool)
    | Cancelled(now: int, byProposer: bool)
    | Block(now: int, tally: Tally, executes: bool)

  function Happens(params: Params, r: Record, e: Happening): Record {
    match e
    case Submitted(now, expedited) =>
      if r == BLANK then r.(proposal := Some(NewProposal(params, now, expedited))) else r
    case Deposited(now, d) =>
      if r.proposal.Some? && Open(r.proposal.value) && Acceptable(params, r.proposal.value, d) then
        r.(proposal := Some(AfterDeposit(params, now, r.proposal.value, d)),
           deposits := Some(Added(if r.deposits.Some? then r.deposits.value else map[], d.who, d.amount)),
           watched := r.watched || MayAlarm(params, Funded(params, now, r.proposal.value, d.amount), d.who))
      else r
    case Raised(now, who) =>
      if r.proposal.Some? && MayAlarm(params, r.proposal.value, who) then
        r.(proposal := Some(Alarmed(params, now, r.proposal.value)), watched := true)
      else r
    case Voted(now, who, choice, valid) =>
      if r.proposal.Some? && r.proposal.value.status == VotingPeriod && valid then r.(votes := r.votes[who := choice])
      else r
    case Cancelled(now, byProposer) =>
      if r.proposal.Some? && byProposer && Open(r.proposal.value) &&
         !(r.proposal.value.votingEnd.Some? && r.proposal.value.votingEnd.value < now)
      then Settle(r, Charged).
             (proposal := None, watched := false,
              votes := if r.proposal.value.votingStart.Some? then map[] else r.votes)
      else r
    case Block(now, t, executes) => Turn(params, now, r, t, executes)
  }

  /** Only a block can strand a proposal, only in the one case, and what is stranded a block leaves stranded. */
  lemma StrandsExactly(params: Params, r: Record, e: Happening)
    requires Sound(r)
    ensures Sound(Happens(params, r, e))
    ensures e.Block? ==> (Stranded(Happens(params, r, e)) <==> Stranded(r) || Strands(e.now, r, e.tally))
    ensures !e.Block? && Stranded(Happens(params, r, e)) ==> Stranded(r)
  {
    match e
    case Submitted(now, expedited) =>
    case Deposited(now, d) =>
    case Raised(now, who) =>
    case Voted(now, who, choice, valid) =>
    case Cancelled(now, byProposer) =>
    case Block(now, t, executes) =>
  }

  /** In a coherent store the queues are those of `InitGenesis` exactly when no proposal is stranded. */
  lemma ConsistentExactly(g: Gov)
    requires Coherent(g)
    ensures Consistent(g) <==> forall id: nat {:trigger RecordAt(g, id)} :: !Stranded(RecordAt(g, id))
    ensures forall id: nat {:trigger RecordAt(g, id)} :: Sound(RecordAt(g, id))
  {
    if forall id: nat {:trigger RecordAt(g, id)} :: !Stranded(RecordAt(g, id)) {
      forall id | id in EmergencyIds(g.proposals) ensures id in g.emergencyIds {
        assert !Stranded(RecordAt(g, id));
      }
    }
  }
}
