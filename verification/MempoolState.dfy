/** The pool's contents without its caches, and what each critical section does to them.
    These functions specify the methods of `PriorityMempool`; the laws about them are in the other `Mempool` modules. */
module MempoolState {
  import opened Common
  import opened MempoolTypes

  /** `senderState` without its two maps: the cached on-chain sequence and the time a gap was first seen. */
  datatype Info = Info(seqNo: nat, gapSince: Option<int>)

  /** `active` and `queued` unite the maps of all senders; `infos` has one record per registered sender. */
  datatype State = State(infos: map<string, Info>, active: map<Key, Entry>, queued: map<Key, Entry>, order: int)

  const EMPTY := State(map[], map[], map[], 0)

  /** A state change together with the entries that left the pool, in order. */
  datatype Outcome = Outcome(state: State, removed: seq<Entry>)

  // ---- reading --------------------------------------------------------------------------------

  ghost function NoncesOf(m: map<Key, Entry>, sender: string): (ns: set<nat>)
    ensures forall n: nat {:trigger n in ns} {:trigger Key(sender, n) in m} :: n in ns <==> Key(sender, n) in m
  {
    set k {:trigger k in m} | k in m && k.sender == sender :: k.nonce
  }

  ghost function MaxOf(ns: set<nat>): (m: nat)
    requires ns != {}
    ensures m in ns
    ensures forall n :: n in ns ==> n <= m
  {
    var x :| x in ns;
    assert forall n :: n in ns && n != x ==> n in ns - {x};
    if ns == {x} then x else Max(x, MaxOf(ns - {x}))
  }

  /** `nextExpectedNonce`. */
  ghost function Next(s: State, sender: string): (n: nat)
    requires sender in s.infos
  {
    var a := NoncesOf(s.active, sender);
    if a == {} then s.infos[sender].seqNo else Max(s.infos[sender].seqNo, MaxOf(a) + 1)
  }

  /** The entries of one sender with nonces in [lo, hi), in nonce order. */
  ghost function Run(m: map<Key, Entry>, sender: string, lo: nat, hi: nat): (es: seq<Entry>)
    decreases hi
  {
    if hi <= lo then []
    else Run(m, sender, lo, hi - 1) + (if Key(sender, hi - 1) in m then [m[Key(sender, hi - 1)]] else [])
  }

  ghost function CutBelow(m: map<Key, Entry>, sender: string, n: nat): map<Key, Entry> {
    map k {:trigger k in m} | k in m && !(k.sender == sender && k.nonce < n) :: m[k]
  }

  ghost function CutFrom(m: map<Key, Entry>, sender: string, n: nat): map<Key, Entry> {
    map k {:trigger k in m} | k in m && !(k.sender == sender && k.nonce >= n) :: m[k]
  }

  ghost predicate IsEmpty(s: State, sender: string) {
    NoncesOf(s.active, sender) == {} && NoncesOf(s.queued, sender) == {}
  }

  // ---- ranks and admission --------------------------------------------------------------------

  function Lower(raw: Rank, bound: Rank): Rank {
    if Outranks(raw, bound) then bound else raw
  }

  /** `computeClampedRankLocked`: never better than the direct predecessor, or else than the active tail. */
  ghost function Clamp(active: map<Key, Entry>, key: Key, raw: Rank): Rank {
    var a := NoncesOf(active, key.sender);
    if key.nonce > 0 && Key(key.sender, key.nonce - 1) in active then
      Lower(raw, active[Key(key.sender, key.nonce - 1)].clamped)
    else if a != {} && key.nonce > MaxOf(a) then
      Lower(raw, active[Key(key.sender, MaxOf(a))].clamped)
    else raw
  }

  /** A transaction that fits a block on its own, as far as the limits are known. */
  predicate Fits(block: Option<BlockLimits>, item: Item) {
    block.Some? ==>
      && !(block.value.maxBytes > 0 && item.size > block.value.maxBytes)
      && !(block.value.maxGas > 0 && item.gas > block.value.maxGas)
  }

  /** `e` is the last entry of the index. */
  ghost predicate IsLast(active: map<Key, Entry>, e: Entry) {
    && e.item.key in active && active[e.item.key] == e
    && (forall k {:trigger k in active} :: k in active && k != e.item.key ==> Before(active[k], e))
  }

  ghost predicate HasLast(active: map<Key, Entry>) {
    exists k :: k in active && IsLast(active, active[k])
  }

  ghost function Last(active: map<Key, Entry>): (e: Entry)
    requires HasLast(active)
    ensures IsLast(active, e)
  {
    var k :| k in active && IsLast(active, active[k]);
    active[k]
  }

  datatype Admission = Refused | Free | Evict(victim: Entry)

  /** The capacity part of `canAcceptLocked` for a pool within its limit: take a free slot (the replaced entry's own
      slot counts as free); otherwise displace the index's last entry if outranked. */
  ghost function Slot(c: Config, s: State, rank: Rank, replacing: bool): Admission {
    if c.maxTx <= 0 || |s.active| - (if replacing then 1 else 0) < c.maxTx then Free
    else if HasLast(s.active) && Outranks(rank, Last(s.active).clamped) then Evict(Last(s.active))
    else Refused
  }

  /** `canAcceptLocked`: refuse what fits no block, else look for a slot. */
  ghost function Admit(c: Config, s: State, block: Option<BlockLimits>, e: Entry, replacing: bool): Admission {
    if !Fits(block, e.item) then Refused else Slot(c, s, e.clamped, replacing)
  }

  // ---- the queue ------------------------------------------------------------------------------

  datatype Queueing = Queueing(state: State, error: Error, evicted: Option<Entry>)

  /** `insertQueuedLocked`. */
  ghost function Enqueue(c: Config, s: State, e: Entry): Queueing {
    var k := e.item.key;
    var mine := NoncesOf(s.queued, k.sender);
    if k in s.queued then
      if e.item.priority <= s.queued[k].item.priority then Queueing(s, LowerPriority, None)
      else Queueing(s.(queued := s.queued[k := e]), Ok, Some(s.queued[k]))
    else if c.maxQueuedPerSender > 0 && |mine| >= c.maxQueuedPerSender then
      if mine == {} || k.nonce >= MaxOf(mine) then Queueing(s, MaxCapacity, None)
      else
        var high := Key(k.sender, MaxOf(mine));
        Queueing(s.(queued := (s.queued - {high})[k := e]), Ok, Some(s.queued[high]))
    else if c.maxQueuedTotal > 0 && |s.queued| >= c.maxQueuedTotal then Queueing(s, MaxCapacity, None)
    else Queueing(s.(queued := s.queued[k := e]), Ok, None)
  }

  /** What one demotion removes: the entry it displaced, or the entry itself when it was refused. */
  ghost function Displaced(q: Queueing, e: Entry): seq<Entry> {
    (if q.evicted.Some? then [q.evicted.value] else []) + (if q.error != Ok then [e] else [])
  }

  function AsQueued(e: Entry): Entry { e.(tier := QUEUED_TIER) }

  /** Enqueue a list of formerly active entries one by one. */
  ghost function EnqueueAll(c: Config, s: State, es: seq<Entry>): Outcome {
    if es == [] then Outcome(s, [])
    else
      var before := EnqueueAll(c, s, es[..|es| - 1]);
      var e := AsQueued(es[|es| - 1]);
      var q := Enqueue(c, before.state, e);
      Outcome(q.state, before.removed + Displaced(q, e))
  }

  /** `demoteActiveRangeLocked`: move the active suffix from `start` back to the queue. */
  ghost function Demote(c: Config, s: State, sender: string, start: nat): Outcome {
    var a := NoncesOf(s.active, sender);
    if a == {} || start > MaxOf(a) then Outcome(s, [])
    else EnqueueAll(c, s.(active := CutFrom(s.active, sender, start)), Run(s.active, sender, start, MaxOf(a) + 1))
  }

  // ---- removal --------------------------------------------------------------------------------

  /** `setOnChainSeqLocked`. */
  ghost function SetSeq(s: State, sender: string, seqNo: nat): State {
    if sender in s.infos then
      var info := s.infos[sender];
      s.(infos := s.infos[sender := info.(seqNo := Max(info.seqNo, seqNo))])
    else s
  }

  /** `removeStaleLocked`: everything of the sender below `seqNo`, active before queued. */
  ghost function RemoveStale(s: State, sender: string, seqNo: nat): Outcome {
    Outcome(s.(active := CutBelow(s.active, sender, seqNo), queued := CutBelow(s.queued, sender, seqNo)),
            Run(s.active, sender, 0, seqNo) + Run(s.queued, sender, 0, seqNo))
  }

  /** `removeNonceLocked`. */
  ghost function RemoveNonce(s: State, k: Key): Outcome {
    if k in s.active then Outcome(s.(active := s.active - {k}), [s.active[k]])
    else if k in s.queued then Outcome(s.(queued := s.queued - {k}), [s.queued[k]])
    else Outcome(s, [])
  }

  /** `cleanupSenderLocked`. */
  ghost function Cleanup(s: State, sender: string): State {
    if IsEmpty(s, sender) then s.(infos := s.infos - {sender}) else s
  }

  /** The reason-specific part of `removeByReasonLocked`, before the sequence is advanced. */
  ghost function RemoveCore(c: Config, s: State, k: Key, reason: Reason): Outcome {
    match reason
    case CapacityEvicted => Demote(c, s, k.sender, k.nonce)
    case AnteRejectedInPrepare =>
      var head := RemoveNonce(s, k);
      var tail := Demote(c, head.state, k.sender, k.nonce + 1);
      Outcome(tail.state, head.removed + tail.removed)
    case CommittedInBlock => RemoveNonce(s, k)
  }

  /** `removeByReasonLocked`. */
  ghost function RemoveByReason(c: Config, s: State, k: Key, reason: Reason, onChain: Option<nat>): Outcome {
    if k.sender !in s.infos then Outcome(s, [])
    else
      var core := RemoveCore(c, s, k, reason);
      if onChain.None? then
        Outcome(Cleanup(core.state, k.sender), core.removed)
      else
        var stale := RemoveStale(SetSeq(core.state, k.sender, onChain.value), k.sender, onChain.value);
        Outcome(Cleanup(stale.state, k.sender), core.removed + stale.removed)
  }

  /** The capacity eviction that an admission calls for. */
  ghost function MakeRoom(c: Config, s: State, adm: Admission): Outcome {
    if adm.Evict? then RemoveByReason(c, s, adm.victim.item.key, CapacityEvicted, None) else Outcome(s, [])
  }

  // ---- promotion ------------------------------------------------------------------------------

  /** `collectPromotableLocked`: the queued entries at `n`, `n + 1`, ... up to the first gap. */
  ghost function Chain(queued: map<Key, Entry>, sender: string, n: nat): (es: seq<Entry>)
    decreases |queued|
  {
    var k := Key(sender, n);
    if k in queued then [queued[k]] + Chain(queued - {k}, sender, n + 1) else []
  }

  ghost function KeysOf(es: seq<Entry>): (ks: set<Key>)
    ensures forall k :: k in ks <==> exists i :: 0 <= i < |es| && es[i].item.key == k
  {
    set i | 0 <= i < |es| :: es[i].item.key
  }

  /** `requeueEntriesLocked`. */
  ghost function Requeue(queued: map<Key, Entry>, es: seq<Entry>): map<Key, Entry> {
    if es == [] then queued
    else Requeue(queued, es[..|es| - 1])[es[|es| - 1].item.key := es[|es| - 1]]
  }

  datatype Promotion = Promotion(state: State, promoted: seq<Entry>, removed: seq<Entry>)

  /** An entry as it enters (or tries to enter) the active set: fresh order, selected tier, clamped rank. */
  ghost function Stamp(c: Config, s: State, ctx: Ctx, item: Item): Entry {
    var tier := TierFrom(c.tiers, 0, ctx.(txBytes := item.bytes), item.tx);
    Entry(item, s.order, tier, Clamp(s.active, item.key, Rank(Score(tier, item.priority), s.order)))
  }

  ghost function Tick(s: State): State { s.(order := s.order + 1) }

  ghost function Activate(s: State, e: Entry): State { s.(active := s.active[e.item.key := e]) }

  /** The promotion loop over the collected entries; a refused entry and all later ones are requeued. */
  ghost function PromoteAll(c: Config, s: State, ctx: Ctx, es: seq<Entry>): Promotion
    decreases |es|
  {
    if es == [] then Promotion(s, [], [])
    else
      var s1 := Tick(s);
      var e := Stamp(c, s1, ctx, es[0].item);
      var adm := Admit(c, s1, ctx.block, e, false);
      if adm.Refused? then Promotion(s1.(queued := Requeue(s1.queued, [e] + es[1..])), [], [])
      else
        var room := MakeRoom(c, s1, adm);
        var rest := PromoteAll(c, Activate(room.state, e), ctx, es[1..]);
        Promotion(rest.state, [e] + rest.promoted, room.removed + rest.removed)
  }

  /** Collect and promote what follows the sender's cursor. */
  ghost function Promote(c: Config, s: State, ctx: Ctx, sender: string): Promotion {
    var es := if sender in s.infos then Chain(s.queued, sender, Next(s, sender)) else [];
    PromoteAll(c, s.(queued := s.queued - KeysOf(es)), ctx, es)
  }

  // ---- events ---------------------------------------------------------------------------------

  ghost function EventsOf(kind: EventType, es: seq<Entry>): (evs: seq<Event>)
    ensures |evs| == |es|
    ensures forall i :: 0 <= i < |es| ==> evs[i] == Event(kind, es[i].item.bytes)
  {
    if es == [] then [] else EventsOf(kind, es[..|es| - 1]) + [Event(kind, es[|es| - 1].item.bytes)]
  }

  // ---- the critical sections ------------------------------------------------------------------

  datatype Result = Result(state: State, error: Error, removed: seq<Entry>, added: seq<Item>, events: seq<Event>)

  ghost function Failed(s: State, error: Error): Result { Result(s, error, [], [], []) }

  /** The future-nonce branch of `Insert`. */
  ghost function InsertQueued(c: Config, s: State, item: Item): Result {
    if !item.tx.queuedExt then Failed(s, MissingQueuedExtension)
    else
      var q := Enqueue(c, s, Entry(item, 0, QUEUED_TIER, Rank(0, 0)));
      if q.error != Ok then Failed(s, q.error)
      else
        var out := if q.evicted.Some? then [q.evicted.value] else [];
        Result(q.state, Ok, out, [item], EventsOf(TxRemoved, out) + [Event(TxQueued, item.bytes)])
  }

  /** The entry already in the slot that an active insert replaces, queued or active. */
  ghost function Occupants(s: State, k: Key): seq<Entry> {
    (if k in s.queued then [s.queued[k]] else []) + (if k in s.active then [s.active[k]] else [])
  }

  /** The active branch of `Insert`: replace or append, make room, then promote what follows. */
  ghost function InsertActive(c: Config, s: State, ctx: Ctx, item: Item): Result
    requires item.key.sender in s.infos
  {
    var k := item.key;
    var s1 := Tick(s);
    var e := Stamp(c, s1, ctx, item);
    var adm := Admit(c, s1, ctx.block, e, k in s.active);
    if k in s.active && item.priority <= s.active[k].item.priority then Failed(s1, LowerPriority)
    else if k in s.queued && k !in s.active && item.priority <= s.queued[k].item.priority then
      Failed(s1, LowerPriority)
    else if adm.Refused? then Failed(s1, MaxCapacity)
    else
      var s2 := s1.(active := s1.active - {k}, queued := s1.queued - {k});
      var room := MakeRoom(c, s2, adm);
      var s3 := Activate(room.state, e);
      var p := Promote(c, s3, ctx, k.sender);
      var out := Occupants(s1, k) + room.removed + p.removed;
      Result(p.state, Ok, out, [item],
             EventsOf(TxRemoved, out) + [Event(TxInserted, item.bytes)] + EventsOf(TxInserted, p.promoted))
  }

  ghost function Register(s: State, sender: string, seqNo: nat): State {
    if sender in s.infos then s else s.(infos := s.infos[sender := Info(seqNo, None)])
  }

  /** The locked part of `Insert`, for a transaction whose key, bytes and gas were extracted. */
  ghost function InsertItem(c: Config, s: State, ctx: Ctx, item: Item): Result
    requires item.key.sender in s.infos
  {
    var k := item.key;
    var next := Next(s, k.sender);
    if k.nonce < next && k !in s.active && k !in s.queued then Failed(s, StaleSequence)
    else if k.nonce > next then InsertQueued(c, s, item)
    else InsertActive(c, s, ctx, item)
  }

  /** The bytes `Insert` stores: those of the context, or else the encoder's. */
  function InsertBytes(ctx: Ctx, tx: Tx): Option<Bytes> {
    if ctx.txBytes != [] then Some(ctx.txBytes) else tx.encoding
  }

  /** `Insert`; `fetched` is the sequence read from the account keeper when the sender is not registered. */
  ghost function Insert(c: Config, s: State, ctx: Ctx, tx: Tx, fetched: Option<nat>): Result {
    if tx.signer.None? then Failed(s, NoSigner)
    else if InsertBytes(ctx, tx).None? then Failed(s, EncodeFailed)
    else if tx.gasLimit.None? then Failed(s, NotFeeTx)
    else if tx.signer.value.sender !in s.infos && fetched.None? then Failed(s, SequenceUnavailable)
    else
      var s1 := if fetched.Some? then Register(s, tx.signer.value.sender, fetched.value) else s;
      InsertItem(c, s1, ctx.(txBytes := InsertBytes(ctx, tx).value), NewItem(ctx, tx))
  }

  /** `Insert` gets as far as routing the transaction by its nonce. */
  ghost predicate Routed(s: State, ctx: Ctx, tx: Tx, fetched: Option<nat>) {
    && tx.signer.Some? && InsertBytes(ctx, tx).Some? && tx.gasLimit.Some?
    && (fetched.Some? || tx.signer.value.sender in s.infos)
  }

  function NewItem(ctx: Ctx, tx: Tx): Item
    requires tx.signer.Some? && InsertBytes(ctx, tx).Some? && tx.gasLimit.Some?
  {
    var bz := InsertBytes(ctx, tx).value;
    Item(tx, tx.signer.value, ctx.priority, |bz|, tx.gasLimit.value, bz)
  }

  /** `RemoveWithReason`. */
  ghost function Remove(c: Config, s: State, tx: Tx, reason: Reason): Result {
    if tx.signer.None? then Failed(s, NoSigner)
    else
      var k := tx.signer.value;
      var o := RemoveByReason(c, s, k, reason, if reason == CommittedInBlock then Some(k.nonce + 1) else None);
      Result(o.state, if o.removed == [] then TxNotFound else Ok, o.removed, [], EventsOf(TxRemoved, o.removed))
  }

  /** One sender's turn in `PromoteQueued`, given its on-chain sequence. */
  ghost function PromoteSender(c: Config, s: State, ctx: Ctx, sender: string, seqNo: nat): Promotion {
    if sender !in s.infos then Promotion(s, [], [])
    else
      var stale := RemoveStale(SetSeq(s, sender, seqNo), sender, seqNo);
      var p := Promote(c, stale.state, ctx, sender);
      Promotion(Cleanup(p.state, sender), p.promoted, stale.removed + p.removed)
  }

  /** The senders' turns of `PromoteQueued`, in the order in which the map iteration visits them. */
  ghost function PromoteSenders(c: Config, s: State, ctx: Ctx, seqs: seq<(string, nat)>): Promotion {
    if seqs == [] then Promotion(s, [], [])
    else
      var before := PromoteSenders(c, s, ctx, seqs[..|seqs| - 1]);
      var last := PromoteSender(c, before.state, ctx, seqs[|seqs| - 1].0, seqs[|seqs| - 1].1);
      Promotion(last.state, before.promoted + last.promoted, before.removed + last.removed)
  }

  ghost function CleanupAll(s: State, senders: seq<string>): State {
    if senders == [] then s
    else Cleanup(CleanupAll(s, senders[..|senders| - 1]), senders[|senders| - 1])
  }

  /** The writing section of `PromoteQueued`. */
  ghost function PromoteQueued(c: Config, s: State, ctx: Ctx, seqs: seq<(string, nat)>,
                               activeOnly: seq<string>): Result {
    var p := PromoteSenders(c, s, ctx, seqs);
    Result(CleanupAll(p.state, activeOnly), Ok, p.removed, [],
           EventsOf(TxRemoved, p.removed) + EventsOf(TxInserted, p.promoted))
  }

  /** Blocked on a missing head nonce: nothing active, and everything queued lies beyond the sequence. */
  ghost predicate HasGap(s: State, sender: string)
    requires sender in s.infos
  {
    && NoncesOf(s.active, sender) == {}
    && NoncesOf(s.queued, sender) != {}
    && (forall n :: n in NoncesOf(s.queued, sender) ==> n > s.infos[sender].seqNo)
  }

  ghost function SetGap(s: State, sender: string, gapSince: Option<int>): State
    requires sender in s.infos
  {
    s.(infos := s.infos[sender := s.infos[sender].(gapSince := gapSince)])
  }

  /** `expireQueuedGapLocked`. */
  ghost function Expire(c: Config, s: State, sender: string, now: int): Outcome
    requires sender in s.infos
  {
    var info := s.infos[sender];
    if !HasGap(s, sender) then Outcome(SetGap(s, sender, None), [])
    else if info.gapSince.None? then Outcome(SetGap(s, sender, Some(now)), [])
    else if now - info.gapSince.value >= c.queuedGapTTL then
      Outcome(SetGap(s, sender, None).(queued := CutFrom(s.queued, sender, 0)),
              Run(s.queued, sender, 0, MaxOf(NoncesOf(s.queued, sender)) + 1))
    else Outcome(s, [])
  }

  /** One sender's turn in the second locked phase of `cleanUpEntries`. */
  ghost function CleanSender(c: Config, s: State, sender: string, seqNo: nat, now: int): Outcome {
    if sender !in s.infos then Outcome(s, [])
    else
      var stale := RemoveStale(SetSeq(s, sender, seqNo), sender, seqNo);
      var expired := Expire(c, stale.state, sender, now);
      Outcome(Cleanup(expired.state, sender), stale.removed + expired.removed)
  }

  ghost function CleanSenders(c: Config, s: State, seqs: seq<(string, nat)>, now: int): Outcome {
    if seqs == [] then Outcome(s, [])
    else
      var before := CleanSenders(c, s, seqs[..|seqs| - 1], now);
      var last := CleanSender(c, before.state, seqs[|seqs| - 1].0, seqs[|seqs| - 1].1, now);
      Outcome(last.state, before.removed + last.removed)
  }

  /** The second locked phase of `cleanUpEntries`. */
  ghost function Clean(c: Config, s: State, seqs: seq<(string, nat)>, now: int): Result {
    var o := CleanSenders(c, s, seqs, now);
    Result(o.state, Ok, o.removed, [], EventsOf(TxRemoved, o.removed))
  }

  /** The first locked phase of `cleanUpEntries`: forget senders without entries. */
  ghost function Sweep(s: State): State {
    s.(infos := map sender | sender in s.infos && !IsEmpty(s, sender) :: s.infos[sender])
  }
}
