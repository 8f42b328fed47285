/** Proposals built from the pool: whatever run the pool has been through, a validator in the same state accepts what a
    proposer builds from it. */
module ProposalCoherence {
  import opened Common
  import opened MempoolTypes
  import opened MempoolState
  import opened MempoolInvariant
  import opened MempoolLaws
  import opened MempoolOrigin
  import opened MempoolRuns
  import opened Mempools
  import opened Proposals

  /** The stored size, gas, key and encoding of a transaction are its own. */
  ghost predicate Made(decode: Bytes -> Option<Tx>, x: Item) {
    decode(x.bytes) == Some(x.tx) && x.tx.gasLimit == Some(x.gas) && x.size == |x.bytes| && x.tx.signer == Some(x.key)
  }

  /** Decoding inverts the encoding that an insert stores. */
  ghost predicate MadeStep(decode: Bytes -> Option<Tx>, step: Step) {
    step.DoInsert? && InsertBytes(step.ctx, step.tx).Some? ==>
              decode(InsertBytes(step.ctx, step.tx).value) == Some(step.tx)
  }

  ghost predicate MadeRun(decode: Bytes -> Option<Tx>, steps: seq<Step>) {
    forall i {:trigger steps[i]} :: 0 <= i < |steps| ==> MadeStep(decode, steps[i])
  }

  /** In every reachable pool, every active transaction is as it was made. */
  lemma PoolMade(c: Config, steps: seq<Step>, decode: Bytes -> Option<Tx>, k: Key)
    requires MadeRun(decode, steps) && k in After(c, EMPTY, steps).active
    ensures Made(decode, After(c, EMPTY, steps).active[k].item)
  {
    hide After;
    var made := x => Made(decode, x);
    forall i {:trigger steps[i]} | 0 <= i < |steps| ensures Stores(made, steps[i]) {
      assert MadeStep(decode, steps[i]);
    }
    RunPools(made, c, steps);
  }

  /** The iterator's entries for an index. */
  ghost function Infos(c: Config, ix: seq<Entry>): (es: seq<TxInfo>)
    ensures |es| == |ix| && (forall i {:trigger es[i]} :: 0 <= i < |ix| ==> es[i] == InfoOf(c, ix[i]))
  {
    seq(|ix|, i requires 0 <= i < |ix| => InfoOf(c, ix[i]))
  }

  /** Requirement 3 of the "Requirements for the Application" in the CometBFT v0.38 ABCI++ specification: what
      `PrepareProposal` returns from a reachable pool, `ProcessProposal` accepts from the same state. */
  lemma Coherence<S>(c: Config, steps: seq<Step>, decode: Bytes -> Option<Tx>, ix: seq<Entry>,
                     block: Option<BlockLimits>, ante: (S, Tx) -> Option<S>, state: S)
    requires MadeRun(decode, steps)
    requires Indexes(ix, After(c, EMPTY, steps).active)
    ensures CheckAll(block, ante, decode, state, BytesList(BuildAll(block, ante, state, Infos(c, ix)).included)).Some?
  {
    hide MadeRun, After, BuildAll, CheckAll;
    var es := Infos(c, ix);
    forall i {:trigger es[i]} | 0 <= i < |es| ensures Faithful(decode, es[i]) {
      assert ix[i] in ix;
      PoolMade(c, steps, decode, ix[i].item.key);
    }
    BuiltChecks(block, ante, decode, state, es);
  }

  // ---- the handler over the pool ----------------------------------------------------------------

  /** The removal of one listed transaction, unless its slot has been refilled since the snapshot. */
  ghost function Purge(c: Config, s: State, info: TxInfo): Result {
    var x := SlotItem(s, Key(info.sender, info.sequence));
    if x.Some? && x.value.bytes == info.txBytes then Remove(c, s, info.tx, AnteRejectedInPrepare)
    else Result(s, Ok, [], [], [])
  }

  ghost function PurgeAll(c: Config, s: State, infos: seq<TxInfo>): State {
    if infos == [] then s
    else Purge(c, PurgeAll(c, s, infos[..|infos| - 1]), infos[|infos| - 1]).state
  }

  /** `PrepareProposalHandler` on a pool that nobody else touches meanwhile. */
  method PrepareProposal<S>(pool: PriorityMempool, height: int, txs: seq<Bytes>, block: Option<BlockLimits>,
                            ante: (S, Tx) -> Option<S>, state: S)
    returns (proposal: seq<Bytes>)
    requires pool.Valid()
    modifies pool, pool.senders.Values
    ensures pool.Valid()
    ensures height <= 1 ==> proposal == txs && pool.abs == old(pool.abs)
    ensures height > 1 ==>
              var b := BuildAll(block, ante, state, Infos(pool.cfg, old(pool.priorityIndex)));
              proposal == BytesList(b.included) && pool.abs == PurgeAll(pool.cfg, old(pool.abs), b.removed)
  {
    hide PriorityMempool.Coherent, Inv, BuildAll, BytesList, Remove, Indexes;
    var entries := pool.Select();
    assert entries == Infos(pool.cfg, pool.priorityIndex);
    var toRemove;
    proposal, toRemove := Prepare(height, txs, block, ante, state, entries);
    RemoveListed(pool, toRemove);
  }

  /** The handler's second loop: removes what is listed, unless it has been replaced meanwhile. */
  method RemoveListed(pool: PriorityMempool, toRemove: seq<TxInfo>)
    requires pool.Valid()
    modifies pool, pool.senders.Values
    ensures pool.Valid() && pool.abs == PurgeAll(pool.cfg, old(pool.abs), toRemove)
  {
    hide PriorityMempool.Coherent, Inv, Remove;
    for i := 0 to |toRemove|
      invariant pool.Valid() && pool.abs == PurgeAll(pool.cfg, old(pool.abs), toRemove[..i])
      invariant fresh(pool.senders.Values - old(pool.senders.Values))
    {
      var info := toRemove[i];
      assert toRemove[..i + 1][..i] == toRemove[..i];
      var current := pool.Lookup(info.sender, info.sequence);
      if current == Some(info.txBytes) {
        var _ := pool.RemoveWithReason(info.tx, AnteRejectedInPrepare);
      }
    }
    assert toRemove[..|toRemove|] == toRemove;
  }
}
