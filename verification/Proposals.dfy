/** Building and verifying block proposals (abcipp/proposals.go). The ante handler is an abstract deterministic function
    that passes a state along; running it on a cached context and writing back only on success is what `Visit` and
    `Check` do with that state. */
module Proposals {
  import opened Common
  import opened MempoolTypes
  import opened MempoolState
  import opened MempoolInvariant
  import opened MempoolLaws
  import opened Mempools

  // ---- machine integers -----------------------------------------------------------------------

  const TWO_63 := 0x8000_0000_0000_0000
  const TWO_64 := 0x1_0000_0000_0000_0000

  /** `uint64` addition. */
  function AddU64(a: int, b: int): int { (a + b) % TWO_64 }

  /** `int64` addition. */
  function AddI64(a: int, b: int): int { (a + b + TWO_63) % TWO_64 - TWO_63 }

  predicate IsI64(n: int) { -TWO_63 <= n < TWO_63 }

  /** The limits the handlers work with; zero when the consensus parameters are unset. */
  function MaxBytes(block: Option<BlockLimits>): int { if block.Some? then block.value.maxBytes else 0 }

  function MaxGas(block: Option<BlockLimits>): int { if block.Some? then block.value.maxGas else 0 }

  predicate OverSize(block: Option<BlockLimits>, total: int, size: int) {
    MaxBytes(block) > 0 && AddI64(total, size) > MaxBytes(block)
  }

  predicate OverGas(block: Option<BlockLimits>, total: int, gas: int) {
    MaxGas(block) > 0 && AddU64(total, gas) > MaxGas(block)
  }

  // ---- building -------------------------------------------------------------------------------

  /** The variables of the selection loop. */
  datatype Build<S> = Build(state: S, size: int, gas: int, included: seq<TxInfo>, removed: seq<TxInfo>,
                            blocked: set<string>)

  /** What becomes of one entry of the iterator. */
  datatype Fate = Included | Rejected | TooLarge | TooMuchGas | Deferred

  ghost function FateOf<S>(block: Option<BlockLimits>, ante: (S, Tx) -> Option<S>, b: Build<S>, e: TxInfo): Fate {
    if e.sender in b.blocked then Deferred
    else if OverSize(block, b.size, e.size) then if e.size > MaxBytes(block) then TooLarge else Deferred
    else if OverGas(block, b.gas, e.gasLimit) then if e.gasLimit > MaxGas(block) then TooMuchGas else Deferred
    else if ante(b.state, e.tx).None? then Rejected
    else Included
  }

  ghost function Visit<S>(block: Option<BlockLimits>, ante: (S, Tx) -> Option<S>, b: Build<S>, e: TxInfo): Build<S> {
    match FateOf(block, ante, b, e)
    case Included =>
      b.(state := ante(b.state, e.tx).value, size := AddI64(b.size, e.size), gas := AddU64(b.gas, e.gasLimit),
         included := b.included + [e])
    case Rejected => b.(removed := b.removed + [e])
    case TooLarge => b.(removed := b.removed + [e], blocked := b.blocked + {e.sender})
    case TooMuchGas => b.(removed := b.removed + [e], blocked := b.blocked + {e.sender})
    case Deferred => b.(blocked := b.blocked + {e.sender})
  }

  ghost function BuildAll<S>(block: Option<BlockLimits>, ante: (S, Tx) -> Option<S>, state: S,
                             es: seq<TxInfo>): Build<S> {
    if es == [] then Build(state, 0, 0, [], [], {})
    else Visit(block, ante, BuildAll(block, ante, state, es[..|es| - 1]), es[|es| - 1])
  }

  ghost function BytesList(es: seq<TxInfo>): (r: seq<Bytes>)
    ensures |r| == |es| && (forall i :: 0 <= i < |es| ==> r[i] == es[i].txBytes)
  {
    if es == [] then [] else BytesList(es[..|es| - 1]) + [es[|es| - 1].txBytes]
  }

  /** `PrepareProposalHandler` up to its removals; `entries` is the iterator's snapshot. */
  method Prepare<S>(height: int, txs: seq<Bytes>, block: Option<BlockLimits>, ante: (S, Tx) -> Option<S>, state: S,
                    entries: seq<TxInfo>)
    returns (proposal: seq<Bytes>, toRemove: seq<TxInfo>)
    ensures height <= 1 ==> proposal == txs && toRemove == []
    ensures height > 1 ==>
              var b := BuildAll(block, ante, state, entries);
              proposal == BytesList(b.included) && toRemove == b.removed
  {
    if height <= 1 {
      return txs, [];
    }
    var maxGas, maxBytes := 0, 0;
    if block.Some? {
      maxGas, maxBytes := block.value.maxGas, block.value.maxBytes;
    }
    var ctx, totalSize, totalGas := state, 0, 0;
    var blocked: set<string> := {};
    proposal, toRemove := [], [];
    ghost var included: seq<TxInfo> := [];
    for i := 0 to |entries|
      invariant Build(ctx, totalSize, totalGas, included, toRemove, blocked) ==
                  BuildAll(block, ante, state, entries[..i])
      invariant proposal == BytesList(included)
    {
      var e := entries[i];
      assert entries[..i + 1][..i] == entries[..i];
      if e.sender in blocked {
        assert blocked + {e.sender} == blocked;
        continue;
      }
      if maxBytes > 0 && AddI64(totalSize, e.size) > maxBytes {
        if e.size > maxBytes {
          toRemove := toRemove + [e];
        }
        blocked := blocked + {e.sender};
        continue;
      }
      if maxGas > 0 && AddU64(totalGas, e.gasLimit) > maxGas {
        if e.gasLimit > maxGas {
          toRemove := toRemove + [e];
        }
        blocked := blocked + {e.sender};
        continue;
      }
      var checked := ante(ctx, e.tx);
      if checked.None? {
        toRemove := toRemove + [e];
        continue;
      }
      ctx := checked.value;
      totalSize := AddI64(totalSize, e.size);
      totalGas := AddU64(totalGas, e.gasLimit);
      assert (included + [e])[..|included|] == included;
      proposal := proposal + [e.txBytes];
      included := included + [e];
    }
    assert entries[..|entries|] == entries;
  }

  // ---- verifying ------------------------------------------------------------------------------

  /** The variables of the verification loop. */
  datatype Progress<S> = Progress(state: S, size: int, gas: int)

  /** Verifying one decoded transaction after those before it. */
  ghost function Check<S>(block: Option<BlockLimits>, ante: (S, Tx) -> Option<S>, p: Progress<S>, bytes: Bytes,
                          tx: Tx): Option<Progress<S>>
  {
    if tx.gasLimit.None? then None
    else if OverGas(block, p.gas, tx.gasLimit.value) then None
    else if OverSize(block, p.size, |bytes|) then None
    else
      var r := ante(p.state, tx);
      if r.None? then None
      else Some(Progress(r.value, AddI64(p.size, |bytes|), AddU64(p.gas, tx.gasLimit.value)))
  }

  ghost function CheckAll<S>(block: Option<BlockLimits>, ante: (S, Tx) -> Option<S>, decode: Bytes -> Option<Tx>,
                             state: S, txs: seq<Bytes>): Option<Progress<S>>
  {
    if txs == [] then Some(Progress(state, 0, 0))
    else
      var p := CheckAll(block, ante, decode, state, txs[..|txs| - 1]);
      var bytes := txs[|txs| - 1];
      if p.None? || decode(bytes).None? then None
      else Check(block, ante, p.value, bytes, decode(bytes).value)
  }

  lemma {:induction false} CheckPrefix<S>(block: Option<BlockLimits>, ante: (S, Tx) -> Option<S>,
                                          decode: Bytes -> Option<Tx>, state: S, txs: seq<Bytes>, i: nat)
    requires i <= |txs|
    ensures CheckAll(block, ante, decode, state, txs).Some? ==> CheckAll(block, ante, decode, state, txs[..i]).Some?
    ensures CheckAll(block, ante, decode, state, txs).Some? ==> forall j :: i <= j < |txs| ==> decode(txs[j]).Some?
    decreases |txs|
  {
    if i < |txs| {
      var init := txs[..|txs| - 1];
      CheckPrefix(block, ante, decode, state, init, i);
      assert init[..i] == txs[..i];
      assert forall j :: i <= j < |init| ==> init[j] == txs[j];
    } else {
      assert txs[..i] == txs;
    }
  }

  /** `ProcessProposalHandler`. */
  method Process<S>(height: int, txs: seq<Bytes>, block: Option<BlockLimits>, ante: (S, Tx) -> Option<S>,
                    decode: Bytes -> Option<Tx>, state: S)
    returns (accept: bool)
    ensures accept <==> height <= 1 || CheckAll(block, ante, decode, state, txs).Some?
  {
    if height <= 1 {
      return true;
    }
    var decoded: seq<Tx> := [];
    for i := 0 to |txs|
      invariant |decoded| == i && (forall j :: 0 <= j < i ==> decode(txs[j]) == Some(decoded[j]))
    {
      var tx := decode(txs[i]);
      if tx.None? {
        CheckPrefix(block, ante, decode, state, txs, 0);
        return false;
      }
      decoded := decoded + [tx.value];
    }
    var maxGas, maxBytes := 0, 0;
    if block.Some? {
      maxGas, maxBytes := block.value.maxGas, block.value.maxBytes;
    }
    var ctx, totalBytes, totalGas := state, 0, 0;
    for i := 0 to |decoded|
      invariant CheckAll(block, ante, decode, state, txs[..i]) == Some(Progress(ctx, totalBytes, totalGas))
    {
      var bytes, tx := txs[i], decoded[i];
      assert txs[..i + 1][..i] == txs[..i];
      CheckPrefix(block, ante, decode, state, txs, i + 1);
      if tx.gasLimit.None? {
        return false;
      }
      if maxGas > 0 && AddU64(totalGas, tx.gasLimit.value) > maxGas {
        return false;
      }
      totalGas := AddU64(totalGas, tx.gasLimit.value);
      if maxBytes > 0 && AddI64(totalBytes, |bytes|) > maxBytes {
        return false;
      }
      totalBytes := AddI64(totalBytes, |bytes|);
      var checked := ante(ctx, tx);
      if checked.None? {
        return false;
      }
      ctx := checked.value;
    }
    assert txs[..|txs|] == txs;
    return true;
  }

  // ---- coherence ------------------------------------------------------------------------------

  /** The entry's cached size and gas are those of its encoding, and its encoding decodes to it. */
  ghost predicate Faithful(decode: Bytes -> Option<Tx>, e: TxInfo) {
    decode(e.txBytes) == Some(e.tx) && e.tx.gasLimit == Some(e.gasLimit) && e.size == |e.txBytes|
  }

  /** A validator that verifies what was built arrives, step for step, at the builder's state and totals. The totals
      agree even where the machine integers wrap. */
  lemma {:induction false} BuiltChecks<S>(block: Option<BlockLimits>, ante: (S, Tx) -> Option<S>,
                                          decode: Bytes -> Option<Tx>, state: S, es: seq<TxInfo>)
    requires forall i {:trigger es[i]} :: 0 <= i < |es| ==> Faithful(decode, es[i])
    ensures var b := BuildAll(block, ante, state, es);
            CheckAll(block, ante, decode, state, BytesList(b.included)) == Some(Progress(b.state, b.size, b.gas))
  {
    hide OverSize, OverGas, AddI64, AddU64, BytesList, Faithful;
    if es == [] {
      NoBytes();
    } else {
      var init := es[..|es| - 1];
      var e := es[|es| - 1];
      assert forall i {:trigger init[i]} :: 0 <= i < |init| ==> init[i] == es[i];
      BuiltChecks(block, ante, decode, state, init);
      hide CheckAll;
      var b := BuildAll(block, ante, state, init);
      if FateOf(block, ante, b, e) == Included {
        BytesSnoc(b.included, e);
        CheckSnoc(block, ante, decode, state, BytesList(b.included), e.txBytes);
        IncludedChecks(block, ante, decode, b, e);
      }
    }
  }

  lemma NoBytes()
    ensures BytesList([]) == []
  {
  }

  lemma BytesSnoc(es: seq<TxInfo>, e: TxInfo)
    ensures BytesList(es + [e]) == BytesList(es) + [e.txBytes]
  {
    assert (es + [e])[..|es|] == es;
  }

  lemma CheckSnoc<S>(block: Option<BlockLimits>, ante: (S, Tx) -> Option<S>, decode: Bytes -> Option<Tx>, state: S,
                     txs: seq<Bytes>, bytes: Bytes)
    ensures CheckAll(block, ante, decode, state, txs + [bytes]) ==
              var p := CheckAll(block, ante, decode, state, txs);
              if p.None? || decode(bytes).None? then None
              else Check(block, ante, p.value, bytes, decode(bytes).value)
  {
    hide Check;
    assert (txs + [bytes])[..|txs|] == txs;
  }

  lemma IncludedChecks<S>(block: Option<BlockLimits>, ante: (S, Tx) -> Option<S>, decode: Bytes -> Option<Tx>,
                          b: Build<S>, e: TxInfo)
    requires Faithful(decode, e) && FateOf(block, ante, b, e) == Included
    ensures decode(e.txBytes) == Some(e.tx)
    ensures var v := Visit(block, ante, b, e);
            Check(block, ante, Progress(b.state, b.size, b.gas), e.txBytes, e.tx) ==
              Some(Progress(v.state, v.size, v.gas))
  {
    hide OverSize, OverGas, AddI64, AddU64;
  }

  // ---- why an entry is removed ----------------------------------------------------------------

  ghost function FateAt<S>(block: Option<BlockLimits>, ante: (S, Tx) -> Option<S>, state: S, es: seq<TxInfo>,
                           i: nat): Fate
    requires i < |es|
  {
    FateOf(block, ante, BuildAll(block, ante, state, es[..i]), es[i])
  }

  ghost function Those<S>(block: Option<BlockLimits>, ante: (S, Tx) -> Option<S>, state: S, es: seq<TxInfo>,
                          fates: set<Fate>): seq<TxInfo>
  {
    if es == [] then []
    else Those(block, ante, state, es[..|es| - 1], fates) +
         (if FateAt(block, ante, state, es, |es| - 1) in fates then [es[|es| - 1]] else [])
  }

  /** The two lists of a proposal are exactly the entries of the corresponding fates, in the iterator's order. */
  lemma {:induction false} ListsAreFates<S>(block: Option<BlockLimits>, ante: (S, Tx) -> Option<S>, state: S,
                                            es: seq<TxInfo>)
    ensures BuildAll(block, ante, state, es).included == Those(block, ante, state, es, {Included})
    ensures BuildAll(block, ante, state, es).removed == Those(block, ante, state, es, {Rejected, TooLarge, TooMuchGas})
  {
    if es != [] {
      ListsAreFates(block, ante, state, es[..|es| - 1]);
    }
  }

  lemma {:induction false} BlockedStays<S>(block: Option<BlockLimits>, ante: (S, Tx) -> Option<S>, state: S,
                                           es: seq<TxInfo>, j: nat)
    requires j < |es| && FateAt(block, ante, state, es, j) !in {Included, Rejected}
    ensures es[j].sender in BuildAll(block, ante, state, es).blocked
    decreases |es|
  {
    if j < |es| - 1 {
      var init := es[..|es| - 1];
      assert init[..j] == es[..j] && init[j] == es[j];
      BlockedStays(block, ante, state, init, j);
    }
  }

  /** An entry that the ante handler rejects was tried only after every earlier entry of its sender was included or was
      rejected itself: a sender deferred for lack of room is not tried again, so running out of room never leads to a
      removal. */
  lemma RejectedInTurn<S>(block: Option<BlockLimits>, ante: (S, Tx) -> Option<S>, state: S, es: seq<TxInfo>, i: nat,
                          j: nat)
    requires j < i < |es| && FateAt(block, ante, state, es, i) == Rejected && es[j].sender == es[i].sender
    ensures FateAt(block, ante, state, es, j) in {Included, Rejected}
  {
    if FateAt(block, ante, state, es, j) !in {Included, Rejected} {
      assert es[..i][..j] == es[..j] && es[..i][j] == es[j];
      BlockedStays(block, ante, state, es[..i], j);
    }
  }

  /** The same over a valid pool: the run below a rejected nonce, down to the cached on-chain sequence, was included or
      rejected in this very proposal. */
  lemma RejectedAfterItsRun<S>(c: Config, s: State, ix: seq<Entry>, es: seq<TxInfo>, block: Option<BlockLimits>,
                               ante: (S, Tx) -> Option<S>, state: S, i: nat, n: nat)
    requires Inv(c, s) && Indexes(ix, s.active) && |es| == |ix|
    requires forall j :: 0 <= j < |ix| ==> es[j] == InfoOf(c, ix[j])
    requires i < |es| && FateAt(block, ante, state, es, i) == Rejected
    requires es[i].sender in s.infos && s.infos[es[i].sender].seqNo <= n < es[i].sequence
    ensures exists j: nat :: j < i && es[j].sender == es[i].sender && es[j].sequence == n &&
              FateAt(block, ante, state, es, j) in {Included, Rejected}
  {
    SelectOrder(c, s, ix, i);
    hide Inv, Indexes, FateAt;
    var k := Key(ix[i].item.key.sender, n);
    assert AppearsBefore(ix, i, k);
    var j: nat :| j < i && ix[j].item.key == k;
    RejectedInTurn(block, ante, state, es, i, j);
  }

  lemma VisitRemoves<S>(block: Option<BlockLimits>, ante: (S, Tx) -> Option<S>, b: Build<S>, last: TxInfo, e: TxInfo)
    requires e in Visit(block, ante, b, last).removed && e !in b.removed
    ensures e == last && FateOf(block, ante, b, last) in {Rejected, TooLarge, TooMuchGas}
  {
    hide FateOf, AddU64, AddI64;
  }

  /** Where a removed entry met its fate. */
  lemma {:induction false} RemovedAt<S>(block: Option<BlockLimits>, ante: (S, Tx) -> Option<S>, state: S,
                                        es: seq<TxInfo>, e: TxInfo) returns (i: nat)
    requires e in BuildAll(block, ante, state, es).removed
    ensures i < |es| && es[i] == e && FateAt(block, ante, state, es, i) in {Rejected, TooLarge, TooMuchGas}
  {
    hide Visit, FateOf;
    var init := es[..|es| - 1];
    var b := BuildAll(block, ante, state, init);
    if e in b.removed {
      i := RemovedAt(block, ante, state, init, e);
      assert init[..i] == es[..i] && init[i] == es[i];
    } else {
      i := |es| - 1;
      VisitRemoves(block, ante, b, es[i], e);
    }
  }

  /** Every removal is justified by the entry alone or by the ante handler. */
  lemma RemovalJustified<S>(block: Option<BlockLimits>, ante: (S, Tx) -> Option<S>, state: S, es: seq<TxInfo>,
                            e: TxInfo)
    requires e in BuildAll(block, ante, state, es).removed
    ensures exists i: nat ::
              i < |es| && es[i] == e && FateAt(block, ante, state, es, i) in {Rejected, TooLarge, TooMuchGas}
    ensures (MaxBytes(block) > 0 && e.size > MaxBytes(block)) || (MaxGas(block) > 0 && e.gasLimit > MaxGas(block)) ||
            exists i: nat :: i < |es| && es[i] == e && FateAt(block, ante, state, es, i) == Rejected
  {
    hide BuildAll, AddU64, AddI64;
    var i := RemovedAt(block, ante, state, es, e);
  }

  // ---- totals ---------------------------------------------------------------------------------

  ghost function RealGas(es: seq<TxInfo>): nat {
    if es == [] then 0 else RealGas(es[..|es| - 1]) + es[|es| - 1].gasLimit
  }

  ghost function RealSize(es: seq<TxInfo>): int {
    if es == [] then 0 else RealSize(es[..|es| - 1]) + es[|es| - 1].size
  }

  ghost predicate EachGasFits(block: Option<BlockLimits>, es: seq<TxInfo>) {
    forall i {:trigger es[i]} :: 0 <= i < |es| ==> es[i].gasLimit <= MaxGas(block)
  }

  ghost predicate EachSizeFits(block: Option<BlockLimits>, es: seq<TxInfo>) {
    forall i {:trigger es[i]} :: 0 <= i < |es| ==> es[i].size <= MaxBytes(block)
  }

  ghost predicate Nonnegative(es: seq<TxInfo>) {
    forall i {:trigger es[i]} :: 0 <= i < |es| ==> es[i].size >= 0
  }

  lemma {:induction false} GasAtLeast(es: seq<TxInfo>, i: nat)
    requires i < |es|
    ensures RealGas(es) >= es[i].gasLimit
  {
    if i < |es| - 1 {
      GasAtLeast(es[..|es| - 1], i);
    }
  }

  lemma {:induction false} SizeAtLeast(es: seq<TxInfo>, i: nat)
    requires i < |es| && Nonnegative(es)
    ensures RealSize(es) >= es[i].size && RealSize(es) >= 0
  {
    var init := es[..|es| - 1];
    assert forall j {:trigger init[j]} :: 0 <= j < |init| ==> init[j] == es[j];
    if i < |init| {
      SizeAtLeast(init, i);
    } else if init != [] {
      SizeAtLeast(init, 0);
    }
  }

  lemma Snoc(es: seq<TxInfo>, e: TxInfo)
    ensures RealGas(es + [e]) == RealGas(es) + e.gasLimit
    ensures RealSize(es + [e]) == RealSize(es) + e.size
  {
    assert (es + [e])[..|es|] == es;
  }

  lemma NoGasWrap(total: int, gas: int, limit: int)
    requires 0 <= total <= limit && 0 <= gas <= limit && IsI64(limit)
    ensures AddU64(total, gas) == total + gas
  {
  }

  /** Sizes cannot overflow an `int64`: two of them within the limit do not reach 2^63, or all together do not. */
  ghost predicate SizesAddUp(block: Option<BlockLimits>, es: seq<TxInfo>) {
    MaxBytes(block) < TWO_63 / 2 || RealSize(es) < TWO_63
  }

  lemma NoSizeWrap(total: int, size: int, limit: int)
    requires 0 <= total <= limit && 0 <= size <= limit && (limit < TWO_63 / 2 || total + size < TWO_63)
    ensures AddI64(total, size) == total + size
  {
  }

  lemma IncludedTotals<S>(block: Option<BlockLimits>, ante: (S, Tx) -> Option<S>, b: Build<S>, e: TxInfo)
    ensures var v := Visit(block, ante, b, e);
            if FateOf(block, ante, b, e) == Included then
              && v.included == b.included + [e]
              && v.gas == AddU64(b.gas, e.gasLimit) && (MaxGas(block) > 0 ==> v.gas <= MaxGas(block))
              && v.size == AddI64(b.size, e.size) && (MaxBytes(block) > 0 ==> v.size <= MaxBytes(block))
            else v.included == b.included && v.gas == b.gas && v.size == b.size
  {
    hide AddU64, AddI64;
  }

  lemma GasSplit(block: Option<BlockLimits>, es: seq<TxInfo>, e: TxInfo)
    requires EachGasFits(block, es + [e])
    ensures EachGasFits(block, es) && e.gasLimit <= MaxGas(block)
  {
    hide MaxGas;
    assert (es + [e])[|es|] == e;
    assert forall i {:trigger es[i]} :: 0 <= i < |es| ==> es[i] == (es + [e])[i];
  }

  lemma {:induction false} GasExact<S>(block: Option<BlockLimits>, ante: (S, Tx) -> Option<S>, state: S,
                                       es: seq<TxInfo>)
    requires MaxGas(block) > 0 && IsI64(MaxGas(block))
    requires EachGasFits(block, BuildAll(block, ante, state, es).included)
    ensures var b := BuildAll(block, ante, state, es);
            b.gas == RealGas(b.included) <= MaxGas(block)
  {
    if es != [] {
      hide Visit, FateOf, AddU64, AddI64, EachGasFits, MaxGas, RealGas;
      var init := es[..|es| - 1];
      var e := es[|es| - 1];
      var b := BuildAll(block, ante, state, init);
      IncludedTotals(block, ante, b, e);
      if FateOf(block, ante, b, e) == Included {
        GasSplit(block, b.included, e);
        GasExact(block, ante, state, init);
        Snoc(b.included, e);
        NoGasWrap(b.gas, e.gasLimit, MaxGas(block));
      } else {
        GasExact(block, ante, state, init);
      }
    }
  }

  /** The conditions on all entries hold of all but the last and of the last. */
  lemma SizesSplit(block: Option<BlockLimits>, es: seq<TxInfo>)
    requires es != [] && Nonnegative(es) && SizesAddUp(block, es)
    ensures var init, e := es[..|es| - 1], es[|es| - 1];
            && Nonnegative(init) && e.size >= 0 && SizesAddUp(block, init)
            && RealSize(es) == RealSize(init) + e.size
  {
  }

  lemma FitsSplit(block: Option<BlockLimits>, es: seq<TxInfo>, e: TxInfo)
    requires EachSizeFits(block, es + [e])
    ensures EachSizeFits(block, es) && e.size <= MaxBytes(block)
  {
    hide MaxBytes;
    assert (es + [e])[|es|] == e;
    assert forall i {:trigger es[i]} :: 0 <= i < |es| ==> es[i] == (es + [e])[i];
  }

  lemma {:induction false} SizeExact<S>(block: Option<BlockLimits>, ante: (S, Tx) -> Option<S>, state: S,
                                        es: seq<TxInfo>)
    requires 0 < MaxBytes(block) && SizesAddUp(block, es)
    requires Nonnegative(es)
    requires EachSizeFits(block, BuildAll(block, ante, state, es).included)
    ensures var b := BuildAll(block, ante, state, es);
            0 <= b.size == RealSize(b.included) <= MaxBytes(block) && RealSize(b.included) <= RealSize(es)
  {
    if es != [] {
      hide Visit, FateOf, AddU64, AddI64, EachSizeFits, Nonnegative, RealSize, MaxBytes;
      var init := es[..|es| - 1];
      var e := es[|es| - 1];
      var b := BuildAll(block, ante, state, init);
      SizesSplit(block, es);
      IncludedTotals(block, ante, b, e);
      if FateOf(block, ante, b, e) == Included {
        FitsSplit(block, b.included, e);
        SizeExact(block, ante, state, init);
        Snoc(b.included, e);
        NoSizeWrap(b.size, e.size, MaxBytes(block));
      } else {
        SizeExact(block, ante, state, init);
      }
    }
  }

  lemma {:induction false} IncludedNonnegative<S>(block: Option<BlockLimits>, ante: (S, Tx) -> Option<S>, state: S,
                                                  es: seq<TxInfo>)
    requires Nonnegative(es)
    ensures Nonnegative(BuildAll(block, ante, state, es).included)
  {
    if es != [] {
      var init := es[..|es| - 1];
      assert forall i {:trigger init[i]} :: 0 <= i < |init| ==> init[i] == es[i];
      IncludedNonnegative(block, ante, state, init);
      IncludedTotals(block, ante, BuildAll(block, ante, state, init), es[|es| - 1]);
      hide Visit, FateOf;
    }
  }

  /** Likewise for its bytes, as long as an `int64` can hold them; see `SizeCanWrap`. */
  lemma SizeWithinLimit<S>(block: Option<BlockLimits>, ante: (S, Tx) -> Option<S>, state: S, es: seq<TxInfo>)
    requires 0 < MaxBytes(block) && SizesAddUp(block, es)
    requires Nonnegative(es)
    ensures var b := BuildAll(block, ante, state, es);
            && (RealSize(b.included) <= MaxBytes(block) <==> EachSizeFits(block, b.included))
            && (EachSizeFits(block, b.included) ==> b.size == RealSize(b.included))
  {
    var b := BuildAll(block, ante, state, es);
    if EachSizeFits(block, b.included) {
      SizeExact(block, ante, state, es);
    } else {
      var i :| 0 <= i < |b.included| && b.included[i].size > MaxBytes(block);
      IncludedNonnegative(block, ante, state, es);
      SizeAtLeast(b.included, i);
    }
  }

  /** The gas of a proposal stays within the limit exactly when every transaction in it does; then the machine total is
      the true total. */
  lemma GasWithinLimit<S>(block: Option<BlockLimits>, ante: (S, Tx) -> Option<S>, state: S, es: seq<TxInfo>)
    requires MaxGas(block) > 0 && IsI64(MaxGas(block))
    ensures var b := BuildAll(block, ante, state, es);
            && (RealGas(b.included) <= MaxGas(block) <==> EachGasFits(block, b.included))
            && (EachGasFits(block, b.included) ==> b.gas == RealGas(b.included))
  {
    var b := BuildAll(block, ante, state, es);
    if EachGasFits(block, b.included) {
      GasExact(block, ante, state, es);
    } else {
      var i :| 0 <= i < |b.included| && b.included[i].gasLimit > MaxGas(block);
      GasAtLeast(b.included, i);
    }
  }

  /** Without that condition the limit fails: after a transaction of gas 1, one of gas 2^64 - 1 brings the machine total
      back to zero and is included. */
  lemma GasCanWrap<S>(ante: (S, Tx) -> Option<S>, state: S, a: TxInfo, b: TxInfo, block: Option<BlockLimits>)
    requires block == Some(BlockLimits(0, 100)) && a.gasLimit == 1 && b.gasLimit == TWO_64 - 1
    requires forall s: S, tx: Tx :: ante(s, tx).Some?
    ensures BuildAll(block, ante, state, [a, b]).included == [a, b]
    ensures RealGas([a, b]) > MaxGas(block)
  {
    assert [a, b][..1] == [a] && [a][..0] == [];
    var one := BuildAll(block, ante, state, [a]);
    assert FateOf(block, ante, BuildAll(block, ante, state, []), a) == Included;
    assert FateOf(block, ante, one, b) == Included;
    assert RealGas([a]) == 1;
  }

  /** The same for bytes: under a limit of 2^63 - 1, two transactions of 2^62 bytes each overflow the machine total,
      which becomes negative, and both are included. */
  lemma SizeCanWrap<S>(ante: (S, Tx) -> Option<S>, state: S, a: TxInfo, b: TxInfo, block: Option<BlockLimits>)
    requires block == Some(BlockLimits(TWO_63 - 1, 0)) && a.size == b.size == TWO_63 / 2 && a.sender != b.sender
    requires forall s: S, tx: Tx :: ante(s, tx).Some?
    ensures BuildAll(block, ante, state, [a, b]).included == [a, b]
    ensures EachSizeFits(block, [a, b]) && RealSize([a, b]) > MaxBytes(block)
  {
    assert [a, b][..1] == [a] && [a][..0] == [];
    var one := BuildAll(block, ante, state, [a]);
    assert FateOf(block, ante, BuildAll(block, ante, state, []), a) == Included;
    assert FateOf(block, ante, one, b) == Included;
    assert RealSize([a]) == TWO_63 / 2;
  }

  // ---- limits, from the entries ---------------------------------------------------------------

  /** Every entry respects the block limits on its own. */
  ghost predicate EachFits(block: Option<BlockLimits>, es: seq<TxInfo>) {
    && (MaxBytes(block) > 0 ==> EachSizeFits(block, es))
    && (MaxGas(block) > 0 ==> EachGasFits(block, es))
  }

  lemma {:induction false} IncludedFrom<S>(block: Option<BlockLimits>, ante: (S, Tx) -> Option<S>, state: S,
                                           es: seq<TxInfo>)
    requires EachFits(block, es)
    ensures EachFits(block, BuildAll(block, ante, state, es).included)
  {
    if es != [] {
      var init := es[..|es| - 1];
      var e := es[|es| - 1];
      assert forall i {:trigger init[i]} :: 0 <= i < |init| ==> init[i] == es[i];
      IncludedFrom(block, ante, state, init);
      IncludedTotals(block, ante, BuildAll(block, ante, state, init), e);
      hide Visit, FateOf;
      assert e == es[|es| - 1];
    }
  }

  /** When each entry of the iterator fits a block alone, what is built fits the block, and no machine total wraps. */
  lemma WithinLimits<S>(block: Option<BlockLimits>, ante: (S, Tx) -> Option<S>, state: S, es: seq<TxInfo>)
    requires EachFits(block, es) && Nonnegative(es) && SizesAddUp(block, es) && IsI64(MaxGas(block))
    ensures var b := BuildAll(block, ante, state, es);
            && (MaxGas(block) > 0 ==> b.gas == RealGas(b.included) <= MaxGas(block))
            && (MaxBytes(block) > 0 ==> b.size == RealSize(b.included) <= MaxBytes(block))
  {
    IncludedFrom(block, ante, state, es);
    if MaxGas(block) > 0 {
      GasExact(block, ante, state, es);
    }
    if MaxBytes(block) > 0 {
      SizeExact(block, ante, state, es);
    }
  }
}
