/** The pool's own consistency check, abcipp/mempool_invariant.go, never reports an error on a valid pool. */
module MempoolChecker {
  import opened MempoolTypes
  import opened MempoolState
  import opened MempoolInvariant
  import opened Senders
  import opened Mempools

  // ---- what `ValidateInvariants` checks -------------------------------------------------------

  /** Cached bounds: zero for an empty map, otherwise members of it. */
  ghost predicate RangeOk(m: map<nat, Entry>, min: nat, max: nat) {
    if |m| == 0 then min == 0 && max == 0 else min <= max && min in m && max in m
  }

  ghost predicate ActiveOk(p: PriorityMempool, sender: string, ss: SenderState)
    reads p, ss
  {
    && RangeOk(ss.active, ss.activeMin, ss.activeMax)
    && (|ss.active| > 0 ==> forall n :: ss.activeMin <= n <= ss.activeMax ==> n in ss.active)
    && (forall n {:trigger n in ss.active} :: n in ss.active ==>
          var e := ss.active[n];
          && e.item.key == Key(sender, n) && e.tier != QUEUED_TIER && e.clamped.order <= e.order
          && e.item.key in p.entries && p.entries[e.item.key] == e && n !in ss.queued)
    && (forall n: nat {:trigger n + 1 in ss.active} :: n in ss.active && n + 1 in ss.active ==>
          var cur, prev := ss.active[n + 1].clamped, ss.active[n].clamped;
          && !(cur.score > prev.score) && !(cur.score == prev.score && cur.order < prev.order))
  }

  ghost predicate QueuedOk(p: PriorityMempool, sender: string, ss: SenderState)
    reads p, ss
  {
    && RangeOk(ss.queued, ss.queuedMin, ss.queuedMax)
    && (forall n {:trigger n in ss.queued} :: n in ss.queued ==>
          ss.queued[n].item.key == Key(sender, n) && Key(sender, n) !in p.entries && ss.queuedMin <= n <= ss.queuedMax)
  }

  ghost function Sum(counts: map<string, nat>): nat {
    if counts == map[] then 0
    else
      var a :| a in counts;
      counts[a] + Sum(counts - {a})
  }

  ghost function ActiveCounts(p: PriorityMempool): map<string, nat>
    reads p, p.senders.Values
  {
    map a {:trigger a in p.senders} | a in p.senders :: |p.senders[a].active|
  }

  ghost function QueuedCounts(p: PriorityMempool): map<string, nat>
    reads p, p.senders.Values
  {
    map a {:trigger a in p.senders} | a in p.senders :: |p.senders[a].queued|
  }

  ghost predicate GlobalOk(p: PriorityMempool)
    reads p, p.senders.Values
  {
    && Sum(ActiveCounts(p)) == |p.entries| == |p.priorityIndex|
    && Sum(QueuedCounts(p)) == p.queuedCount
    && (forall k {:trigger k in p.entries} :: k in p.entries ==>
          && k.sender in p.senders && k.nonce in p.senders[k.sender].active
          && p.senders[k.sender].active[k.nonce] == p.entries[k])
  }

  // ---- it passes ------------------------------------------------------------------------------

  ghost function KeysUnder(m: map<Key, Entry>, names: set<string>): set<Key> {
    set k {:trigger k in m} | k in m && k.sender in names
  }

  lemma NoncesAreKeys(m: map<Key, Entry>, sender: string, ns: set<nat>)
    requires ns <= NoncesOf(m, sender)
    ensures |set n | n in ns :: Key(sender, n)| == |ns|
  {
    if ns != {} {
      var x :| x in ns;
      NoncesAreKeys(m, sender, ns - {x});
      assert (set n | n in ns :: Key(sender, n)) == (set n | n in ns - {x} :: Key(sender, n)) + {Key(sender, x)};
    }
  }

  lemma UnderOne(m: map<Key, Entry>, sender: string)
    ensures |KeysUnder(m, {sender})| == |NoncesOf(m, sender)|
  {
    var ns := NoncesOf(m, sender);
    NoncesAreKeys(m, sender, ns);
    assert KeysUnder(m, {sender}) == set n | n in ns :: Key(sender, n) by {
      forall k | k in KeysUnder(m, {sender}) ensures k in (set n | n in ns :: Key(sender, n)) {
        assert k == Key(sender, k.nonce);
      }
    }
  }

  /** The per-sender counts add up to the number of entries of those senders. */
  lemma {:induction false} SumNonces(m: map<Key, Entry>, counts: map<string, nat>)
    requires forall a {:trigger a in counts} :: a in counts ==> counts[a] == |NoncesOf(m, a)|
    ensures Sum(counts) == |KeysUnder(m, counts.Keys)|
    decreases |counts|
  {
    if counts == map[] {
      assert KeysUnder(m, counts.Keys) == {};
    } else {
      var a :| a in counts && Sum(counts) == counts[a] + Sum(counts - {a});
      var rest := counts - {a};
      SumNonces(m, rest);
      hide NoncesOf, Sum, KeysUnder;
      UnderOne(m, a);
      assert rest.Keys == counts.Keys - {a};
      UnderSplit(m, counts.Keys, a);
    }
  }

  lemma UnderSplit(m: map<Key, Entry>, names: set<string>, a: string)
    requires a in names
    ensures |KeysUnder(m, names)| == |KeysUnder(m, names - {a})| + |KeysUnder(m, {a})|
  {
    assert KeysUnder(m, names) == KeysUnder(m, names - {a}) + KeysUnder(m, {a});
    assert KeysUnder(m, names - {a}) !! KeysUnder(m, {a});
  }

  lemma UnderAll(m: map<Key, Entry>, names: set<string>)
    requires forall k {:trigger k in m} :: k in m ==> k.sender in names
    ensures |KeysUnder(m, names)| == |m|
  {
    assert KeysUnder(m, names) == m.Keys;
    assert |m| == |m.Keys|;
  }

  lemma {:induction false} IndexSize(ix: seq<Entry>, ks: set<Key>)
    requires Sorted(ix)
    requires forall k :: k in ks <==> exists i :: 0 <= i < |ix| && ix[i].item.key == k
    requires forall i, j :: 0 <= i < j < |ix| ==> ix[i].item.key != ix[j].item.key
    ensures |ix| == |ks|
  {
    if ix == [] {
      assert ks == {};
    } else {
      var init := ix[..|ix| - 1];
      var k := ix[|ix| - 1].item.key;
      forall x ensures x in ks - {k} <==> exists i :: 0 <= i < |init| && init[i].item.key == x {
        if i :| 0 <= i < |init| && init[i].item.key == x {
          assert ix[i] == init[i];
        }
        if x in ks && x != k {
          var i :| 0 <= i < |ix| && ix[i].item.key == x;
          assert init[i] == ix[i];
        }
      }
      IndexSize(init, ks - {k});
    }
  }

  lemma IndexCounts(ix: seq<Entry>, active: map<Key, Entry>)
    requires Indexes(ix, active) && WellKeyed(active)
    ensures |ix| == |active|
  {
    forall i, j | 0 <= i < j < |ix| ensures ix[i].item.key != ix[j].item.key {
      assert ix[i] in ix && ix[j] in ix;
      BeforeTotal(ix[i], ix[j]);
    }
    forall k ensures k in active.Keys <==> exists i :: 0 <= i < |ix| && ix[i].item.key == k {
      if k in active {
        assert active[k] in ix;
      }
      if i :| 0 <= i < |ix| && ix[i].item.key == k {
        assert ix[i] in ix;
      }
    }
    IndexSize(ix, active.Keys);
    assert |active| == |active.Keys|;
  }

  lemma RunIsFull(c: Config, s: State, sender: string, m: map<nat, Entry>, lo: nat, hi: nat)
    requires Inv(c, s) && Projects(m, s.active, sender) && Bounds(m.Keys, lo, hi) && |m| > 0
    ensures forall n :: lo <= n <= hi ==> n in m
  {
    assert m.Keys != {} by { assert |m.Keys| == |m|; }
    assert Key(sender, lo) in s.active && Key(sender, hi) in s.active;
    forall n | lo <= n <= hi ensures n in m {
      assert Key(sender, n) in s.active;
    }
  }

  lemma RunRanksFall(c: Config, s: State, sender: string, m: map<nat, Entry>, n: nat)
    requires Inv(c, s) && Projects(m, s.active, sender) && n in m && n + 1 in m
    ensures !Outranks(m[n + 1].clamped, m[n].clamped)
  {
    assert Key(sender, n) in s.active && Key(sender, n + 1) in s.active;
  }

  lemma RunEntry(c: Config, s: State, sender: string, m: map<nat, Entry>, q: map<nat, Entry>, n: nat)
    requires Inv(c, s) && Projects(m, s.active, sender) && Projects(q, s.queued, sender) && n in m
    ensures Key(sender, n) in s.active && s.active[Key(sender, n)] == m[n] && n !in q
    ensures m[n].item.key == Key(sender, n) && m[n].tier != QUEUED_TIER && m[n].clamped.order <= m[n].order
  {
    assert Key(sender, n) in s.active;
  }

  lemma BoundsAreRange(m: map<nat, Entry>, lo: nat, hi: nat)
    requires Bounds(m.Keys, lo, hi)
    ensures RangeOk(m, lo, hi)
  {
    assert |m.Keys| == |m|;
    if |m| > 0 {
      assert m.Keys != {};
    }
  }

  lemma Shown(p: PriorityMempool, sender: string)
    requires p.Coherent() && sender in p.senders
    ensures var ss := p.senders[sender];
            && Projects(ss.active, p.abs.active, sender) && Projects(ss.queued, p.abs.queued, sender)
            && Bounds(ss.active.Keys, ss.activeMin, ss.activeMax) && Bounds(ss.queued.Keys, ss.queuedMin, ss.queuedMax)
  {
    assert p.senders[sender].Shows(p.abs, sender);
  }

  lemma ActivePasses(p: PriorityMempool, sender: string)
    requires p.Valid() && sender in p.senders
    ensures ActiveOk(p, sender, p.senders[sender])
  {
    hide PriorityMempool.Coherent, Inv, Projects, Bounds, RangeOk;
    var ss := p.senders[sender];
    p.EntriesAgree();
    Shown(p, sender);
    BoundsAreRange(ss.active, ss.activeMin, ss.activeMax);
    forall n {:trigger n in ss.active} | n in ss.active
      ensures var e := ss.active[n];
              && e.item.key == Key(sender, n) && e.tier != QUEUED_TIER && e.clamped.order <= e.order
              && e.item.key in p.entries && p.entries[e.item.key] == e && n !in ss.queued
    {
      RunEntry(p.cfg, p.abs, sender, ss.active, ss.queued, n);
    }
    if |ss.active| > 0 {
      RunIsFull(p.cfg, p.abs, sender, ss.active, ss.activeMin, ss.activeMax);
    }
    forall n: nat {:trigger n + 1 in ss.active} | n in ss.active && n + 1 in ss.active
      ensures !Outranks(ss.active[n + 1].clamped, ss.active[n].clamped)
    {
      RunRanksFall(p.cfg, p.abs, sender, ss.active, n);
    }
  }

  lemma QueuedPasses(p: PriorityMempool, sender: string)
    requires p.Valid() && sender in p.senders
    ensures QueuedOk(p, sender, p.senders[sender])
  {
    var ss := p.senders[sender];
    assert ss.Shows(p.abs, sender);
    assert p.entries == p.abs.active;
    forall n {:trigger n in ss.queued} | n in ss.queued
      ensures ss.queued[n].item.key == Key(sender, n) && Key(sender, n) !in p.entries
      ensures ss.queuedMin <= n <= ss.queuedMax
    {
      assert Key(sender, n) in p.abs.queued;
    }
  }

  lemma Registered(p: PriorityMempool)
    requires p.Valid()
    ensures forall k {:trigger k in p.abs.active} :: k in p.abs.active ==> k.sender in p.senders.Keys
    ensures forall k {:trigger k in p.abs.queued} :: k in p.abs.queued ==> k.sender in p.senders.Keys
  {
    p.KeysAgree();
  }

  lemma CountsPass(p: PriorityMempool)
    requires p.Valid()
    ensures Sum(ActiveCounts(p)) == |p.entries| && Sum(QueuedCounts(p)) == p.queuedCount
  {
    hide PriorityMempool.Coherent, Inv, Sum, KeysUnder, NoncesOf, Bounds;
    Registered(p);
    p.EntriesAgree();
    forall a | a in p.senders
      ensures |p.senders[a].active| == |NoncesOf(p.abs.active, a)|
      ensures |p.senders[a].queued| == |NoncesOf(p.abs.queued, a)|
    {
      p.PeekActive(Key(a, 0));
      p.PeekQueued(Key(a, 0));
    }
    assert ActiveCounts(p).Keys == p.senders.Keys == QueuedCounts(p).Keys;
    SumNonces(p.abs.active, ActiveCounts(p));
    SumNonces(p.abs.queued, QueuedCounts(p));
    UnderAll(p.abs.active, p.senders.Keys);
    UnderAll(p.abs.queued, p.senders.Keys);
  }

  /** `ValidateInvariants` finds nothing wrong with a valid pool; every method of `PriorityMempool` keeps it valid. */
  lemma ChecksPass(p: PriorityMempool)
    requires p.Valid()
    ensures forall a {:trigger p.senders[a]} ::
              a in p.senders ==> ActiveOk(p, a, p.senders[a]) && QueuedOk(p, a, p.senders[a])
    ensures GlobalOk(p)
  {
    forall a {:trigger p.senders[a]} | a in p.senders
      ensures ActiveOk(p, a, p.senders[a]) && QueuedOk(p, a, p.senders[a])
    {
      ActivePasses(p, a);
      QueuedPasses(p, a);
    }
    CountsPass(p);
    p.IndexAgrees();
    p.EntriesAgree();
    p.KeysAgree();
    assert WellKeyed(p.abs.active);
    IndexCounts(p.priorityIndex, p.abs.active);
    forall k {:trigger k in p.entries} | k in p.entries
      ensures k.sender in p.senders && k.nonce in p.senders[k.sender].active
      ensures p.senders[k.sender].active[k.nonce] == p.entries[k]
    {
      assert k.sender in p.abs.infos;
      p.PeekActive(k);
    }
  }
}
