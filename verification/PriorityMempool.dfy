/** The priority mempool with its caches (abcipp/mempool.go, mempool_insert.go, mempool_remove.go, mempool_cleanup.go,
    mempool_query.go). Each method is one critical section under `p.mtx`, or part of one, and is specified by the
    function of the same purpose in `MempoolState` applied to the ghost field `abs`. */
module Mempools {
  import opened Common
  import opened MempoolTypes
  import opened MempoolState
  import opened MempoolInvariant
  import opened MempoolPreservation
  import opened MempoolAdmission
  import opened MempoolPromotion
  import opened MempoolSections
  import opened Senders

  // ---- the caches -----------------------------------------------------------------------------

  ghost function ActiveIn(tiers: seq<Tier>, active: map<Key, Entry>, name: string): set<Key> {
    set k {:trigger k in active} | k in active && TierName(tiers, active[k].tier) == name
  }

  /** Each tier counter is the number of active entries in tiers of that name. */
  ghost predicate Counts(tiers: seq<Tier>, active: map<Key, Entry>, dist: map<string, nat>) {
    && (forall i :: 0 <= i < |tiers| ==> tiers[i].name in dist)
    && (forall name {:trigger name in dist} :: name in dist ==> dist[name] == |ActiveIn(tiers, active, name)|)
  }

  ghost predicate TiersOk(tiers: seq<Tier>, active: map<Key, Entry>) {
    forall k {:trigger k in active} :: k in active ==> 0 <= active[k].tier < |tiers|
  }

  lemma CountsAdd(c: Config, active: map<Key, Entry>, dist: map<string, nat>, e: Entry)
    requires c.Valid() && Counts(c.tiers, active, dist) && e.item.key !in active && 0 <= e.tier < |c.tiers|
    ensures var name := TierName(c.tiers, e.tier);
            name != "" && name in dist &&
            Counts(c.tiers, active[e.item.key := e], dist[name := dist[name] + 1])
  {
    var name := TierName(c.tiers, e.tier);
    var active' := active[e.item.key := e];
    var dist' := dist[name := dist[name] + 1];
    forall other | other in dist' ensures dist'[other] == |ActiveIn(c.tiers, active', other)| {
      if other == name {
        assert ActiveIn(c.tiers, active', name) == ActiveIn(c.tiers, active, name) + {e.item.key};
      } else {
        assert ActiveIn(c.tiers, active', other) == ActiveIn(c.tiers, active, other);
      }
    }
  }

  lemma CountsDrop(c: Config, active: map<Key, Entry>, dist: map<string, nat>, k: Key)
    requires c.Valid() && Counts(c.tiers, active, dist) && k in active && 0 <= active[k].tier < |c.tiers|
    ensures var name := TierName(c.tiers, active[k].tier);
            name != "" && name in dist && dist[name] > 0 &&
            Counts(c.tiers, active - {k}, dist[name := dist[name] - 1])
  {
    var name := TierName(c.tiers, active[k].tier);
    assert k in ActiveIn(c.tiers, active, name);
    var active' := active - {k};
    var dist' := dist[name := dist[name] - 1];
    forall other | other in dist' ensures dist'[other] == |ActiveIn(c.tiers, active', other)| {
      if other == name {
        assert ActiveIn(c.tiers, active', name) == ActiveIn(c.tiers, active, name) - {k};
      } else {
        assert ActiveIn(c.tiers, active', other) == ActiveIn(c.tiers, active, other);
      }
    }
  }

  /** The global index, counters and entry map agree with the state. */
  ghost predicate Mirrors(c: Config, s: State, entries: map<Key, Entry>, index: seq<Entry>, queuedCount: int,
                          orderSeq: int, dist: map<string, nat>)
  {
    && c.Valid() && Keyed(s) && TiersOk(c.tiers, s.active)
    && entries == s.active && Indexes(index, s.active)
    && queuedCount == |s.queued| && orderSeq == s.order
    && Counts(c.tiers, s.active, dist)
  }

  lemma IndexesAdd(active: map<Key, Entry>, index: seq<Entry>, e: Entry)
    requires Indexes(index, active) && e.item.key !in active
    ensures Indexes(IndexSet(index, e), active[e.item.key := e])
  {
    forall x {:trigger x in index} | x in index ensures x.item.key != e.item.key {
    }
    IndexSetAdds(index, e);
  }

  lemma IndexesDrop(active: map<Key, Entry>, index: seq<Entry>, k: Key)
    requires Indexes(index, active) && WellKeyed(active) && k in active
    ensures Indexes(IndexRemove(index, active[k]), active - {k})
  {
    IndexRemoveDrops(index, active[k]);
    var ix := IndexRemove(index, active[k]);
    forall x {:trigger x in ix} | x in ix
      ensures x.item.key in active - {k} && (active - {k})[x.item.key] == x
    {
      assert x in index;
      assert active[x.item.key] == x;
    }
  }

  /** What the records of all other senders show stays true when only one sender's slots change. */
  lemma ShowsElsewhere(ss: SenderState, s: State, t: State, sender: string, other: string)
    requires ss.Shows(s, other) && other != sender
    requires other in t.infos && t.infos[other] == s.infos[other]
    requires SameElsewhere(s.active, t.active, sender) && SameElsewhere(s.queued, t.queued, sender)
    ensures ss.Shows(t, other)
  {
    NoncesElsewhere(s.active, t.active, sender, other);
    NoncesElsewhere(s.queued, t.queued, sender, other);
    assert forall n {:trigger n in ss.active} :: n in ss.active ==> Key(other, n) in s.active;
    assert forall n {:trigger n in ss.queued} :: n in ss.queued ==> Key(other, n) in s.queued;
  }

  lemma MirrorsActivate(c: Config, s: State, e: Entry, entries: map<Key, Entry>, index: seq<Entry>,
                        queuedCount: int, orderSeq: int, dist: map<string, nat>)
    requires Mirrors(c, s, entries, index, queuedCount, orderSeq, dist)
    requires e.item.key !in s.active && e.item.key !in s.queued && e.item.key.sender in s.infos
    requires 0 <= e.tier < |c.tiers|
    ensures var name := TierName(c.tiers, e.tier);
            name != "" && name in dist &&
            Mirrors(c, Activate(s, e), entries[e.item.key := e], IndexSet(index, e), queuedCount, orderSeq,
                    dist[name := dist[name] + 1])
  {
    IndexesAdd(s.active, index, e);
    CountsAdd(c, s.active, dist, e);
    hide Indexes, Counts, TierName, IndexSet;
  }

  lemma MirrorsDeactivate(c: Config, s: State, k: Key, entries: map<Key, Entry>, index: seq<Entry>,
                          queuedCount: int, orderSeq: int, dist: map<string, nat>)
    requires Mirrors(c, s, entries, index, queuedCount, orderSeq, dist) && k in s.active
    ensures var name := TierName(c.tiers, s.active[k].tier);
            name != "" && name in dist && dist[name] > 0 &&
            Mirrors(c, s.(active := s.active - {k}), entries - {k}, IndexRemove(index, s.active[k]), queuedCount,
                    orderSeq, dist[name := dist[name] - 1])
  {
    assert WellKeyed(s.active);
    KeyedDrop(c, s, k);
    hide Indexes, Counts, TierName, IndexRemove, Keyed, TiersOk;
    IndexesDrop(s.active, index, k);
    CountsDrop(c, s.active, dist, k);
  }

  lemma KeyedDrop(c: Config, s: State, k: Key)
    requires Keyed(s) && TiersOk(c.tiers, s.active) && k in s.active
    ensures Keyed(s.(active := s.active - {k})) && TiersOk(c.tiers, s.active - {k})
    ensures 0 <= s.active[k].tier < |c.tiers|
  {
  }

  /** A change of the queue is mirrored by the counter alone. */
  lemma MirrorsQueue(c: Config, s: State, queued: map<Key, Entry>, entries: map<Key, Entry>, index: seq<Entry>,
                     queuedCount: int, orderSeq: int, dist: map<string, nat>)
    requires Mirrors(c, s, entries, index, queuedCount, orderSeq, dist)
    requires Keyed(s.(queued := queued))
    ensures Mirrors(c, s.(queued := queued), entries, index, |queued|, orderSeq, dist)
  {
    hide Indexes, Counts;
  }

  /** What the records of all other senders show stays true when only one sender's slots and record change. */
  lemma RecordsElsewhere(senders: map<string, SenderState>, s: State, t: State, sender: string)
    requires forall a {:trigger senders[a]} :: a in senders && a != sender ==> senders[a].Shows(s, a)
    requires forall a {:trigger a in senders} :: a in senders && a != sender ==>
               a in s.infos && a in t.infos && t.infos[a] == s.infos[a]
    requires SameElsewhere(s.active, t.active, sender) && SameElsewhere(s.queued, t.queued, sender)
    ensures forall a {:trigger senders[a]} :: a in senders && a != sender ==> senders[a].Shows(t, a)
  {
    hide SenderState.Shows, SameElsewhere;
    forall a {:trigger senders[a]} | a in senders && a != sender ensures senders[a].Shows(t, a) {
      ShowsElsewhere(senders[a], s, t, sender, a);
    }
  }

  lemma SameElsewhereRefl(m: map<Key, Entry>, sender: string)
    ensures SameElsewhere(m, m, sender)
  {
  }

  lemma MirrorsPutQueued(c: Config, s: State, e: Entry, entries: map<Key, Entry>, index: seq<Entry>,
                         queuedCount: int, orderSeq: int, dist: map<string, nat>)
    requires Mirrors(c, s, entries, index, queuedCount, orderSeq, dist)
    requires e.item.key !in s.active && e.item.key.sender in s.infos
    ensures Mirrors(c, s.(queued := s.queued[e.item.key := e]), entries, index,
                    if e.item.key in s.queued then queuedCount else queuedCount + 1, orderSeq, dist)
  {
    SizePut(s.queued, e.item.key, e);
    hide Indexes, Counts, NoncesOf;
    MirrorsQueue(c, s, s.queued[e.item.key := e], entries, index, queuedCount, orderSeq, dist);
  }

  lemma MirrorsDropQueued(c: Config, s: State, k: Key, entries: map<Key, Entry>, index: seq<Entry>,
                          queuedCount: int, orderSeq: int, dist: map<string, nat>)
    requires Mirrors(c, s, entries, index, queuedCount, orderSeq, dist) && k in s.queued
    ensures Mirrors(c, s.(queued := s.queued - {k}), entries, index, queuedCount - 1, orderSeq, dist)
  {
    SizeDrop(s.queued, k);
    hide Indexes, Counts, NoncesOf;
    MirrorsQueue(c, s, s.queued - {k}, entries, index, queuedCount, orderSeq, dist);
  }

  lemma MirrorsRecord(c: Config, s: State, sender: string, info: Info, entries: map<Key, Entry>, index: seq<Entry>,
                      queuedCount: int, orderSeq: int, dist: map<string, nat>)
    requires Mirrors(c, s, entries, index, queuedCount, orderSeq, dist) && sender in s.infos
    ensures Mirrors(c, s.(infos := s.infos[sender := info]), entries, index, queuedCount, orderSeq, dist)
  {
    hide Indexes, Counts;
    MirrorsInfos(c, s, s.infos[sender := info], entries, index, queuedCount, orderSeq, dist);
  }

  lemma CleanupMirrors(c: Config, s: State, sender: string, entries: map<Key, Entry>, index: seq<Entry>,
                       queuedCount: int, orderSeq: int, dist: map<string, nat>)
    requires Mirrors(c, s, entries, index, queuedCount, orderSeq, dist)
    ensures Mirrors(c, Cleanup(s, sender), entries, index, queuedCount, orderSeq, dist)
    ensures sender !in s.infos ==> IsEmpty(s, sender) && Cleanup(s, sender) == s
  {
    hide Indexes, Counts;
    if IsEmpty(s, sender) {
      forall k {:trigger k in s.active} | k in s.active ensures k.sender != sender {
        assert Key(k.sender, k.nonce) in s.active;
      }
      forall k {:trigger k in s.queued} | k in s.queued ensures k.sender != sender {
        assert Key(k.sender, k.nonce) in s.queued;
      }
      MirrorsInfos(c, s, s.infos - {sender}, entries, index, queuedCount, orderSeq, dist);
    }
    if sender !in s.infos {
      UnregisteredEmpty(s, sender);
      assert s.infos - {sender} == s.infos;
    }
  }

  lemma UnregisteredEmpty(s: State, sender: string)
    requires Keyed(s) && sender !in s.infos
    ensures NoncesOf(s.active, sender) == {} && NoncesOf(s.queued, sender) == {}
  {
    assert forall n: nat {:trigger Key(sender, n) in s.active} :: Key(sender, n) in s.active ==>
              Key(sender, n).sender in s.infos;
    assert forall n: nat {:trigger Key(sender, n) in s.queued} :: Key(sender, n) in s.queued ==>
              Key(sender, n).sender in s.infos;
  }

  lemma EmptyIsEmpty(ss: SenderState, s: State, sender: string)
    requires ss.Shows(s, sender)
    ensures ss.Empty() <==> IsEmpty(s, sender)
  {
    assert |ss.active| == |ss.active.Keys| && |ss.queued| == |ss.queued.Keys|;
  }

  lemma ShowsInfos(ss: SenderState, s: State, infos: map<string, Info>, other: string)
    requires ss.Shows(s, other) && other in infos && infos[other] == s.infos[other]
    ensures ss.Shows(s.(infos := infos), other)
  {
  }

  lemma CleanupKeeps(s: State, sender: string)
    ensures if IsEmpty(s, sender) then Cleanup(s, sender).infos == s.infos - {sender} else Cleanup(s, sender) == s
  {
    hide IsEmpty;
  }

  lemma CleanupShows(senders: map<string, SenderState>, s: State, sender: string)
    requires sender !in senders && forall a {:trigger senders[a]} :: a in senders ==> senders[a].Shows(s, a)
    ensures forall a {:trigger senders[a]} :: a in senders ==> senders[a].Shows(Cleanup(s, sender), a)
  {
    hide IsEmpty, NoncesOf;
    forall a {:trigger senders[a]} | a in senders ensures senders[a].Shows(Cleanup(s, sender), a) {
      ShowsInfos(senders[a], s, Cleanup(s, sender).infos, a);
    }
  }

  lemma NewShows(ss: SenderState, s: State, sender: string)
    requires ss.onChainSeq == 0 && ss.gapSince == None && ss.active == map[] && ss.queued == map[]
    requires ss.activeMin == ss.activeMax == ss.queuedMin == ss.queuedMax == 0
    requires NoncesOf(s.active, sender) == {} && NoncesOf(s.queued, sender) == {}
    requires sender in s.infos && s.infos[sender] == Info(0, None)
    ensures ss.Shows(s, sender)
  {
  }

  /** An unregistered sender has no entries, so registering it changes no cache. */
  lemma RegisterMirrors(c: Config, s: State, sender: string, info: Info, entries: map<Key, Entry>, index: seq<Entry>,
                        queuedCount: int, orderSeq: int, dist: map<string, nat>)
    requires Mirrors(c, s, entries, index, queuedCount, orderSeq, dist) && sender !in s.infos
    ensures Mirrors(c, s.(infos := s.infos[sender := info]), entries, index, queuedCount, orderSeq, dist)
    ensures NoncesOf(s.active, sender) == {} && NoncesOf(s.queued, sender) == {}
  {
    hide Indexes, Counts;
    MirrorsInfos(c, s, s.infos[sender := info], entries, index, queuedCount, orderSeq, dist);
    UnregisteredEmpty(s, sender);
  }

  /** Records come and go without touching the caches, as long as no entry loses its sender. */
  lemma MirrorsInfos(c: Config, s: State, infos: map<string, Info>, entries: map<Key, Entry>, index: seq<Entry>,
                     queuedCount: int, orderSeq: int, dist: map<string, nat>)
    requires Mirrors(c, s, entries, index, queuedCount, orderSeq, dist)
    requires forall k {:trigger k in s.active} :: k in s.active ==> k.sender in infos
    requires forall k {:trigger k in s.queued} :: k in s.queued ==> k.sender in infos
    ensures Mirrors(c, s.(infos := infos), entries, index, queuedCount, orderSeq, dist)
  {
    hide Indexes, Counts;
  }

  class PriorityMempool {
    const cfg: Config
    var priorityIndex: seq<Entry>
    var entries: map<Key, Entry>
    var senders: map<string, SenderState>
    var orderSeq: int
    var tierDistribution: map<string, nat>
    var queuedCount: int
    /** Everything produced for the app event channel, in order. */
    var appEvents: seq<Event>
    /** The pool without its caches. */
    ghost var abs: State

    ghost predicate Records()
      reads this, senders.Values
    {
      && senders.Keys == abs.infos.Keys
      && (forall a, b {:trigger senders[a], senders[b]} :: a in senders && b in senders && a != b ==>
                senders[a] != senders[b])
      && (forall a {:trigger senders[a]} :: a in senders ==> senders[a].Shows(abs, a))
    }

    /** All caches agree with `abs`. */
    ghost predicate Coherent()
      reads this, senders.Values
    {
      Records() && Mirrors(cfg, abs, entries, priorityIndex, queuedCount, orderSeq, tierDistribution)
    }

    /** Coherent, and the pool invariant holds. */
    ghost predicate Valid()
      reads this, senders.Values
    {
      Coherent() && Inv(cfg, abs)
    }

    /** `NewPriorityMempool`: limits that are not positive are replaced by the defaults. */
    constructor (maxTx: int, maxQueuedPerSender: int, maxQueuedTotal: int, queuedGapTTL: int, tiers: seq<Tier>)
      requires |tiers| > 0 && (forall i :: 0 <= i < |tiers| ==> tiers[i].name != "")
      ensures cfg == WithDefaults(maxTx, maxQueuedPerSender, maxQueuedTotal, queuedGapTTL, tiers)
      ensures abs == EMPTY && appEvents == [] && senders == map[]
      ensures Valid()
    {
      cfg := WithDefaults(maxTx, maxQueuedPerSender, maxQueuedTotal, queuedGapTTL, tiers);
      priorityIndex, entries, senders, orderSeq, queuedCount := [], map[], map[], 0, 0;
      tierDistribution := map i | 0 <= i < |tiers| :: tiers[i].name := 0;
      appEvents := [];
      abs := EMPTY;
      new;
      EmptyInv(cfg);
    }

    /** `getOrCreateSenderLocked`. */
    method GetOrCreateSenderLocked(sender: string) returns (ss: SenderState)
      requires Coherent()
      modifies this
      ensures Coherent() && sender in senders && ss == senders[sender]
      ensures abs == Register(old(abs), sender, 0) && appEvents == old(appEvents)
      ensures sender in old(senders) ==> senders == old(senders)
      ensures sender !in old(senders) ==> fresh(ss) && senders == old(senders)[sender := ss]
    {
      hide Mirrors, NoncesOf, SenderState.Shows;
      if sender in senders {
        ss := senders[sender];
      } else {
        ss := new SenderState();
        ghost var s := abs;
        RegisterMirrors(cfg, s, sender, Info(0, None), entries, priorityIndex, queuedCount, orderSeq, tierDistribution);
        senders := senders[sender := ss];
        abs := Register(abs, sender, 0);
        NewShows(ss, abs, sender);
        forall a | a in senders && a != sender ensures senders[a].Shows(abs, a) {
          ShowsInfos(senders[a], s, abs.infos, a);
        }
      }
    }

    /** `addEntryLocked`. */
    method AddEntryLocked(entry: Entry)
      requires Coherent()
      requires entry.item.key !in abs.active && entry.item.key !in abs.queued && 0 <= entry.tier < |cfg.tiers|
      modifies this, if entry.item.key.sender in senders then {senders[entry.item.key.sender]} else {}
      ensures Coherent() && abs == Activate(Register(old(abs), entry.item.key.sender, 0), entry)
      ensures old(entry.item.key.sender in senders) ==> senders == old(senders) && abs == Activate(old(abs), entry)
      ensures senders.Keys == old(senders.Keys) + {entry.item.key.sender}
      ensures appEvents == old(appEvents)
    {
      hide Coherent;
      KeysAgree();
      var ss := GetOrCreateSenderLocked(entry.item.key.sender);
      EnterRegisteredLocked(entry);
    }

    /** Enters an entry of a registered sender into every structure. */
    method EnterRegisteredLocked(entry: Entry)
      requires Coherent() && entry.item.key.sender in senders
      requires entry.item.key !in abs.active && entry.item.key !in abs.queued && 0 <= entry.tier < |cfg.tiers|
      modifies this, senders[entry.item.key.sender]
      ensures Coherent() && abs == Activate(old(abs), entry)
      ensures senders == old(senders) && appEvents == old(appEvents)
    {
      hide Mirrors, NoncesOf, SenderState.Shows, IndexSet, SameElsewhere;
      var k := entry.item.key;
      var ss := senders[k.sender];
      ghost var s := abs;
      MirrorsActivate(cfg, s, entry, entries, priorityIndex, queuedCount, orderSeq, tierDistribution);

      priorityIndex := IndexSet(priorityIndex, entry);
      entries := entries[k := entry];
      ss.PutActive(entry, s);
      var name := TierName(cfg.tiers, entry.tier);
      if name != "" {
        tierDistribution := tierDistribution[name := tierDistribution[name] + 1];
      }
      abs := Activate(s, entry);
      NoncesPut(s.active, k, entry);
      SameElsewhereRefl(s.queued, k.sender);
      RecordsElsewhere(senders, s, abs, k.sender);
    }

    /** `removeEntryLocked`. */
    method RemoveEntryLocked(entry: Entry)
      requires Coherent() && entry.item.key in abs.active && abs.active[entry.item.key] == entry
      requires entry.item.key.sender in senders
      modifies this, senders[entry.item.key.sender]
      ensures Coherent() && abs == old(abs).(active := old(abs).active - {entry.item.key})
      ensures senders == old(senders) && appEvents == old(appEvents)
    {
      hide Mirrors, NoncesOf, SenderState.Shows, IndexRemove, SameElsewhere;
      var k := entry.item.key;
      ghost var s := abs;
      MirrorsDeactivate(cfg, s, k, entries, priorityIndex, queuedCount, orderSeq, tierDistribution);

      priorityIndex := IndexRemove(priorityIndex, entry);
      entries := entries - {k};
      senders[k.sender].DropActive(k.nonce, s, k.sender);
      var name := TierName(cfg.tiers, entry.tier);
      if name != "" {
        if name in tierDistribution && tierDistribution[name] > 0 {
          tierDistribution := tierDistribution[name := tierDistribution[name] - 1];
        }
      }
      abs := s.(active := s.active - {k});
      NoncesDrop(s.active, k);
      SameElsewhereRefl(s.queued, k.sender);
      RecordsElsewhere(senders, s, abs, k.sender);
    }

    /** `ss.queued[n] = entry`, counted and with the cached bounds updated. */
    method PutQueuedLocked(entry: Entry)
      requires Coherent() && entry.item.key.sender in senders
      requires entry.item.key !in abs.active && entry.item.key !in abs.queued
      modifies this, senders[entry.item.key.sender]
      ensures Coherent() && abs == old(abs).(queued := old(abs).queued[entry.item.key := entry])
      ensures senders == old(senders) && appEvents == old(appEvents)
    {
      hide Mirrors, NoncesOf, SenderState.Shows, SameElsewhere;
      var k := entry.item.key;
      ghost var s := abs;
      MirrorsPutQueued(cfg, s, entry, entries, priorityIndex, queuedCount, orderSeq, tierDistribution);

      senders[k.sender].PutQueued(entry, s);
      queuedCount := queuedCount + 1;
      abs := s.(queued := s.queued[k := entry]);
      NoncesPut(s.queued, k, entry);
      SameElsewhereRefl(s.active, k.sender);
      RecordsElsewhere(senders, s, abs, k.sender);
    }

    /** `ss.queued[n] = entry` over an entry of the same nonce. */
    method ReplaceQueuedLocked(entry: Entry)
      requires Coherent() && entry.item.key.sender in senders
      requires entry.item.key !in abs.active && entry.item.key in abs.queued
      modifies this, senders[entry.item.key.sender]
      ensures Coherent() && abs == old(abs).(queued := old(abs).queued[entry.item.key := entry])
      ensures senders == old(senders) && appEvents == old(appEvents)
    {
      hide Mirrors, NoncesOf, SenderState.Shows, SameElsewhere;
      var k := entry.item.key;
      ghost var s := abs;
      MirrorsPutQueued(cfg, s, entry, entries, priorityIndex, queuedCount, orderSeq, tierDistribution);

      senders[k.sender].ReplaceQueued(entry, s);
      abs := s.(queued := s.queued[k := entry]);
      NoncesPut(s.queued, k, entry);
      SameElsewhereRefl(s.active, k.sender);
      RecordsElsewhere(senders, s, abs, k.sender);
    }

    /** `delete(ss.queued, n)`, counted and with the cached bounds updated. */
    method DropQueuedLocked(k: Key)
      requires Coherent() && k.sender in senders && k in abs.queued
      modifies this, senders[k.sender]
      ensures Coherent() && abs == old(abs).(queued := old(abs).queued - {k})
      ensures senders == old(senders) && appEvents == old(appEvents)
    {
      hide Mirrors, NoncesOf, SenderState.Shows, SameElsewhere;
      ghost var s := abs;
      MirrorsDropQueued(cfg, s, k, entries, priorityIndex, queuedCount, orderSeq, tierDistribution);

      senders[k.sender].DropQueued(k.nonce, s, k.sender);
      queuedCount := queuedCount - 1;
      abs := s.(queued := s.queued - {k});
      NoncesDrop(s.queued, k);
      SameElsewhereRefl(s.active, k.sender);
      RecordsElsewhere(senders, s, abs, k.sender);
    }

    /** `ss.setOnChainSeqLocked`. */
    method SetOnChainSeqLocked(sender: string, seqNo: nat)
      requires Coherent() && sender in senders
      modifies this, senders[sender]
      ensures Coherent() && abs == SetSeq(old(abs), sender, seqNo)
      ensures senders == old(senders) && appEvents == old(appEvents)
    {
      hide Mirrors, NoncesOf, SameElsewhere, Projects, Bounds;
      ghost var s := abs;
      MirrorsRecord(cfg, s, sender, s.infos[sender].(seqNo := Max(s.infos[sender].seqNo, seqNo)), entries,
                    priorityIndex, queuedCount, orderSeq, tierDistribution);
      var ss := senders[sender];
      ss.SetOnChainSeq(seqNo);
      abs := SetSeq(s, sender, seqNo);
      assert ss.Shows(abs, sender);
      SameElsewhereRefl(s.active, sender);
      SameElsewhereRefl(s.queued, sender);
      hide SenderState.Shows;
      RecordsElsewhere(senders, s, abs, sender);
    }

    /** `ss.gapSince = t`. */
    method SetGapSinceLocked(sender: string, gapSince: Option<int>)
      requires Coherent() && sender in senders
      modifies this, senders[sender]
      ensures Coherent() && abs == SetGap(old(abs), sender, gapSince)
      ensures senders == old(senders) && appEvents == old(appEvents)
    {
      hide Mirrors, NoncesOf, SameElsewhere, Projects, Bounds;
      ghost var s := abs;
      MirrorsRecord(cfg, s, sender, s.infos[sender].(gapSince := gapSince), entries, priorityIndex,
                    queuedCount, orderSeq, tierDistribution);
      var ss := senders[sender];
      ss.gapSince := gapSince;
      abs := SetGap(s, sender, gapSince);
      assert ss.Shows(abs, sender);
      SameElsewhereRefl(s.active, sender);
      SameElsewhereRefl(s.queued, sender);
      hide SenderState.Shows;
      RecordsElsewhere(senders, s, abs, sender);
    }

    /** `cleanupSenderLocked`: forget a sender without entries. */
    method CleanupSenderLocked(sender: string)
      requires Coherent()
      modifies this
      ensures Coherent() && abs == Cleanup(old(abs), sender)
      ensures appEvents == old(appEvents)
      ensures senders == if IsEmpty(old(abs), sender) then old(senders) - {sender} else old(senders)
    {
      hide Mirrors, NoncesOf, SenderState.Shows, IsEmpty, Cleanup;
      ghost var s := abs;
      CleanupMirrors(cfg, s, sender, entries, priorityIndex, queuedCount, orderSeq, tierDistribution);
      CleanupKeeps(s, sender);
      if sender in senders {
        EmptyIsEmpty(senders[sender], s, sender);
        if senders[sender].Empty() {
          senders := senders - {sender};
          abs := Cleanup(abs, sender);
          CleanupShows(senders, s, sender);
        }
      } else {
        assert senders - {sender} == senders;
      }
    }

    // ---- queueing and demotion ----------------------------------------------------------------

    /** A sender's queue map holds the queued slots of that sender. */
    lemma PeekQueued(k: Key)
      requires Coherent() && k.sender in senders
      ensures var ss := senders[k.sender];
              && k.sender in abs.infos
              && ss.queued.Keys == NoncesOf(abs.queued, k.sender)
              && |ss.queued| == |NoncesOf(abs.queued, k.sender)|
              && (k.nonce in ss.queued <==> k in abs.queued)
              && (k in abs.queued ==> ss.queued[k.nonce] == abs.queued[k])
              && Bounds(ss.queued.Keys, ss.queuedMin, ss.queuedMax)
      ensures queuedCount == |abs.queued| && (k in abs.queued ==> k !in abs.active)
      ensures k in abs.queued ==> abs.queued[k].item.key == k
    {
      var ss := senders[k.sender];
      assert ss.Shows(abs, k.sender);
      assert k.nonce in ss.queued <==> Key(k.sender, k.nonce) in abs.queued;
      assert |ss.queued| == |ss.queued.Keys|;
    }

    lemma PeekNext(sender: string)
      requires Coherent() && sender in senders
      ensures sender in abs.infos && senders[sender].NextExpectedNonce() == Next(abs, sender)
    {
      assert senders[sender].Shows(abs, sender);
      hide Mirrors, SenderState.Shows;
      senders[sender].NextExpectedIsNext(abs, sender);
    }

    lemma PeekQueuedAt(k: Key)
      requires Coherent() && k.sender in senders
      ensures k.nonce in senders[k.sender].queued <==> k in abs.queued
      ensures k in abs.queued ==> senders[k.sender].queued[k.nonce] == abs.queued[k] && abs.queued[k].item.key == k
    {
      hide Coherent, NoncesOf;
      PeekQueued(k);
    }

    /** A sender's active map holds the active slots of that sender. */
    lemma PeekActive(k: Key)
      requires Coherent() && k.sender in senders
      ensures var ss := senders[k.sender];
              && k.sender in abs.infos
              && ss.active.Keys == NoncesOf(abs.active, k.sender)
              && |ss.active| == |NoncesOf(abs.active, k.sender)|
              && (k.nonce in ss.active <==> k in abs.active)
              && (k in abs.active ==> ss.active[k.nonce] == abs.active[k])
              && Bounds(ss.active.Keys, ss.activeMin, ss.activeMax)
      ensures entries == abs.active && (k in abs.active ==> k !in abs.queued)
      ensures k in abs.active ==> abs.active[k].item.key == k
    {
      var ss := senders[k.sender];
      assert ss.Shows(abs, k.sender);
      assert k.nonce in ss.active <==> Key(k.sender, k.nonce) in abs.active;
      assert |ss.active| == |ss.active.Keys|;
    }

    /** `insertQueuedLocked`. */
    method InsertQueuedLocked(ss: SenderState, entry: Entry) returns (error: Error, evicted: Option<Entry>)
      requires Coherent() && entry.item.key.sender in senders && ss == senders[entry.item.key.sender]
      requires entry.item.key !in abs.active
      modifies this, ss
      ensures Coherent() && Queueing(abs, error, evicted) == Enqueue(cfg, old(abs), entry)
      ensures senders == old(senders) && appEvents == old(appEvents)
    {
      hide Coherent, NoncesOf;
      var k := entry.item.key;
      PeekQueued(k);
      error, evicted := Ok, None;
      if k.nonce in ss.queued {
        var existing := ss.queued[k.nonce];
        if entry.item.priority <= existing.item.priority {
          error := LowerPriority;
          return;
        }
        ReplaceQueuedLocked(entry);
        evicted := Some(existing);
        return;
      }
      if cfg.maxQueuedPerSender > 0 && |ss.queued| >= cfg.maxQueuedPerSender {
        var high := ss.HighestQueued();
        if k.nonce >= high {
          error := MaxCapacity;
          return;
        }
        PeekQueued(Key(k.sender, high));
        evicted := Some(ss.queued[high]);
        DropQueuedLocked(Key(k.sender, high));
      } else if cfg.maxQueuedTotal > 0 && queuedCount >= cfg.maxQueuedTotal {
        error := MaxCapacity;
        return;
      }
      PutQueuedLocked(entry);
    }

    /** `collectPromotableLocked`. */
    method CollectPromotableLocked(sender: string, ss: SenderState) returns (es: seq<Entry>)
      requires Coherent() && sender in senders && ss == senders[sender]
      modifies this, ss
      ensures sender in old(abs).infos
      ensures es == Chain(old(abs).queued, sender, Next(old(abs), sender))
      ensures Coherent() && abs == old(abs).(queued := old(abs).queued - KeysOf(es))
      ensures senders == old(senders) && appEvents == old(appEvents)
    {
      hide Coherent, KeysOf, Chain, Next, Collected;
      ghost var s := abs;
      es := [];
      PeekNext(sender);
      var next: nat := ss.NextExpectedNonce();
      CollectedInit(s, sender);
      while next in ss.queued
        invariant Coherent() && senders == old(senders) && appEvents == old(appEvents)
        invariant Collected(s, abs, sender, es, next)
        decreases abs.queued.Keys
      {
        PeekQueuedAt(Key(sender, next));
        var e := ss.queued[next];
        DropShrinks(abs.queued, Key(sender, next));
        CollectedStep(s, abs, sender, es, next);
        DropQueuedLocked(Key(sender, next));
        es := es + [e];
        next := next + 1;
      }
      PeekQueuedAt(Key(sender, next));
      CollectedDone(s, abs, sender, es, next);
    }

    /** `requeueEntriesLocked`. */
    method RequeueEntriesLocked(sender: string, ss: SenderState, es: seq<Entry>)
      requires Coherent() && sender in senders && ss == senders[sender]
      requires forall i :: 0 <= i < |es| ==> es[i].item.key.sender == sender
      requires forall i, j :: 0 <= i < j < |es| ==> es[i].item.key != es[j].item.key
      requires forall i :: 0 <= i < |es| ==> es[i].item.key !in abs.active && es[i].item.key !in abs.queued
      modifies this, ss
      ensures Coherent() && abs == old(abs).(queued := Requeue(old(abs).queued, es))
      ensures senders == old(senders) && appEvents == old(appEvents)
    {
      hide Coherent, Requeue, KeysOf;
      ghost var s := abs;
      RequeueNone(s.queued);
      for i := 0 to |es|
        invariant Coherent() && senders == old(senders) && appEvents == old(appEvents)
        invariant abs == s.(queued := Requeue(s.queued, es[..i]))
      {
        RequeueOne(s.queued, es, i);
        PutQueuedLocked(es[i]);
      }
      assert es[..|es|] == es;
    }

    /** `demoteActiveRangeLocked`, from `start` on. */
    method DemoteActiveRangeLocked(sender: string, ss: SenderState, start: nat) returns (removed: seq<Entry>)
      requires Coherent() && sender in senders && ss == senders[sender]
      modifies this, ss
      ensures Coherent() && Outcome(abs, removed) == Demote(cfg, old(abs), sender, start)
      ensures senders == old(senders) && appEvents == old(appEvents)
    {
      hide Coherent, NoncesOf, Demoted, EnqueueAll, Run, CutFrom, Enqueue;
      ghost var s := abs;
      removed := [];
      PeekActive(Key(sender, start));
      if |ss.active| == 0 || start > ss.activeMax {
        DemoteNothing(cfg, s, sender, start, ss.active.Keys, ss.activeMin, ss.activeMax);
        return;
      }
      var end: nat := ss.activeMax;
      DemotedInit(cfg, s, sender, start);
      var n: nat := start;
      while n <= end
        invariant start <= n <= end + 1
        invariant Coherent() && senders == old(senders) && appEvents == old(appEvents)
        invariant Demoted(cfg, s, sender, start, n, abs, removed)
      {
        PeekActive(Key(sender, n));
        if n in ss.active {
          var entry := ss.active[n];
          DemotedStep(cfg, s, sender, start, n, abs, removed);
          RemoveEntryLocked(entry);
          entry := AsQueued(entry);
          var error, evicted := InsertQueuedLocked(ss, entry);
          ghost var before := removed;
          if evicted.Some? {
            removed := removed + [evicted.value];
          }
          if error != Ok {
            removed := removed + [entry];
          }
          DisplacedAppends(before, Queueing(abs, error, evicted), entry);
        } else {
          DemotedSkip(cfg, s, sender, start, n, abs, removed);
        }
        n := n + 1;
      }
      DemotedDone(cfg, s, sender, start, end, abs, removed);
    }

    // ---- removal ------------------------------------------------------------------------------

    /** `removeActiveStaleLocked`. */
    method RemoveActiveStaleLocked(sender: string, ss: SenderState, seqNo: nat) returns (removed: seq<Entry>)
      requires Coherent() && sender in senders && ss == senders[sender]
      modifies this, ss
      ensures Coherent() && abs == old(abs).(active := CutBelow(old(abs).active, sender, seqNo))
      ensures removed == Run(old(abs).active, sender, 0, seqNo)
      ensures senders == old(senders) && appEvents == old(appEvents)
    {
      hide Coherent, NoncesOf, Run, CutBelow, Bounds, Staled, SenderState.Shows, Inv;
      ghost var m := abs.active;
      removed := [];
      PeekActive(Key(sender, 0));
      if |ss.active| == 0 || seqNo == 0 || ss.activeMin >= seqNo {
        NothingBelow(m, sender, ss.active.Keys, ss.activeMin, ss.activeMax, seqNo);
        return;
      }
      var end: nat := Min(seqNo - 1, ss.activeMax);
      var n: nat := ss.activeMin;
      StaledInit(m, sender, ss.active.Keys, ss.activeMin, ss.activeMax);
      StaleRest(m, sender, ss.active.Keys, ss.activeMin, ss.activeMax, end + 1, seqNo);
      while n <= end
        invariant n <= end + 1
        invariant Coherent() && senders == old(senders) && appEvents == old(appEvents)
        invariant abs == old(abs).(active := abs.active) && Staled(m, sender, n, abs.active, removed)
      {
        PeekActive(Key(sender, n));
        StaledStep(m, sender, n, abs.active, removed);
        if n in ss.active {
          var entry := ss.active[n];
          RemoveEntryLocked(entry);
          removed := removed + [entry];
        }
        n := n + 1;
      }
      StaledElim(m, sender, n, abs.active, removed);
    }

    /** `removeQueuedStaleLocked`. */
    method RemoveQueuedStaleLocked(sender: string, ss: SenderState, seqNo: nat) returns (removed: seq<Entry>)
      requires Coherent() && sender in senders && ss == senders[sender]
      modifies this, ss
      ensures Coherent() && abs == old(abs).(queued := CutBelow(old(abs).queued, sender, seqNo))
      ensures removed == Run(old(abs).queued, sender, 0, seqNo)
      ensures senders == old(senders) && appEvents == old(appEvents)
    {
      hide Coherent, NoncesOf, Run, CutBelow, Bounds, Staled;
      ghost var m := abs.queued;
      removed := [];
      PeekQueued(Key(sender, 0));
      if |ss.queued| == 0 || seqNo == 0 || ss.queuedMin >= seqNo {
        NothingBelow(m, sender, ss.queued.Keys, ss.queuedMin, ss.queuedMax, seqNo);
        return;
      }
      var end: nat := Min(seqNo - 1, ss.queuedMax);
      var n: nat := ss.queuedMin;
      StaledInit(m, sender, ss.queued.Keys, ss.queuedMin, ss.queuedMax);
      StaleRest(m, sender, ss.queued.Keys, ss.queuedMin, ss.queuedMax, end + 1, seqNo);
      while n <= end
        invariant n <= end + 1
        invariant Coherent() && senders == old(senders) && appEvents == old(appEvents)
        invariant abs == old(abs).(queued := abs.queued) && Staled(m, sender, n, abs.queued, removed)
      {
        PeekQueued(Key(sender, n));
        StaledStep(m, sender, n, abs.queued, removed);
        if n in ss.queued {
          var entry := ss.queued[n];
          DropQueuedLocked(Key(sender, n));
          removed := removed + [entry];
        }
        n := n + 1;
      }
      StaledElim(m, sender, n, abs.queued, removed);
    }

    /** `removeStaleLocked`. */
    method RemoveStaleLocked(sender: string, ss: SenderState, seqNo: nat) returns (removed: seq<Entry>)
      requires Coherent() && sender in senders && ss == senders[sender]
      modifies this, ss
      ensures Coherent() && Outcome(abs, removed) == RemoveStale(old(abs), sender, seqNo)
      ensures senders == old(senders) && appEvents == old(appEvents)
    {
      hide Coherent, Run, CutBelow;
      removed := RemoveActiveStaleLocked(sender, ss, seqNo);
      var queued := RemoveQueuedStaleLocked(sender, ss, seqNo);
      removed := removed + queued;
    }

    /** `removeAllQueuedLocked`, in nonce order. */
    method RemoveAllQueuedLocked(sender: string, ss: SenderState) returns (removed: seq<Entry>)
      requires Coherent() && sender in senders && ss == senders[sender]
      modifies this, ss
      ensures Coherent() && abs == old(abs).(queued := CutFrom(old(abs).queued, sender, 0))
      ensures NoncesOf(old(abs).queued, sender) != {} ==>
                removed == Run(old(abs).queued, sender, 0, MaxOf(NoncesOf(old(abs).queued, sender)) + 1)
      ensures senders == old(senders) && appEvents == old(appEvents)
    {
      hide Coherent, NoncesOf, Run, CutBelow, CutFrom;
      PeekQueued(Key(sender, 0));
      CutAll(abs.queued, sender, ss.queued.Keys, ss.queuedMin, ss.queuedMax);
      removed := RemoveQueuedStaleLocked(sender, ss, ss.queuedMax + 1);
    }

    /** `removeNonceLocked`: active first, then queued. */
    method RemoveNonceLocked(sender: string, ss: SenderState, nonce: nat) returns (removed: seq<Entry>)
      requires Coherent() && sender in senders && ss == senders[sender]
      modifies this, ss
      ensures Coherent() && Outcome(abs, removed) == RemoveNonce(old(abs), Key(sender, nonce))
      ensures senders == old(senders) && appEvents == old(appEvents)
    {
      hide Coherent, NoncesOf;
      PeekActive(Key(sender, nonce));
      PeekQueuedAt(Key(sender, nonce));
      if nonce in ss.active {
        removed := [ss.active[nonce]];
        RemoveEntryLocked(removed[0]);
      } else if nonce in ss.queued {
        removed := [ss.queued[nonce]];
        DropQueuedLocked(Key(sender, nonce));
      } else {
        removed := [];
      }
    }

    /** The switch of `removeByReasonLocked`. */
    method RemoveCoreLocked(k: Key, ss: SenderState, reason: Reason) returns (removed: seq<Entry>)
      requires Coherent() && k.sender in senders && ss == senders[k.sender]
      modifies this, ss
      ensures Coherent() && Outcome(abs, removed) == RemoveCore(cfg, old(abs), k, reason)
      ensures senders == old(senders) && appEvents == old(appEvents)
    {
      hide Coherent, Demote, RemoveNonce;
      match reason {
        case CapacityEvicted =>
          removed := DemoteActiveRangeLocked(k.sender, ss, k.nonce);
        case AnteRejectedInPrepare =>
          removed := RemoveNonceLocked(k.sender, ss, k.nonce);
          var demoted := DemoteActiveRangeLocked(k.sender, ss, k.nonce + 1);
          removed := removed + demoted;
        case CommittedInBlock =>
          removed := RemoveNonceLocked(k.sender, ss, k.nonce);
      }
    }

    /** `removeByReasonLocked` for a registered sender. */
    method RemoveRegisteredLocked(k: Key, ss: SenderState, reason: Reason, onChain: Option<nat>)
      returns (removed: seq<Entry>)
      requires Coherent() && k.sender in senders && ss == senders[k.sender]
      modifies this, ss
      ensures k.sender in old(abs).infos
      ensures Coherent() && Outcome(abs, removed) == RemoveByReason(cfg, old(abs), k, reason, onChain)
      ensures Subsenders(senders, old(senders)) && appEvents == old(appEvents)
    {
      hide Coherent, RemoveCore, RemoveStale, SetSeq, Cleanup, IsEmpty;
      KeysAgree();
      removed := RemoveCoreLocked(k, ss, reason);
      if onChain.Some? {
        SetOnChainSeqLocked(k.sender, onChain.value);
        var stale := RemoveStaleLocked(k.sender, ss, onChain.value);
        removed := removed + stale;
      }
      CleanupSenderLocked(k.sender);
    }

    /** `removeByReasonLocked`. */
    method RemoveByReasonLocked(k: Key, reason: Reason, onChain: Option<nat>) returns (removed: seq<Entry>)
      requires Coherent()
      modifies this, senders.Values
      ensures Coherent() && Outcome(abs, removed) == RemoveByReason(cfg, old(abs), k, reason, onChain)
      ensures Subsenders(senders, old(senders)) && appEvents == old(appEvents)
    {
      hide Coherent, RemoveCore, RemoveStale, SetSeq, Cleanup, IsEmpty;
      KeysAgree();
      if k.sender !in senders {
        return [];
      }
      removed := RemoveRegisteredLocked(k, senders[k.sender], reason, onChain);
    }

    lemma KeysAgree()
      requires Coherent()
      ensures senders.Keys == abs.infos.Keys
    {
    }

    /** `removeEntriesByReasonLocked`. */
    method RemoveEntriesByReasonLocked(es: seq<Entry>, reason: Reason) returns (removed: seq<Entry>)
      requires Coherent()
      modifies this, senders.Values
      ensures Coherent() && Outcome(abs, removed) == RemoveEach(cfg, old(abs), es, reason)
      ensures Subsenders(senders, old(senders)) && appEvents == old(appEvents)
    {
      hide Coherent, RemoveEach, RemoveByReason;
      removed := [];
      RemoveEachNone(cfg, abs, reason);
      for i := 0 to |es|
        invariant Coherent() && appEvents == old(appEvents) && Subsenders(senders, old(senders))
        invariant Outcome(abs, removed) == RemoveEach(cfg, old(abs), es[..i], reason)
      {
        RemoveEachNext(cfg, old(abs), es, i, reason);
        EntriesAgree();
        if es[i].item.key in entries {
          var more := RemoveByReasonLocked(es[i].item.key, reason, None);
          removed := removed + more;
        }
      }
      assert es[..|es|] == es;
    }

    lemma EntriesAgree()
      requires Coherent()
      ensures entries == abs.active && orderSeq == abs.order && queuedCount == |abs.queued|
    {
      hide Records, Counts, Indexes;
    }

    // ---- admission ----------------------------------------------------------------------------

    /** `nextOrder`. */
    method NextOrderLocked() returns (order: int)
      requires Coherent()
      modifies this
      ensures Coherent() && abs == Tick(old(abs)) && order == abs.order
      ensures senders == old(senders) && appEvents == old(appEvents)
    {
      hide Mirrors, SenderState.Shows;
      ghost var s := abs;
      TickMirrors(cfg, s, entries, priorityIndex, queuedCount, orderSeq, tierDistribution);
      orderSeq := orderSeq + 1;
      abs := Tick(s);
      order := orderSeq;
      forall a | a in senders ensures senders[a].Shows(abs, a) {
        ShowsTick(senders[a], s, a);
      }
    }

    /** `selectTier`: the first tier whose matcher accepts the transaction, or the last one. */
    method SelectTier(ctx: Ctx, tx: Tx) returns (tier: int)
      ensures tier == TierFrom(cfg.tiers, 0, ctx, tx)
    {
      for i := 0 to |cfg.tiers|
        invariant TierFrom(cfg.tiers, 0, ctx, tx) == TierFrom(cfg.tiers, i, ctx, tx)
      {
        if cfg.tiers[i].matches(ctx, tx) {
          return i;
        }
      }
      tier := |cfg.tiers| - 1;
    }

    /** Gives an item the fields an entry gets when it tries to enter the active set. */
    method StampLocked(ss: SenderState, ctx: Ctx, item: Item) returns (entry: Entry)
      requires Coherent() && item.key.sender in senders && ss == senders[item.key.sender]
      modifies this
      ensures Coherent() && abs == Tick(old(abs)) && entry == Stamp(cfg, abs, ctx, item) && entry.item == item
      ensures senders == old(senders) && appEvents == old(appEvents)
    {
      hide Coherent, TierFrom, Clamp;
      var order := NextOrderLocked();
      var tier := SelectTier(ctx.(txBytes := item.bytes), item.tx);
      PeekRank(item.key, tier, item.priority, order);
      entry := Entry(item, order, tier, ss.ComputeClampedRank(tier, item.priority, order, item.key.nonce));
    }

    lemma PeekRank(k: Key, tier: int, priority: int, order: int)
      requires Coherent() && k.sender in senders
      ensures senders[k.sender].ComputeClampedRank(tier, priority, order, k.nonce)
           == Clamp(abs.active, k, Rank(Score(tier, priority), order))
    {
      assert senders[k.sender].Shows(abs, k.sender);
      hide Mirrors, SenderState.Shows, Clamp, SenderState.ComputeClampedRank;
      senders[k.sender].ComputeClampedIsClamp(abs, k.sender, tier, priority, order, k.nonce);
    }

    /** `canAcceptLocked`. */
    method CanAcceptLocked(block: Option<BlockLimits>, e: Entry, exclude: Option<Entry>)
      returns (ok: bool, evict: seq<Entry>)
      requires Coherent()
      ensures var walk := SlotWalk(cfg, priorityIndex, abs.active, e.clamped, exclude);
              ok == (Fits(block, e.item) && walk.Some?) && (ok ==> evict == walk.value)
      ensures var replacing := exclude.Some? && exclude.value.item.key in abs.active;
              (cfg.maxTx > 0 ==> |abs.active| <= cfg.maxTx) ==>
                && ok == !Admit(cfg, abs, block, e, replacing).Refused?
                && (ok ==> evict == Victims(Admit(cfg, abs, block, e, replacing)))
    {
      hide Coherent, Slot, SlotWalk, IsLast, HasLast, Indexes;
      IndexAgrees();
      SlotWalkIsSlot(cfg, abs, priorityIndex, e.clamped, exclude);
      if block.Some? {
        if block.value.maxBytes > 0 && e.item.size > block.value.maxBytes {
          return false, [];
        }
        if block.value.maxGas > 0 && e.item.gas > block.value.maxGas {
          return false, [];
        }
      }
      ok, evict := FindSlotLocked(e.clamped, exclude);
    }

    /** The capacity part of `canAcceptLocked`: walk the index backwards until enough slots are free. */
    method FindSlotLocked(rank: Rank, exclude: Option<Entry>) returns (ok: bool, evict: seq<Entry>)
      requires Coherent()
      ensures var walk := SlotWalk(cfg, priorityIndex, abs.active, rank, exclude);
              ok == walk.Some? && (ok ==> evict == walk.value)
    {
      hide Coherent, Outranks, Behind;
      EntriesAgree();
      evict := [];
      if cfg.maxTx > 0 {
        var targetLen := cfg.maxTx - 1;
        var curLen := |entries|;
        if exclude.Some? && exclude.value.item.key in entries {
          curLen := curLen - 1;
        }
        var own := if exclude.Some? then Some(exclude.value.item.key) else None;
        var node: nat := |priorityIndex|;
        ghost var walk := WalkBack(priorityIndex, own, rank, curLen - targetLen);
        assert priorityIndex[..node] == priorityIndex;
        BehindNothing(walk);
        while curLen > targetLen
          invariant node <= |priorityIndex|
          invariant walk == Behind(evict, WalkBack(priorityIndex[..node], own, rank, curLen - targetLen))
          decreases node
        {
          BehindEnd(evict);
          if node == 0 {
            return false, evict;
          }
          assert priorityIndex[..node][..node - 1] == priorityIndex[..node - 1];
          var entry := priorityIndex[node - 1];
          node := node - 1;
          if own == Some(entry.item.key) {
            continue;
          }
          if !Outranks(rank, entry.clamped) {
            return false, evict;
          }
          BehindOne(evict, entry, WalkBack(priorityIndex[..node], own, rank, curLen - 1 - targetLen));
          evict := evict + [entry];
          curLen := curLen - 1;
        }
        BehindEnd(evict);
      }
      ok := true;
    }

    lemma IndexAgrees()
      requires Coherent()
      ensures Indexes(priorityIndex, abs.active)
      ensures priorityIndex == [] ==> |abs.active| == 0
      ensures priorityIndex != [] ==> HasLast(abs.active) && Last(abs.active) == priorityIndex[|priorityIndex| - 1]
    {
      hide Records, Counts, Indexes, IsLast, HasLast;
      assert WellKeyed(abs.active);
      IndexLast(priorityIndex, abs.active);
    }

    // ---- promotion ----------------------------------------------------------------------------

    /** Makes room as decided and adds the entry. */
    method EnterLocked(e: Entry, ss: SenderState, evict: seq<Entry>, ghost adm: Admission) returns (removed: seq<Entry>)
      requires Coherent() && e.item.key.sender in senders && ss == senders[e.item.key.sender]
      requires evict == Victims(adm) && (adm.Evict? ==> adm.victim.item.key in abs.active)
      requires 0 <= e.tier < |cfg.tiers| && HasSlot(MakeRoom(cfg, abs, adm).state, e.item.key)
      modifies this, senders.Values
      ensures Coherent() && abs == Activate(MakeRoom(cfg, old(abs), adm).state, e)
      ensures removed == MakeRoom(cfg, old(abs), adm).removed
      ensures Subsenders(senders, old(senders)) && appEvents == old(appEvents)
      ensures e.item.key.sender in senders && senders[e.item.key.sender] == ss
    {
      hide Coherent, MakeRoom, RemoveEach;
      MakeRoomIsRemoveEach(cfg, abs, adm);
      removed := RemoveEntriesByReasonLocked(evict, CapacityEvicted);
      KeysAgree();
      AddEntryLocked(e);
    }

    /** One turn of the promotion loop: stamp, ask for admission, and enter if admitted. */
    method TryPromoteLocked(sender: string, ss: SenderState, ctx: Ctx, ghost es: seq<Entry>, item: Item)
      returns (accepted: bool, entry: Entry, removed: seq<Entry>)
      requires Coherent() && Inv(cfg, abs) && sender in senders && ss == senders[sender]
      requires InHand(cfg, abs, sender, es) && es != [] && item == es[0].item
      modifies this, senders.Values
      ensures Coherent() && entry == Stamp(cfg, Tick(old(abs)), ctx, item)
      ensures var s := Tick(old(abs));
              var adm := Admit(cfg, s, ctx.block, entry, false);
              && accepted == !adm.Refused?
              && Outcome(abs, removed) == if accepted
                   then Outcome(Activate(MakeRoom(cfg, s, adm).state, entry), MakeRoom(cfg, s, adm).removed)
                   else Outcome(s, [])
      ensures Subsenders(senders, old(senders)) && appEvents == old(appEvents)
      ensures sender in senders && senders[sender] == ss
    {
      hide Coherent, Inv, Stamp, Admit, MakeRoom, HasSlot, InHand;
      PromoteReady(cfg, abs, ctx, sender, es);
      entry := StampLocked(ss, ctx, item);
      var evict;
      accepted, evict := CanAcceptLocked(ctx.block, entry, None);
      removed := [];
      if accepted {
        removed := EnterLocked(entry, ss, evict, Admit(cfg, abs, ctx.block, entry, false));
      }
    }

    /** The promotion loop over the collected entries. */
    method PromoteAllLocked(sender: string, ss: SenderState, ctx: Ctx, es: seq<Entry>)
      returns (promoted: seq<Entry>, removed: seq<Entry>)
      requires Coherent() && Inv(cfg, abs) && InHand(cfg, abs, sender, es)
      requires sender in senders && ss == senders[sender]
      modifies this, senders.Values
      ensures Coherent() && Promotion(abs, promoted, removed) == PromoteAll(cfg, old(abs), ctx, es)
      ensures Subsenders(senders, old(senders)) && appEvents == old(appEvents)
      ensures sender in senders && senders[sender] == ss
    {
      hide Coherent, Inv, InHand, Stamp, Admit, MakeRoom, PromoteAll, Promoting, Consecutive, Requeue;
      ghost var s := abs;
      promoted, removed := [], [];
      PromotingInit(cfg, s, ctx, es);
      var i: nat := 0;
      while i < |es|
        invariant i <= |es|
        invariant Coherent() && Inv(cfg, abs) && InHand(cfg, abs, sender, es[i..])
        invariant Promoting(cfg, s, ctx, es, abs, es[i..], promoted, removed)
        invariant Subsenders(senders, old(senders)) && appEvents == old(appEvents)
        invariant sender in senders && senders[sender] == ss
      {
        ghost var rest := es[i..];
        PromotingStep(cfg, s, ctx, es, abs, rest, promoted, removed);
        PromotingStop(cfg, s, ctx, es, abs, rest, promoted, removed, sender);
        PromotedInv(cfg, abs, ctx, sender, rest);
        assert rest[1..] == es[i + 1..];
        var accepted, entry, evicted := TryPromoteLocked(sender, ss, ctx, rest, es[i].item);
        if !accepted {
          ConsecutiveDistinct([entry] + es[i + 1..], sender, entry.item.key.nonce);
          RequeueEntriesLocked(sender, ss, [entry] + es[i + 1..]);
          return;
        }
        removed := removed + evicted;
        promoted := promoted + [entry];
        i := i + 1;
      }
      PromotingDone(cfg, s, ctx, es, abs, es[i..], promoted, removed);
    }

    /** `collectPromotableLocked` and the promotion loop that follows it. */
    method PromoteLocked(sender: string, ss: SenderState, ctx: Ctx) returns (promoted: seq<Entry>, removed: seq<Entry>)
      requires Coherent() && Inv(cfg, abs) && sender in senders && ss == senders[sender]
      modifies this, senders.Values
      ensures Coherent() && Promotion(abs, promoted, removed) == Promote(cfg, old(abs), ctx, sender)
      ensures Subsenders(senders, old(senders)) && appEvents == old(appEvents)
      ensures sender in senders && senders[sender] == ss
    {
      hide Coherent, Inv, Chain, Next, KeysOf, InHand, PromoteAll;
      KeysAgree();
      CollectInHand(cfg, abs, sender);
      var es := CollectPromotableLocked(sender, ss);
      promoted, removed := PromoteAllLocked(sender, ss, ctx, es);
    }

    // ---- insertion ----------------------------------------------------------------------------

    /** `enqueueEvent`, as far as the app channel is concerned. */
    method EnqueueEvent(kind: EventType, tx: Bytes)
      requires Coherent()
      modifies this`appEvents
      ensures Coherent() && appEvents == old(appEvents) + [Event(kind, tx)]
    {
      hide Mirrors, SenderState.Shows;
      appEvents := appEvents + [Event(kind, tx)];
    }

    /** `enqueueRemovedEvents`, and the like for other kinds of events. */
    method EnqueueEvents(kind: EventType, es: seq<Entry>)
      requires Coherent()
      modifies this`appEvents
      ensures Coherent() && appEvents == old(appEvents) + EventsOf(kind, es)
    {
      hide Coherent, EventsOf;
      EventsNone(kind);
      assert appEvents == appEvents + [];
      for i := 0 to |es|
        invariant Coherent() && appEvents == old(appEvents) + EventsOf(kind, es[..i])
      {
        EventsNext(kind, es, i);
        assert old(appEvents) + (EventsOf(kind, es[..i]) + [Event(kind, es[i].item.bytes)])
            == old(appEvents) + EventsOf(kind, es[..i]) + [Event(kind, es[i].item.bytes)];
        EnqueueEvent(kind, es[i].item.bytes);
      }
      assert es[..|es|] == es;
    }

    /** The future-nonce branch of `Insert`. */
    method InsertFutureLocked(ss: SenderState, item: Item) returns (error: Error)
      requires Coherent() && item.key.sender in senders && ss == senders[item.key.sender]
      requires item.key !in abs.active
      modifies this, ss
      ensures var r := InsertQueued(cfg, old(abs), item);
              Coherent() && abs == r.state && error == r.error && appEvents == old(appEvents) + r.events
      ensures senders == old(senders)
    {
      hide Coherent, Enqueue, EventsOf;
      assert appEvents == appEvents + [];
      if !item.tx.queuedExt {
        return MissingQueuedExtension;
      }
      var evicted;
      error, evicted := InsertQueuedLocked(ss, Entry(item, 0, QUEUED_TIER, Rank(0, 0)));
      EnqueueFailsCleanly(cfg, old(abs), Entry(item, 0, QUEUED_TIER, Rank(0, 0)));
      if error != Ok {
        return;
      }
      var out := if evicted.Some? then [evicted.value] else [];
      EnqueueEvents(TxRemoved, out);
      EnqueueEvent(TxQueued, item.bytes);
      assert old(appEvents) + EventsOf(TxRemoved, out) + [Event(TxQueued, item.bytes)]
          == old(appEvents) + (EventsOf(TxRemoved, out) + [Event(TxQueued, item.bytes)]);
    }

    /** Drops the queued entry in a slot, if any. */
    method VacateQueuedLocked(k: Key, ss: SenderState) returns (removed: seq<Entry>)
      requires Coherent() && k.sender in senders && ss == senders[k.sender]
      modifies this, ss
      ensures Coherent() && abs == old(abs).(queued := old(abs).queued - {k})
      ensures removed == if k in old(abs).queued then [old(abs).queued[k]] else []
      ensures senders == old(senders) && appEvents == old(appEvents)
    {
      hide Coherent;
      PeekQueuedAt(k);
      if k.nonce !in ss.queued {
        MinusAbsent(abs.queued, k);
        return [];
      }
      removed := [ss.queued[k.nonce]];
      DropQueuedLocked(k);
    }

    /** Drops the active entry in a slot, if any. */
    method VacateActiveLocked(k: Key, ss: SenderState) returns (removed: seq<Entry>)
      requires Coherent() && k.sender in senders && ss == senders[k.sender]
      modifies this, ss
      ensures Coherent() && abs == old(abs).(active := old(abs).active - {k})
      ensures removed == if k in old(abs).active then [old(abs).active[k]] else []
      ensures senders == old(senders) && appEvents == old(appEvents)
    {
      hide Coherent, NoncesOf, Bounds;
      PeekActive(k);
      if k !in entries {
        MinusAbsent(abs.active, k);
        return [];
      }
      removed := [entries[k]];
      RemoveEntryLocked(entries[k]);
    }

    /** The active branch of `Insert`. */
    method InsertActiveLocked(ss: SenderState, ctx: Ctx, item: Item) returns (error: Error)
      requires Coherent() && Inv(cfg, abs) && item.key.sender in senders && ss == senders[item.key.sender]
      requires item.key in abs.active || AtNext(abs, item.key)
      requires SafeReplacement(cfg, abs, ctx, item)
      modifies this, senders.Values
      ensures item.key.sender in old(abs).infos
      ensures var r := InsertActive(cfg, old(abs), ctx, item);
              Coherent() && abs == r.state && error == r.error && appEvents == old(appEvents) + r.events
      ensures Subsenders(senders, old(senders))
    {
      hide Coherent, Inv, Stamp, Admit, MakeRoom, Promote, EventsOf, Clamp, HasSlot, SafeReplacement, AtNext;
      KeysAgree();
      ghost var s := abs;
      var k := item.key;
      ActiveBound(cfg, s);
      assert appEvents == appEvents + [];
      var entry := StampLocked(ss, ctx, item);
      EntriesAgree();
      PeekQueuedAt(k);
      PeekActive(k);
      if k in entries && entry.item.priority <= entries[k].item.priority {
        return LowerPriority;
      }
      if k.nonce in ss.queued && k !in entries && entry.item.priority <= ss.queued[k.nonce].item.priority {
        return LowerPriority;
      }
      InsertReady(cfg, s, ctx, item);
      var ok, evict := CanAcceptLocked(ctx.block, entry, if k in entries then Some(entries[k]) else None);
      if !ok {
        return MaxCapacity;
      }
      FinishInsertLocked(ss, ctx, entry, evict, s);
      error := Ok;
    }

    /** The accepted part of the active branch: free the slot, make room, add, promote what follows, emit events. */
    method FinishInsertLocked(ss: SenderState, ctx: Ctx, entry: Entry, evict: seq<Entry>, ghost s: State)
      requires Coherent() && entry.item.key.sender in senders && ss == senders[entry.item.key.sender]
      requires abs == Tick(s) && entry == Stamp(cfg, abs, ctx, entry.item)
      requires var adm := Admit(cfg, abs, ctx.block, entry, entry.item.key in s.active);
               evict == Victims(adm) && Insertable(cfg, abs, entry, adm)
      modifies this, senders.Values
      ensures var adm := Admit(cfg, old(abs), ctx.block, entry, entry.item.key in s.active);
              Coherent() && Inserted(cfg, old(abs), ctx, entry, adm, abs, appEvents, old(appEvents))
      ensures Subsenders(senders, old(senders))
    {
      hide Coherent, Inv, Stamp, Admit, MakeRoom, Promote, EventsOf, HasSlot, Occupants;
      var k := entry.item.key;
      ghost var adm := Admit(cfg, abs, ctx.block, entry, k in s.active);
      var queued := VacateQueuedLocked(k, ss);
      var active := VacateActiveLocked(k, ss);
      var evicted := EnterLocked(entry, ss, evict, adm);
      var promoted, dropped := PromoteLocked(k.sender, ss, ctx);
      AnnounceInsert(queued + active + evicted + dropped, entry, promoted);
      OccupantsAre(old(abs), k);
    }

    /** The events of an accepted active insert: what left, the entry itself, what was promoted. */
    method AnnounceInsert(removed: seq<Entry>, entry: Entry, promoted: seq<Entry>)
      requires Coherent()
      modifies this`appEvents
      ensures Coherent()
      ensures appEvents == old(appEvents) +
        (EventsOf(TxRemoved, removed) + [Event(TxInserted, entry.item.bytes)] + EventsOf(TxInserted, promoted))
    {
      hide EventsOf, Coherent;
      EnqueueEvents(TxRemoved, removed);
      EnqueueEvent(TxInserted, entry.item.bytes);
      EnqueueEvents(TxInserted, promoted);
    }

    /** The locked part of `Insert`: refuse, queue or activate. */
    method InsertItemLocked(ss: SenderState, ctx: Ctx, item: Item) returns (error: Error)
      requires Coherent() && Inv(cfg, abs) && item.key.sender in senders && ss == senders[item.key.sender]
      requires SafeReplacement(cfg, abs, ctx, item)
      modifies this, senders.Values
      ensures item.key.sender in old(abs).infos
      ensures var r := InsertItem(cfg, old(abs), ctx, item);
              Coherent() && abs == r.state && error == r.error && appEvents == old(appEvents) + r.events
      ensures Subsenders(senders, old(senders))
    {
      hide Coherent, Inv, Next, SafeReplacement, InsertQueued, InsertActive;
      var k := item.key;
      PeekNext(k.sender);
      PeekQueuedAt(k);
      PeekActive(k);
      var next := ss.NextExpectedNonce();
      if k.nonce < next {
        BelowNext(cfg, abs, k);
        if k !in entries && k.nonce !in ss.queued {
          assert appEvents == appEvents + [];
          return StaleSequence;
        }
      }
      if k.nonce > next {
        FutureQueueable(cfg, abs, k);
        error := InsertFutureLocked(ss, item);
      } else {
        error := InsertActiveLocked(ss, ctx, item);
      }
    }

    /** Creates the record of a sender at its on-chain sequence. */
    method RegisterSenderLocked(sender: string, seqNo: nat)
      requires Coherent() && sender !in senders
      modifies this
      ensures Coherent() && abs == Register(old(abs), sender, seqNo) && appEvents == old(appEvents)
      ensures sender in senders && senders.Keys == old(senders.Keys) + {sender}
      ensures fresh(senders.Values - old(senders.Values))
    {
      hide Coherent, SetSeq;
      KeysAgree();
      RegisterIsSetSeq(abs, sender, seqNo);
      var _ := GetOrCreateSenderLocked(sender);
      SetOnChainSeqLocked(sender, seqNo);
    }

    /** `Insert`; `fetched` is what the account keeper answers for a sender that is not registered. */
    method Insert(ctx: Ctx, tx: Tx, fetched: Option<nat>) returns (error: Error)
      requires Valid() && SafeInsert(cfg, abs, ctx, tx)
      modifies this, senders.Values
      ensures var r := MempoolState.Insert(cfg, old(abs), ctx, tx, fetched);
              abs == r.state && error == r.error && appEvents == old(appEvents) + r.events
      ensures Valid() && fresh(senders.Values - old(senders.Values))
    {
      hide Coherent, Inv, InsertItem, SafeReplacement, SetSeq;
      KeysAgree();
      InsertInv(cfg, abs, ctx, tx, fetched);
      assert appEvents == appEvents + [];
      if tx.signer.None? {
        return NoSigner;
      }
      var bz := ctx.txBytes;
      if |bz| == 0 {
        if tx.encoding.None? {
          return EncodeFailed;
        }
        bz := tx.encoding.value;
      }
      if tx.gasLimit.None? {
        return NotFeeTx;
      }
      var k := tx.signer.value;
      var item := Item(tx, k, ctx.priority, |bz|, tx.gasLimit.value, bz);
      if k.sender !in senders {
        if fetched.None? {
          return SequenceUnavailable;
        }
        RegisterInv(cfg, abs, k.sender, fetched.value);
        RegisterSenderLocked(k.sender, fetched.value);
      }
      SameActiveSafe(cfg, old(abs), abs, ctx.(txBytes := bz), item);
      error := InsertItemLocked(senders[k.sender], ctx.(txBytes := bz), item);
    }

    /** `RemoveWithReason`. */
    method RemoveWithReason(tx: Tx, reason: Reason) returns (error: Error)
      requires Valid()
      modifies this, senders.Values
      ensures var r := Remove(cfg, old(abs), tx, reason);
              abs == r.state && error == r.error && appEvents == old(appEvents) + r.events
      ensures Valid() && fresh(senders.Values - old(senders.Values))
    {
      hide Coherent, Inv, RemoveByReason, EventsOf;
      RemoveInv(cfg, abs, tx, reason);
      EventsNone(TxRemoved);
      assert appEvents == appEvents + [];
      if tx.signer.None? {
        return NoSigner;
      }
      var k := tx.signer.value;
      var removed := RemoveByReasonLocked(k, reason, if reason == CommittedInBlock then Some(k.nonce + 1) else None);
      if |removed| > 0 {
        EnqueueEvents(TxRemoved, removed);
        return Ok;
      }
      return TxNotFound;
    }

    /** One sender's turn in `PromoteQueued`. */
    method PromoteSenderLocked(ctx: Ctx, sender: string, seqNo: nat) returns (promoted: seq<Entry>, removed: seq<Entry>)
      requires Coherent() && Inv(cfg, abs)
      modifies this, senders.Values
      ensures Coherent() && Promotion(abs, promoted, removed) == PromoteSender(cfg, old(abs), ctx, sender, seqNo)
      ensures Subsenders(senders, old(senders)) && appEvents == old(appEvents)
    {
      hide Coherent, Inv, SetSeq, RemoveStale, Promote, Cleanup, IsEmpty;
      KeysAgree();
      if sender !in senders {
        return [], [];
      }
      var ss := senders[sender];
      StaleInv(cfg, abs, sender, seqNo);
      SetOnChainSeqLocked(sender, seqNo);
      var stale := RemoveStaleLocked(sender, ss, seqNo);
      promoted, removed := PromoteLocked(sender, ss, ctx);
      removed := stale + removed;
      NotDrained(sender);
      if |ss.queued| == 0 && (seqNo >= ss.NextExpectedNonce() || |ss.active| == 0) {
        CleanupSenderLocked(sender);
      }
    }

    /** The last loop of `PromoteQueued`: senders that had nothing queued. */
    method CleanupSendersLocked(names: seq<string>)
      requires Coherent()
      modifies this
      ensures Coherent() && abs == CleanupAll(old(abs), names)
      ensures Subsenders(senders, old(senders)) && appEvents == old(appEvents)
    {
      hide Coherent, Cleanup, IsEmpty;
      for i := 0 to |names|
        invariant Coherent() && abs == CleanupAll(old(abs), names[..i])
        invariant Subsenders(senders, old(senders)) && appEvents == old(appEvents)
      {
        assert names[..i + 1][..i] == names[..i];
        Unregistered(names[i]);
        if names[i] in senders {
          NotDrained(names[i]);
          if |senders[names[i]].active| == 0 {
            CleanupSenderLocked(names[i]);
          }
        }
      }
      assert names[..|names|] == names;
    }

    lemma Unregistered(sender: string)
      requires Coherent()
      ensures sender !in senders ==> Cleanup(abs, sender) == abs
    {
      KeysAgree();
      CleanupMirrors(cfg, abs, sender, entries, priorityIndex, queuedCount, orderSeq, tierDistribution);
      hide Mirrors, IsEmpty;
    }

    /** Cleaning up changes nothing while the sender has entries. */
    lemma NotDrained(sender: string)
      requires Coherent() && sender in senders
      ensures !senders[sender].Empty() ==> Cleanup(abs, sender) == abs
    {
      assert senders[sender].Shows(abs, sender);
      hide Mirrors, SenderState.Shows, IsEmpty;
      EmptyIsEmpty(senders[sender], abs, sender);
    }

    /** The writing section of `PromoteQueued`: the sequences read for senders with queued entries, then the senders
        that had none. */
    method PromoteQueued(ctx: Ctx, seqs: seq<(string, nat)>, activeOnly: seq<string>)
      requires Valid()
      modifies this, senders.Values
      ensures var r := MempoolState.PromoteQueued(cfg, old(abs), ctx, seqs, activeOnly);
              abs == r.state && appEvents == old(appEvents) + r.events
      ensures Valid() && fresh(senders.Values - old(senders.Values))
    {
      hide Coherent, Inv, PromoteSender, Cleanup, EventsOf, IsEmpty;
      PromoteQueuedInv(cfg, abs, ctx, seqs, activeOnly);
      var promoted, removed := [], [];
      for i := 0 to |seqs|
        invariant Coherent() && Promotion(abs, promoted, removed) == PromoteSenders(cfg, old(abs), ctx, seqs[..i])
        invariant Subsenders(senders, old(senders)) && appEvents == old(appEvents)
      {
        PromoteSendersInv(cfg, old(abs), ctx, seqs[..i]);
        assert seqs[..i + 1][..i] == seqs[..i];
        var p, r := PromoteSenderLocked(ctx, seqs[i].0, seqs[i].1);
        promoted, removed := promoted + p, removed + r;
      }
      assert seqs[..|seqs|] == seqs;
      CleanupSendersLocked(activeOnly);
      EnqueueEvents(TxRemoved, removed);
      EnqueueEvents(TxInserted, promoted);
      assert old(appEvents) + EventsOf(TxRemoved, removed) + EventsOf(TxInserted, promoted)
          == old(appEvents) + (EventsOf(TxRemoved, removed) + EventsOf(TxInserted, promoted));
    }

    // ---- cleanup ------------------------------------------------------------------------------

    /** The record's own test for a blocked queue is `HasGap`. */
    lemma PeekGap(sender: string)
      requires Coherent() && sender in senders
      ensures sender in abs.infos && senders[sender].gapSince == abs.infos[sender].gapSince
      ensures var ss := senders[sender];
              HasGap(abs, sender) <==> |ss.active| == 0 && |ss.queued| > 0 && ss.queuedMin > ss.onChainSeq
    {
      var ss := senders[sender];
      assert ss.Shows(abs, sender);
      PeekQueued(Key(sender, 0));
      PeekActive(Key(sender, 0));
    }

    /** `expireQueuedGapLocked`. */
    method ExpireQueuedGapLocked(sender: string, ss: SenderState, now: int) returns (removed: seq<Entry>)
      requires Coherent() && sender in senders && ss == senders[sender]
      modifies this, ss
      ensures sender in old(abs).infos
      ensures Coherent() && Outcome(abs, removed) == Expire(cfg, old(abs), sender, now)
      ensures senders == old(senders) && appEvents == old(appEvents)
    {
      hide Coherent, HasGap, Run, CutFrom, NoncesOf, MaxOf, SenderState.Shows;
      PeekGap(sender);
      PeekQueued(Key(sender, 0));
      if |ss.active| == 0 && |ss.queued| > 0 && ss.queuedMin > ss.onChainSeq {
        if ss.gapSince.None? {
          SetGapSinceLocked(sender, Some(now));
          return [];
        }
        if now - ss.gapSince.value >= cfg.queuedGapTTL {
          SetGapSinceLocked(sender, None);
          removed := RemoveAllQueuedLocked(sender, ss);
          return;
        }
        return [];
      }
      SetGapSinceLocked(sender, None);
      return [];
    }

    /** One sender's turn in the second locked phase of `cleanUpEntries`. */
    method CleanSenderLocked(sender: string, seqNo: nat, now: int) returns (ghost removed: seq<Entry>)
      requires Coherent()
      modifies this, senders.Values
      ensures Coherent() && Outcome(abs, removed) == CleanSender(cfg, old(abs), sender, seqNo, now)
      ensures appEvents == old(appEvents) + EventsOf(TxRemoved, removed)
      ensures Subsenders(senders, old(senders))
    {
      hide Coherent, SetSeq, RemoveStale, Expire, Cleanup, IsEmpty, EventsOf;
      KeysAgree();
      EventsNone(TxRemoved);
      if sender !in senders {
        return [];
      }
      var ss := senders[sender];
      SetOnChainSeqLocked(sender, seqNo);
      var stale := RemoveStaleLocked(sender, ss, seqNo);
      EnqueueEvents(TxRemoved, stale);
      KeysAgree();
      var expired := ExpireQueuedGapLocked(sender, ss, now);
      EnqueueEvents(TxRemoved, expired);
      EventsJoin(TxRemoved, stale, expired);
      removed := stale + expired;
      CleanupSenderLocked(sender);
    }

    /** The second locked phase of `cleanUpEntries`: the sequences read for the senders that had entries. */
    method CleanUp(seqs: seq<(string, nat)>, now: int)
      requires Valid()
      modifies this, senders.Values
      ensures var r := Clean(cfg, old(abs), seqs, now);
              abs == r.state && appEvents == old(appEvents) + r.events
      ensures Valid() && fresh(senders.Values - old(senders.Values))
    {
      hide Coherent, Inv, CleanSender, EventsOf;
      CleanSendersInv(cfg, abs, seqs, now);
      EventsNone(TxRemoved);
      assert appEvents == appEvents + [];
      ghost var removed: seq<Entry> := [];
      for i := 0 to |seqs|
        invariant Coherent() && Outcome(abs, removed) == CleanSenders(cfg, old(abs), seqs[..i], now)
        invariant appEvents == old(appEvents) + EventsOf(TxRemoved, removed)
        invariant Subsenders(senders, old(senders))
      {
        assert seqs[..i + 1][..i] == seqs[..i];
        ghost var r := CleanSenderLocked(seqs[i].0, seqs[i].1, now);
        EventsJoin(TxRemoved, removed, r);
        assert old(appEvents) + EventsOf(TxRemoved, removed) + EventsOf(TxRemoved, r)
            == old(appEvents) + (EventsOf(TxRemoved, removed) + EventsOf(TxRemoved, r));
        removed := removed + r;
      }
      assert seqs[..|seqs|] == seqs;
    }

    /** The first locked phase of `cleanUpEntries`: forget the senders without entries. */
    method SweepSenders()
      requires Valid()
      modifies this
      ensures abs == Sweep(old(abs)) && appEvents == old(appEvents)
      ensures Valid() && senders.Values <= old(senders.Values)
    {
      hide Coherent, Inv, IsEmpty, Swept, Cleanup;
      KeysAgree();
      SweepInv(cfg, abs);
      var todo := senders.Keys;
      SweptNone(abs);
      while todo != {}
        invariant Coherent() && todo <= old(senders).Keys && Swept(old(abs), todo, abs)
        invariant Subsenders(senders, old(senders)) && appEvents == old(appEvents)
        decreases todo
      {
        var sender :| sender in todo;
        SweptStep(old(abs), todo, abs, sender);
        CleanupSenderLocked(sender);
        todo := todo - {sender};
      }
      SweptAll(old(abs), abs);
    }

    // ---- queries ------------------------------------------------------------------------------

    /** `Contains`. */
    method Contains(tx: Tx) returns (found: bool)
      requires Coherent()
      ensures found <==> tx.signer.Some? && (tx.signer.value in abs.active || tx.signer.value in abs.queued)
    {
      hide Coherent, NoncesOf;
      if tx.signer.None? {
        return false;
      }
      var k := tx.signer.value;
      EntriesAgree();
      if k in entries {
        return true;
      }
      if k.sender in senders {
        PeekQueuedAt(k);
        return k.nonce in senders[k.sender].queued;
      }
      UnknownSender(k);
      return false;
    }

    lemma UnknownSender(k: Key)
      requires Coherent() && k.sender !in senders
      ensures k !in abs.active && k !in abs.queued
    {
    }

    /** `Lookup`, returning the bytes that the source hashes. */
    method Lookup(sender: string, nonce: nat) returns (bytes: Option<Bytes>)
      requires Coherent()
      ensures var k := Key(sender, nonce);
              bytes == if k in abs.active then Some(abs.active[k].item.bytes)
                       else if k in abs.queued then Some(abs.queued[k].item.bytes) else None
    {
      hide Coherent, NoncesOf;
      var k := Key(sender, nonce);
      EntriesAgree();
      if k in entries {
        return Some(entries[k].item.bytes);
      }
      if sender in senders {
        PeekQueuedAt(k);
        if nonce in senders[sender].queued {
          return Some(senders[sender].queued[nonce].item.bytes);
        }
        return None;
      }
      UnknownSender(k);
      return None;
    }

    /** `CountTx`. */
    method CountTx() returns (n: int)
      requires Coherent()
      ensures n == |abs.active| + |abs.queued|
    {
      hide Coherent;
      EntriesAgree();
      n := |entries| + queuedCount;
    }

    /** `GetTxDistribution`: active entries by tier name, and the queue under its own name when it is not empty, even if
        a tier has that name too. */
    method GetTxDistribution() returns (out: map<string, nat>)
      requires Coherent()
      ensures forall i :: 0 <= i < |cfg.tiers| ==> cfg.tiers[i].name in out
      ensures |abs.queued| > 0 ==> "queued" in out
      ensures forall name {:trigger name in out} :: name in out ==>
                out[name] == if name == "queued" && |abs.queued| > 0 then |abs.queued|
                             else |ActiveIn(cfg.tiers, abs.active, name)|
    {
      hide Records, Indexes, ActiveIn;
      out := tierDistribution;
      if queuedCount > 0 {
        out := out["queued" := queuedCount];
      }
    }

    /** `Select`: the iterator's snapshot of the index. */
    method Select() returns (out: seq<TxInfo>)
      requires Coherent()
      ensures Indexes(priorityIndex, abs.active)
      ensures |out| == |priorityIndex|
      ensures forall i :: 0 <= i < |out| ==> out[i] == InfoOf(cfg, priorityIndex[i])
    {
      hide Coherent, Indexes;
      IndexAgrees();
      out := [];
      for i := 0 to |priorityIndex|
        invariant |out| == i && (forall j :: 0 <= j < i ==> out[j] == InfoOf(cfg, priorityIndex[j]))
      {
        var e := priorityIndex[i];
        out := out + [TxInfo(e.item.tx, e.item.key.sender, e.item.key.nonce, e.item.size, e.item.gas, e.item.bytes,
                             TierName(cfg.tiers, e.tier))];
      }
    }
  }

  /** A `TxInfoEntry`. */
  datatype TxInfo = TxInfo(tx: Tx, sender: string, sequence: nat, size: int, gasLimit: nat, txBytes: Bytes,
                           tier: string)

  function InfoOf(c: Config, e: Entry): TxInfo {
    TxInfo(e.item.tx, e.item.key.sender, e.item.key.nonce, e.item.size, e.item.gas, e.item.bytes,
           TierName(c.tiers, e.tier))
  }

  lemma DisplacedAppends(before: seq<Entry>, q: Queueing, e: Entry)
    ensures before + Displaced(q, e) ==
              var half := if q.evicted.Some? then before + [q.evicted.value] else before;
              if q.error != Ok then half + [e] else half
  {
  }

  lemma {:induction false} EventsJoin(kind: EventType, a: seq<Entry>, b: seq<Entry>)
    ensures EventsOf(kind, a + b) == EventsOf(kind, a) + EventsOf(kind, b)
  {
    if b == [] {
      assert a + b == a;
    } else {
      EventsJoin(kind, a, b[..|b| - 1]);
      assert (a + b)[..|a + b| - 1] == a + b[..|b| - 1];
    }
  }

  /** `t` is `s` without the empty senders outside `todo`. */
  ghost predicate Swept(s: State, todo: set<string>, t: State) {
    && t.active == s.active && t.queued == s.queued && t.order == s.order
    && (forall a {:trigger a in t.infos} :: a in t.infos <==> a in s.infos && (a in todo || !IsEmpty(s, a)))
    && (forall a {:trigger t.infos[a]} :: a in t.infos ==> t.infos[a] == s.infos[a])
  }

  lemma SweptNone(s: State)
    ensures Swept(s, s.infos.Keys, s)
  {
    hide IsEmpty;
  }

  lemma SweptStep(s: State, todo: set<string>, t: State, sender: string)
    requires Swept(s, todo, t) && sender in todo
    ensures Swept(s, todo - {sender}, Cleanup(t, sender))
  {
    assert IsEmpty(t, sender) == IsEmpty(s, sender);
    hide IsEmpty;
  }

  lemma SweptAll(s: State, t: State)
    requires Swept(s, {}, t)
    ensures t == Sweep(s)
  {
    hide IsEmpty;
    assert t.infos == Sweep(s).infos;
  }

  lemma SameActiveSafe(c: Config, s: State, t: State, ctx: Ctx, item: Item)
    requires t.active == s.active && SafeReplacement(c, s, ctx, item)
    ensures SafeReplacement(c, t, ctx, item)
  {
  }

  lemma RegisterIsSetSeq(s: State, sender: string, seqNo: nat)
    requires sender !in s.infos
    ensures SetSeq(Register(s, sender, 0), sender, seqNo) == Register(s, sender, seqNo)
  {
    assert s.infos[sender := Info(0, None)][sender := Info(seqNo, None)] == s.infos[sender := Info(seqNo, None)];
  }

  lemma OccupantsAre(s: State, k: Key)
    ensures Occupants(s, k) ==
              (if k in s.queued then [s.queued[k]] else []) + (if k in s.active then [s.active[k]] else [])
  {
  }

  /** What `FinishInsertLocked` achieves, from the state with the order already taken. */
  ghost predicate Inserted(c: Config, s: State, ctx: Ctx, e: Entry, adm: Admission, t: State,
                           events: seq<Event>, events0: seq<Event>)
  {
    var k := e.item.key;
    var room := MakeRoom(c, s.(active := s.active - {k}, queued := s.queued - {k}), adm);
    var p := Promote(c, Activate(room.state, e), ctx, k.sender);
    var out := Occupants(s, k) + room.removed + p.removed;
    && t == p.state
    && events == events0 +
         (EventsOf(TxRemoved, out) + [Event(TxInserted, e.item.bytes)] + EventsOf(TxInserted, p.promoted))
  }

  lemma EventsNone(kind: EventType)
    ensures EventsOf(kind, []) == []
  {
  }

  lemma EventsNext(kind: EventType, es: seq<Entry>, i: nat)
    requires i < |es|
    ensures EventsOf(kind, es[..i + 1]) == EventsOf(kind, es[..i]) + [Event(kind, es[i].item.bytes)]
  {
    assert es[..i + 1][..i] == es[..i];
  }

  lemma EnqueueFailsCleanly(c: Config, s: State, e: Entry)
    ensures var q := Enqueue(c, s, e);
            q.error != Ok ==> q.state == s && q.evicted.None?
  {
  }

  /** Everything the first entry in hand needs to be admitted, requeued or entered. */
  lemma PromoteReady(c: Config, s: State, ctx: Ctx, sender: string, es: seq<Entry>)
    requires Inv(c, s) && InHand(c, s, sender, es) && es != []
    ensures var s1 := Tick(s);
            var e := Stamp(c, s1, ctx, es[0].item);
            var adm := Admit(c, s1, ctx.block, e, false);
            && (c.maxTx > 0 ==> |s1.active| <= c.maxTx)
            && e.item == es[0].item && e.item.key.sender == sender
            && 0 <= e.tier < |c.tiers|
            && (adm.Evict? ==> adm.victim.item.key in s1.active)
            && (!adm.Refused? ==> HasSlot(MakeRoom(c, s1, adm).state, e.item.key))
  {
    var s1 := Tick(s);
    var e := Stamp(c, s1, ctx, es[0].item);
    ActiveBound(c, s);
    VictimActive(c, s1, ctx.block, e, false);
    assert es[0].item.key == Key(sender, Next(s, sender) + 0);
    hide MakeRoom, RoomMade, NoncesOf, Clamp, Admit, Next, Inv;
    TickInv(c, s);
    TickInHand(c, s, sender, es);
    AtNextNotActive(c, s, es[0].item.key);
    PromoteOneInv(c, s1, ctx, sender, es);
    var adm := Admit(c, s1, ctx.block, e, false);
    if !adm.Refused? { RoomLeaves(c, s1, MakeRoom(c, s1, adm).state, adm, e.item.key); }
  }

  // ---- the promotion loop ---------------------------------------------------------------------

  /** Loop invariant of `PromoteLocked`: what is left to do completes what was done so far. */
  ghost predicate Promoting(c: Config, s: State, ctx: Ctx, es: seq<Entry>, t: State, rest: seq<Entry>,
                            promoted: seq<Entry>, removed: seq<Entry>)
  {
    var p := PromoteAll(c, t, ctx, rest);
    PromoteAll(c, s, ctx, es) == Promotion(p.state, promoted + p.promoted, removed + p.removed)
  }

  lemma PromotingInit(c: Config, s: State, ctx: Ctx, es: seq<Entry>)
    ensures Promoting(c, s, ctx, es, s, es[0..], [], [])
  {
    assert es[0..] == es;
    hide PromoteAll;
    var p := PromoteAll(c, s, ctx, es);
    assert [] + p.promoted == p.promoted && [] + p.removed == p.removed;
  }

  lemma PromotedInv(c: Config, t: State, ctx: Ctx, sender: string, rest: seq<Entry>)
    requires Inv(c, t) && InHand(c, t, sender, rest) && rest != []
    ensures var t1 := Tick(t);
            var e := Stamp(c, t1, ctx, rest[0].item);
            var adm := Admit(c, t1, ctx.block, e, false);
            var room := MakeRoom(c, t1, adm);
            !adm.Refused? ==> Inv(c, Activate(room.state, e)) && InHand(c, Activate(room.state, e), sender, rest[1..])
  {
    hide Inv, InHand, Stamp, Admit, MakeRoom, RoomMade;
    TickInv(c, t);
    TickInHand(c, t, sender, rest);
    PromoteOneInv(c, Tick(t), ctx, sender, rest);
  }

  lemma PromoteAllStep(c: Config, t: State, ctx: Ctx, rest: seq<Entry>)
    requires rest != []
    ensures var t1 := Tick(t);
            var e := Stamp(c, t1, ctx, rest[0].item);
            var adm := Admit(c, t1, ctx.block, e, false);
            var room := MakeRoom(c, t1, adm);
            var p := PromoteAll(c, Activate(room.state, e), ctx, rest[1..]);
            !adm.Refused? ==>
              PromoteAll(c, t, ctx, rest) == Promotion(p.state, [e] + p.promoted, room.removed + p.removed)
  {
    hide Stamp, Admit, MakeRoom;
  }

  lemma PromotingStep(c: Config, s: State, ctx: Ctx, es: seq<Entry>, t: State, rest: seq<Entry>,
                      promoted: seq<Entry>, removed: seq<Entry>)
    requires Promoting(c, s, ctx, es, t, rest, promoted, removed) && rest != []
    ensures var t1 := Tick(t);
            var e := Stamp(c, t1, ctx, rest[0].item);
            var adm := Admit(c, t1, ctx.block, e, false);
            var room := MakeRoom(c, t1, adm);
            !adm.Refused? ==>
              Promoting(c, s, ctx, es, Activate(room.state, e), rest[1..], promoted + [e], removed + room.removed)
  {
    hide Stamp, Admit, MakeRoom, PromoteAll;
    PromoteAllStep(c, t, ctx, rest);
    var t1 := Tick(t);
    var e := Stamp(c, t1, ctx, rest[0].item);
    var room := MakeRoom(c, t1, Admit(c, t1, ctx.block, e, false));
    var p := PromoteAll(c, Activate(room.state, e), ctx, rest[1..]);
    assert promoted + ([e] + p.promoted) == promoted + [e] + p.promoted;
    assert removed + (room.removed + p.removed) == removed + room.removed + p.removed;
  }

  lemma PromotingStop(c: Config, s: State, ctx: Ctx, es: seq<Entry>, t: State, rest: seq<Entry>,
                      promoted: seq<Entry>, removed: seq<Entry>, sender: string)
    requires Promoting(c, s, ctx, es, t, rest, promoted, removed) && rest != []
    requires Inv(c, t) && InHand(c, t, sender, rest)
    ensures var t1 := Tick(t);
            var e := Stamp(c, t1, ctx, rest[0].item);
            var back := [e] + rest[1..];
            Admit(c, t1, ctx.block, e, false).Refused? ==>
              && PromoteAll(c, s, ctx, es) == Promotion(t1.(queued := Requeue(t1.queued, back)), promoted, removed)
              && Consecutive(back, sender, e.item.key.nonce)
              && (forall i :: 0 <= i < |back| ==> back[i].item.key !in t1.active && back[i].item.key !in t1.queued)
  {
    hide Admit, Inv, Clamp, Requeue, Next, NoncesOf;
    var t1 := Tick(t);
    var e := Stamp(c, t1, ctx, rest[0].item);
    var back := [e] + rest[1..];
    if Admit(c, t1, ctx.block, e, false).Refused? {
      assert promoted + [] == promoted && removed + [] == removed;
      TickInHand(c, t, sender, rest);
      TickInv(c, t);
      RestampInHand(c, t1, sender, rest, e);
      assert back[0].item.key == Key(sender, Next(t1, sender) + 0);
      forall i | 0 <= i < |back| ensures back[i].item.key !in t1.active {
        HandQueueable(c, t1, sender, back, i);
      }
    }
  }

  lemma PromotingDone(c: Config, s: State, ctx: Ctx, es: seq<Entry>, t: State, rest: seq<Entry>,
                      promoted: seq<Entry>, removed: seq<Entry>)
    requires Promoting(c, s, ctx, es, t, rest, promoted, removed) && rest == []
    ensures PromoteAll(c, s, ctx, es) == Promotion(t, promoted, removed)
  {
    assert promoted + [] == promoted && removed + [] == removed;
  }

  /** The entries an admission displaces. */
  ghost function Victims(adm: Admission): seq<Entry> {
    if adm.Evict? then [adm.victim] else []
  }

  /** The backwards walk: collects the last `need` entries other than `own`, as long as each is outranked. */
  ghost function WalkBack(ix: seq<Entry>, own: Option<Key>, rank: Rank, need: int): Option<seq<Entry>> {
    if need <= 0 then Some([])
    else if ix == [] then None
    else
      var init, last := ix[..|ix| - 1], ix[|ix| - 1];
      if own == Some(last.item.key) then WalkBack(init, own, rank, need)
      else if !Outranks(rank, last.clamped) then None
      else
        Behind([last], WalkBack(init, own, rank, need - 1))
  }

  /** What was collected before, and then what is collected after it. */
  ghost function Behind(before: seq<Entry>, more: Option<seq<Entry>>): Option<seq<Entry>> {
    if more.None? then None else Some(before + more.value)
  }

  lemma BehindNothing(more: Option<seq<Entry>>)
    ensures Behind([], more) == more
  {
    if more.Some? {
      assert [] + more.value == more.value;
    }
  }

  lemma BehindEnd(before: seq<Entry>)
    ensures Behind(before, Some([])) == Some(before) && Behind(before, None) == None
  {
    assert before + [] == before;
  }

  lemma BehindOne(before: seq<Entry>, e: Entry, more: Option<seq<Entry>>)
    ensures Behind(before, Behind([e], more)) == Behind(before + [e], more)
  {
    if more.Some? {
      assert before + ([e] + more.value) == before + [e] + more.value;
    }
  }

  /** How many entries must go, for a pool of any size. */
  ghost function SlotWalk(c: Config, ix: seq<Entry>, active: map<Key, Entry>, rank: Rank,
                          exclude: Option<Entry>): Option<seq<Entry>>
  {
    var replacing := exclude.Some? && exclude.value.item.key in active;
    var own := if exclude.Some? then Some(exclude.value.item.key) else None;
    if c.maxTx <= 0 then Some([])
    else WalkBack(ix, own, rank, |active| - (if replacing then 1 else 0) - (c.maxTx - 1))
  }

  /** The entries other than `own`. */
  ghost function Others(ix: seq<Entry>, own: Option<Key>): seq<Entry> {
    if ix == [] then []
    else
      var last := ix[|ix| - 1];
      Others(ix[..|ix| - 1], own) + (if own == Some(last.item.key) then [] else [last])
  }

  /** The walk succeeds exactly when the worst `need` other entries exist and are all outranked; these it collects. */
  lemma {:induction false} WalkBackMeans(ix: seq<Entry>, own: Option<Key>, rank: Rank, need: nat)
    ensures var others := Others(ix, own);
            var walk := WalkBack(ix, own, rank, need);
            && (walk.Some? <==>
                need <= |others| && forall i {:trigger others[i]} :: |others| - need <= i < |others| ==>
                                      Outranks(rank, others[i].clamped))
            && (walk.Some? ==> |walk.value| == need)
            && (walk.Some? ==>
                forall i {:trigger walk.value[i]} :: 0 <= i < need ==> walk.value[i] == others[|others| - 1 - i])
  {
    hide Outranks;
    if need > 0 && ix != [] {
      var init, last := ix[..|ix| - 1], ix[|ix| - 1];
      if own == Some(last.item.key) {
        WalkBackMeans(init, own, rank, need);
        assert Others(init, own) + [] == Others(init, own);
      } else {
        WalkBackMeans(init, own, rank, need - 1);
        var rest := Others(init, own);
        var others := Others(ix, own);
        assert others == rest + [last];
        assert others[|others| - 1] == last;
        assert forall i {:trigger rest[i]} :: 0 <= i < |rest| ==> rest[i] == others[i];
      }
    }
  }

  /** In a pool within its limit at most one entry goes, and it is the last of the index. */
  lemma SlotWalkIsSlot(c: Config, s: State, ix: seq<Entry>, rank: Rank, exclude: Option<Entry>)
    requires ix == [] ==> |s.active| == 0
    requires ix != [] ==> HasLast(s.active) && Last(s.active) == ix[|ix| - 1]
    ensures var walk := SlotWalk(c, ix, s.active, rank, exclude);
            var slot := Slot(c, s, rank, exclude.Some? && exclude.value.item.key in s.active);
            (c.maxTx > 0 ==> |s.active| <= c.maxTx) ==>
              (walk.Some? <==> !slot.Refused?) && (walk.Some? ==> walk.value == Victims(slot))
  {
    hide Outranks, HasLast;
    var own := if exclude.Some? then Some(exclude.value.item.key) else None;
    if c.maxTx > 0 && |s.active| == c.maxTx && ix != [] {
      var last := ix[|ix| - 1];
      if own != Some(last.item.key) {
        assert WalkBack(ix[..|ix| - 1], own, rank, 0) == Some([]);
        assert [last] + [] == [last];
      }
    }
  }

  /** The last entry of the index is the last in index order. */
  lemma IndexLast(ix: seq<Entry>, active: map<Key, Entry>)
    requires Indexes(ix, active) && WellKeyed(active)
    ensures ix == [] ==> |active| == 0
    ensures ix != [] ==> HasLast(active) && Last(active) == ix[|ix| - 1]
  {
    if ix == [] {
      assert active.Keys == {};
      assert |active.Keys| == |active|;
    } else {
      var e := ix[|ix| - 1];
      assert e in ix;
      forall k {:trigger k in active} | k in active && k != e.item.key ensures Before(active[k], e) {
        assert active[k] in ix;
        var i :| 0 <= i < |ix| && ix[i] == active[k];
        assert i < |ix| - 1;
      }
      assert IsLast(active, active[e.item.key]);
      LastUnique(active, e, Last(active));
    }
  }

  lemma TickMirrors(c: Config, s: State, entries: map<Key, Entry>, index: seq<Entry>,
                    queuedCount: int, orderSeq: int, dist: map<string, nat>)
    requires Mirrors(c, s, entries, index, queuedCount, orderSeq, dist)
    ensures Mirrors(c, Tick(s), entries, index, queuedCount, orderSeq + 1, dist)
    ensures orderSeq == s.order
  {
    hide Indexes, Counts;
  }

  lemma ShowsTick(ss: SenderState, s: State, sender: string)
    requires ss.Shows(s, sender)
    ensures ss.Shows(Tick(s), sender)
  {
  }

  /** Removal of several active entries, one after the other. */
  ghost function RemoveEach(c: Config, s: State, es: seq<Entry>, reason: Reason): Outcome {
    if es == [] then Outcome(s, [])
    else
      var before := RemoveEach(c, s, es[..|es| - 1], reason);
      var k := es[|es| - 1].item.key;
      if k in before.state.active then
        var o := RemoveByReason(c, before.state, k, reason, None);
        Outcome(o.state, before.removed + o.removed)
      else before
  }

  lemma RemoveEachNone(c: Config, s: State, reason: Reason)
    ensures RemoveEach(c, s, [], reason) == Outcome(s, [])
  {
  }

  lemma RemoveEachNext(c: Config, s: State, es: seq<Entry>, i: nat, reason: Reason)
    requires i < |es|
    ensures var before := RemoveEach(c, s, es[..i], reason);
            var o := RemoveByReason(c, before.state, es[i].item.key, reason, None);
            RemoveEach(c, s, es[..i + 1], reason) ==
            if es[i].item.key in before.state.active then Outcome(o.state, before.removed + o.removed) else before
  {
    assert es[..i + 1][..i] == es[..i];
  }

  /** Evicting the victims of an admission is what making room means. */
  lemma MakeRoomIsRemoveEach(c: Config, s: State, adm: Admission)
    requires adm.Evict? ==> adm.victim.item.key in s.active
    ensures RemoveEach(c, s, Victims(adm), CapacityEvicted) == MakeRoom(c, s, adm)
  {
    hide RemoveByReason;
    RemoveEachNone(c, s, CapacityEvicted);
    if adm.Evict? {
      RemoveEachNext(c, s, Victims(adm), 0, CapacityEvicted);
      assert Victims(adm)[..0] == [] && Victims(adm)[..1] == Victims(adm);
    }
  }

  /** The records of `a` are records of `b`. */
  ghost predicate Subsenders(a: map<string, SenderState>, b: map<string, SenderState>) {
    forall x {:trigger x in a} :: x in a ==> x in b && a[x] == b[x]
  }

  // ---- the stale-removal loops ----------------------------------------------------------------

  ghost predicate NoneIn(m: map<Key, Entry>, sender: string, lo: nat, hi: nat) {
    forall n: nat {:trigger Key(sender, n) in m} :: lo <= n < hi ==> Key(sender, n) !in m
  }

  lemma {:induction false} RunGap(m: map<Key, Entry>, sender: string, a: nat, b: nat)
    requires a <= b && NoneIn(m, sender, a, b)
    ensures Run(m, sender, 0, a) == Run(m, sender, 0, b)
    decreases b
  {
    if a < b {
      assert Key(sender, b - 1) !in m;
      RunGap(m, sender, a, b - 1);
      assert Run(m, sender, 0, b) == Run(m, sender, 0, b - 1) + [];
    }
  }

  lemma CutGap(m: map<Key, Entry>, sender: string, a: nat, b: nat)
    requires a <= b && NoneIn(m, sender, a, b)
    ensures CutBelow(m, sender, a) == CutBelow(m, sender, b)
  {
    forall k | k in m && k.sender == sender ensures k.nonce < a <==> k.nonce < b {
      assert Key(k.sender, k.nonce) in m;
    }
  }

  lemma CutNone(m: map<Key, Entry>, sender: string)
    ensures CutBelow(m, sender, 0) == m && Run(m, sender, 0, 0) == []
  {
  }

  /** Nothing lies below the cached minimum. */
  lemma NothingBelow(m: map<Key, Entry>, sender: string, ns: set<nat>, lo: nat, hi: nat, n: nat)
    requires ns == NoncesOf(m, sender) && Bounds(ns, lo, hi)
    requires |ns| == 0 || n == 0 || lo >= n
    ensures CutBelow(m, sender, n) == m && Run(m, sender, 0, n) == []
  {
    assert NoneIn(m, sender, 0, n) by {
      assert |ns| == 0 ==> ns == {};
    }
    hide CutBelow, Run, NoncesOf, Bounds;
    RunGap(m, sender, 0, n);
    CutGap(m, sender, 0, n);
    CutNone(m, sender);
  }

  /** Nothing lies between the end of the scan and the sequence. */
  lemma StaleRest(m: map<Key, Entry>, sender: string, ns: set<nat>, lo: nat, hi: nat, end: nat, seqNo: nat)
    requires ns == NoncesOf(m, sender) && Bounds(ns, lo, hi) && ns != {} && seqNo > 0
    requires end == Min(seqNo - 1, hi) + 1
    ensures CutBelow(m, sender, end) == CutBelow(m, sender, seqNo) && Run(m, sender, 0, end) == Run(m, sender, 0, seqNo)
  {
    assert NoneIn(m, sender, end, seqNo);
    hide CutBelow, Run, NoncesOf, Bounds;
    RunGap(m, sender, end, seqNo);
    CutGap(m, sender, end, seqNo);
  }

  /** Loop invariant of the stale-removal loops: nonces below `n` are gone and listed. */
  ghost predicate Staled(m: map<Key, Entry>, sender: string, n: nat, t: map<Key, Entry>, removed: seq<Entry>) {
    t == CutBelow(m, sender, n) && removed == Run(m, sender, 0, n)
  }

  lemma StaledInit(m: map<Key, Entry>, sender: string, ns: set<nat>, lo: nat, hi: nat)
    requires ns == NoncesOf(m, sender) && Bounds(ns, lo, hi)
    ensures Staled(m, sender, lo, m, [])
  {
    hide CutBelow, Run, NoncesOf, Bounds;
    NothingBelow(m, sender, ns, lo, hi, lo);
  }

  lemma StaledStep(m: map<Key, Entry>, sender: string, n: nat, t: map<Key, Entry>, removed: seq<Entry>)
    requires Staled(m, sender, n, t, removed)
    ensures var k := Key(sender, n);
            && (k in t ==> Staled(m, sender, n + 1, t - {k}, removed + [t[k]]))
            && (k !in t ==> Staled(m, sender, n + 1, t, removed))
  {
    hide CutBelow, Run;
    StaleStep(m, sender, n);
  }

  lemma StaledElim(m: map<Key, Entry>, sender: string, n: nat, t: map<Key, Entry>, removed: seq<Entry>)
    requires Staled(m, sender, n, t, removed)
    ensures t == CutBelow(m, sender, n) && removed == Run(m, sender, 0, n)
  {
  }

  lemma StaleStep(m: map<Key, Entry>, sender: string, n: nat)
    ensures var k := Key(sender, n);
            && (k in CutBelow(m, sender, n) <==> k in m)
            && (k in m ==>
                  && CutBelow(m, sender, n)[k] == m[k]
                  && CutBelow(m, sender, n + 1) == CutBelow(m, sender, n) - {k}
                  && Run(m, sender, 0, n + 1) == Run(m, sender, 0, n) + [m[k]])
            && (k !in m ==>
                  && CutBelow(m, sender, n + 1) == CutBelow(m, sender, n)
                  && Run(m, sender, 0, n + 1) == Run(m, sender, 0, n))
  {
    var k := Key(sender, n);
    if k in m {
      forall j | j in m && j.sender == sender && j.nonce == n ensures j == k {
      }
    } else {
      assert NoneIn(m, sender, n, n + 1);
      hide CutBelow, Run;
      RunGap(m, sender, n, n + 1);
      CutGap(m, sender, n, n + 1);
      KeptAbove(m, sender, n);
    }
  }

  lemma KeptAbove(m: map<Key, Entry>, sender: string, n: nat)
    ensures Key(sender, n) in CutBelow(m, sender, n) <==> Key(sender, n) in m
  {
  }

  lemma CutAll(m: map<Key, Entry>, sender: string, ns: set<nat>, lo: nat, hi: nat)
    requires ns == NoncesOf(m, sender) && Bounds(ns, lo, hi)
    ensures CutBelow(m, sender, hi + 1) == CutFrom(m, sender, 0)
    ensures ns != {} ==> hi == MaxOf(ns)
  {
    if ns != {} { BoundsMax(ns, lo, hi); }
    forall k | k in m && k.sender == sender ensures k.nonce < hi + 1 {
      assert Key(k.sender, k.nonce) in m;
    }
  }

  lemma RequeueNone(queued: map<Key, Entry>)
    ensures Requeue(queued, []) == queued
  {
  }

  lemma ConsecutiveDistinct(es: seq<Entry>, sender: string, n: nat)
    requires Consecutive(es, sender, n)
    ensures forall i :: 0 <= i < |es| ==> es[i].item.key.sender == sender
    ensures forall i, j :: 0 <= i < j < |es| ==> es[i].item.key != es[j].item.key
  {
  }

  lemma {:induction false} RequeueKeys(queued: map<Key, Entry>, es: seq<Entry>)
    ensures Requeue(queued, es).Keys == queued.Keys + KeysOf(es)
  {
    if es == [] {
      assert KeysOf(es) == {};
    } else {
      RequeueKeys(queued, es[..|es| - 1]);
      KeysOfSnoc(es);
      hide KeysOf;
    }
  }

  lemma RequeueOne(queued: map<Key, Entry>, es: seq<Entry>, i: nat)
    requires i < |es| && es[i].item.key !in queued
    requires forall j :: 0 <= j < i ==> es[j].item.key != es[i].item.key
    ensures Requeue(queued, es[..i + 1]) == Requeue(queued, es[..i])[es[i].item.key := es[i]]
    ensures es[i].item.key !in Requeue(queued, es[..i])
  {
    assert es[..i + 1][..i] == es[..i];
    RequeueKeys(queued, es[..i]);
    assert es[i].item.key !in KeysOf(es[..i]);
    hide Requeue;
    assert es[i].item.key !in Requeue(queued, es[..i]).Keys;
  }

  // ---- the demotion loop ----------------------------------------------------------------------

  ghost function CutRange(m: map<Key, Entry>, sender: string, lo: nat, hi: nat): map<Key, Entry> {
    map k {:trigger k in m} | k in m && !(k.sender == sender && lo <= k.nonce < hi) :: m[k]
  }

  /** Loop invariant of `DemoteActiveRangeLocked`: nonces in [start, n) were taken off the run and enqueued. */
  ghost predicate Demoted(c: Config, s: State, sender: string, start: nat, n: nat, t: State, removed: seq<Entry>) {
    var o := EnqueueAll(c, s.(active := CutFrom(s.active, sender, start)), Run(s.active, sender, start, n));
    && t == s.(active := CutRange(s.active, sender, start, n), queued := o.state.queued)
    && removed == o.removed
  }

  lemma DemotedInit(c: Config, s: State, sender: string, start: nat)
    ensures Demoted(c, s, sender, start, start, s, [])
  {
    assert CutRange(s.active, sender, start, start) == s.active;
  }

  lemma DemotedSkip(c: Config, s: State, sender: string, start: nat, n: nat, t: State, removed: seq<Entry>)
    requires Demoted(c, s, sender, start, n, t, removed) && start <= n && Key(sender, n) !in t.active
    ensures Demoted(c, s, sender, start, n + 1, t, removed)
  {
    assert Key(sender, n) !in s.active;
    assert Run(s.active, sender, start, n + 1) == Run(s.active, sender, start, n);
    hide EnqueueAll, Run, CutFrom;
    assert CutRange(s.active, sender, start, n + 1) == CutRange(s.active, sender, start, n) by {
      forall k | k in s.active && k.sender == sender ensures k.nonce != n {
        assert k == Key(sender, k.nonce);
      }
    }
  }

  /** Queueing does not look at the active set. */
  lemma EnqueueIgnoresActive(c: Config, s: State, active: map<Key, Entry>, e: Entry)
    ensures var q := Enqueue(c, s, e);
            Enqueue(c, s.(active := active), e) == q.(state := q.state.(active := active))
  {
  }

  lemma DemotedStep(c: Config, s: State, sender: string, start: nat, n: nat, t: State, removed: seq<Entry>)
    requires Demoted(c, s, sender, start, n, t, removed) && start <= n && Key(sender, n) in t.active
    ensures var k := Key(sender, n);
            var e := AsQueued(t.active[k]);
            var q := Enqueue(c, t.(active := t.active - {k}), e);
            Demoted(c, s, sender, start, n + 1, q.state, removed + Displaced(q, e))
  {
    hide EnqueueAll, Run, CutFrom, Enqueue, CutRange;
    var k := Key(sender, n);
    var cut := s.(active := CutFrom(s.active, sender, start));
    var es := Run(s.active, sender, start, n);
    CutRangeNext(s.active, sender, start, n);
    RunSnoc(s.active, sender, start, n);
    EnqueueAllSnoc(c, cut, es, s.active[k]);
    EnqueueAllTouchesQueue(c, cut, es);
    EnqueueAllTouchesQueue(c, cut, es + [s.active[k]]);
    EnqueueIgnoresActive(c, EnqueueAll(c, cut, es).state, CutRange(s.active, sender, start, n + 1),
                         AsQueued(s.active[k]));
  }

  lemma RunSnoc(m: map<Key, Entry>, sender: string, lo: nat, n: nat)
    requires lo <= n && Key(sender, n) in m
    ensures Run(m, sender, lo, n + 1) == Run(m, sender, lo, n) + [m[Key(sender, n)]]
  {
  }

  lemma CutRangeNext(m: map<Key, Entry>, sender: string, start: nat, n: nat)
    requires start <= n
    ensures CutRange(m, sender, start, n + 1) == CutRange(m, sender, start, n) - {Key(sender, n)}
    ensures Key(sender, n) in CutRange(m, sender, start, n) ==>
              Key(sender, n) in m && CutRange(m, sender, start, n)[Key(sender, n)] == m[Key(sender, n)]
  {
    forall k | k in m && k.sender == sender && k.nonce == n ensures k == Key(sender, n) {
    }
  }

  lemma EnqueueAllSnoc(c: Config, s: State, es: seq<Entry>, e: Entry)
    ensures var o := EnqueueAll(c, s, es);
            var q := Enqueue(c, o.state, AsQueued(e));
            EnqueueAll(c, s, es + [e]) == Outcome(q.state, o.removed + Displaced(q, AsQueued(e)))
  {
    assert (es + [e])[..|es|] == es;
  }

  lemma DemotedDone(c: Config, s: State, sender: string, start: nat, end: nat, t: State, removed: seq<Entry>)
    requires Demoted(c, s, sender, start, end + 1, t, removed)
    requires NoncesOf(s.active, sender) != {} && end == MaxOf(NoncesOf(s.active, sender)) && start <= end
    ensures Outcome(t, removed) == Demote(c, s, sender, start)
  {
    var cut := s.(active := CutFrom(s.active, sender, start));
    EnqueueAllTouchesQueue(c, cut, Run(s.active, sender, start, end + 1));
    assert CutRange(s.active, sender, start, end + 1) == CutFrom(s.active, sender, start) by {
      forall k | k in s.active && k.sender == sender ensures k.nonce <= end {
        assert Key(k.sender, k.nonce) in s.active;
      }
    }
  }

  lemma DemoteNothing(c: Config, s: State, sender: string, start: nat, ns: set<nat>, lo: nat, hi: nat)
    requires ns == NoncesOf(s.active, sender) && Bounds(ns, lo, hi) && (|ns| == 0 || start > hi)
    ensures Demote(c, s, sender, start) == Outcome(s, [])
  {
    if ns != {} { BoundsMax(ns, lo, hi); }
  }

  /** Loop invariant of `CollectPromotableLocked`. */
  ghost predicate Collected(s: State, t: State, sender: string, es: seq<Entry>, next: nat)
    requires sender in s.infos
  {
    && t == s.(queued := s.queued - KeysOf(es))
    && Chain(s.queued, sender, Next(s, sender)) == es + Chain(t.queued, sender, next)
  }

  lemma CollectedInit(s: State, sender: string)
    requires sender in s.infos
    ensures Collected(s, s, sender, [], Next(s, sender))
  {
    assert s.queued - KeysOf([]) == s.queued;
  }

  lemma CollectedStep(s: State, t: State, sender: string, es: seq<Entry>, next: nat)
    requires sender in s.infos && Collected(s, t, sender, es, next)
    requires Key(sender, next) in t.queued && t.queued[Key(sender, next)].item.key == Key(sender, next)
    ensures var k := Key(sender, next);
            Collected(s, t.(queued := t.queued - {k}), sender, es + [t.queued[k]], next + 1)
  {
    var k := Key(sender, next);
    MinusAppend(s.queued, es, t.queued[k]);
    assert es + ([t.queued[k]] + Chain(t.queued - {k}, sender, next + 1))
        == es + [t.queued[k]] + Chain(t.queued - {k}, sender, next + 1);
  }

  lemma CollectedDone(s: State, t: State, sender: string, es: seq<Entry>, next: nat)
    requires sender in s.infos && Collected(s, t, sender, es, next) && Key(sender, next) !in t.queued
    ensures es == Chain(s.queued, sender, Next(s, sender)) && t == s.(queued := s.queued - KeysOf(es))
  {
    assert es + [] == es;
  }

  lemma DropShrinks(m: map<Key, Entry>, k: Key)
    requires k in m
    ensures (m - {k}).Keys < m.Keys
  {
    assert (m - {k}).Keys == m.Keys - {k};
  }

  lemma MinusAppend(m: map<Key, Entry>, es: seq<Entry>, e: Entry)
    ensures m - KeysOf(es + [e]) == (m - KeysOf(es)) - {e.item.key}
  {
    assert (es + [e])[..|es|] == es;
    KeysOfSnoc(es + [e]);
    MinusSnoc(m, KeysOf(es), e.item.key);
  }
}
