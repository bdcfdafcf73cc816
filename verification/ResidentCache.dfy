/** The bounded cache of idle ACP connections, with a ledger of where every
    child process handed to it is. */
module ResidentCache {
  import opened Wrappers

  const MAX_RESIDENT_ACP_SESSIONS: nat := 8

  /** Fifteen minutes, in milliseconds. */
  const RESIDENT_ACP_SESSION_IDLE_TTL: nat := 15 * 60 * 1000

  /** A cache key. Directories and session ids are given by their rank in the
      order the map iterates them. */
  datatype Key = Key(cwd: nat, session: nat)

  predicate KeyLess(a: Key, b: Key) {
    a.cwd < b.cwd || (a.cwd == b.cwd && a.session < b.session)
  }

  type Child = nat

  datatype Resident = Resident(
    child: Child,
    remoteSessionId: string,
    nextRequestId: nat,
    agentCommand: string,
    modeId: Option<string>,
    modelId: Option<string>,
    lastUsedAt: nat)

  datatype SessionOptions = SessionOptions(
    loadSessionId: Option<string>,
    modeId: Option<string>,
    modelId: Option<string>)

  type Sessions = map<Key, Resident>

  predicate Compatible(resident: Resident, agentCommand: string, options: SessionOptions) {
    && resident.agentCommand == agentCommand
    && resident.modeId == options.modeId
    && resident.modelId == options.modelId
    && (options.loadSessionId.Some? ==> options.loadSessionId.value == resident.remoteSessionId)
  }

  predicate Fresh(resident: Resident, now: nat) {
    now - resident.lastUsedAt <= RESIDENT_ACP_SESSION_IDLE_TTL
  }

  // ---- Which sessions a store keeps ----

  /** Does the capacity loop take `a` before `b`? The least recently used goes
      first, and among equals the first key. */
  predicate GoesBefore(sessions: Sessions, a: Key, b: Key)
    requires a in sessions && b in sessions
  {
    || sessions[a].lastUsedAt < sessions[b].lastUsedAt
    || (sessions[a].lastUsedAt == sessions[b].lastUsedAt && KeyLess(a, b))
  }

  /** The eviction order is total, and what one key precedes, every key before
      it precedes too. */
  lemma EvictionOrder(sessions: Sessions, a: Key, b: Key)
    requires a in sessions && b in sessions && a != b
    ensures GoesBefore(sessions, a, b) <==> !GoesBefore(sessions, b, a)
    ensures GoesBefore(sessions, a, b) ==>
              forall c | c in sessions && GoesBefore(sessions, b, c) :: GoesBefore(sessions, a, c)
  {
  }

  function Smaller(m: nat, n: nat): nat {
    if m < n then m else n
  }

  /** `kept` is what the capacity loop leaves of `sessions`. */
  ghost predicate Capped(sessions: Sessions, kept: Sessions) {
    && kept.Keys <= sessions.Keys
    && (forall k | k in kept :: kept[k] == sessions[k])
    && |kept| == Smaller(|sessions|, MAX_RESIDENT_ACP_SESSIONS)
    && forall evicted, survivor | evicted in sessions && evicted !in kept && survivor in kept ::
         GoesBefore(sessions, evicted, survivor)
  }

  function WithoutStale(sessions: Sessions, now: nat): Sessions {
    map k | k in sessions && Fresh(sessions[k], now) :: sessions[k]
  }

  function Stale(sessions: Sessions, now: nat): set<Resident> {
    set k | k in sessions && !Fresh(sessions[k], now) :: sessions[k]
  }

  /** The cache right after the insertion, before the capacity loop. */
  function Inserted(sessions: Sessions, key: Key, resident: Resident, storedAt: nat, scannedAt: nat): Sessions {
    WithoutStale(sessions, scannedAt)[key := resident.(lastUsedAt := storedAt)]
  }

  lemma SameSizeDifference(a: set<Key>, b: set<Key>)
    requires |a| == |b| && a != b
    ensures a - b != {} && b - a != {}
  {
    assert a == (a * b) + (a - b) && b == (a * b) + (b - a);
    assert |a| == |a * b| + |a - b| && |b| == |a * b| + |b - a|;
  }

  /** The description pins the outcome down. */
  lemma CappedIsUnique(sessions: Sessions, kept: Sessions, kept': Sessions)
    requires Capped(sessions, kept) && Capped(sessions, kept')
    ensures kept == kept'
  {
    if kept.Keys != kept'.Keys {
      assert |kept| == |kept.Keys| && |kept'| == |kept'.Keys|;
      SameSizeDifference(kept.Keys, kept'.Keys);
      var a :| a in kept.Keys - kept'.Keys;
      var b :| b in kept'.Keys - kept.Keys;
      EvictionOrder(sessions, a, b);
      assert false;
    }
  }

  /** After a store: the bound holds, nothing stale is left beside the entry
      just stored, and no session that went was used later than one that
      stayed. */
  lemma StoreBounds(sessions: Sessions, key: Key, resident: Resident, storedAt: nat, scannedAt: nat, kept: Sessions)
    requires storedAt <= scannedAt
    requires Capped(Inserted(sessions, key, resident, storedAt, scannedAt), kept)
    ensures |kept| <= MAX_RESIDENT_ACP_SESSIONS
    ensures forall k | k in kept && k != key :: k in sessions && kept[k] == sessions[k] && Fresh(kept[k], scannedAt)
    ensures scannedAt - storedAt <= RESIDENT_ACP_SESSION_IDLE_TTL ==> forall k | k in kept :: Fresh(kept[k], scannedAt)
    ensures forall evicted, survivor | evicted in sessions && Fresh(sessions[evicted], scannedAt)
                                       && evicted !in kept && evicted != key && survivor in kept ::
              sessions[evicted].lastUsedAt <= kept[survivor].lastUsedAt
  {
    var inserted := Inserted(sessions, key, resident, storedAt, scannedAt);
    forall evicted, survivor | evicted in sessions && Fresh(sessions[evicted], scannedAt)
                               && evicted !in kept && evicted != key && survivor in kept
      ensures sessions[evicted].lastUsedAt <= kept[survivor].lastUsedAt
    {
      assert evicted in inserted && GoesBefore(inserted, evicted, survivor);
    }
  }

  /** The sessions the capacity loop would take after this one. */
  function Later(sessions: Sessions, key: Key): set<Key>
    requires key in sessions
  {
    set k | k in sessions && k != key && GoesBefore(sessions, key, k)
  }

  /** A stored session stays exactly if fewer than eight go after it; it then
      keeps its connection, its remote session and the number of its next
      request. */
  lemma StoredStays(sessions: Sessions, key: Key, resident: Resident, storedAt: nat, scannedAt: nat, kept: Sessions)
    requires Capped(Inserted(sessions, key, resident, storedAt, scannedAt), kept)
    ensures key in kept <==> |Later(Inserted(sessions, key, resident, storedAt, scannedAt), key)| < 8
    ensures key in kept ==>
              && kept[key].child == resident.child && kept[key].remoteSessionId == resident.remoteSessionId
              && kept[key].nextRequestId == resident.nextRequestId && kept[key].agentCommand == resident.agentCommand
              && kept[key].modeId == resident.modeId && kept[key].modelId == resident.modelId
              && kept[key].lastUsedAt == storedAt
    ensures (forall k | k in sessions && k != key :: sessions[k].lastUsedAt < storedAt) ==> key in kept
  {
    var inserted := Inserted(sessions, key, resident, storedAt, scannedAt);
    var later := Later(inserted, key);
    assert |kept| == |kept.Keys| && |inserted| == |inserted.Keys|;
    if key in kept {
      forall k | k in later
        ensures k in kept
      {
        EvictionOrder(inserted, key, k);
      }
      Subset(later + {key}, kept.Keys);
    } else {
      Subset(kept.Keys, later);
      if |inserted| <= 8 {
        Subset(kept.Keys + {key}, inserted.Keys);
      }
      assert kept.Keys != {};
      var k :| k in kept;
      assert k in sessions && sessions[k].lastUsedAt >= storedAt;
    }
  }

  lemma Subset(a: set<Key>, b: set<Key>)
    requires a <= b
    ensures |a| <= |b|
  {
    assert b == a + (b - a);
  }

  // ---- The ledger ----

  /** Where a child is. */
  datatype Place = Held | Cached(key: Key) | Stopped | Exited

  type Ledger = map<Child, Place>

  ghost predicate Settled(ledger: Ledger, child: Child) {
    child in ledger && (ledger[child].Stopped? || ledger[child].Exited?)
  }

  /** The ledger agrees with the cache and the processes: a child is cached
      under one key exactly when the ledger says so, and one that was stopped
      or had exited runs no more. */
  ghost predicate Agrees(ledger: Ledger, sessions: Sessions, running: set<Child>) {
    && (forall k | k in sessions :: sessions[k].child in ledger && ledger[sessions[k].child] == Cached(k))
    && (forall c | c in ledger && ledger[c].Cached? :: ledger[c].key in sessions && sessions[ledger[c].key].child == c)
    && (forall c | c in running :: c in ledger && !Settled(ledger, c))
  }

  /** Nothing runs that neither a turn nor the cache answers for, no settled
      child comes back, and no child is lost. */
  ghost predicate Conserved(before: Ledger, after: Ledger) {
    && before.Keys <= after.Keys
    && forall c | Settled(before, c) :: after[c] == before[c]
  }

  /** Which children `keys` of the cache hold. */
  ghost function ChildrenAt(sessions: Sessions, keys: set<Key>): set<Child> {
    set k | k in keys && k in sessions :: sessions[k].child
  }

  lemma AfterStopNone(ledger: Ledger)
    ensures AfterStop(ledger, {}) == ledger
  {
  }

  lemma AfterStopTwice(ledger: Ledger, first: set<Child>, second: set<Child>)
    ensures AfterStop(AfterStop(ledger, first), second) == AfterStop(ledger, first + second)
  {
  }

  ghost function Children(residents: set<Resident>): set<Child> {
    set r | r in residents :: r.child
  }

  /** The ledger once the children of `gone` were stopped. */
  ghost function AfterStop(ledger: Ledger, gone: set<Child>): Ledger {
    map c | c in ledger :: if c in gone then Stopped else ledger[c]
  }

  class ResidentSessions {
    var sessions: Sessions

    /** The children the operating system still runs. */
    var running: set<Child>

    ghost var ledger: Ledger

    ghost predicate Valid()
      reads this
    {
      Agrees(ledger, sessions, running)
    }

    constructor ()
      ensures Valid() && sessions == map[] && ledger == map[]
    {
      sessions, running, ledger := map[], {}, map[];
    }

    // ---- The environment ----

    /** A turn spawns a child and holds its handle. */
    method Spawn(child: Child)
      requires Valid() && child !in ledger
      modifies this
      ensures Valid() && sessions == old(sessions) && running == old(running) + {child}
      ensures ledger == old(ledger)[child := Held]
    {
      running := running + {child};
      ledger := ledger[child := Held];
    }

    /** A child may exit at any time. */
    method ChildExits(child: Child)
      requires Valid()
      modifies this
      ensures Valid() && sessions == old(sessions) && ledger == old(ledger)
      ensures running == old(running) - {child}
    {
      running := running - {child};
    }

    // ---- The cache operations ----

    /** The state is consistent but for `gone`, which left the cache and are
        yet to be stopped. */
    ghost predicate ValidOnceStopped(gone: set<Child>)
      reads this
    {
      gone <= ledger.Keys && Agrees(AfterStop(ledger, gone), sessions, running - gone)
    }

    /** Kills the child and waits for it. */
    method StopResidentAcpSession(resident: Resident)
      modifies this`running, this`ledger
      ensures running == old(running) - {resident.child}
      ensures ledger == AfterStop(old(ledger), {resident.child})
    {
      running := running - {resident.child};
      ledger := AfterStop(ledger, {resident.child});
    }

    /** Stops what left the cache; only then is the state consistent again. */
    method StopAll(retired: set<Resident>)
      requires ValidOnceStopped(Children(retired))
      modifies this`running, this`ledger
      ensures Valid()
      ensures running == old(running) - Children(retired)
      ensures ledger == AfterStop(old(ledger), Children(retired))
    {
      hide Agrees, AfterStop;
      var remaining := retired;
      ghost var done: set<Child> := {};
      AfterStopNone(ledger);
      while remaining != {}
        invariant remaining <= retired && done + Children(remaining) == Children(retired)
        invariant running == old(running) - done
        invariant ledger == AfterStop(old(ledger), done)
        decreases |remaining|
      {
        var resident :| resident in remaining;
        assert Children(remaining) == Children(remaining - {resident}) + {resident.child};
        AfterStopTwice(old(ledger), done, {resident.child});
        StopResidentAcpSession(resident);
        remaining := remaining - {resident};
        done := done + {resident.child};
      }
      assert done == Children(retired);
    }

    /** Takes the connection of a session out of the cache. It is returned only
        if it fits the request, still runs and is fresh; otherwise stopped. */
    method TakeResidentAcpSession(key: Key, agentCommand: string, options: SessionOptions, now: nat)
      returns (taken: Option<Resident>)
      requires Valid()
      modifies this
      ensures Valid() && Conserved(old(ledger), ledger)
      ensures sessions == old(sessions) - {key}
      ensures taken.Some? <==>
                && key in old(sessions)
                && var cached := old(sessions)[key];
                   && cached.child in old(running) && now <= cached.lastUsedAt + 900_000
                   && cached.agentCommand == agentCommand
                   && cached.modeId == options.modeId && cached.modelId == options.modelId
                   && options.loadSessionId in {None, Some(cached.remoteSessionId)}
      ensures taken.Some? ==> taken.value == old(sessions)[key]
      ensures if taken.Some? then ledger == old(ledger)[taken.value.child := Held] && running == old(running)
              else
                && ledger == AfterStop(old(ledger), ChildrenAt(old(sessions), {key}))
                && running == old(running) - ChildrenAt(old(sessions), {key})
    {
      if key !in sessions {
        assert ChildrenAt(sessions, {key}) == {};
        assert sessions - {key} == sessions;
        return None;
      }
      var resident := sessions[key];
      assert ChildrenAt(sessions, {key}) == {resident.child};
      sessions := sessions - {key};
      var compatible := Compatible(resident, agentCommand, options);
      var alive := resident.child in running;
      var recent := Fresh(resident, now);
      if compatible && alive && recent {
        ledger := ledger[resident.child := Held];
        return Some(resident);
      }
      StopResidentAcpSession(resident);
      return None;
    }

    /** The next session the capacity loop evicts. */
    method OldestKey() returns (oldest: Option<Key>)
      ensures oldest.None? <==> sessions == map[]
      ensures oldest.Some? ==>
                && oldest.value in sessions
                && forall k | k in sessions && k != oldest.value :: GoesBefore(sessions, oldest.value, k)
    {
      oldest := None;
      var remaining := sessions.Keys;
      while remaining != {}
        invariant remaining <= sessions.Keys
        invariant oldest.None? <==> remaining == sessions.Keys
        invariant oldest.Some? ==>
                    && oldest.value in sessions && oldest.value !in remaining
                    && forall k | k in sessions.Keys - remaining && k != oldest.value ::
                          GoesBefore(sessions, oldest.value, k)
        decreases |remaining|
      {
        var k :| k in remaining;
        remaining := remaining - {k};
        if oldest.None? {
          oldest := Some(k);
        } else {
          EvictionOrder(sessions, k, oldest.value);
          if GoesBefore(sessions, k, oldest.value) {
            oldest := Some(k);
          }
        }
      }
    }

    /** Evicts least recently used sessions until the bound holds. */
    method EvictOverBound() returns (evicted: set<Resident>)
      modifies this`sessions
      ensures Capped(old(sessions), sessions)
      ensures evicted == set k | k in old(sessions) && k !in sessions :: old(sessions)[k]
    {
      evicted := {};
      while |sessions| > MAX_RESIDENT_ACP_SESSIONS
        invariant sessions.Keys <= old(sessions).Keys && forall k | k in sessions :: sessions[k] == old(sessions)[k]
        invariant |sessions| >= Smaller(|old(sessions)|, MAX_RESIDENT_ACP_SESSIONS)
        invariant |sessions| <= |old(sessions)|
        invariant |sessions| < |old(sessions)| ==> |sessions| >= MAX_RESIDENT_ACP_SESSIONS
        invariant forall gone, survivor | gone in old(sessions) && gone !in sessions && survivor in sessions ::
                    GoesBefore(old(sessions), gone, survivor)
        invariant evicted == set k | k in old(sessions) && k !in sessions :: old(sessions)[k]
        decreases |sessions|
      {
        var oldest := OldestKey();
        match oldest {
          case None => assert false;
          case Some(oldestKey) =>
            evicted := evicted + {sessions[oldestKey]};
            assert (sessions - {oldestKey}).Keys == sessions.Keys - {oldestKey};
            sessions := sessions - {oldestKey};
        }
      }
    }

    /** Caches the connection of a finished turn, then drops what is stale,
        replaced or over the bound. A child that has exited is not cached. */
    method StoreResidentAcpSession(key: Key, resident: Resident, storedAt: nat, scannedAt: nat)
      requires Valid() && storedAt <= scannedAt
      requires resident.child in ledger && ledger[resident.child] == Held
      modifies this
      ensures Valid() && Conserved(old(ledger), ledger)
      ensures resident.child !in old(running) ==>
                && sessions == old(sessions) && running == old(running)
                && ledger == old(ledger)[resident.child := Exited]
      ensures resident.child in old(running) ==>
                && Capped(Inserted(old(sessions), key, resident, storedAt, scannedAt), sessions)
                && running == old(running) - Retired(old(sessions), key, resident, sessions)
                && ledger == AfterStop(old(ledger)[resident.child := Cached(key)],
                                       Retired(old(sessions), key, resident, sessions))
    {
      if resident.child !in running {
        ledger := ledger[resident.child := Exited];
        return;
      }
      InsertAndRetire(key, resident, storedAt, scannedAt);
    }

    /** The part of a store that holds the lock, and the stops after it. */
    method InsertAndRetire(key: Key, resident: Resident, storedAt: nat, scannedAt: nat)
      requires Valid()
      requires resident.child in ledger && ledger[resident.child] == Held
      modifies this
      ensures Valid() && Conserved(old(ledger), ledger)
      ensures Capped(Inserted(old(sessions), key, resident, storedAt, scannedAt), sessions)
      ensures running == old(running) - Retired(old(sessions), key, resident, sessions)
      ensures ledger == AfterStop(old(ledger)[resident.child := Cached(key)],
                                  Retired(old(sessions), key, resident, sessions))
    {
      hide Agrees, Capped, Retired, AfterStop, Conserved, WithoutStale, Stale, Children;
      var entry := resident.(lastUsedAt := storedAt);
      var kept := WithoutStale(sessions, scannedAt);
      var retired := Stale(sessions, scannedAt);
      if key in kept {
        retired := retired + {kept[key]};
      }
      sessions := kept[key := entry];
      ledger := ledger[resident.child := Cached(key)];
      var evicted := EvictOverBound();
      StoreRetires(old(sessions), key, resident, storedAt, scannedAt, sessions, retired, evicted);
      StoreAgrees(old(ledger), old(sessions), running, key, resident, storedAt, scannedAt, sessions);
      StopAll(retired + evicted);
    }

    method RemoveResidentAcpSession(key: Key)
      requires Valid()
      modifies this
      ensures Valid() && Conserved(old(ledger), ledger)
      ensures sessions == old(sessions) - {key}
      ensures running == old(running) - ChildrenAt(old(sessions), {key})
      ensures ledger == AfterStop(old(ledger), ChildrenAt(old(sessions), {key}))
    {
      if key in sessions {
        var resident := sessions[key];
        assert ChildrenAt(sessions, {key}) == {resident.child};
        sessions := sessions - {key};
        StopResidentAcpSession(resident);
      } else {
        assert ChildrenAt(sessions, {key}) == {};
        assert AfterStop(ledger, {}) == ledger;
        assert sessions - {key} == sessions;
      }
    }

    /** Stops every session of one project directory. */
    method ShutdownResidentAcpSessions(cwd: nat)
      requires Valid()
      modifies this
      ensures Valid() && Conserved(old(ledger), ledger)
      ensures sessions == map k | k in old(sessions) && k.cwd != cwd :: old(sessions)[k]
      ensures var gone := ChildrenAt(old(sessions), set k | k in old(sessions) && k.cwd == cwd);
              && running == old(running) - gone
              && ledger == AfterStop(old(ledger), gone)
    {
      var keys := set k | k in sessions && k.cwd == cwd;
      var retired := set k | k in keys :: sessions[k];
      assert Children(retired) == ChildrenAt(sessions, keys);
      sessions := sessions - keys;
      StopAll(retired);
    }
  }

  /** A turn leaves its connection in the cache and the next one on the session
      asks for it: it gets that very connection back, its remote session and
      request number included, exactly if the cache kept it, the next turn is in
      time and wants the same command, mode, model and, if it names one, remote
      session. A child that had exited is never cached. */
  method StoreThenTake(cache: ResidentSessions, key: Key, resident: Resident, storedAt: nat, scannedAt: nat,
                       agentCommand: string, options: SessionOptions, now: nat)
    returns (taken: Option<Resident>)
    requires cache.Valid() && storedAt <= scannedAt
    requires resident.child in cache.ledger && cache.ledger[resident.child] == Held
    modifies cache
    ensures cache.Valid() && key !in cache.sessions
    ensures resident.child in old(cache.running) ==>
              && (taken.Some? ==> taken.value == resident.(lastUsedAt := storedAt))
              && (taken.Some? <==>
                    && |Later(Inserted(old(cache.sessions), key, resident, storedAt, scannedAt), key)| < 8
                    && now <= storedAt + 900_000
                    && resident.agentCommand == agentCommand
                    && resident.modeId == options.modeId && resident.modelId == options.modelId
                    && options.loadSessionId in {None, Some(resident.remoteSessionId)})
  {
    hide Capped, Inserted, Later, AfterStop, Conserved, Compatible;
    ghost var before, running := cache.sessions, cache.running;
    cache.StoreResidentAcpSession(key, resident, storedAt, scannedAt);
    if resident.child in running {
      StoredStays(before, key, resident, storedAt, scannedAt, cache.sessions);
    }
    taken := cache.TakeResidentAcpSession(key, agentCommand, options, now);
  }

  /** The children a store stops: every one whose session is gone from the
      cache, the one it replaced, and even the new one should it not stay. */
  ghost function Retired(before: Sessions, key: Key, resident: Resident, after: Sessions): set<Child> {
    ChildrenAt(before, before.Keys - after.Keys + {key}) + (if key in after then {} else {resident.child})
  }

  lemma StoreRetires(before: Sessions, key: Key, resident: Resident, storedAt: nat, scannedAt: nat, after: Sessions,
                     retired: set<Resident>, evicted: set<Resident>)
    requires var inserted := Inserted(before, key, resident, storedAt, scannedAt);
             && Capped(inserted, after)
             && evicted == set k | k in inserted && k !in after :: inserted[k]
    requires var kept := WithoutStale(before, scannedAt);
             retired == if key in kept then Stale(before, scannedAt) + {kept[key]} else Stale(before, scannedAt)
    ensures Children(retired + evicted) == Retired(before, key, resident, after)
  {
    var inserted := Inserted(before, key, resident, storedAt, scannedAt);
    forall c | c in Children(retired + evicted)
      ensures c in Retired(before, key, resident, after)
    {
      var r :| r in retired + evicted && r.child == c;
      if r in evicted {
        var k :| k in inserted && k !in after && inserted[k] == r;
        assert k == key || (k in before && before[k] == r);
      } else {
        var k :| k in before && before[k] == r && (k == key || !Fresh(before[k], scannedAt));
        assert k in before.Keys - after.Keys + {key};
      }
    }
    forall c | c in Retired(before, key, resident, after)
      ensures c in Children(retired + evicted)
    {
      if c in ChildrenAt(before, before.Keys - after.Keys + {key}) {
        var k :| k in before.Keys - after.Keys + {key} && k in before && before[k].child == c;
        if k == key || !Fresh(before[k], scannedAt) {
          assert before[k] in retired;
        } else {
          assert inserted[k] in evicted;
        }
      } else {
        assert inserted[key] in evicted;
      }
    }
  }

  ghost predicate CacheListed(ledger: Ledger, sessions: Sessions) {
    forall k | k in sessions :: sessions[k].child in ledger && ledger[sessions[k].child] == Cached(k)
  }

  ghost predicate ListedCached(ledger: Ledger, sessions: Sessions, gone: set<Child>) {
    forall c | c in ledger && ledger[c].Cached? && c !in gone ::
      ledger[c].key in sessions && sessions[ledger[c].key].child == c
  }

  ghost predicate RunningListed(ledger: Ledger, running: set<Child>) {
    forall c | c in running :: c in ledger && !Settled(ledger, c)
  }

  lemma AgreesAfterStop(stored: Ledger, after: Sessions, running: set<Child>, gone: set<Child>)
    requires CacheListed(stored, after) && ListedCached(stored, after, gone) && RunningListed(stored, running)
    requires forall k | k in after :: after[k].child !in gone
    ensures Agrees(AfterStop(stored, gone), after, running - gone)
  {
  }

  lemma KeptEntries(before: Sessions, key: Key, resident: Resident, storedAt: nat, scannedAt: nat, after: Sessions)
    requires Capped(Inserted(before, key, resident, storedAt, scannedAt), after)
    ensures forall k | k in after && k != key :: k in before && after[k] == before[k]
    ensures key in after ==> after[key].child == resident.child
  {
  }

  lemma SurvivorsListed(ledger: Ledger, before: Sessions, running: set<Child>, key: Key, resident: Resident,
                        storedAt: nat, scannedAt: nat, after: Sessions)
    requires Agrees(ledger, before, running)
    requires resident.child in ledger && ledger[resident.child] == Held
    requires Capped(Inserted(before, key, resident, storedAt, scannedAt), after)
    ensures CacheListed(ledger[resident.child := Cached(key)], after)
    ensures forall k | k in after :: after[k].child !in Retired(before, key, resident, after)
  {
    hide Capped, Inserted;
    KeptEntries(before, key, resident, storedAt, scannedAt, after);
  }

  lemma OthersRetired(ledger: Ledger, before: Sessions, running: set<Child>, key: Key, resident: Resident,
                      storedAt: nat, scannedAt: nat, after: Sessions)
    requires Agrees(ledger, before, running)
    requires resident.child in ledger && ledger[resident.child] == Held
    requires Capped(Inserted(before, key, resident, storedAt, scannedAt), after)
    ensures ListedCached(ledger[resident.child := Cached(key)], after, Retired(before, key, resident, after))
  {
    var gone := Retired(before, key, resident, after);
    forall c | c in ledger && c != resident.child && ledger[c].Cached? && c !in gone
      ensures ledger[c].key in after && after[ledger[c].key].child == c
    {
      assert ledger[c].key !in before.Keys - after.Keys + {key};
    }
  }

  lemma RetiredUnsettled(ledger: Ledger, before: Sessions, running: set<Child>, key: Key, resident: Resident,
                        after: Sessions)
    requires Agrees(ledger, before, running)
    requires resident.child in ledger && ledger[resident.child] == Held
    ensures var gone, stored := Retired(before, key, resident, after), ledger[resident.child := Cached(key)];
            gone <= stored.Keys && Conserved(ledger, AfterStop(stored, gone)) && RunningListed(stored, running)
  {
  }

  lemma StoreAgrees(ledger: Ledger, before: Sessions, running: set<Child>, key: Key, resident: Resident,
                    storedAt: nat, scannedAt: nat, after: Sessions)
    requires Agrees(ledger, before, running)
    requires resident.child in ledger && ledger[resident.child] == Held
    requires Capped(Inserted(before, key, resident, storedAt, scannedAt), after)
    ensures var gone, stored := Retired(before, key, resident, after), ledger[resident.child := Cached(key)];
            && gone <= stored.Keys
            && Agrees(AfterStop(stored, gone), after, running - gone)
            && Conserved(ledger, AfterStop(stored, gone))
  {
    hide *;
    SurvivorsListed(ledger, before, running, key, resident, storedAt, scannedAt, after);
    OthersRetired(ledger, before, running, key, resident, storedAt, scannedAt, after);
    RetiredUnsettled(ledger, before, running, key, resident, after);
    AgreesAfterStop(ledger[resident.child := Cached(key)], after, running, Retired(before, key, resident, after));
  }
}
