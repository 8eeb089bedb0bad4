/**
  The log index and the aggregate record under interleaving: the two keys that several calls read, change and
  write back.
 */
module SharedRecords {
  import opened Prelude
  import opened Models
  import opened Client
  import opened Kv
  import opened Interleaving
  import Framing

  ghost predicate Shared(key: string)
  {
    key == LOG_INDEX || key == SWARM_STATE
  }

  /** Plain sets and deletes leave the two shared keys to `append` and `update_status`. */
  ghost predicate Respectful(e: Event)
  {
    e.Spawn? && (e.job.SetJob? || e.job.DeleteJob?) ==> !Shared(e.job.key)
  }

  /** The root is that of the entry which append t uploaded: its own id, event type, role, timestamp and data. */
  ghost predicate EntryOf(env: Env, s: State, root: string, t: nat)
  {
    && t in s.ids && t < |s.tasks| && s.tasks[t].job.AppendJob?
    && Stored(s.mem, root, env.entry.enc(EntryFor(s.tasks[t].job, s.ids[t])))
  }

  /** The i-th root was uploaded by append who[i], and no append counts twice. */
  ghost predicate Attributed(env: Env, s: State, roots: seq<string>, who: seq<nat>)
  {
    && |who| == |roots|
    && (forall i | 0 <= i < |who| :: who[i] in s.indexed && EntryOf(env, s, roots[i], who[i]))
    && (forall i, j | 0 <= i < j < |who| :: who[i] != who[j])
  }

  /** The root is one that some indexed append uploaded its entry under. */
  ghost predicate FromAnAppend(env: Env, s: State, root: string)
  {
    exists t :: t in s.indexed && EntryOf(env, s, root, t)
  }

  ghost predicate IndexSound(env: Env, s: State, index: LogIndex)
  {
    index.entryCount == |index.entries| && exists who :: Attributed(env, s, index.entries, who)
  }

  ghost predicate IndexWritten(env: Env, s: State, data: Bytes)
  {
    exists index :: data == env.index.enc(index) && IndexSound(env, s, index)
  }

  ghost predicate SwarmWritten(env: Env, s: State, data: Bytes)
  {
    exists swarm :: data == env.swarm.enc(swarm) && SwarmSound(s, swarm)
  }

  /** Some update whose aggregate write took effect reported this state of this role. */
  ghost predicate Reported(s: State, role: string, state: AgentState)
  {
    exists t: nat :: t in s.aggregated && t < |s.tasks| && s.tasks[t].job == StatusJob(role, state)
  }

  /** The version is at most the number of aggregate writes, and every state in it was reported. */
  ghost predicate SwarmSound(s: State, swarm: SwarmState)
  {
    swarm.version <= |s.aggregated| && forall role | role in swarm.agents :: Reported(s, role, swarm.agents[role])
  }

  lemma SwarmSoundLater(s: State, s': State, swarm: SwarmState)
    requires SwarmSound(s, swarm) && Later(s, s')
    ensures SwarmSound(s', swarm)
  {
    forall role | role in swarm.agents
      ensures Reported(s', role, swarm.agents[role])
    {
      assert Reported(s, role, swarm.agents[role]);
      var t: nat :| t in s.aggregated && t < |s.tasks| && s.tasks[t].job == StatusJob(role, swarm.agents[role]);
      assert t in s'.aggregated && s'.tasks[t].job == StatusJob(role, swarm.agents[role]);
    }
  }

  /** An update adds its own state to an aggregate that is sound. */
  lemma SwarmExtended(s: State, s': State, t: nat, before: SwarmState, now: string)
    requires SwarmSound(s, before) && Later(s, s') && Unaggregated(s, t) && s'.aggregated == s.aggregated + {t}
    ensures SwarmSound(s', before.UpdateAgent(s.tasks[t].job.role, s.tasks[t].job.state, now))
  {
    SwarmSoundLater(s, s', before);
    assert Reported(s', s.tasks[t].job.role, s.tasks[t].job.state) by {
      assert t in s'.aggregated && s'.tasks[t].job == StatusJob(s.tasks[t].job.role, s.tasks[t].job.state);
    }
  }

  ghost predicate WritesOk(env: Env, s: State)
  {
    && (forall data :: (LOG_INDEX, data) in s.writes ==> IndexWritten(env, s, data))
    && (forall data :: (SWARM_STATE, data) in s.writes ==> SwarmWritten(env, s, data))
  }

  ghost predicate WasWritten(s: State, key: string, root: string)
  {
    exists data :: (key, data) in s.writes && Stored(s.mem, root, data)
  }

  /** Append t is on its way: it has an id, and no index mentions its entry yet. */
  ghost predicate Unindexed(s: State, t: nat, entry: LogEntry)
  {
    t in s.ids && t < |s.tasks| && s.tasks[t].job.AppendJob? && entry == EntryFor(s.tasks[t].job, s.ids[t]) &&
        t !in s.indexed
  }

  /** Status update t has not touched the aggregate yet. */
  ghost predicate Unaggregated(s: State, t: nat)
  {
    t < |s.tasks| && s.tasks[t].job.StatusJob? && t !in s.aggregated
  }

  ghost predicate ContOk(env: Env, s: State, t: nat, data: Bytes, cont: Cont)
  {
    match cont
    case StoreValue(key, purpose, next) =>
      (match purpose
       case User => !Shared(key) && next == Finish
       case OwnRecord => !Shared(key) && Unaggregated(s, t)
       case IndexWrite(read, entry, entryRoot) =>
         && key == LOG_INDEX && next == Finish
         && Unindexed(s, t, entry) && Stored(s.mem, entryRoot, env.entry.enc(entry))
         && IndexSound(env, s, read) && exists now :: data == env.index.enc(read.Append(entryRoot, now))
       case SwarmWrite(before) =>
         && key == SWARM_STATE && next == Finish
         && Unaggregated(s, t) && SwarmSound(s, before)
         && exists now :: data == env.swarm.enc(before.UpdateAgent(s.tasks[t].job.role, s.tasks[t].job.state, now)))
    case Publish(_, next) => next == ThenAggregate ==> Unaggregated(s, t)
    case EntryStored(entry) => data == env.entry.enc(entry) && Unindexed(s, t, entry)
  }

  ghost predicate TaskOk(env: Env, s: State, t: nat)
    requires t < |s.tasks|
  {
    var task := s.tasks[t];
    match task.pc
    case Ready =>
      && t !in s.ids && t !in s.indexed && t !in s.aggregated
      && (task.job.SetJob? || task.job.DeleteJob? ==> !Shared(task.job.key))
    case Uploading(data, cont) => ContOk(env, s, t, data, cont)
    case LoadingIndex(root, entry, entryRoot) =>
      WasWritten(s, LOG_INDEX, root) && Unindexed(s, t, entry) && Stored(s.mem, entryRoot, env.entry.enc(entry))
    case LoadingSwarm(root) => WasWritten(s, SWARM_STATE, root) && Unaggregated(s, t)
    case _ => true
  }

  ghost predicate IdsOk(s: State)
  {
    && (forall t | t in s.ids :: t < |s.tasks|)
    && (forall t, u | t in s.ids && u in s.ids && s.ids[t] == s.ids[u] :: t == u)
    && s.indexed <= s.ids.Keys
    && (forall t | t in s.aggregated :: t < |s.tasks| && s.tasks[t].job.StatusJob?)
  }

  ghost predicate LogInv(env: Env, s: State)
  {
    && IdsOk(s) && WritesOk(env, s)
    && forall t | 0 <= t < |s.tasks| :: TaskOk(env, s, t)
  }

  /** From s to s' no facts about task t are lost, and t itself has not moved. */
  ghost predicate Later(s: State, s': State)
  {
    && Extends(s.mem, s'.mem) && s.writes <= s'.writes
    && (forall t | t in s.ids :: t in s'.ids && s'.ids[t] == s.ids[t])
    && s.indexed <= s'.indexed && s.aggregated <= s'.aggregated && |s.aggregated| <= |s'.aggregated|
    && |s.tasks| <= |s'.tasks| && (forall t | 0 <= t < |s.tasks| :: s'.tasks[t].job == s.tasks[t].job)
  }

  ghost predicate Bystander(s: State, s': State, t: nat)
  {
    && t < |s.tasks| <= |s'.tasks| && s'.tasks[t] == s.tasks[t]
    && (t in s'.ids ==> t in s.ids)
    && (t in s'.indexed ==> t in s.indexed) && (t in s'.aggregated ==> t in s.aggregated)
  }

  lemma AttributedLater(env: Env, s: State, s': State, roots: seq<string>, who: seq<nat>)
    requires Attributed(env, s, roots, who) && Later(s, s')
    ensures Attributed(env, s', roots, who)
  {}

  lemma IndexSoundLater(env: Env, s: State, s': State, index: LogIndex)
    requires IndexSound(env, s, index) && Later(s, s')
    ensures IndexSound(env, s', index)
  {
    var who :| Attributed(env, s, index.entries, who);
    AttributedLater(env, s, s', index.entries, who);
  }

  lemma WritesLater(env: Env, s: State, s': State, data: Bytes)
    requires WritesOk(env, s) && Later(s, s')
    ensures (LOG_INDEX, data) in s.writes ==> IndexWritten(env, s', data)
    ensures (SWARM_STATE, data) in s.writes ==> SwarmWritten(env, s', data)
  {
    if (LOG_INDEX, data) in s.writes {
      var index :| data == env.index.enc(index) && IndexSound(env, s, index);
      IndexSoundLater(env, s, s', index);
    }
    if (SWARM_STATE, data) in s.writes {
      var swarm :| data == env.swarm.enc(swarm) && SwarmSound(s, swarm);
      SwarmSoundLater(s, s', swarm);
    }
  }

  lemma WasWrittenLater(s: State, s': State, key: string, root: string)
    requires WasWritten(s, key, root) && Later(s, s')
    ensures WasWritten(s', key, root)
  {}

  lemma BystanderOk(env: Env, s: State, s': State, t: nat)
    requires Later(s, s') && Bystander(s, s', t) && TaskOk(env, s, t)
    ensures TaskOk(env, s', t)
  {
    var pc := s.tasks[t].pc;
    if pc.LoadingIndex? {
      WasWrittenLater(s, s', LOG_INDEX, pc.root);
    } else if pc.LoadingSwarm? {
      WasWrittenLater(s, s', SWARM_STATE, pc.root);
    } else if pc.Uploading? && pc.cont.StoreValue? && pc.cont.purpose.IndexWrite? {
      IndexSoundLater(env, s, s', pc.cont.purpose.read);
    } else if pc.Uploading? && pc.cont.StoreValue? && pc.cont.purpose.SwarmWrite? {
      SwarmSoundLater(s, s', pc.cont.purpose.before);
    }
  }

  /** A step that moves only task t keeps the invariant if it leaves t well placed and its writes sound. */
  lemma MoveKeepsLogInv(env: Env, s: State, s': State, t: nat)
    requires LogInv(env, s) && Later(s, s') && IdsOk(s') && WritesOk(env, s')
    requires |s'.tasks| == |s.tasks| && t < |s.tasks| && TaskOk(env, s', t)
    requires forall u | 0 <= u < |s.tasks| && u != t :: Bystander(s, s', u)
    ensures LogInv(env, s')
  {
    forall u | 0 <= u < |s'.tasks|
      ensures TaskOk(env, s', u)
    {
      if u != t {
        BystanderOk(env, s, s', u);
      }
    }
  }

  lemma SameWritesOk(env: Env, s: State, s': State)
    requires WritesOk(env, s) && Later(s, s') && s'.writes == s.writes
    ensures WritesOk(env, s')
  {
    forall data
      ensures (LOG_INDEX, data) in s.writes ==> IndexWritten(env, s', data)
      ensures (SWARM_STATE, data) in s.writes ==> SwarmWritten(env, s', data)
    {
      WritesLater(env, s, s', data);
    }
  }

  /** Only task t has moved, and nothing the invariant speaks of has changed but its place. */
  ghost predicate OnlyMoves(s: State, s': State, t: nat)
  {
    && s'.mem == s.mem && s'.writes == s.writes && s'.ids == s.ids && s'.indexed == s.indexed &&
       s'.aggregated == s.aggregated
    && t < |s.tasks| == |s'.tasks| && s'.tasks[t].job == s.tasks[t].job
    && forall u | 0 <= u < |s.tasks| && u != t :: s'.tasks[u] == s.tasks[u]
  }

  lemma OnlyMovesKeepsLogInv(env: Env, s: State, s': State, t: nat)
    requires LogInv(env, s) && OnlyMoves(s, s', t) && TaskOk(env, s', t)
    ensures LogInv(env, s')
  {
    SameWritesOk(env, s, s');
    MoveKeepsLogInv(env, s, s', t);
  }

  lemma AppendStartKeepsLogInv(env: Env, s: State, t: nat, now: string, freshId: string)
    requires LogInv(env, s) && Enabled(env, s, Start(t, now, freshId)) && s.tasks[t].job.AppendJob?
    ensures LogInv(env, Started(env, s, t, now, freshId))
  {
    var s' := Started(env, s, t, now, freshId);
    assert TaskOk(env, s, t);
    forall u | u in s.ids
      ensures s.ids[u] != freshId
    {
      assert s.ids[u] in s.ids.Values;
    }
    SameWritesOk(env, s, s');
    MoveKeepsLogInv(env, s, s', t);
  }

  lemma StatusStartKeepsLogInv(env: Env, s: State, t: nat, now: string, freshId: string)
    requires LogInv(env, s) && Enabled(env, s, Start(t, now, freshId)) && s.tasks[t].job.StatusJob?
    ensures LogInv(env, Started(env, s, t, now, freshId))
  {
    var s' := Started(env, s, t, now, freshId);
    assert TaskOk(env, s, t);
    AgentKeysSeparate(s.tasks[t].job.role, "");
    OnlyMovesKeepsLogInv(env, s, s', t);
  }

  lemma PlainStartKeepsLogInv(env: Env, s: State, t: nat, now: string, freshId: string)
    requires LogInv(env, s) && Enabled(env, s, Start(t, now, freshId)) &&
             (s.tasks[t].job.SetJob? || s.tasks[t].job.DeleteJob?)
    ensures LogInv(env, Started(env, s, t, now, freshId))
  {
    var s' := Started(env, s, t, now, freshId);
    assert TaskOk(env, s, t);
    OnlyMovesKeepsLogInv(env, s, s', t);
  }

  lemma StartKeepsLogInv(env: Env, s: State, t: nat, now: string, freshId: string)
    requires LogInv(env, s) && Enabled(env, s, Start(t, now, freshId))
    ensures LogInv(env, Started(env, s, t, now, freshId))
  {
    if s.tasks[t].job.AppendJob? {
      AppendStartKeepsLogInv(env, s, t, now, freshId);
    } else if s.tasks[t].job.StatusJob? {
      StatusStartKeepsLogInv(env, s, t, now, freshId);
    } else {
      PlainStartKeepsLogInv(env, s, t, now, freshId);
    }
  }

  /** What a root in the manifest under a shared key holds was written there. */
  lemma ManifestWritten(env: Env, s: State, key: string)
    requires KvInv(env, s) && key in s.manifest
    ensures WasWritten(s, key, s.manifest[key])
  {}

  lemma EntryUploadedKeepsLogInv(env: Env, s: State, t: nat, now: string)
    requires env.CollisionFree() && KvInv(env, s) && LogInv(env, s) && Enabled(env, s, Resume(t, now))
    requires s.tasks[t].pc.Uploading? && s.tasks[t].pc.cont.EntryStored?
    ensures LogInv(env, Resumed(env, s, t, now))
  {
    var s' := Resumed(env, s, t, now);
    assert TaskOk(env, s, t);
    LandedIsStored(env, s.mem, s.tasks[t].pc.data);
    if LOG_INDEX in s.manifest {
      ManifestWritten(env, s, LOG_INDEX);
    } else {
      assert Attributed(env, s', [], []);
      assert IndexSound(env, s', EmptyIndex(now));
    }
    OnlyMovesKeepsLogInv(env, s, s', t);
  }

  lemma IndexLoadedKeepsLogInv(env: Env, s: State, t: nat, now: string)
    requires env.index.RoundTrips() && LogInv(env, s) && Enabled(env, s, Resume(t, now))
    requires s.tasks[t].pc.LoadingIndex?
    ensures LogInv(env, Resumed(env, s, t, now))
  {
    var s' := Resumed(env, s, t, now);
    var LoadingIndex(root, entry, entryRoot) := s.tasks[t].pc;
    assert TaskOk(env, s, t);
    var data :| (LOG_INDEX, data) in s.writes && Stored(s.mem, root, data);
    var index :| data == env.index.enc(index) && IndexSound(env, s, index);
    IndexSoundLater(env, s, s', index);
    OnlyMovesKeepsLogInv(env, s, s', t);
  }

  lemma SwarmLoadedKeepsLogInv(env: Env, s: State, t: nat, now: string)
    requires env.swarm.RoundTrips() && LogInv(env, s) && Enabled(env, s, Resume(t, now))
    requires s.tasks[t].pc.LoadingSwarm?
    ensures LogInv(env, Resumed(env, s, t, now))
  {
    var s' := Resumed(env, s, t, now);
    assert TaskOk(env, s, t);
    var data :| (SWARM_STATE, data) in s.writes && Stored(s.mem, s.tasks[t].pc.root, data);
    var swarm :| data == env.swarm.enc(swarm) && SwarmSound(s, swarm);
    SwarmSoundLater(s, s', swarm);
    OnlyMovesKeepsLogInv(env, s, s', t);
  }

  lemma ManifestStoredKeepsLogInv(env: Env, s: State, t: nat, now: string)
    requires KvInv(env, s) && LogInv(env, s) && Enabled(env, s, Resume(t, now))
    requires s.tasks[t].pc.Uploading? && s.tasks[t].pc.cont.Publish?
    ensures LogInv(env, Resumed(env, s, t, now))
  {
    var s' := Resumed(env, s, t, now);
    assert TaskOk(env, s, t);
    if SWARM_STATE in s.manifest {
      ManifestWritten(env, s, SWARM_STATE);
    }
    OnlyMovesKeepsLogInv(env, s, s', t);
  }

  /** The index an append writes is the one it read plus its own entry, so it is sound again. */
  lemma IndexExtended(env: Env, s: State, s': State, t: nat, read: LogIndex, entry: LogEntry, entryRoot: string,
                      now: string)
    requires Later(s, s') && IndexSound(env, s, read) && Unindexed(s, t, entry)
    requires Stored(s.mem, entryRoot, env.entry.enc(entry)) && t in s'.indexed
    ensures IndexSound(env, s', read.Append(entryRoot, now))
  {
    var who :| Attributed(env, s, read.entries, who);
    AttributedLater(env, s, s', read.entries, who);
    assert entry.entryId == s'.ids[t] && Stored(s'.mem, entryRoot, env.entry.enc(entry));
    assert Attributed(env, s', read.Append(entryRoot, now).entries, who + [t]);
  }

  lemma NewWriteOk(env: Env, s: State, s': State, t: nat)
    requires LogInv(env, s) && Later(s, s') && t < |s.tasks|
    requires s.tasks[t].pc.Uploading? && s.tasks[t].pc.cont.StoreValue?
    requires
      var purpose := s.tasks[t].pc.cont.purpose;
      && (purpose.IndexWrite? ==> s'.indexed == s.indexed + {t})
      && (purpose.SwarmWrite? ==> s'.aggregated == s.aggregated + {t})
    ensures s.tasks[t].pc.cont.key == LOG_INDEX ==> IndexWritten(env, s', s.tasks[t].pc.data)
    ensures s.tasks[t].pc.cont.key == SWARM_STATE ==> SwarmWritten(env, s', s.tasks[t].pc.data)
  {
    AgentKeysSeparate("", "");
    assert TaskOk(env, s, t);
    var Uploading(data, StoreValue(key, purpose, _)) := s.tasks[t].pc;
    if purpose.IndexWrite? {
      var now :| data == env.index.enc(purpose.read.Append(purpose.entryRoot, now));
      IndexExtended(env, s, s', t, purpose.read, purpose.entry, purpose.entryRoot, now);
    } else if purpose.SwarmWrite? {
      var now :| data == env.swarm.enc(purpose.before.UpdateAgent(s.tasks[t].job.role, s.tasks[t].job.state, now));
      SwarmExtended(s, s', t, purpose.before, now);
    }
  }

  lemma ValueStoredKeepsLogInv(env: Env, s: State, t: nat, now: string)
    requires LogInv(env, s) && Enabled(env, s, Resume(t, now))
    requires s.tasks[t].pc.Uploading? && s.tasks[t].pc.cont.StoreValue?
    ensures LogInv(env, Resumed(env, s, t, now))
  {
    var s' := Resumed(env, s, t, now);
    assert TaskOk(env, s, t);
    assert |s.aggregated| <= |s'.aggregated|;
    NewWriteOk(env, s, s', t);
    forall data
      ensures (LOG_INDEX, data) in s'.writes ==> IndexWritten(env, s', data)
      ensures (SWARM_STATE, data) in s'.writes ==> SwarmWritten(env, s', data)
    {
      WritesLater(env, s, s', data);
    }
    MoveKeepsLogInv(env, s, s', t);
  }

  lemma LandedKeepsLogInv(env: Env, s: State, data: Bytes)
    requires env.CollisionFree() && KvInv(env, s) && LogInv(env, s) && Landable(env, data)
    ensures LogInv(env, Landed(env, s, data))
  {
    LandedGrows(env, s, data);
    var s' := Landed(env, s, data);
    SameWritesOk(env, s, s');
    forall u | 0 <= u < |s'.tasks|
      ensures TaskOk(env, s', u)
    {
      BystanderOk(env, s, s', u);
    }
  }

  lemma SpawnKeepsLogInv(env: Env, s: State, job: Job)
    requires LogInv(env, s) && Respectful(Spawn(job))
    ensures LogInv(env, Apply(env, s, Spawn(job)))
  {
    var s' := Apply(env, s, Spawn(job));
    SameWritesOk(env, s, s');
    forall u | 0 <= u < |s'.tasks|
      ensures TaskOk(env, s', u)
    {
      if u < |s.tasks| {
        BystanderOk(env, s, s', u);
      }
    }
  }

  lemma StepKeepsLogInv(env: Env, s: State, e: Event)
    requires env.CollisionFree() && env.CodecsRoundTrip() && KvInv(env, s) && LogInv(env, s)
    requires Enabled(env, s, e) && Respectful(e)
    ensures LogInv(env, Apply(env, s, e))
  {
    match e
    case Spawn(job) => SpawnKeepsLogInv(env, s, job);
    case Start(t, now, freshId) => StartKeepsLogInv(env, s, t, now, freshId);
    case Land(t) => LandedKeepsLogInv(env, s, s.tasks[t].pc.data);
    case Foreign(data) => LandedKeepsLogInv(env, s, data);
    case Fail(t) =>
      OnlyMovesKeepsLogInv(env, s, Apply(env, s, e), t);
    case Resume(t, now) =>
      var pc := s.tasks[t].pc;
      if pc.LoadingIndex? {
        IndexLoadedKeepsLogInv(env, s, t, now);
      } else if pc.LoadingSwarm? {
        SwarmLoadedKeepsLogInv(env, s, t, now);
      } else if pc.cont.StoreValue? {
        ValueStoredKeepsLogInv(env, s, t, now);
      } else if pc.cont.Publish? {
        ManifestStoredKeepsLogInv(env, s, t, now);
      } else {
        EntryUploadedKeepsLogInv(env, s, t, now);
      }
  }

  lemma {:induction false} RunKeepsLogInv(env: Env, trace: seq<State>, events: seq<Event>, i: nat)
    requires env.CollisionFree() && env.CodecsRoundTrip() && IsRun(env, trace, events) && i < |trace|
    requires forall e | e in events :: Respectful(e)
    ensures LogInv(env, trace[i])
  {
    if i > 0 {
      RunKeepsLogInv(env, trace, events, i - 1);
      RunKeepsKvInv(env, trace, events, i - 1);
      StepKeepsLogInv(env, trace[i - 1], events[i - 1]);
    }
  }

  /** Distinct appends have distinct entries, hence distinct roots. */
  lemma AttributedHasNoDuplicates(env: Env, s: State, roots: seq<string>, who: seq<nat>, i: nat, j: nat)
    requires env.entry.RoundTrips() && IdsOk(s) && Attributed(env, s, roots, who) && i < j < |roots|
    ensures roots[i] != roots[j]
  {}

  /**
    Every LogIndex a run ever stores counts its entries correctly, repeats none, and lists only roots
    under which a started append's own entry is stored.
   */
  lemma StoredIndexIsSound(env: Env, trace: seq<State>, events: seq<Event>, i: nat, data: Bytes)
    returns (index: LogIndex)
    requires env.CollisionFree() && env.CodecsRoundTrip() && IsRun(env, trace, events) && i < |trace|
    requires forall e | e in events :: Respectful(e)
    requires (LOG_INDEX, data) in trace[i].writes
    ensures env.index.dec(data) == Some(index)
    ensures index.entryCount == |index.entries|
    ensures forall a, b | 0 <= a < b < |index.entries| :: index.entries[a] != index.entries[b]
    ensures forall a | 0 <= a < |index.entries| :: FromAnAppend(env, trace[i], index.entries[a])
  {
    RunKeepsLogInv(env, trace, events, i);
    var s := trace[i];
    assert IndexWritten(env, s, data);
    index :| data == env.index.enc(index) && IndexSound(env, s, index);
    var who :| Attributed(env, s, index.entries, who);
    forall a, b | 0 <= a < b < |index.entries|
      ensures index.entries[a] != index.entries[b]
    {
      AttributedHasNoDuplicates(env, s, index.entries, who, a, b);
    }
    forall a | 0 <= a < |index.entries|
      ensures FromAnAppend(env, s, index.entries[a])
    {
      assert who[a] in s.indexed && EntryOf(env, s, index.entries[a], who[a]);
    }
  }

  /** Append t has uploaded its entry and is about to look the index up. */
  ghost predicate LooksUp(s: State, t: nat)
  {
    t < |s.tasks| && s.tasks[t].pc.Uploading? && s.tasks[t].pc.cont.EntryStored?
  }

  /** Append t has an index write under way. */
  ghost predicate WritesIndex(s: State, t: nat)
  {
    && t < |s.tasks| && s.tasks[t].pc.Uploading? && s.tasks[t].pc.cont.StoreValue?
    && s.tasks[t].pc.cont.purpose.IndexWrite?
  }

  /** Append t has just looked the index up in s: it is loading the present root, or writes the first index. */
  ghost predicate LookedUp(s: State, s': State, t: nat)
    requires t < |s'.tasks|
  {
    LooksUp(s, t) &&
    if s'.tasks[t].pc.LoadingIndex? then LOG_INDEX in s.manifest && s'.tasks[t].pc.root == s.manifest[LOG_INDEX]
    else LOG_INDEX !in s.manifest && WritesIndex(s', t) &&
         var read := s'.tasks[t].pc.cont.purpose.read; read.entries == [] && read.entryCount == 0
  }

  /** Append t has just loaded the index in s, and writes an extension of it. */
  ghost predicate JustLoaded(env: Env, s: State, s': State, t: nat)
    requires t < |s'.tasks|
  {
    && t < |s.tasks| && s.tasks[t].pc.LoadingIndex? && s.tasks[t].pc.root in s.mem && WritesIndex(s', t)
    && var decoded := env.index.dec(Framing.Unframe(s.mem[s.tasks[t].pc.root]));
       decoded.Some? ==> s'.tasks[t].pc.cont.purpose.read == decoded.value
  }

  ghost predicate IndexMove(env: Env, s: State, s': State, t: nat)
    requires t < |s'.tasks|
  {
    && (s'.tasks[t].pc.LoadingIndex? ==> LookedUp(s, s', t))
    && (WritesIndex(s', t) ==> LookedUp(s, s', t) || JustLoaded(env, s, s', t))
  }

  lemma StartIndexSteps(env: Env, s: State, t: nat, now: string, freshId: string)
    requires Enabled(env, s, Start(t, now, freshId))
    ensures IndexMove(env, s, Started(env, s, t, now, freshId), t)
  {}

  lemma ResumeIndexSteps(env: Env, s: State, t: nat, now: string)
    requires Enabled(env, s, Resume(t, now))
    ensures
      var s' := Resumed(env, s, t, now); t < |s'.tasks| && IndexMove(env, s, s', t)
  {}

  /** Where a task can have come from when it starts loading the index, or writing it. */
  lemma IndexSteps(env: Env, s: State, e: Event, t: nat)
    requires Enabled(env, s, e) && t < |Apply(env, s, e).tasks|
    ensures
      var s' := Apply(env, s, e);
      (t < |s.tasks| && s'.tasks[t] == s.tasks[t]) || IndexMove(env, s, s', t)
  {
    if e.Resume? && e.t == t {
      ResumeIndexSteps(env, s, t, e.now);
    } else if e.Start? && e.t == t {
      StartIndexSteps(env, s, t, e.now, e.freshId);
    } else if t < |s.tasks| && !(e.Fail? && e.t == t) {
      TaskStays(env, s, e, t);
    }
  }

  /** An append that is loading a root took it from the manifest of a moment k at which it looked the index up. */
  lemma {:induction false} LoadedRootWasCurrent(env: Env, trace: seq<State>, events: seq<Event>, i: nat, t: nat)
    returns (k: nat)
    requires IsRun(env, trace, events) && i < |trace| && t < |trace[i].tasks| && trace[i].tasks[t].pc.LoadingIndex?
    ensures k < i && LooksUp(trace[k], t)
    ensures LOG_INDEX in trace[k].manifest && trace[i].tasks[t].pc.root == trace[k].manifest[LOG_INDEX]
  {
    var s, e := trace[i - 1], events[i - 1];
    IndexSteps(env, s, e, t);
    if t < |s.tasks| && trace[i].tasks[t] == s.tasks[t] {
      k := LoadedRootWasCurrent(env, trace, events, i - 1, t);
    } else {
      k := i - 1;
    }
  }

  /** `index` is what the manifest of s had under the index key, read back from the blobs in mem. */
  ghost predicate IndexThen(env: Env, s: State, mem: Blobs, index: LogIndex)
  {
    if LOG_INDEX !in s.manifest then index.entries == [] && index.entryCount == 0
    else s.manifest[LOG_INDEX] in mem && env.index.dec(Framing.Unframe(mem[s.manifest[LOG_INDEX]])) == Some(index)
  }

  /** The index that an append extends is the one the manifest had at a moment k at which that append looked it up. */
  lemma {:induction false} ReadWasCurrent(env: Env, trace: seq<State>, events: seq<Event>, i: nat, t: nat)
    returns (k: nat)
    requires env.CollisionFree() && env.CodecsRoundTrip() && IsRun(env, trace, events) && i < |trace|
    requires (forall e | e in events :: Respectful(e)) && WritesIndex(trace[i], t)
    ensures k < i && LooksUp(trace[k], t)
    ensures IndexThen(env, trace[k], trace[i].mem, trace[i].tasks[t].pc.cont.purpose.read)
  {
    var s, e := trace[i - 1], events[i - 1];
    RunGrows(env, trace, events, i - 1, i);
    IndexSteps(env, s, e, t);
    if t < |s.tasks| && trace[i].tasks[t] == s.tasks[t] {
      k := ReadWasCurrent(env, trace, events, i - 1, t);
    } else if LooksUp(s, t) {
      k := i - 1;
    } else {
      k := LoadedRootWasCurrent(env, trace, events, i - 1, t);
      LoadedIndexDecodes(env, trace, events, i - 1, t);
    }
  }

  lemma LoadedIndexDecodes(env: Env, trace: seq<State>, events: seq<Event>, i: nat, t: nat)
    requires env.CollisionFree() && env.CodecsRoundTrip() && IsRun(env, trace, events) && i < |trace|
    requires (forall e | e in events :: Respectful(e)) && t < |trace[i].tasks| && trace[i].tasks[t].pc.LoadingIndex?
    ensures
      var root := trace[i].tasks[t].pc.root;
      root in trace[i].mem && env.index.dec(Framing.Unframe(trace[i].mem[root])).Some?
  {
    RunKeepsLogInv(env, trace, events, i);
    var s := trace[i];
    assert TaskOk(env, s, t);
    var data :| (LOG_INDEX, data) in s.writes && Stored(s.mem, s.tasks[t].pc.root, data);
    assert IndexWritten(env, s, data);
  }

  /**
    Each index write extends by exactly its own, new root the index that its append had read: the one the manifest
    had at a moment k at which the append looked it up, after its entry had been uploaded.
   */
  lemma IndexWriteExtendsRead(env: Env, trace: seq<State>, events: seq<Event>, i: nat, t: nat)
    returns (k: nat, read: LogIndex)
    requires env.CollisionFree() && env.CodecsRoundTrip() && IsRun(env, trace, events) && i < |trace|
    requires forall e | e in events :: Respectful(e)
    requires t < |trace[i].tasks| && trace[i].tasks[t].pc.Uploading? && trace[i].tasks[t].pc.cont.StoreValue?
    requires trace[i].tasks[t].pc.cont.key == LOG_INDEX
    ensures k < i && LooksUp(trace[k], t) && IndexThen(env, trace[k], trace[i].mem, read)
    ensures
      var index := env.index.dec(trace[i].tasks[t].pc.data);
      && index.Some? && |index.value.entries| == |read.entries| + 1 && index.value.entryCount == read.entryCount + 1
      && read.entries < index.value.entries
      && var own := index.value.entries[|read.entries|];
         own !in read.entries && EntryOf(env, trace[i], own, t)
  {
    RunKeepsLogInv(env, trace, events, i);
    var s := trace[i];
    AgentKeysSeparate("", "");
    assert TaskOk(env, s, t);
    var p := s.tasks[t].pc.cont.purpose;
    read := p.read;
    k := ReadWasCurrent(env, trace, events, i, t);
    OwnRootIsNew(env, s, t);
  }

  lemma OwnRootIsNew(env: Env, s: State, t: nat)
    requires env.entry.RoundTrips() && IdsOk(s) && WritesIndex(s, t) && TaskOk(env, s, t)
    ensures var p := s.tasks[t].pc.cont.purpose; p.entryRoot !in p.read.entries
  {
    var p := s.tasks[t].pc.cont.purpose;
    var who :| Attributed(env, s, p.read.entries, who);
    forall a | 0 <= a < |p.read.entries|
      ensures p.read.entries[a] != p.entryRoot
    {
      assert EntryOf(env, s, p.read.entries[a], who[a]);
      var e := EntryFor(s.tasks[who[a]].job, s.ids[who[a]]);
      assert env.entry.dec(env.entry.enc(e)) == Some(e) && env.entry.dec(env.entry.enc(p.entry)) == Some(p.entry);
    }
  }

  function CompletedUpdates(s: State): set<nat>
  {
    set t: nat | t < |s.tasks| && s.tasks[t].job.StatusJob? && s.tasks[t].pc == Done
  }

  lemma SubsetIsNoLarger(a: set<nat>, b: set<nat>)
    requires a <= b
    ensures |a| <= |b|
  {
    assert b == a + (b - a);
  }

  /**
    No stored aggregate is ever at a version above the number of status updates whose aggregate write took
    effect; so its version stays within the completed updates whenever each of those has completed.
   */
  lemma VersionWithinUpdates(env: Env, trace: seq<State>, events: seq<Event>, i: nat, data: Bytes)
    returns (swarm: SwarmState)
    requires env.CollisionFree() && env.CodecsRoundTrip() && IsRun(env, trace, events) && i < |trace|
    requires forall e | e in events :: Respectful(e)
    requires (SWARM_STATE, data) in trace[i].writes
    ensures env.swarm.dec(data) == Some(swarm)
    ensures swarm.version <= |trace[i].aggregated|
    ensures forall role | role in swarm.agents :: Reported(trace[i], role, swarm.agents[role])
    ensures forall t | t in trace[i].aggregated :: t < |trace[i].tasks| && trace[i].tasks[t].job.StatusJob?
    ensures trace[i].aggregated <= CompletedUpdates(trace[i]) ==> swarm.version <= |CompletedUpdates(trace[i])|
  {
    RunKeepsLogInv(env, trace, events, i);
    assert SwarmWritten(env, trace[i], data);
    swarm :| data == env.swarm.enc(swarm) && SwarmSound(trace[i], swarm);
    if trace[i].aggregated <= CompletedUpdates(trace[i]) {
      SubsetIsNoLarger(trace[i].aggregated, CompletedUpdates(trace[i]));
    }
  }

  /** An update that has published its own record and is about to write the first aggregate. */
  lemma RecordPublished(env: Env, role: string, state: AgentState, now: string)
    returns (trace: seq<State>, events: seq<Event>)
    requires Landable(env, env.agent.enc(state))
    requires Landable(env, ManifestBytes(env, map[AgentKey(role) := FrameRoot(env, env.agent.enc(state))], now))
    ensures IsRun(env, trace, events)
    ensures
      var job := StatusJob(role, state);
      Now(trace).tasks == [Task(job, WriteSwarm(env, EmptySwarm(now), job, now))]
  {
    var job := StatusJob(role, state);
    AgentKeysSeparate(role, role);
    trace, events := [INITIAL], [];
    trace, events := Extend(env, trace, events, Spawn(job));
    trace, events := Extend(env, trace, events, Start(0, now, ""));
    trace, events := Pass(env, trace, events, 0, now);
    assert Now(trace).manifest == map[AgentKey(role) := FrameRoot(env, env.agent.enc(state))];
    trace, events := Pass(env, trace, events, 0, now);
  }

  /**
    The version can outrun the completed updates: one update whose last persist fails leaves version 1 in the
    manifest, and no update completed.
   */
  lemma VersionCanExceedCompleted(env: Env, role: string, state: AgentState, now: string)
    returns (trace: seq<State>, events: seq<Event>, swarm: SwarmState)
    requires Landable(env, env.agent.enc(state))
    requires Landable(env, ManifestBytes(env, map[AgentKey(role) := FrameRoot(env, env.agent.enc(state))], now))
    requires Landable(env, env.swarm.enc(EmptySwarm(now).UpdateAgent(role, state, now)))
    ensures IsRun(env, trace, events)
    ensures (SWARM_STATE, env.swarm.enc(swarm)) in Now(trace).writes && swarm.version == 1
    ensures CompletedUpdates(Now(trace)) == {}
  {
    swarm := EmptySwarm(now).UpdateAgent(role, state, now);
    trace, events := RecordPublished(env, role, state, now);
    trace, events := Pass(env, trace, events, 0, now);
    trace, events := Extend(env, trace, events, Fail(0));
    assert Now(trace).tasks == [Task(StatusJob(role, state), Failed)];
  }
}
