/** A call that meets no other: in the step machine it does what the sequential functions say. */
module Alone {
  import opened Prelude
  import opened Models
  import opened Client
  import opened Kv
  import opened Interleaving
  import Log
  import Memory
  import Framing

  function KvNow(s: State): KvState
  {
    KvState(s.manifest, s.root)
  }

  /** A step of task t other than its failing. */
  ghost predicate By(e: Event, t: nat)
  {
    (e.Start? || e.Land? || e.Resume?) && e.t == t
  }

  /** Nothing but calls' own steps, all of task t. */
  ghost predicate OnlyBy(events: seq<Event>, t: nat)
  {
    forall e | e in events :: By(e, t)
  }

  /** Only task t has moved, and it now stands at pc. */
  ghost predicate MovedTo(s: State, s': State, t: nat, pc: Pc)
  {
    t < |s.tasks| && s'.tasks == s.tasks[t := s.tasks[t].(pc := pc)]
  }

  /** What a task does once its `set` has returned. */
  function NextPc(env: Env, s: State, job: Job, next: After, now: string): Pc
  {
    if next == Finish || !job.StatusJob? then Done
    else if SWARM_STATE in s.manifest then LoadingSwarm(s.manifest[SWARM_STATE])
    else WriteSwarm(env, EmptySwarm(now), job, now)
  }

  /** From the value's upload on, an undisturbed task does what `set` does. */
  lemma StoreAlone(env: Env, trace: seq<State>, events: seq<Event>, t: nat, now: string, later: string)
    returns (trace': seq<State>, mine: seq<Event>)
    requires IsRun(env, trace, events) && t < |Now(trace).tasks|
    requires Now(trace).tasks[t].pc.Uploading? && Now(trace).tasks[t].pc.cont.StoreValue?
    requires
      var s, pc := Now(trace), Now(trace).tasks[t].pc;
      SetTrusted(env, KvNow(s), pc.cont.key, pc.data, now) && Set(env, s.mem, KvNow(s), pc.cont.key, pc.data, now).ok
    ensures IsRun(env, trace', events + mine) && OnlyBy(mine, t)
    ensures
      var s, s', pc := Now(trace), Now(trace'), Now(trace).tasks[t].pc;
      && Outcome(s'.mem, KvNow(s'), true) == Set(env, s.mem, KvNow(s), pc.cont.key, pc.data, now)
      && MovedTo(s, s', t, NextPc(env, s', s.tasks[t].job, pc.cont.next, later))
  {
    var events': seq<Event>;
    trace', events' := Pass(env, trace, events, t, now);
    trace', events' := Pass(env, trace', events', t, later);
    mine := [Land(t), Resume(t, now), Land(t), Resume(t, later)];
    assert events' == events + mine;
  }

  /** An undisturbed set is the sequential `set`. */
  lemma SetAlone(env: Env, trace: seq<State>, events: seq<Event>, t: nat, now: string, freshId: string)
    returns (trace': seq<State>, mine: seq<Event>)
    requires IsRun(env, trace, events) && Enabled(env, Now(trace), Start(t, now, freshId)) &&
             Now(trace).tasks[t].job.SetJob?
    requires
      var s, job := Now(trace), Now(trace).tasks[t].job;
      SetTrusted(env, KvNow(s), job.key, job.value, now) && Set(env, s.mem, KvNow(s), job.key, job.value, now).ok
    ensures IsRun(env, trace', events + mine) && OnlyBy(mine, t)
    ensures
      var s, s', job := Now(trace), Now(trace'), Now(trace).tasks[t].job;
      && Outcome(s'.mem, KvNow(s'), true) == Set(env, s.mem, KvNow(s), job.key, job.value, now)
      && MovedTo(s, s', t, Done)
  {
    var start := Start(t, now, freshId);
    var trace1, events1 := Extend(env, trace, events, start);
    trace', mine := StoreAlone(env, trace1, events1, t, now, now);
    mine := [start] + mine;
    assert events + mine == events1 + mine[1..];
  }

  /** An undisturbed delete is the sequential `delete`. */
  lemma DeleteAlone(env: Env, trace: seq<State>, events: seq<Event>, t: nat, now: string, freshId: string)
    returns (trace': seq<State>, mine: seq<Event>)
    requires IsRun(env, trace, events) && Enabled(env, Now(trace), Start(t, now, freshId)) &&
             Now(trace).tasks[t].job.DeleteJob?
    requires
      var s, key := Now(trace), Now(trace).tasks[t].job.key;
      DeleteTrusted(env, KvNow(s), key, now) && Delete(env, s.mem, KvNow(s), key, now).ok
    ensures IsRun(env, trace', events + mine) && OnlyBy(mine, t)
    ensures
      var s, s', key := Now(trace), Now(trace'), Now(trace).tasks[t].job.key;
      && Outcome(s'.mem, KvNow(s'), true) == Delete(env, s.mem, KvNow(s), key, now)
      && MovedTo(s, s', t, Done)
  {
    var events': seq<Event>;
    trace', events' := Extend(env, trace, events, Start(t, now, freshId));
    mine := [Start(t, now, freshId)];
    if Now(trace).tasks[t].job.key in Now(trace).manifest {
      trace', events' := Pass(env, trace', events', t, now);
      mine := mine + [Land(t), Resume(t, now)];
    }
    assert events' == events + mine;
  }

  /** In every reachable state what the manifest mentions can be read back, from any node. */
  lemma ReadsWork(env: Env, node: Node, trace: seq<State>, events: seq<Event>, key: string)
    requires Ideal(env) && IsRun(env, trace, events) && key in Now(trace).manifest
    ensures
      var s := Now(trace);
      && s.manifest[key] in s.mem
      && Get(node, s.mem, KvNow(s), key) == Found(Framing.Unframe(s.mem[s.manifest[key]]))
  {
    RunKeepsKvInv(env, trace, events, |trace| - 1);
    var s := Now(trace);
    assert Complete(s, s.manifest);
    LookupStored(env, s.mem, s.manifest[key], None);
  }

  /** An append whose entry has been uploaded reads the index that `_load_index` reads. */
  lemma LoadIndexAlone(env: Env, node: Node, trace: seq<State>, events: seq<Event>, t: nat, now: string)
    returns (trace': seq<State>, mine: seq<Event>)
    requires Ideal(env) && IsRun(env, trace, events) && t < |Now(trace).tasks|
    requires Now(trace).tasks[t].pc.Uploading? && Now(trace).tasks[t].pc.cont.EntryStored?
    requires Enabled(env, Now(trace), Resume(t, now))
    ensures IsRun(env, trace', events + mine) && OnlyBy(mine, t)
    ensures
      var s, s', pc := Now(trace), Now(trace'), Now(trace).tasks[t].pc;
      var index := Log.LoadIndex(env, node, s.mem, KvNow(s), now);
      && index.Some? && s'.mem == s.mem && KvNow(s') == KvNow(s)
      && MovedTo(s, s', t, WriteIndex(env, index.value, pc.cont.entry, FrameRoot(env, pc.data), now))
  {
    var events': seq<Event>;
    trace', events' := Extend(env, trace, events, Resume(t, now));
    mine := [Resume(t, now)];
    if LOG_INDEX in Now(trace).manifest {
      ReadsWork(env, node, trace, events, LOG_INDEX);
      trace', events' := Extend(env, trace', events', Resume(t, now));
      mine := mine + [Resume(t, now)];
    }
    assert events' == events + mine;
  }

  lemma Joined(env: Env, trace: seq<State>, events: seq<Event>, a: seq<Event>, b: seq<Event>, t: nat)
    requires IsRun(env, trace, events + a + b) && OnlyBy(a, t) && OnlyBy(b, t)
    ensures IsRun(env, trace, events + (a + b)) && OnlyBy(a + b, t)
  {
    assert events + (a + b) == events + a + b;
  }

  /** From there on it does what the rest of `append` does. */
  lemma IndexAlone(env: Env, node: Node, trace: seq<State>, events: seq<Event>, t: nat, now: string, later: string)
    returns (trace': seq<State>, mine: seq<Event>)
    requires Ideal(env) && IsRun(env, trace, events) && t < |Now(trace).tasks|
    requires Now(trace).tasks[t].pc.Uploading? && Now(trace).tasks[t].pc.cont.EntryStored?
    requires Enabled(env, Now(trace), Resume(t, now))
    requires
      var s, pc := Now(trace), Now(trace).tasks[t].pc;
      var index := Log.LoadIndex(env, node, s.mem, KvNow(s), now);
      index.Some? ==>
        var data := env.index.enc(index.value.Append(FrameRoot(env, pc.data), now));
        SetTrusted(env, KvNow(s), LOG_INDEX, data, later) && Set(env, s.mem, KvNow(s), LOG_INDEX, data, later).ok
    ensures IsRun(env, trace', events + mine) && OnlyBy(mine, t)
    ensures
      var s, s', pc := Now(trace), Now(trace'), Now(trace).tasks[t].pc;
      var index := Log.LoadIndex(env, node, s.mem, KvNow(s), now);
      && index.Some?
      && Outcome(s'.mem, KvNow(s'), true) ==
           Set(env, s.mem, KvNow(s), LOG_INDEX, env.index.enc(index.value.Append(FrameRoot(env, pc.data), now)), later)
      && MovedTo(s, s', t, Done)
  {
    var loading, storing: seq<Event>;
    trace', loading := LoadIndexAlone(env, node, trace, events, t, now);
    trace', storing := StoreAlone(env, trace', events + loading, t, later, later);
    mine := loading + storing;
    Joined(env, trace', events, loading, storing, t);
  }

  lemma EntryAlone(env: Env, trace: seq<State>, events: seq<Event>, t: nat, entry: LogEntry, now: string)
    returns (trace': seq<State>, mine: seq<Event>)
    requires IsRun(env, trace, events) && Enabled(env, Now(trace), Start(t, now, entry.entryId))
    requires Now(trace).tasks[t].job == AppendJob(entry.eventType, entry.agentRole, entry.timestamp, entry.data) &&
             entry.rootHash == None
    requires Landable(env, env.entry.enc(entry))
    ensures IsRun(env, trace', events + mine) && OnlyBy(mine, t)
    ensures
      var s, s' := Now(trace), Now(trace');
      && Put(env, s.mem, env.entry.enc(entry)) == Some((s'.mem, FrameRoot(env, env.entry.enc(entry)))) &&
         KvNow(s') == KvNow(s)
      && MovedTo(s, s', t, Uploading(env.entry.enc(entry), EntryStored(entry)))
      && Enabled(env, s', Resume(t, now))
  {
    var events': seq<Event>;
    trace', events' := Extend(env, trace, events, Start(t, now, entry.entryId));
    trace', events' := Extend(env, trace', events', Land(t));
    mine := [Start(t, now, entry.entryId), Land(t)];
    assert events' == events + mine;
  }

  /** An undisturbed append is the sequential `append`. */
  lemma AppendAlone(env: Env, node: Node, trace: seq<State>, events: seq<Event>, t: nat, entry: LogEntry, now: string,
                    later: string)
    returns (trace': seq<State>, mine: seq<Event>)
    requires Ideal(env) && IsRun(env, trace, events) && Enabled(env, Now(trace), Start(t, now, entry.entryId))
    requires Now(trace).tasks[t].job == AppendJob(entry.eventType, entry.agentRole, entry.timestamp, entry.data) &&
             entry.rootHash == None
    requires Log.AppendTrusted(env, node, Now(trace).mem, KvNow(Now(trace)), entry, now, later)
    requires Log.Append(env, node, Now(trace).mem, KvNow(Now(trace)), entry, now, later).ok
    ensures IsRun(env, trace', events + mine) && OnlyBy(mine, t)
    ensures
      var s, s' := Now(trace), Now(trace');
      && Outcome(s'.mem, KvNow(s'), true) == Log.Append(env, node, s.mem, KvNow(s), entry, now, later)
      && MovedTo(s, s', t, Done)
  {
    var first, rest: seq<Event>;
    trace', first := EntryAlone(env, trace, events, t, entry, now);
    trace', rest := IndexAlone(env, node, trace', events + first, t, now, later);
    mine := first + rest;
    Joined(env, trace', events, first, rest, t);
  }

  /** A status update that has published its own record reads the aggregate that `read_swarm_state` reads. */
  lemma LoadSwarmAlone(env: Env, node: Node, trace: seq<State>, events: seq<Event>, t: nat, now: string)
    returns (trace': seq<State>, mine: seq<Event>)
    requires Ideal(env) && IsRun(env, trace, events) && t < |Now(trace).tasks| && Now(trace).tasks[t].job.StatusJob?
    requires Now(trace).tasks[t].pc == NextPc(env, Now(trace), Now(trace).tasks[t].job, ThenAggregate, now)
    ensures IsRun(env, trace', events + mine) && OnlyBy(mine, t)
    ensures
      var s, s' := Now(trace), Now(trace');
      var swarm := Memory.ReadSwarm(env, node, s.mem, KvNow(s), now);
      && swarm.Some? && s'.mem == s.mem && KvNow(s') == KvNow(s)
      && MovedTo(s, s', t, WriteSwarm(env, swarm.value, s.tasks[t].job, now))
  {
    trace', mine := trace, [];
    assert events + mine == events;
    if SWARM_STATE in Now(trace).manifest {
      ReadsWork(env, node, trace, events, SWARM_STATE);
      var events': seq<Event>;
      trace', events' := Extend(env, trace, events, Resume(t, now));
      mine := [Resume(t, now)];
    }
  }

  lemma MovedTaskIs(s: State, s': State, t: nat, pc: Pc)
    requires MovedTo(s, s', t, pc)
    ensures |s'.tasks| == |s.tasks| && s'.tasks[t] == Task(s.tasks[t].job, pc)
  {}

  lemma MovedTwice(s: State, s1: State, s2: State, t: nat, pc1: Pc, pc2: Pc)
    requires MovedTo(s, s1, t, pc1) && MovedTo(s1, s2, t, pc2)
    ensures MovedTo(s, s2, t, pc2)
  {}

  /** `update_status` from the completed write of the own record on. */
  lemma ReportSplits(env: Env, node: Node, mem: Blobs, kv: KvState, role: string, state: AgentState,
                     stamps: Memory.Stamps, mem1: Blobs, kv1: KvState)
    requires Memory.OpTrusted(env, node, mem, kv, Memory.Report(role, state, stamps))
    requires Outcome(mem1, kv1, true) == Set(env, mem, kv, AgentKey(role), env.agent.enc(state), stamps.recordPersisted)
    ensures
      var swarm := Memory.ReadSwarm(env, node, mem1, kv1, stamps.swarmUpdated);
      swarm.Some? ==>
        var data := env.swarm.enc(swarm.value.UpdateAgent(role, state, stamps.swarmUpdated));
        && SetTrusted(env, kv1, SWARM_STATE, data, stamps.swarmPersisted)
        && Memory.UpdateStatus(env, node, mem, kv, role, state, stamps) ==
           Set(env, mem1, kv1, SWARM_STATE, data, stamps.swarmPersisted)
  {}

  lemma RecordAlone(env: Env, trace: seq<State>, events: seq<Event>, t: nat, now: string, later: string,
                    freshId: string)
    returns (trace': seq<State>, mine: seq<Event>)
    requires IsRun(env, trace, events) && Enabled(env, Now(trace), Start(t, now, freshId)) &&
             Now(trace).tasks[t].job.StatusJob?
    requires
      var s, job := Now(trace), Now(trace).tasks[t].job;
      && SetTrusted(env, KvNow(s), AgentKey(job.role), env.agent.enc(job.state), now)
      && Set(env, s.mem, KvNow(s), AgentKey(job.role), env.agent.enc(job.state), now).ok
    ensures IsRun(env, trace', events + mine) && OnlyBy(mine, t)
    ensures
      var s, s', job := Now(trace), Now(trace'), Now(trace).tasks[t].job;
      && Outcome(s'.mem, KvNow(s'), true) == Set(env, s.mem, KvNow(s), AgentKey(job.role), env.agent.enc(job.state),
         now)
      && MovedTo(s, s', t, NextPc(env, s', job, ThenAggregate, later))
  {
    var start := Start(t, now, freshId);
    var trace1, events1 := Extend(env, trace, events, start);
    trace', mine := StoreAlone(env, trace1, events1, t, now, later);
    mine := [start] + mine;
    assert events + mine == events1 + mine[1..];
  }

  /** The rest of an undisturbed status update; `out` is what it comes to sequentially. */
  lemma AggregateAlone(env: Env, node: Node, trace: seq<State>, events: seq<Event>, t: nat, now: string,
                       later: string, out: Outcome)
    returns (trace': seq<State>, mine: seq<Event>)
    requires Ideal(env) && IsRun(env, trace, events) && t < |Now(trace).tasks| && Now(trace).tasks[t].job.StatusJob?
    requires Now(trace).tasks[t].pc == NextPc(env, Now(trace), Now(trace).tasks[t].job, ThenAggregate, now)
    requires
      var s, job := Now(trace), Now(trace).tasks[t].job;
      var swarm := Memory.ReadSwarm(env, node, s.mem, KvNow(s), now);
      swarm.Some? ==>
        var data := env.swarm.enc(swarm.value.UpdateAgent(job.role, job.state, now));
        SetTrusted(env, KvNow(s), SWARM_STATE, data, later) &&
            out == Set(env, s.mem, KvNow(s), SWARM_STATE, data, later) && out.ok
    ensures IsRun(env, trace', events + mine) && OnlyBy(mine, t)
    ensures Outcome(Now(trace').mem, KvNow(Now(trace')), true) == out
    ensures MovedTo(Now(trace), Now(trace'), t, Done)
  {
    var loading, storing: seq<Event>;
    trace', loading := LoadSwarmAlone(env, node, trace, events, t, now);
    trace', storing := StoreAlone(env, trace', events + loading, t, later, later);
    mine := loading + storing;
    Joined(env, trace', events, loading, storing, t);
  }

  /** An undisturbed status update is the sequential `update_status`. */
  lemma StatusAlone(env: Env, node: Node, trace: seq<State>, events: seq<Event>, t: nat, stamps: Memory.Stamps,
                    freshId: string)
    returns (trace': seq<State>, mine: seq<Event>)
    requires Ideal(env) && IsRun(env, trace, events) && Enabled(env, Now(trace),
             Start(t, stamps.recordPersisted, freshId))
    requires Now(trace).tasks[t].job.StatusJob?
    requires
      var s, job := Now(trace), Now(trace).tasks[t].job;
      && Memory.OpTrusted(env, node, s.mem, KvNow(s), Memory.Report(job.role, job.state, stamps))
      && Memory.UpdateStatus(env, node, s.mem, KvNow(s), job.role, job.state, stamps).ok
    ensures IsRun(env, trace', events + mine) && OnlyBy(mine, t)
    ensures
      var s, s', job := Now(trace), Now(trace'), Now(trace).tasks[t].job;
      && Outcome(s'.mem, KvNow(s'), true) == Memory.UpdateStatus(env, node, s.mem, KvNow(s), job.role, job.state,
         stamps)
      && MovedTo(s, s', t, Done)
  {
    var s, job := Now(trace), Now(trace).tasks[t].job;
    var first, rest: seq<Event>;
    var half: seq<State>;
    half, first := RecordAlone(env, trace, events, t, stamps.recordPersisted, stamps.swarmUpdated, freshId);
    ReportSplits(env, node, s.mem, KvNow(s), job.role, job.state, stamps, Now(half).mem, KvNow(Now(half)));
    MovedTaskIs(s, Now(half), t, NextPc(env, Now(half), job, ThenAggregate, stamps.swarmUpdated));
    trace', rest := AggregateAlone(env, node, half, events + first, t, stamps.swarmUpdated, stamps.swarmPersisted,
                                   Memory.UpdateStatus(env, node, s.mem, KvNow(s), job.role, job.state, stamps));
    MovedTwice(s, Now(half), Now(trace'), t, Now(half).tasks[t].pc, Done);
    mine := first + rest;
    Joined(env, trace', events, first, rest, t);
  }

  // ---- Every undisturbed call ----

  function With(env: Env, mem: Blobs, data: Bytes): Blobs
    requires Framing.Frame(data).Some?
  {
    mem[FrameRoot(env, data) := Framing.Frame(data).value]
  }

  /** From mem0, this payload is being uploaded: it has landed or not. */
  ghost predicate Landing(env: Env, mem0: Blobs, data: Bytes, mem: Blobs)
  {
    mem == mem0 || (Framing.Frame(data).Some? && mem == With(env, mem0, data))
  }

  lemma LandsOnce(env: Env, mem0: Blobs, data: Bytes, mem: Blobs)
    requires Landing(env, mem0, data, mem) && Framing.Frame(data).Some?
    ensures With(env, mem, data) == With(env, mem0, data)
  {}

  /** An upload that has returned has landed, by whoever's hand. */
  lemma ReturnedHasLanded(env: Env, mem0: Blobs, data: Bytes, mem: Blobs)
    requires env.CollisionFree() && FramesOnly(env, mem) && Landable(env, data) && FrameRoot(env, data) in mem
    requires Landing(env, mem0, data, mem)
    ensures mem == With(env, mem0, data)
  {
    assert mem[FrameRoot(env, data)] == Framing.Frame(data).value;
  }

  /** Task t is in the middle of the `set` of data under key that began in (mem0, kv0). */
  ghost predicate Setting(env: Env, mem0: Blobs, kv0: KvState, key: string, data: Bytes, next: After, s: State, t: nat)
  {
    && t < |s.tasks| && s.tasks[t].pc.Uploading?
    && var pc := s.tasks[t].pc;
       match pc.cont
       case StoreValue(k, _, n) => k == key && n == next && pc.data == data && KvNow(s) == kv0 &&
           Landing(env, mem0, data, s.mem)
       case Publish(m, n) => n == next && Landable(env, data) &&
           InPersist(env, With(env, mem0, data), kv0.(manifest := kv0.manifest[key := FrameRoot(env, data)]), s, t)
       case EntryStored(_) => false
  }

  /** Task t is in the middle of a persist that began in (mem0, kv0). */
  ghost predicate InPersist(env: Env, mem0: Blobs, kv0: KvState, s: State, t: nat)
  {
    && t < |s.tasks| && s.tasks[t].pc.Uploading? && s.tasks[t].pc.cont.Publish?
    && var pc := s.tasks[t].pc;
       && pc.cont.manifest == kv0.manifest && KvNow(s) == kv0 && Landing(env, mem0, pc.data, s.mem)
       && exists now :: pc.data == ManifestBytes(env, kv0.manifest, now)
  }

  ghost predicate Persisted(env: Env, mem0: Blobs, kv0: KvState, s: State)
  {
    exists now :: Outcome(s.mem, KvNow(s), true) == Persist(env, mem0, kv0, now)
  }

  ghost predicate HasSet(env: Env, mem0: Blobs, kv0: KvState, key: string, data: Bytes, s: State)
  {
    exists now :: Outcome(s.mem, KvNow(s), true) == Set(env, mem0, kv0, key, data, now)
  }

  /** The upload that is awaited cannot be framed: it can only raise. */
  ghost predicate MustRaise(s: State, t: nat)
  {
    t < |s.tasks| && s.tasks[t].pc.Uploading? && !Storable(s.tasks[t].pc.data)
  }

  /** The `set` that began in (mem0, kv0) raises in this state. */
  ghost predicate SetRaises(env: Env, mem0: Blobs, kv0: KvState, key: string, data: Bytes, s: State)
  {
    exists now :: Outcome(s.mem, KvNow(s), false) == Set(env, mem0, kv0, key, data, now)
  }

  lemma RaisingSet(env: Env, mem0: Blobs, kv0: KvState, key: string, data: Bytes, next: After, s: State, t: nat)
    requires Setting(env, mem0, kv0, key, data, next, s, t) && MustRaise(s, t)
    ensures SetRaises(env, mem0, kv0, key, data, s)
  {
    if s.tasks[t].pc.cont.StoreValue? {
      assert Outcome(s.mem, KvNow(s), false) == Set(env, mem0, kv0, key, data, "");
    } else {
      var now :| s.tasks[t].pc.data == ManifestBytes(env, s.manifest, now);
      assert Outcome(s.mem, KvNow(s), false) == Set(env, mem0, kv0, key, data, now);
    }
  }

  lemma LandPersisting(env: Env, mem0: Blobs, kv0: KvState, s: State, t: nat)
    requires InPersist(env, mem0, kv0, s, t) && Enabled(env, s, Land(t))
    ensures InPersist(env, mem0, kv0, Apply(env, s, Land(t)), t)
  {
    LandsOnce(env, mem0, s.tasks[t].pc.data, s.mem);
  }

  lemma ResumePersisting(env: Env, mem0: Blobs, kv0: KvState, s: State, t: nat, now: string)
    requires env.CollisionFree() && FramesOnly(env, s.mem) && InPersist(env, mem0, kv0, s, t) &&
             Enabled(env, s, Resume(t, now))
    ensures
      var s' := Resumed(env, s, t, now);
      && Persisted(env, mem0, kv0, s') && s'.mem == s.mem
      && t < |s'.tasks| && s'.tasks[t] == Task(s.tasks[t].job,
         NextPc(env, s', s.tasks[t].job, s.tasks[t].pc.cont.next, now))
  {
    var pc, s' := s.tasks[t].pc, Resumed(env, s, t, now);
    ReturnedHasLanded(env, mem0, pc.data, s.mem);
    var stamp :| pc.data == ManifestBytes(env, kv0.manifest, stamp);
    assert Outcome(s'.mem, KvNow(s'), true) == Persist(env, mem0, kv0, stamp);
  }

  lemma LandSetting(env: Env, mem0: Blobs, kv0: KvState, key: string, data: Bytes, next: After, s: State, t: nat)
    requires Setting(env, mem0, kv0, key, data, next, s, t) && Enabled(env, s, Land(t))
    ensures Setting(env, mem0, kv0, key, data, next, Apply(env, s, Land(t)), t)
  {
    if s.tasks[t].pc.cont.StoreValue? {
      LandsOnce(env, mem0, data, s.mem);
    } else {
      LandPersisting(env, With(env, mem0, data), kv0.(manifest := kv0.manifest[key := FrameRoot(env, data)]), s, t);
    }
  }

  /** A step forward in a `set`: on to its persist, or out of it with everything `set` does done. */
  lemma ResumeSetting(env: Env, mem0: Blobs, kv0: KvState, key: string, data: Bytes, next: After, s: State, t: nat,
                      now: string)
    requires env.CollisionFree() && FramesOnly(env, s.mem)
    requires Setting(env, mem0, kv0, key, data, next, s, t) && Enabled(env, s, Resume(t, now))
    ensures
      var s' := Resumed(env, s, t, now);
      if s.tasks[t].pc.cont.StoreValue? then Setting(env, mem0, kv0, key, data, next, s', t) &&
          s'.tasks[t].job == s.tasks[t].job
      else HasSet(env, mem0, kv0, key, data, s') && s'.mem == s.mem && t < |s'.tasks| &&
           s'.tasks[t] == Task(s.tasks[t].job, NextPc(env, s', s.tasks[t].job, next, now))
  {
    var s' := Resumed(env, s, t, now);
    if s.tasks[t].pc.cont.StoreValue? {
      ReturnedHasLanded(env, mem0, data, s.mem);
      assert s'.tasks[t].pc.data == ManifestBytes(env, s'.manifest, now);
    } else {
      var mem1, kv1 := With(env, mem0, data), kv0.(manifest := kv0.manifest[key := FrameRoot(env, data)]);
      ResumePersisting(env, mem1, kv1, s, t, now);
      var stamp :| Outcome(s'.mem, KvNow(s'), true) == Persist(env, mem1, kv1, stamp);
      assert Set(env, mem0, kv0, key, data, stamp) == Persist(env, mem1, kv1, stamp);
    }
  }

  /** Nothing has happened since s0. */
  ghost predicate Unstarted(s0: State, s: State)
  {
    s.mem == s0.mem && KvNow(s) == KvNow(s0)
  }

  ghost predicate SetPhase(env: Env, s0: State, s: State, t: nat, job: Job)
    requires job.SetJob?
  {
    && t < |s.tasks| && s.tasks[t].job == job
    && match s.tasks[t].pc
       case Ready => Unstarted(s0, s)
       case Uploading(_, _) => Setting(env, s0.mem, KvNow(s0), job.key, job.value, Finish, s, t)
       case Done => HasSet(env, s0.mem, KvNow(s0), job.key, job.value, s)
       case _ => false
  }

  lemma SetPhaseStep(env: Env, s0: State, s: State, e: Event, t: nat, job: Job)
    requires env.CollisionFree() && FramesOnly(env, s.mem) && job.SetJob? && SetPhase(env, s0, s, t, job) &&
             Enabled(env, s, e) && By(e, t)
    ensures SetPhase(env, s0, Apply(env, s, e), t, job)
  {
    if e.Land? {
      LandSetting(env, s0.mem, KvNow(s0), job.key, job.value, Finish, s, t);
    } else if e.Resume? {
      ResumeSetting(env, s0.mem, KvNow(s0), job.key, job.value, Finish, s, t, e.now);
    }
  }

  /** From moment i to moment j of a run only task t moves, and it does not fail. */
  ghost predicate Undisturbed(env: Env, trace: seq<State>, events: seq<Event>, i: nat, j: nat, t: nat)
  {
    && IsRun(env, trace, events) && i <= j < |trace| && t < |trace[i].tasks| && trace[i].tasks[t].pc == Ready
    && forall n | i <= n < j :: By(events[n], t)
  }

  /**
    Every undisturbed set that completes has done exactly what the sequential `set` does, and one that must raise does
    so in exactly the state in which the sequential `set` raises.
   */
  lemma {:induction false} SetIsSequential(env: Env, trace: seq<State>, events: seq<Event>, i: nat, j: nat, t: nat)
    requires env.CollisionFree() && Undisturbed(env, trace, events, i, j, t) && trace[i].tasks[t].job.SetJob?
    ensures SetPhase(env, trace[i], trace[j], t, trace[i].tasks[t].job)
    ensures
      var job := trace[i].tasks[t].job;
      && (trace[j].tasks[t].pc == Done ==> HasSet(env, trace[i].mem, KvNow(trace[i]), job.key, job.value, trace[j]))
      && (MustRaise(trace[j], t) ==> SetRaises(env, trace[i].mem, KvNow(trace[i]), job.key, job.value, trace[j]))
  {
    var job := trace[i].tasks[t].job;
    if i < j {
      SetIsSequential(env, trace, events, i, j - 1, t);
      RunKeepsKvInv(env, trace, events, j - 1);
      SetPhaseStep(env, trace[i], trace[j - 1], events[j - 1], t, job);
    }
    if MustRaise(trace[j], t) {
      RaisingSet(env, trace[i].mem, KvNow(trace[i]), job.key, job.value, Finish, trace[j], t);
    }
  }

  ghost predicate HasDeleted(env: Env, s0: State, key: string, s: State)
  {
    exists now :: Outcome(s.mem, KvNow(s), true) == Delete(env, s0.mem, KvNow(s0), key, now)
  }

  ghost predicate DeleteRaises(env: Env, s0: State, key: string, s: State)
  {
    exists now :: Outcome(s.mem, KvNow(s), false) == Delete(env, s0.mem, KvNow(s0), key, now)
  }

  lemma RaisingDelete(env: Env, s0: State, s: State, t: nat, job: Job)
    requires job.DeleteJob? && DeletePhase(env, s0, s, t, job) && MustRaise(s, t)
    ensures DeleteRaises(env, s0, job.key, s)
  {
    var now :| s.tasks[t].pc.data == ManifestBytes(env, s.manifest, now);
    assert Outcome(s.mem, KvNow(s), false) == Delete(env, s0.mem, KvNow(s0), job.key, now);
  }

  ghost predicate DeletePhase(env: Env, s0: State, s: State, t: nat, job: Job)
    requires job.DeleteJob?
  {
    && t < |s.tasks| && s.tasks[t].job == job
    && match s.tasks[t].pc
       case Ready => Unstarted(s0, s)
       case Uploading(_, _) =>
         job.key in s0.manifest && InPersist(env, s0.mem, KvNow(s0).(manifest := s0.manifest - {job.key}), s, t)
       case Done => HasDeleted(env, s0, job.key, s)
       case _ => false
  }

  lemma DeletePhaseStep(env: Env, s0: State, s: State, e: Event, t: nat, job: Job)
    requires env.CollisionFree() && FramesOnly(env, s.mem) && job.DeleteJob? && DeletePhase(env, s0, s, t, job) &&
             Enabled(env, s, e) && By(e, t)
    ensures DeletePhase(env, s0, Apply(env, s, e), t, job)
  {
    var kv1 := KvNow(s0).(manifest := s0.manifest - {job.key});
    if e.Land? {
      LandPersisting(env, s0.mem, kv1, s, t);
    } else if e.Resume? {
      ResumePersisting(env, s0.mem, kv1, s, t, e.now);
      var s' := Apply(env, s, e);
      var stamp :| Outcome(s'.mem, KvNow(s'), true) == Persist(env, s0.mem, kv1, stamp);
      assert Delete(env, s0.mem, KvNow(s0), job.key, stamp) == Persist(env, s0.mem, kv1, stamp);
    } else if job.key in s.manifest {
      assert Apply(env, s, e).tasks[t].pc.data == ManifestBytes(env, kv1.manifest, e.now);
    } else {
      assert Outcome(s.mem, KvNow(s), true) == Delete(env, s0.mem, KvNow(s0), job.key, e.now);
    }
  }

  /** The same of `delete`. */
  lemma {:induction false} DeleteIsSequential(env: Env, trace: seq<State>, events: seq<Event>, i: nat, j: nat, t: nat)
    requires env.CollisionFree() && Undisturbed(env, trace, events, i, j, t) && trace[i].tasks[t].job.DeleteJob?
    ensures DeletePhase(env, trace[i], trace[j], t, trace[i].tasks[t].job)
    ensures trace[j].tasks[t].pc == Done ==> HasDeleted(env, trace[i], trace[i].tasks[t].job.key, trace[j])
    ensures MustRaise(trace[j], t) ==> DeleteRaises(env, trace[i], trace[i].tasks[t].job.key, trace[j])
  {
    if i < j {
      DeleteIsSequential(env, trace, events, i, j - 1, t);
      RunKeepsKvInv(env, trace, events, j - 1);
      DeletePhaseStep(env, trace[i], trace[j - 1], events[j - 1], t, trace[i].tasks[t].job);
    }
    if MustRaise(trace[j], t) {
      RaisingDelete(env, trace[i], trace[j], t, trace[i].tasks[t].job);
    }
  }

  // An append: its entry, then the index

  /** What `_load_index` finds and `append` then sets, once the entry is stored. */
  function ExtendedIndex(env: Env, node: Node, mem1: Blobs, kv0: KvState, entry: LogEntry, now: string): Option<Bytes>
    requires Framing.Frame(env.entry.enc(entry)).Some?
  {
    match Log.LoadIndex(env, node, mem1, kv0, now)
    case None => None
    case Some(index) => Some(env.index.enc(index.Append(FrameRoot(env, env.entry.enc(entry)), now)))
  }

  ghost predicate HasAppended(env: Env, node: Node, s0: State, entry: LogEntry, s: State)
  {
    exists now, later :: Outcome(s.mem, KvNow(s), true) == Log.Append(env, node, s0.mem, KvNow(s0), entry, now, later)
  }

  /** Task t is setting the index it extended. */
  ghost predicate SettingIndex(env: Env, node: Node, s0: State, s: State, t: nat, entry: LogEntry, now: string)
  {
    && Landable(env, env.entry.enc(entry))
    && var mem1 := With(env, s0.mem, env.entry.enc(entry));
       var data := ExtendedIndex(env, node, mem1, KvNow(s0), entry, now);
       data.Some? && Setting(env, mem1, KvNow(s0), LOG_INDEX, data.value, Finish, s, t)
  }

  ghost predicate AppendPhase(env: Env, node: Node, s0: State, s: State, t: nat, job: Job, entry: LogEntry)
  {
    && t < |s.tasks| && s.tasks[t].job == job && job.AppendJob? && entry == EntryFor(job, entry.entryId)
    && match s.tasks[t].pc
       case Ready => Unstarted(s0, s)
       case Uploading(data, EntryStored(e)) =>
         e == entry && data == env.entry.enc(entry) && KvNow(s) == KvNow(s0) && Landing(env, s0.mem, data, s.mem)
       case LoadingIndex(root, e, entryRoot) =>
         && e == entry && Landable(env, env.entry.enc(entry)) && entryRoot == FrameRoot(env, env.entry.enc(entry))
         && s.mem == With(env, s0.mem, env.entry.enc(entry)) && KvNow(s) == KvNow(s0)
         && LOG_INDEX in s0.manifest && root == s0.manifest[LOG_INDEX]
       case Uploading(_, _) => exists now :: SettingIndex(env, node, s0, s, t, entry, now)
       case Done => HasAppended(env, node, s0, entry, s)
       case _ => false
  }

  /** What the manifest has under a key is what every node returns for it. */
  lemma ReadsBack(env: Env, node: Node, mem: Blobs, kv: KvState, key: string)
    requires env.HexRoots() && FramesOnly(env, mem) && key in kv.manifest && kv.manifest[key] in mem
    ensures Get(node, mem, kv, key) == Found(Framing.Unframe(mem[kv.manifest[key]]))
  {
    LookupStored(env, mem, kv.manifest[key], None);
  }

  lemma EntryPhaseStep(env: Env, node: Node, s0: State, s: State, t: nat, job: Job, entry: LogEntry, now: string)
    requires env.CollisionFree() && env.HexRoots() && FramesOnly(env, s.mem) &&
             AppendPhase(env, node, s0, s, t, job, entry)
    requires Enabled(env, s, Resume(t, now)) && s.tasks[t].pc.Uploading? && s.tasks[t].pc.cont.EntryStored?
    ensures AppendPhase(env, node, s0, Resumed(env, s, t, now), t, job, entry)
  {
    ReturnedHasLanded(env, s0.mem, s.tasks[t].pc.data, s.mem);
    if LOG_INDEX !in s.manifest {
      assert SettingIndex(env, node, s0, Resumed(env, s, t, now), t, entry, now);
    }
  }

  lemma LoadPhaseStep(env: Env, node: Node, s0: State, s: State, t: nat, job: Job, entry: LogEntry, now: string)
    requires env.HexRoots() && FramesOnly(env, s.mem) && AppendPhase(env, node, s0, s, t, job, entry)
    requires Enabled(env, s, Resume(t, now)) && s.tasks[t].pc.LoadingIndex?
    ensures AppendPhase(env, node, s0, Resumed(env, s, t, now), t, job, entry)
  {
    ReadsBack(env, node, s.mem, KvNow(s0), LOG_INDEX);
    assert SettingIndex(env, node, s0, Resumed(env, s, t, now), t, entry, now);
  }

  lemma IndexPhaseStep(env: Env, node: Node, s0: State, s: State, t: nat, job: Job, entry: LogEntry, now: string)
    requires env.CollisionFree() && FramesOnly(env, s.mem) && AppendPhase(env, node, s0, s, t, job, entry)
    requires Enabled(env, s, Resume(t, now)) && s.tasks[t].pc.Uploading? && !s.tasks[t].pc.cont.EntryStored?
    ensures AppendPhase(env, node, s0, Resumed(env, s, t, now), t, job, entry)
  {
    var read :| SettingIndex(env, node, s0, s, t, entry, read);
    var s', mem1 := Resumed(env, s, t, now), With(env, s0.mem, env.entry.enc(entry));
    var data := ExtendedIndex(env, node, mem1, KvNow(s0), entry, read).value;
    ResumeSetting(env, mem1, KvNow(s0), LOG_INDEX, data, Finish, s, t, now);
    if s.tasks[t].pc.cont.StoreValue? {
      assert SettingIndex(env, node, s0, s', t, entry, read);
    } else {
      var later :| Outcome(s'.mem, KvNow(s'), true) == Set(env, mem1, KvNow(s0), LOG_INDEX, data, later);
      assert Log.Append(env, node, s0.mem, KvNow(s0), entry, read, later) ==
          Set(env, mem1, KvNow(s0), LOG_INDEX, data, later);
    }
  }

  lemma AppendLandStep(env: Env, node: Node, s0: State, s: State, t: nat, job: Job, entry: LogEntry)
    requires AppendPhase(env, node, s0, s, t, job, entry) && Enabled(env, s, Land(t))
    ensures AppendPhase(env, node, s0, Apply(env, s, Land(t)), t, job, entry)
  {
    if s.tasks[t].pc.cont.EntryStored? {
      LandsOnce(env, s0.mem, s.tasks[t].pc.data, s.mem);
    } else {
      var read :| SettingIndex(env, node, s0, s, t, entry, read);
      var mem1 := With(env, s0.mem, env.entry.enc(entry));
      LandSetting(env, mem1, KvNow(s0), LOG_INDEX, ExtendedIndex(env, node, mem1, KvNow(s0), entry, read).value,
          Finish, s, t);
      assert SettingIndex(env, node, s0, Apply(env, s, Land(t)), t, entry, read);
    }
  }

  ghost predicate AppendRaises(env: Env, node: Node, s0: State, entry: LogEntry, s: State)
  {
    exists now, later :: Outcome(s.mem, KvNow(s), false) == Log.Append(env, node, s0.mem, KvNow(s0), entry, now, later)
  }

  lemma RaisingAppend(env: Env, node: Node, s0: State, s: State, t: nat, job: Job, entry: LogEntry)
    requires AppendPhase(env, node, s0, s, t, job, entry) && MustRaise(s, t)
    ensures AppendRaises(env, node, s0, entry, s)
  {
    if s.tasks[t].pc.cont.EntryStored? {
      assert Outcome(s.mem, KvNow(s), false) == Log.Append(env, node, s0.mem, KvNow(s0), entry, "", "");
    } else {
      var now :| SettingIndex(env, node, s0, s, t, entry, now);
      var mem1 := With(env, s0.mem, env.entry.enc(entry));
      var data := ExtendedIndex(env, node, mem1, KvNow(s0), entry, now).value;
      RaisingSet(env, mem1, KvNow(s0), LOG_INDEX, data, Finish, s, t);
      var later :| Outcome(s.mem, KvNow(s), false) == Set(env, mem1, KvNow(s0), LOG_INDEX, data, later);
      assert Log.Append(env, node, s0.mem, KvNow(s0), entry, now, later) ==
          Set(env, mem1, KvNow(s0), LOG_INDEX, data, later);
    }
  }

  /** The same of `append`, with its own entry. */
  lemma {:induction false} AppendIsSequential(env: Env, node: Node, trace: seq<State>, events: seq<Event>, i: nat,
                                              j: nat, t: nat) returns (entry: LogEntry)
    requires env.CollisionFree() && env.HexRoots() && Undisturbed(env, trace, events, i, j, t) &&
             trace[i].tasks[t].job.AppendJob?
    ensures AppendPhase(env, node, trace[i], trace[j], t, trace[i].tasks[t].job, entry)
    ensures trace[j].tasks[t].pc == Done ==> HasAppended(env, node, trace[i], entry, trace[j])
    ensures MustRaise(trace[j], t) ==> AppendRaises(env, node, trace[i], entry, trace[j])
  {
    var s0, job := trace[i], trace[i].tasks[t].job;
    if i == j {
      entry := EntryFor(job, "");
    } else {
      entry := AppendIsSequential(env, node, trace, events, i, j - 1, t);
      var s, e := trace[j - 1], events[j - 1];
      RunKeepsKvInv(env, trace, events, j - 1);
      if e.Start? {
        entry := EntryFor(job, e.freshId);
      } else if e.Land? {
        AppendLandStep(env, node, s0, s, t, job, entry);
      } else if s.tasks[t].pc.LoadingIndex? {
        LoadPhaseStep(env, node, s0, s, t, job, entry, e.now);
      } else if s.tasks[t].pc.cont.EntryStored? {
        EntryPhaseStep(env, node, s0, s, t, job, entry, e.now);
      } else {
        IndexPhaseStep(env, node, s0, s, t, job, entry, e.now);
      }
    }
    if MustRaise(trace[j], t) {
      RaisingAppend(env, node, s0, trace[j], t, job, entry);
    }
  }

  // A status update: the own record, then the aggregate

  /** What `read_swarm_state` finds and `update_status` then sets. */
  function UpdatedSwarm(env: Env, node: Node, first: Outcome, job: Job, now: string): Option<Bytes>
    requires job.StatusJob?
  {
    match Memory.ReadSwarm(env, node, first.mem, first.kv, now)
    case None => None
    case Some(swarm) => Some(env.swarm.enc(swarm.UpdateAgent(job.role, job.state, now)))
  }

  /** The state after the own record has been set, with this stamp in its manifest. */
  function Recorded(env: Env, s0: State, job: Job, stamp: string): Outcome
    requires job.StatusJob?
  {
    Set(env, s0.mem, KvNow(s0), AgentKey(job.role), env.agent.enc(job.state), stamp)
  }

  ghost predicate SettingSwarm(env: Env, node: Node, s0: State, s: State, t: nat, job: Job, stamp: string, now: string)
    requires job.StatusJob?
  {
    var first := Recorded(env, s0, job, stamp);
    var data := UpdatedSwarm(env, node, first, job, now);
    first.ok && data.Some? && Setting(env, first.mem, first.kv, SWARM_STATE, data.value, Finish, s, t)
  }

  ghost predicate HasUpdated(env: Env, node: Node, s0: State, job: Job, s: State)
    requires job.StatusJob?
  {
    exists stamps :: Outcome(s.mem, KvNow(s), true) == Memory.UpdateStatus(env, node, s0.mem, KvNow(s0), job.role,
        job.state, stamps)
  }

  ghost predicate IsRecorded(env: Env, s0: State, job: Job, s: State)
    requires job.StatusJob?
  {
    exists stamp :: Outcome(s.mem, KvNow(s), true) == Recorded(env, s0, job, stamp)
  }

  ghost predicate StatusPhase(env: Env, node: Node, s0: State, s: State, t: nat, job: Job)
  {
    && t < |s.tasks| && s.tasks[t].job == job && job.StatusJob?
    && match s.tasks[t].pc
       case Ready => Unstarted(s0, s)
       case Uploading(_, EntryStored(_)) => false
       case Uploading(_, cont) =>
         if cont.next == ThenAggregate then Setting(env, s0.mem, KvNow(s0), AgentKey(job.role),
             env.agent.enc(job.state), ThenAggregate, s, t)
         else exists stamp, now :: SettingSwarm(env, node, s0, s, t, job, stamp, now)
       case LoadingSwarm(root) => IsRecorded(env, s0, job, s) && SWARM_STATE in s.manifest &&
           root == s.manifest[SWARM_STATE]
       case Done => HasUpdated(env, node, s0, job, s)
       case _ => false
  }

  /** A task that goes on to the aggregate from a recorded state sets what `update_status` sets. */
  lemma SwarmBegins(env: Env, node: Node, s0: State, s: State, t: nat, job: Job, swarm: SwarmState, now: string)
    requires job.StatusJob? && IsRecorded(env, s0, job, s) && t < |s.tasks| &&
             s.tasks[t].pc == WriteSwarm(env, swarm, job, now)
    requires Memory.ReadSwarm(env, node, s.mem, KvNow(s), now) == Some(swarm)
    ensures exists stamp, now :: SettingSwarm(env, node, s0, s, t, job, stamp, now)
  {
    var stamp :| Outcome(s.mem, KvNow(s), true) == Recorded(env, s0, job, stamp);
    assert SettingSwarm(env, node, s0, s, t, job, stamp, now);
  }

  lemma RecordPhaseStep(env: Env, node: Node, s0: State, s: State, t: nat, job: Job, now: string)
    requires env.CollisionFree() && FramesOnly(env, s.mem) && StatusPhase(env, node, s0, s, t, job) &&
             Enabled(env, s, Resume(t, now))
    requires s.tasks[t].pc.Uploading? && s.tasks[t].pc.cont.next == ThenAggregate
    ensures StatusPhase(env, node, s0, Resumed(env, s, t, now), t, job)
  {
    var s' := Resumed(env, s, t, now);
    ResumeSetting(env, s0.mem, KvNow(s0), AgentKey(job.role), env.agent.enc(job.state), ThenAggregate, s, t, now);
    if s.tasks[t].pc.cont.Publish? {
      var stamp :| Outcome(s'.mem, KvNow(s'), true) == Set(env, s0.mem, KvNow(s0), AgentKey(job.role),
          env.agent.enc(job.state), stamp);
      assert Outcome(s'.mem, KvNow(s'), true) == Recorded(env, s0, job, stamp);
      if SWARM_STATE !in s'.manifest {
        SwarmBegins(env, node, s0, s', t, job, EmptySwarm(now), now);
      }
    }
  }

  lemma SwarmLoadedIs(env: Env, node: Node, s: State, t: nat, job: Job, now: string)
    requires env.HexRoots() && FramesOnly(env, s.mem) && Enabled(env, s, Resume(t, now))
    requires s.tasks[t].pc.LoadingSwarm? && s.tasks[t].job == job && job.StatusJob?
    requires SWARM_STATE in s.manifest && s.tasks[t].pc.root == s.manifest[SWARM_STATE]
    ensures
      var s', swarm := Resumed(env, s, t, now), Memory.ReadSwarm(env, node, s.mem, KvNow(s), now);
      && swarm.Some? && t < |s'.tasks| && s'.tasks[t] == Task(job, WriteSwarm(env, swarm.value, job, now))
  {
    ReadsBack(env, node, s.mem, KvNow(s), SWARM_STATE);
  }

  lemma StillRecorded(env: Env, s0: State, s: State, s': State, job: Job)
    requires job.StatusJob? && IsRecorded(env, s0, job, s) && s'.mem == s.mem && KvNow(s') == KvNow(s)
    ensures IsRecorded(env, s0, job, s')
  {
    var stamp :| Outcome(s.mem, KvNow(s), true) == Recorded(env, s0, job, stamp);
    assert Outcome(s'.mem, KvNow(s'), true) == Recorded(env, s0, job, stamp);
  }

  lemma SwarmLoadPhaseStep(env: Env, node: Node, s0: State, s: State, t: nat, job: Job, now: string)
    requires env.HexRoots() && FramesOnly(env, s.mem) && StatusPhase(env, node, s0, s, t, job) &&
             Enabled(env, s, Resume(t, now))
    requires s.tasks[t].pc.LoadingSwarm?
    ensures StatusPhase(env, node, s0, Resumed(env, s, t, now), t, job)
  {
    var s' := Resumed(env, s, t, now);
    SwarmLoadedIs(env, node, s, t, job, now);
    assert s'.mem == s.mem && KvNow(s') == KvNow(s);
    StillRecorded(env, s0, s, s', job);
    SwarmBegins(env, node, s0, s', t, job, Memory.ReadSwarm(env, node, s.mem, KvNow(s), now).value, now);
  }

  lemma SwarmPhaseStep(env: Env, node: Node, s0: State, s: State, t: nat, job: Job, now: string)
    requires env.CollisionFree() && FramesOnly(env, s.mem) && StatusPhase(env, node, s0, s, t, job) &&
             Enabled(env, s, Resume(t, now))
    requires s.tasks[t].pc.Uploading? && s.tasks[t].pc.cont.next == Finish
    ensures StatusPhase(env, node, s0, Resumed(env, s, t, now), t, job)
  {
    var s' := Resumed(env, s, t, now);
    var stamp, read :| SettingSwarm(env, node, s0, s, t, job, stamp, read);
    var first := Recorded(env, s0, job, stamp);
    var data := UpdatedSwarm(env, node, first, job, read).value;
    ResumeSetting(env, first.mem, first.kv, SWARM_STATE, data, Finish, s, t, now);
    if s.tasks[t].pc.cont.StoreValue? {
      assert SettingSwarm(env, node, s0, s', t, job, stamp, read);
    } else {
      var last :| Outcome(s'.mem, KvNow(s'), true) == Set(env, first.mem, first.kv, SWARM_STATE, data, last);
      assert Memory.UpdateStatus(env, node, s0.mem, KvNow(s0), job.role, job.state, Memory.Stamps(stamp, read, last)) ==
             Set(env, first.mem, first.kv, SWARM_STATE, data, last);
    }
  }

  lemma StatusLandStep(env: Env, node: Node, s0: State, s: State, t: nat, job: Job)
    requires StatusPhase(env, node, s0, s, t, job) && Enabled(env, s, Land(t))
    ensures StatusPhase(env, node, s0, Apply(env, s, Land(t)), t, job)
  {
    if s.tasks[t].pc.cont.next == ThenAggregate {
      LandSetting(env, s0.mem, KvNow(s0), AgentKey(job.role), env.agent.enc(job.state), ThenAggregate, s, t);
    } else {
      var stamp, read :| SettingSwarm(env, node, s0, s, t, job, stamp, read);
      var first := Recorded(env, s0, job, stamp);
      LandSetting(env, first.mem, first.kv, SWARM_STATE, UpdatedSwarm(env, node, first, job, read).value, Finish, s, t);
      assert SettingSwarm(env, node, s0, Apply(env, s, Land(t)), t, job, stamp, read);
    }
  }

  ghost predicate UpdateRaises(env: Env, node: Node, s0: State, job: Job, s: State)
    requires job.StatusJob?
  {
    exists stamps ::
      Outcome(s.mem, KvNow(s), false) == Memory.UpdateStatus(env, node, s0.mem, KvNow(s0), job.role, job.state, stamps)
  }

  lemma RaisingUpdate(env: Env, node: Node, s0: State, s: State, t: nat, job: Job)
    requires StatusPhase(env, node, s0, s, t, job) && MustRaise(s, t)
    ensures UpdateRaises(env, node, s0, job, s)
  {
    if s.tasks[t].pc.cont.next == ThenAggregate {
      var key, record := AgentKey(job.role), env.agent.enc(job.state);
      RaisingSet(env, s0.mem, KvNow(s0), key, record, ThenAggregate, s, t);
      var stamp :| Outcome(s.mem, KvNow(s), false) == Set(env, s0.mem, KvNow(s0), key, record, stamp);
      var stamps := Memory.Stamps(stamp, "", "");
      assert Memory.UpdateStatus(env, node, s0.mem, KvNow(s0), job.role, job.state, stamps) ==
             Set(env, s0.mem, KvNow(s0), key, record, stamp);
    } else {
      var stamp, read :| SettingSwarm(env, node, s0, s, t, job, stamp, read);
      RaisingSecondHalf(env, node, s0, s, t, job, stamp, read);
    }
  }

  lemma RaisingSecondHalf(env: Env, node: Node, s0: State, s: State, t: nat, job: Job, stamp: string, read: string)
    requires job.StatusJob? && SettingSwarm(env, node, s0, s, t, job, stamp, read) && MustRaise(s, t)
    ensures UpdateRaises(env, node, s0, job, s)
  {
    var first := Recorded(env, s0, job, stamp);
    var data := UpdatedSwarm(env, node, first, job, read).value;
    RaisingSet(env, first.mem, first.kv, SWARM_STATE, data, Finish, s, t);
    var last :| Outcome(s.mem, KvNow(s), false) == Set(env, first.mem, first.kv, SWARM_STATE, data, last);
    var stamps := Memory.Stamps(stamp, read, last);
    assert Memory.UpdateStatus(env, node, s0.mem, KvNow(s0), job.role, job.state, stamps) ==
           Set(env, first.mem, first.kv, SWARM_STATE, data, last);
  }

  /** The same of `update_status`. */
  lemma {:induction false} StatusIsSequential(env: Env, node: Node, trace: seq<State>, events: seq<Event>, i: nat,
                                              j: nat, t: nat)
    requires env.CollisionFree() && env.HexRoots() && Undisturbed(env, trace, events, i, j, t) &&
             trace[i].tasks[t].job.StatusJob?
    ensures StatusPhase(env, node, trace[i], trace[j], t, trace[i].tasks[t].job)
    ensures trace[j].tasks[t].pc == Done ==> HasUpdated(env, node, trace[i], trace[i].tasks[t].job, trace[j])
    ensures MustRaise(trace[j], t) ==> UpdateRaises(env, node, trace[i], trace[i].tasks[t].job, trace[j])
  {
    if i < j {
      StatusIsSequential(env, node, trace, events, i, j - 1, t);
      var s0, s, e, job := trace[i], trace[j - 1], events[j - 1], trace[i].tasks[t].job;
      RunKeepsKvInv(env, trace, events, j - 1);
      if e.Land? {
        StatusLandStep(env, node, s0, s, t, job);
      } else if e.Resume? {
        if s.tasks[t].pc.LoadingSwarm? {
          SwarmLoadPhaseStep(env, node, s0, s, t, job, e.now);
        } else if s.tasks[t].pc.cont.next == ThenAggregate {
          RecordPhaseStep(env, node, s0, s, t, job, e.now);
        } else {
          SwarmPhaseStep(env, node, s0, s, t, job, e.now);
        }
      }
    }
    if MustRaise(trace[j], t) {
      RaisingUpdate(env, node, trace[i], trace[j], t, trace[i].tasks[t].job);
    }
  }
}
