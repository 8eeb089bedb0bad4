/**
  The aggregate record under interleaving: exactly what it holds when its readers do not overlap, and what is lost
  when they do.
 */
module ExactAggregate {
  import opened Prelude
  import opened Models
  import opened Client
  import opened Kv
  import opened Interleaving
  import opened SharedRecords

  /** Where a status update can stand: it is done, or in its last persist, only after it has written the aggregate. */
  ghost predicate StatusOk(s: State, t: nat)
    requires t < |s.tasks|
  {
    s.tasks[t].job.StatusJob? ==>
      match s.tasks[t].pc
      case Ready => true
      case Uploading(_, StoreValue(_, purpose, next)) => purpose.SwarmWrite? ||
          (purpose.OwnRecord? && next == ThenAggregate)
      case Uploading(_, Publish(_, next)) => next == Finish ==> t in s.aggregated
      case Uploading(_, EntryStored(_)) => false
      case LoadingIndex(_, _, _) => false
      case LoadingSwarm(_) => true
      case Done => t in s.aggregated
      case Failed => true
  }

  lemma ResumeKeepsStatusOk(env: Env, s: State, t: nat, now: string)
    requires Enabled(env, s, Resume(t, now)) && StatusOk(s, t)
    ensures
      var s' := Resumed(env, s, t, now);
      t < |s'.tasks| && StatusOk(s', t) && s.aggregated <= s'.aggregated
  {}

  lemma StartKeepsStatusOk(env: Env, s: State, t: nat, now: string, freshId: string)
    requires Enabled(env, s, Start(t, now, freshId))
    ensures
      var s' := Started(env, s, t, now, freshId);
      t < |s'.tasks| && StatusOk(s', t) && s'.aggregated == s.aggregated
  {}

  lemma StepKeepsStatusOk(env: Env, s: State, e: Event)
    requires Enabled(env, s, e) && forall t | 0 <= t < |s.tasks| :: StatusOk(s, t)
    ensures forall t | 0 <= t < |Apply(env, s, e).tasks| :: StatusOk(Apply(env, s, e), t)
  {
    var s' := Apply(env, s, e);
    if e.Resume? {
      ResumeKeepsStatusOk(env, s, e.t, e.now);
    } else if e.Start? {
      StartKeepsStatusOk(env, s, e.t, e.now, e.freshId);
    }
    assert s.aggregated <= s'.aggregated;
    forall t | 0 <= t < |s'.tasks|
      ensures StatusOk(s', t)
    {
      if t < |s.tasks| && !((e.Start? || e.Resume? || e.Fail?) && e.t == t) {
        TaskStays(env, s, e, t);
        assert StatusOk(s, t);
      }
    }
  }

  /** In every reachable state each completed update has written the aggregate. */
  lemma {:induction false} CompletedHaveWritten(env: Env, trace: seq<State>, events: seq<Event>, i: nat)
    requires IsRun(env, trace, events) && i < |trace|
    ensures forall t | 0 <= t < |trace[i].tasks| :: StatusOk(trace[i], t)
    ensures CompletedUpdates(trace[i]) <= trace[i].aggregated
  {
    if i > 0 {
      CompletedHaveWritten(env, trace, events, i - 1);
      StepKeepsStatusOk(env, trace[i - 1], events[i - 1]);
    }
    forall t | t in CompletedUpdates(trace[i])
      ensures t in trace[i].aggregated
    {
      assert StatusOk(trace[i], t);
    }
  }

  /** Update t has read the aggregate and not yet written it back. */
  ghost predicate HasRead(s: State, t: nat)
  {
    && t < |s.tasks|
    && (s.tasks[t].pc.LoadingSwarm? ||
        (s.tasks[t].pc.Uploading? && s.tasks[t].pc.cont.StoreValue? && s.tasks[t].pc.cont.purpose.SwarmWrite?))
  }

  /** No update reads the aggregate while another's write of it is still to come. */
  ghost predicate OneReader(s: State)
  {
    forall t: nat, u: nat | HasRead(s, t) && HasRead(s, u) :: t == u
  }

  /** For each role the state reported by the last of these updates. */
  function AgentsBy(tasks: seq<Task>, order: seq<nat>): map<string, AgentState>
  {
    if order == [] then map[]
    else
      var t, before := order[|order| - 1], AgentsBy(tasks, order[..|order| - 1]);
      if t < |tasks| && tasks[t].job.StatusJob? then before[tasks[t].job.role := tasks[t].job.state] else before
  }

  ghost predicate InRange(order: seq<nat>, n: nat)
  {
    forall i | 0 <= i < |order| :: order[i] < n
  }

  lemma {:induction false} AgentsByStays(s: State, s': State, order: seq<nat>)
    requires SameJobs(s, s') && InRange(order, |s.tasks|)
    ensures AgentsBy(s'.tasks, order) == AgentsBy(s.tasks, order)
  {
    if order != [] {
      AgentsByStays(s, s', order[..|order| - 1]);
    }
  }

  /** The aggregate after exactly the writes so far. */
  ghost predicate UpToDate(s: State, swarm: SwarmState)
  {
    swarm.version == |s.aggregated| && swarm.agents == AgentsBy(s.tasks, s.aggregateOrder)
  }

  ghost predicate HoldsAggregate(env: Env, s: State, root: string)
  {
    exists swarm :: Stored(s.mem, root, env.swarm.enc(swarm)) && UpToDate(s, swarm)
  }

  /** What an update has read is the present aggregate. */
  ghost predicate ReadIsCurrent(s: State, t: nat)
    requires HasRead(s, t)
  {
    if s.tasks[t].pc.LoadingSwarm? then SWARM_STATE in s.manifest && s.tasks[t].pc.root == s.manifest[SWARM_STATE]
    else UpToDate(s, s.tasks[t].pc.cont.purpose.before)
  }

  ghost predicate PresentAggregate(env: Env, s: State)
  {
    && InRange(s.aggregateOrder, |s.tasks|)
    && if SWARM_STATE in s.manifest then HoldsAggregate(env, s, s.manifest[SWARM_STATE])
       else s.aggregated == {} && s.aggregateOrder == []
  }

  ghost predicate AggregateInv(env: Env, s: State)
  {
    PresentAggregate(env, s) && forall t: nat | HasRead(s, t) :: ReadIsCurrent(s, t)
  }

  /** The aggregate as it is, and everyone else's reading of it. */
  ghost predicate SameAggregate(s: State, s': State)
  {
    && Extends(s.mem, s'.mem) && s'.aggregated == s.aggregated && s'.aggregateOrder == s.aggregateOrder &&
       SameJobs(s, s')
    && (SWARM_STATE in s'.manifest <==> SWARM_STATE in s.manifest)
    && (SWARM_STATE in s.manifest ==> s'.manifest[SWARM_STATE] == s.manifest[SWARM_STATE])
  }

  lemma SameAggregateKeeps(env: Env, s: State, s': State)
    requires AggregateInv(env, s) && SameAggregate(s, s')
    requires forall t: nat | HasRead(s', t) :: (HasRead(s, t) && s'.tasks[t] == s.tasks[t]) || ReadIsCurrent(s', t)
    ensures AggregateInv(env, s')
  {
    AgentsByStays(s, s', s.aggregateOrder);
    if SWARM_STATE in s.manifest {
      var swarm :| Stored(s.mem, s.manifest[SWARM_STATE], env.swarm.enc(swarm)) && UpToDate(s, swarm);
      assert Stored(s'.mem, s'.manifest[SWARM_STATE], env.swarm.enc(swarm)) && UpToDate(s', swarm);
    }
    forall t: nat | HasRead(s', t)
      ensures ReadIsCurrent(s', t)
    {
      if HasRead(s, t) && s'.tasks[t] == s.tasks[t] {
        assert ReadIsCurrent(s, t);
      }
    }
  }

  lemma NoReaderLeft(env: Env, s: State, t: nat, now: string)
    requires OneReader(s) && HasRead(s, t) && Enabled(env, s, Resume(t, now)) && !HasRead(Resumed(env, s, t, now), t)
    ensures forall u: nat :: !HasRead(Resumed(env, s, t, now), u)
  {
    forall u: nat
      ensures !HasRead(Resumed(env, s, t, now), u)
    {
      if u < |s.tasks| && u != t {
        TaskStays(env, s, Resume(t, now), u);
        assert !HasRead(s, u);
      }
    }
  }

  /** The step that writes the aggregate raises its version by one. */
  lemma AggregateWritten(env: Env, s: State, t: nat, now: string)
    requires env.CollisionFree() && KvInv(env, s) && LogInv(env, s) && AggregateInv(env, s) && OneReader(s)
    requires Enabled(env, s, Resume(t, now)) && HasRead(s, t) && s.tasks[t].pc.Uploading?
    ensures AggregateInv(env, Resumed(env, s, t, now))
  {
    NoReaderLeft(env, s, t, now);
    NewAggregate(env, s, t, now);
  }

  lemma NewAggregate(env: Env, s: State, t: nat, now: string)
    requires env.CollisionFree() && FramesOnly(env, s.mem) && Enabled(env, s, Resume(t, now))
    requires HasRead(s, t) && s.tasks[t].pc.Uploading? && TaskOk(env, s, t) && ReadIsCurrent(s, t)
    requires InRange(s.aggregateOrder, |s.tasks|)
    ensures PresentAggregate(env, Resumed(env, s, t, now))
  {
    var s', pc := Resumed(env, s, t, now), s.tasks[t].pc;
    var before := pc.cont.purpose.before;
    var stamp :| pc.data == env.swarm.enc(before.UpdateAgent(s.tasks[t].job.role, s.tasks[t].job.state, stamp));
    var swarm := before.UpdateAgent(s.tasks[t].job.role, s.tasks[t].job.state, stamp);
    LandedIsStored(env, s.mem, pc.data);
    JobsStay(env, s, Resume(t, now));
    AgentsByStays(s, s', s.aggregateOrder);
    assert s'.aggregateOrder[..|s.aggregateOrder|] == s.aggregateOrder;
    assert Stored(s'.mem, s'.manifest[SWARM_STATE], env.swarm.enc(swarm)) && UpToDate(s', swarm);
  }

  /** Another value is stored: under another key. */
  lemma OtherValueStored(env: Env, s: State, t: nat, now: string)
    requires LogInv(env, s) && AggregateInv(env, s)
    requires Enabled(env, s, Resume(t, now)) && s.tasks[t].pc.Uploading? && s.tasks[t].pc.cont.StoreValue? &&
             !HasRead(s, t)
    ensures AggregateInv(env, Resumed(env, s, t, now))
  {
    var s' := Resumed(env, s, t, now);
    assert TaskOk(env, s, t);
    AgentKeysSeparate("", "");
    assert s.tasks[t].pc.cont.key != SWARM_STATE;
    JobsStay(env, s, Resume(t, now));
    MovedAside(env, s, Resume(t, now), t);
    SameAggregateKeeps(env, s, s');
  }

  /** After a step of task t that leaves t without a reading, the readings are those there were. */
  lemma MovedAside(env: Env, s: State, e: Event, t: nat)
    requires Enabled(env, s, e) && (e.Start? || e.Resume? || e.Fail?) && e.t == t && !HasRead(Apply(env, s, e), t)
    ensures forall u: nat | HasRead(Apply(env, s, e), u) :: HasRead(s, u) && Apply(env, s, e).tasks[u] == s.tasks[u]
  {
    var s' := Apply(env, s, e);
    forall u: nat | HasRead(s', u)
      ensures HasRead(s, u) && s'.tasks[u] == s.tasks[u]
    {
      TaskStays(env, s, e, u);
    }
  }

  /** A step of task t after which t has a reading, and it is the present aggregate. */
  lemma ReadsPresent(env: Env, s: State, t: nat, now: string)
    requires AggregateInv(env, s) && Enabled(env, s, Resume(t, now))
    requires var s' := Resumed(env, s, t, now); SameAggregate(s, s') && (HasRead(s', t) ==> ReadIsCurrent(s', t))
    ensures AggregateInv(env, Resumed(env, s, t, now))
  {
    var s' := Resumed(env, s, t, now);
    forall u: nat | HasRead(s', u)
      ensures (HasRead(s, u) && s'.tasks[u] == s.tasks[u]) || ReadIsCurrent(s', u)
    {
      if u != t {
        TaskStays(env, s, Resume(t, now), u);
      }
    }
    SameAggregateKeeps(env, s, s');
  }

  lemma SwarmReadIsPresent(env: Env, s: State, t: nat, now: string)
    requires env.swarm.RoundTrips() && AggregateInv(env, s) && Enabled(env, s, Resume(t, now)) &&
             s.tasks[t].pc.LoadingSwarm?
    ensures AggregateInv(env, Resumed(env, s, t, now))
  {
    assert ReadIsCurrent(s, t);
    var swarm :| Stored(s.mem, s.manifest[SWARM_STATE], env.swarm.enc(swarm)) && UpToDate(s, swarm);
    JobsStay(env, s, Resume(t, now));
    AgentsByStays(s, Resumed(env, s, t, now), s.aggregateOrder);
    assert env.swarm.dec(env.swarm.enc(swarm)) == Some(swarm);
    ReadsPresent(env, s, t, now);
  }

  lemma ResumeKeepsAggregate(env: Env, s: State, t: nat, now: string)
    requires env.CollisionFree() && env.swarm.RoundTrips() && KvInv(env, s) && LogInv(env, s) &&
             AggregateInv(env, s) && OneReader(s)
    requires Enabled(env, s, Resume(t, now))
    ensures AggregateInv(env, Resumed(env, s, t, now))
  {
    var pc := s.tasks[t].pc;
    if pc.LoadingSwarm? {
      SwarmReadIsPresent(env, s, t, now);
    } else if pc.Uploading? && pc.cont.StoreValue? {
      if HasRead(s, t) {
        AggregateWritten(env, s, t, now);
      } else {
        OtherValueStored(env, s, t, now);
      }
    } else {
      OtherResumed(env, s, t, now);
    }
  }

  /** A return that stores no value: a task may begin to read the aggregate, and then the present one. */
  lemma OtherResumed(env: Env, s: State, t: nat, now: string)
    requires AggregateInv(env, s) && Enabled(env, s, Resume(t, now))
    requires !s.tasks[t].pc.LoadingSwarm? && !(s.tasks[t].pc.Uploading? && s.tasks[t].pc.cont.StoreValue?)
    ensures AggregateInv(env, Resumed(env, s, t, now))
  {
    JobsStay(env, s, Resume(t, now));
    ReadsPresent(env, s, t, now);
  }

  lemma StartKeepsAggregate(env: Env, s: State, t: nat, now: string, freshId: string)
    requires LogInv(env, s) && AggregateInv(env, s) && Enabled(env, s, Start(t, now, freshId))
    ensures AggregateInv(env, Started(env, s, t, now, freshId))
  {
    assert TaskOk(env, s, t);
    JobsStay(env, s, Start(t, now, freshId));
    MovedAside(env, s, Start(t, now, freshId), t);
    SameAggregateKeeps(env, s, Started(env, s, t, now, freshId));
  }

  lemma OutsideKeepsAggregate(env: Env, s: State, e: Event)
    requires AggregateInv(env, s) && Enabled(env, s, e) && (e.Spawn? || e.Land? || e.Foreign?) &&
             Extends(s.mem, Apply(env, s, e).mem)
    ensures AggregateInv(env, Apply(env, s, e))
  {
    JobsStay(env, s, e);
    SameAggregateKeeps(env, s, Apply(env, s, e));
  }

  lemma StepKeepsAggregate(env: Env, s: State, e: Event)
    requires env.CollisionFree() && env.swarm.RoundTrips() && KvInv(env, s) && LogInv(env, s) &&
             AggregateInv(env, s) && OneReader(s)
    requires Enabled(env, s, e)
    ensures AggregateInv(env, Apply(env, s, e))
  {
    var s' := Apply(env, s, e);
    if e.Resume? {
      ResumeKeepsAggregate(env, s, e.t, e.now);
    } else if e.Start? {
      StartKeepsAggregate(env, s, e.t, e.now, e.freshId);
    } else if e.Fail? {
      JobsStay(env, s, e);
      MovedAside(env, s, e, e.t);
      SameAggregateKeeps(env, s, s');
    } else {
      StepKeepsKvInv(env, s, e);
      OutsideKeepsAggregate(env, s, e);
    }
  }

  lemma {:induction false} RunKeepsAggregate(env: Env, trace: seq<State>, events: seq<Event>, i: nat)
    requires env.CollisionFree() && env.CodecsRoundTrip() && IsRun(env, trace, events) && i < |trace|
    requires forall e | e in events :: Respectful(e)
    requires forall k | 0 <= k < |trace| :: OneReader(trace[k])
    ensures AggregateInv(env, trace[i])
  {
    if i > 0 {
      RunKeepsAggregate(env, trace, events, i - 1);
      RunKeepsKvInv(env, trace, events, i - 1);
      RunKeepsLogInv(env, trace, events, i - 1);
      StepKeepsAggregate(env, trace[i - 1], events[i - 1]);
    }
  }

  lemma SameSizeSubset(a: set<nat>, b: set<nat>)
    requires a <= b
    ensures |b| <= |a| <==> a == b
  {
    assert b == a + (b - a);
  }

  /**
    On runs in which no update reads the aggregate while another's write of it is still to come, the present version
    is exactly the number of updates whose aggregate write took effect, and the aggregate has for each role the state
    of the last of them. The version stays within the completed updates if and only if every one of those has
    completed: none failed in its last persist, and none is still in it.
   */
  lemma AggregateIsExact(env: Env, trace: seq<State>, events: seq<Event>, i: nat) returns (swarm: SwarmState)
    requires env.CollisionFree() && env.CodecsRoundTrip() && IsRun(env, trace, events) && i < |trace|
    requires forall e | e in events :: Respectful(e)
    requires forall k | 0 <= k < |trace| :: OneReader(trace[k])
    requires SWARM_STATE in trace[i].manifest
    ensures Stored(trace[i].mem, trace[i].manifest[SWARM_STATE], env.swarm.enc(swarm))
    ensures swarm.version == |trace[i].aggregated|
    ensures swarm.agents == AgentsBy(trace[i].tasks, trace[i].aggregateOrder)
    ensures swarm.version <= |CompletedUpdates(trace[i])| <==> trace[i].aggregated == CompletedUpdates(trace[i])
  {
    RunKeepsAggregate(env, trace, events, i);
    CompletedHaveWritten(env, trace, events, i);
    swarm :| Stored(trace[i].mem, trace[i].manifest[SWARM_STATE], env.swarm.enc(swarm)) && UpToDate(trace[i], swarm);
    SameSizeSubset(CompletedUpdates(trace[i]), trace[i].aggregated);
  }

  /** Two updates of one agent that have both stored the own record and are persisting. */
  lemma BothRecorded(env: Env, job: Job, now: string) returns (trace: seq<State>, events: seq<Event>)
    requires job.StatusJob? && Landable(env, env.agent.enc(job.state))
    ensures IsRun(env, trace, events)
    ensures
      var s, m := Now(trace), map[AgentKey(job.role) := FrameRoot(env, env.agent.enc(job.state))];
      s.manifest == m && s.aggregated == {} && s.tasks == seq(2, _ => Task(job, Persisting(env, m, ThenAggregate, now)))
  {
    trace, events := [INITIAL], [];
    trace, events := Extend(env, trace, events, Spawn(job));
    trace, events := Extend(env, trace, events, Spawn(job));
    trace, events := Extend(env, trace, events, Start(0, now, ""));
    trace, events := Extend(env, trace, events, Start(1, now, ""));
    trace, events := Pass(env, trace, events, 0, now);
    trace, events := Pass(env, trace, events, 1, now);
  }

  /** Both have found no aggregate and are about to write the first one. */
  lemma BothRead(env: Env, job: Job, now: string) returns (trace: seq<State>, events: seq<Event>)
    requires job.StatusJob? && Landable(env, env.agent.enc(job.state))
    requires Landable(env, ManifestBytes(env, map[AgentKey(job.role) := FrameRoot(env, env.agent.enc(job.state))], now))
    ensures IsRun(env, trace, events)
    ensures
      var s, m := Now(trace), map[AgentKey(job.role) := FrameRoot(env, env.agent.enc(job.state))];
      s.manifest == m && s.aggregated == {} && s.tasks == seq(2,
          _ => Task(job, WriteSwarm(env, EmptySwarm(now), job, now)))
  {
    AgentKeysSeparate(job.role, "");
    trace, events := BothRecorded(env, job, now);
    trace, events := Pass(env, trace, events, 0, now);
    trace, events := Pass(env, trace, events, 1, now);
  }

  /** All that two such updates upload can be stored. */
  ghost predicate AllLandable(env: Env, job: Job, now: string)
  {
    && job.StatusJob? && Landable(env, env.agent.enc(job.state))
    && var m := map[AgentKey(job.role) := FrameRoot(env, env.agent.enc(job.state))];
       var swarm := env.swarm.enc(EmptySwarm(now).UpdateAgent(job.role, job.state, now));
       && Landable(env, ManifestBytes(env, m, now)) && Landable(env, swarm)
       && Landable(env, ManifestBytes(env, m[SWARM_STATE := FrameRoot(env, swarm)], now))
  }

  /** The first has written its aggregate and completed; the second still has its own to write. */
  lemma OneDone(env: Env, job: Job, now: string) returns (trace: seq<State>, events: seq<Event>)
    requires AllLandable(env, job, now)
    ensures IsRun(env, trace, events)
    ensures
      var s, swarm := Now(trace), env.swarm.enc(EmptySwarm(now).UpdateAgent(job.role, job.state, now));
      && s.aggregated == {0} && SWARM_STATE in s.manifest && s.manifest[SWARM_STATE] == FrameRoot(env, swarm)
      && s.tasks == [Task(job, Done), Task(job, WriteSwarm(env, EmptySwarm(now), job, now))]
  {
    trace, events := BothRead(env, job, now);
    trace, events := Pass(env, trace, events, 0, now);
    trace, events := Pass(env, trace, events, 0, now);
  }

  /**
    Why the condition of AggregateIsExact is not necessary for all runs: two updates read the same aggregate, so one
    increment is lost, and the version is within the completed updates although one of the writers failed.
   */
  lemma IncrementCanBeLost(env: Env, job: Job, now: string) returns (trace: seq<State>, events: seq<Event>)
    requires AllLandable(env, job, now)
    ensures IsRun(env, trace, events)
    ensures
      var s, swarm := Now(trace), EmptySwarm(now).UpdateAgent(job.role, job.state, now);
      && SWARM_STATE in s.manifest && s.manifest[SWARM_STATE] == FrameRoot(env, env.swarm.enc(swarm))
      && swarm.version == 1 == |CompletedUpdates(s)| && s.aggregated == {0, 1} != CompletedUpdates(s)
  {
    trace, events := OneDone(env, job, now);
    trace, events := Pass(env, trace, events, 1, now);
    trace, events := Extend(env, trace, events, Fail(1));
    assert Now(trace).tasks == [Task(job, Done), Task(job, Failed)];
    assert CompletedUpdates(Now(trace)) == {0};
  }
}
