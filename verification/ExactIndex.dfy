/**
  The log index under interleaving: exactly what it lists when its readers do not overlap, and what is lost when they
  do.
 */
module ExactIndex {
  import opened Prelude
  import opened Models
  import opened Client
  import opened Kv
  import opened Interleaving
  import opened SharedRecords
  import Framing

  /** Append t has looked the index up and not yet written it back. */
  ghost predicate HasLooked(s: State, t: nat)
  {
    t < |s.tasks| && (s.tasks[t].pc.LoadingIndex? || WritesIndex(s, t))
  }

  /** No append looks the index up while another's write of it is still to come. */
  ghost predicate OneLooker(s: State)
  {
    forall t: nat, u: nat | HasLooked(s, t) && HasLooked(s, u) :: t == u
  }

  /** The index of exactly the appends whose index write took effect, in the order of those writes. */
  ghost predicate ListsAll(env: Env, s: State, index: LogIndex)
  {
    index.entryCount == |index.entries| && Attributed(env, s, index.entries, s.indexOrder)
  }

  ghost predicate HoldsIndex(env: Env, s: State, root: string)
  {
    exists index :: Stored(s.mem, root, env.index.enc(index)) && ListsAll(env, s, index)
  }

  /** What an append has looked up is the present index. */
  ghost predicate LookIsCurrent(env: Env, s: State, t: nat)
    requires HasLooked(s, t)
  {
    if s.tasks[t].pc.LoadingIndex? then LOG_INDEX in s.manifest && s.tasks[t].pc.root == s.manifest[LOG_INDEX]
    else ListsAll(env, s, s.tasks[t].pc.cont.purpose.read)
  }

  ghost predicate PresentIndex(env: Env, s: State)
  {
    if LOG_INDEX in s.manifest then HoldsIndex(env, s, s.manifest[LOG_INDEX]) else s.indexOrder == []
  }

  ghost predicate IndexInv(env: Env, s: State)
  {
    PresentIndex(env, s) && forall t: nat | HasLooked(s, t) :: LookIsCurrent(env, s, t)
  }

  /** The index as it is, and all that is known about its entries. */
  ghost predicate SameIndex(s: State, s': State)
  {
    && Later(s, s') && s'.indexOrder == s.indexOrder
    && (LOG_INDEX in s'.manifest <==> LOG_INDEX in s.manifest)
    && (LOG_INDEX in s.manifest ==> s'.manifest[LOG_INDEX] == s.manifest[LOG_INDEX])
  }

  lemma ListsAllLater(env: Env, s: State, s': State, index: LogIndex)
    requires ListsAll(env, s, index) && Later(s, s') && s'.indexOrder == s.indexOrder
    ensures ListsAll(env, s', index)
  {
    AttributedLater(env, s, s', index.entries, s.indexOrder);
  }

  lemma SameIndexKeeps(env: Env, s: State, s': State)
    requires IndexInv(env, s) && SameIndex(s, s')
    requires forall t: nat | HasLooked(s', t) ::
      (HasLooked(s, t) && s'.tasks[t] == s.tasks[t]) || LookIsCurrent(env, s', t)
    ensures IndexInv(env, s')
  {
    if LOG_INDEX in s.manifest {
      var index :| Stored(s.mem, s.manifest[LOG_INDEX], env.index.enc(index)) && ListsAll(env, s, index);
      ListsAllLater(env, s, s', index);
      assert Stored(s'.mem, s'.manifest[LOG_INDEX], env.index.enc(index));
    }
    forall t: nat | HasLooked(s', t)
      ensures LookIsCurrent(env, s', t)
    {
      if HasLooked(s, t) && s'.tasks[t] == s.tasks[t] {
        assert LookIsCurrent(env, s, t);
        if WritesIndex(s, t) {
          ListsAllLater(env, s, s', s.tasks[t].pc.cont.purpose.read);
        }
      }
    }
  }

  /** After a step of task t that leaves t without a lookup, the lookups are those there were. */
  lemma MovedAside(env: Env, s: State, e: Event, t: nat)
    requires Enabled(env, s, e) && (e.Start? || e.Resume? || e.Fail?) && e.t == t && !HasLooked(Apply(env, s, e), t)
    ensures forall u: nat | HasLooked(Apply(env, s, e), u) :: HasLooked(s, u) && Apply(env, s, e).tasks[u] == s.tasks[u]
  {
    var s' := Apply(env, s, e);
    forall u: nat | HasLooked(s', u)
      ensures HasLooked(s, u) && s'.tasks[u] == s.tasks[u]
    {
      TaskStays(env, s, e, u);
    }
  }

  /** A step of task t after which t has a lookup, and it is the present index. */
  lemma LooksPresent(env: Env, s: State, t: nat, now: string)
    requires IndexInv(env, s) && Enabled(env, s, Resume(t, now))
    requires var s' := Resumed(env, s, t, now); SameIndex(s, s') && (HasLooked(s', t) ==> LookIsCurrent(env, s', t))
    ensures IndexInv(env, Resumed(env, s, t, now))
  {
    var s' := Resumed(env, s, t, now);
    forall u: nat | HasLooked(s', u)
      ensures (HasLooked(s, u) && s'.tasks[u] == s.tasks[u]) || LookIsCurrent(env, s', u)
    {
      if u != t {
        TaskStays(env, s, Resume(t, now), u);
      }
    }
    SameIndexKeeps(env, s, s');
  }

  lemma NoLookerLeft(env: Env, s: State, t: nat, now: string)
    requires OneLooker(s) && HasLooked(s, t) && Enabled(env, s, Resume(t, now)) &&
             !HasLooked(Resumed(env, s, t, now), t)
    ensures forall u: nat :: !HasLooked(Resumed(env, s, t, now), u)
  {
    forall u: nat
      ensures !HasLooked(Resumed(env, s, t, now), u)
    {
      if u < |s.tasks| && u != t {
        TaskStays(env, s, Resume(t, now), u);
        assert !HasLooked(s, u);
      }
    }
  }

  /** A step that resumes task t keeps what is known. */
  lemma ResumeIsLater(env: Env, s: State, t: nat, now: string)
    requires Enabled(env, s, Resume(t, now)) && LogInv(env, s)
    ensures Later(s, Resumed(env, s, t, now))
  {
    var s' := Resumed(env, s, t, now);
    assert TaskOk(env, s, t);
    JobsStay(env, s, Resume(t, now));
    assert s.aggregated <= s'.aggregated && |s.aggregated| <= |s'.aggregated|;
  }

  /** The write of an append's index: all that was listed, and its own entry at the end. */
  lemma NewIndex(env: Env, s: State, t: nat, now: string)
    requires env.CollisionFree() && FramesOnly(env, s.mem) && LogInv(env, s) && Enabled(env, s, Resume(t, now))
    requires WritesIndex(s, t) && LookIsCurrent(env, s, t)
    ensures PresentIndex(env, Resumed(env, s, t, now))
  {
    var s', pc := Resumed(env, s, t, now), s.tasks[t].pc;
    assert TaskOk(env, s, t);
    var p := pc.cont.purpose;
    var stamp :| pc.data == env.index.enc(p.read.Append(p.entryRoot, stamp));
    LandedIsStored(env, s.mem, pc.data);
    ResumeIsLater(env, s, t, now);
    AttributedLater(env, s, s', p.read.entries, s.indexOrder);
    OwnEntryAdded(env, s, s', t, p);
    assert Stored(s'.mem, s'.manifest[LOG_INDEX], env.index.enc(p.read.Append(p.entryRoot, stamp)));
  }

  lemma OwnEntryAdded(env: Env, s: State, s': State, t: nat, p: Purpose)
    requires p.IndexWrite? && Later(s, s') && Attributed(env, s, p.read.entries, s.indexOrder)
    requires Attributed(env, s', p.read.entries, s.indexOrder)
    requires Unindexed(s, t, p.entry) && Stored(s.mem, p.entryRoot, env.entry.enc(p.entry)) && t in s'.indexed
    ensures Attributed(env, s', p.read.entries + [p.entryRoot], s.indexOrder + [t])
  {
    assert EntryOf(env, s', p.entryRoot, t);
    forall i | 0 <= i < |s.indexOrder|
      ensures s.indexOrder[i] != t
    {
      assert s.indexOrder[i] in s.indexed;
    }
  }

  lemma IndexStored(env: Env, s: State, t: nat, now: string)
    requires env.CollisionFree() && FramesOnly(env, s.mem) && LogInv(env, s) && IndexInv(env, s) && OneLooker(s)
    requires Enabled(env, s, Resume(t, now)) && WritesIndex(s, t)
    ensures IndexInv(env, Resumed(env, s, t, now))
  {
    assert LookIsCurrent(env, s, t);
    NoLookerLeft(env, s, t, now);
    NewIndex(env, s, t, now);
  }

  lemma OtherValueStored(env: Env, s: State, t: nat, now: string)
    requires LogInv(env, s) && IndexInv(env, s) && Enabled(env, s, Resume(t, now))
    requires s.tasks[t].pc.Uploading? && s.tasks[t].pc.cont.StoreValue? && !WritesIndex(s, t)
    ensures IndexInv(env, Resumed(env, s, t, now))
  {
    var s' := Resumed(env, s, t, now);
    assert TaskOk(env, s, t);
    AgentKeysSeparate("", "");
    assert s.tasks[t].pc.cont.key != LOG_INDEX;
    ResumeIsLater(env, s, t, now);
    MovedAside(env, s, Resume(t, now), t);
    SameIndexKeeps(env, s, s');
  }

  lemma IndexLoadedIsPresent(env: Env, s: State, t: nat, now: string)
    requires env.index.RoundTrips() && LogInv(env, s) && IndexInv(env, s)
    requires Enabled(env, s, Resume(t, now)) && s.tasks[t].pc.LoadingIndex?
    ensures IndexInv(env, Resumed(env, s, t, now))
  {
    var s' := Resumed(env, s, t, now);
    assert LookIsCurrent(env, s, t);
    var index :| Stored(s.mem, s.manifest[LOG_INDEX], env.index.enc(index)) && ListsAll(env, s, index);
    assert env.index.dec(env.index.enc(index)) == Some(index);
    ResumeIsLater(env, s, t, now);
    ListsAllLater(env, s, s', index);
    LooksPresent(env, s, t, now);
  }

  lemma OtherResumed(env: Env, s: State, t: nat, now: string)
    requires LogInv(env, s) && IndexInv(env, s) && Enabled(env, s, Resume(t, now))
    requires !s.tasks[t].pc.LoadingIndex? && !(s.tasks[t].pc.Uploading? && s.tasks[t].pc.cont.StoreValue?)
    ensures IndexInv(env, Resumed(env, s, t, now))
  {
    var s' := Resumed(env, s, t, now);
    ResumeIsLater(env, s, t, now);
    ResumeIndexSteps(env, s, t, now);
    if LOG_INDEX !in s.manifest {
      assert Attributed(env, s', [], []);
    }
    LooksPresent(env, s, t, now);
  }

  lemma ResumeKeepsIndex(env: Env, s: State, t: nat, now: string)
    requires env.CollisionFree() && env.index.RoundTrips() && FramesOnly(env, s.mem) && LogInv(env, s)
    requires IndexInv(env, s) && OneLooker(s) && Enabled(env, s, Resume(t, now))
    ensures IndexInv(env, Resumed(env, s, t, now))
  {
    if s.tasks[t].pc.LoadingIndex? {
      IndexLoadedIsPresent(env, s, t, now);
    } else if s.tasks[t].pc.Uploading? && s.tasks[t].pc.cont.StoreValue? {
      if WritesIndex(s, t) {
        IndexStored(env, s, t, now);
      } else {
        OtherValueStored(env, s, t, now);
      }
    } else {
      OtherResumed(env, s, t, now);
    }
  }

  lemma StartKeepsIndex(env: Env, s: State, t: nat, now: string, freshId: string)
    requires LogInv(env, s) && IndexInv(env, s) && Enabled(env, s, Start(t, now, freshId))
    ensures IndexInv(env, Started(env, s, t, now, freshId))
  {
    var s' := Started(env, s, t, now, freshId);
    assert TaskOk(env, s, t);
    JobsStay(env, s, Start(t, now, freshId));
    MovedAside(env, s, Start(t, now, freshId), t);
    SameIndexKeeps(env, s, s');
  }

  lemma OutsideKeepsIndex(env: Env, s: State, e: Event)
    requires IndexInv(env, s) && Enabled(env, s, e) && (e.Spawn? || e.Land? || e.Foreign? || e.Fail?)
    requires Extends(s.mem, Apply(env, s, e).mem)
    ensures IndexInv(env, Apply(env, s, e))
  {
    JobsStay(env, s, e);
    if e.Fail? {
      MovedAside(env, s, e, e.t);
    }
    SameIndexKeeps(env, s, Apply(env, s, e));
  }

  lemma StepKeepsIndex(env: Env, s: State, e: Event)
    requires env.CollisionFree() && env.index.RoundTrips() && KvInv(env, s) && LogInv(env, s)
    requires IndexInv(env, s) && OneLooker(s) && Enabled(env, s, e)
    ensures IndexInv(env, Apply(env, s, e))
  {
    if e.Resume? {
      ResumeKeepsIndex(env, s, e.t, e.now);
    } else if e.Start? {
      StartKeepsIndex(env, s, e.t, e.now, e.freshId);
    } else {
      StepKeepsKvInv(env, s, e);
      OutsideKeepsIndex(env, s, e);
    }
  }

  lemma {:induction false} RunKeepsIndex(env: Env, trace: seq<State>, events: seq<Event>, i: nat)
    requires env.CollisionFree() && env.CodecsRoundTrip() && IsRun(env, trace, events) && i < |trace|
    requires forall e | e in events :: Respectful(e)
    requires forall k | 0 <= k < |trace| :: OneLooker(trace[k])
    ensures IndexInv(env, trace[i])
  {
    if i > 0 {
      RunKeepsIndex(env, trace, events, i - 1);
      RunKeepsKvInv(env, trace, events, i - 1);
      RunKeepsLogInv(env, trace, events, i - 1);
      StepKeepsIndex(env, trace[i - 1], events[i - 1]);
    }
  }

  /** In every state the order lists exactly the appends whose index write took effect. */
  lemma {:induction false} OrderIsOfIndexed(env: Env, trace: seq<State>, events: seq<Event>, i: nat)
    requires IsRun(env, trace, events) && i < |trace|
    ensures forall t: nat :: t in trace[i].indexOrder <==> t in trace[i].indexed
  {
    if i > 0 {
      OrderIsOfIndexed(env, trace, events, i - 1);
      assert trace[i] == Apply(env, trace[i - 1], events[i - 1]);
    }
  }

  /** Where an append can stand: it is done, or in its persist, only after it has written the index. */
  ghost predicate AppendOk(s: State, t: nat)
    requires t < |s.tasks|
  {
    s.tasks[t].job.AppendJob? ==>
      match s.tasks[t].pc
      case Uploading(_, StoreValue(_, purpose, _)) => purpose.IndexWrite?
      case Uploading(_, Publish(_, _)) => t in s.indexed
      case LoadingSwarm(_) => false
      case Done => t in s.indexed
      case _ => true
  }

  lemma ResumeKeepsAppendOk(env: Env, s: State, t: nat, now: string)
    requires Enabled(env, s, Resume(t, now)) && AppendOk(s, t)
    ensures
      var s' := Resumed(env, s, t, now);
      t < |s'.tasks| && AppendOk(s', t) && s.indexed <= s'.indexed
  {}

  lemma StartKeepsAppendOk(env: Env, s: State, t: nat, now: string, freshId: string)
    requires Enabled(env, s, Start(t, now, freshId))
    ensures
      var s' := Started(env, s, t, now, freshId);
      t < |s'.tasks| && AppendOk(s', t) && s'.indexed == s.indexed
  {}

  lemma StepKeepsAppendOk(env: Env, s: State, e: Event)
    requires Enabled(env, s, e) && forall t | 0 <= t < |s.tasks| :: AppendOk(s, t)
    ensures forall t | 0 <= t < |Apply(env, s, e).tasks| :: AppendOk(Apply(env, s, e), t)
  {
    var s' := Apply(env, s, e);
    if e.Resume? {
      ResumeKeepsAppendOk(env, s, e.t, e.now);
    } else if e.Start? {
      StartKeepsAppendOk(env, s, e.t, e.now, e.freshId);
    }
    assert s.indexed <= s'.indexed;
    forall t | 0 <= t < |s'.tasks|
      ensures AppendOk(s', t)
    {
      if t < |s.tasks| && !((e.Start? || e.Resume? || e.Fail?) && e.t == t) {
        TaskStays(env, s, e, t);
        assert AppendOk(s, t);
      }
    }
  }

  /** Append t has returned. */
  ghost predicate Completed(s: State, t: nat)
  {
    t < |s.tasks| && s.tasks[t].job.AppendJob? && s.tasks[t].pc == Done
  }

  /** In every reachable state each completed append has written the index. */
  lemma {:induction false} CompletedHaveWritten(env: Env, trace: seq<State>, events: seq<Event>, i: nat)
    requires IsRun(env, trace, events) && i < |trace|
    ensures forall t | 0 <= t < |trace[i].tasks| :: AppendOk(trace[i], t)
    ensures forall t: nat | Completed(trace[i], t) :: t in trace[i].indexed
  {
    if i > 0 {
      CompletedHaveWritten(env, trace, events, i - 1);
      StepKeepsAppendOk(env, trace[i - 1], events[i - 1]);
    }
    forall t: nat | Completed(trace[i], t)
      ensures t in trace[i].indexed
    {
      assert AppendOk(trace[i], t);
    }
  }

  /**
    On runs in which no append looks the index up while another's write of it is still to come, the present index
    lists exactly the entries of the appends whose index write took effect, in the order of those writes; so it lists
    every completed append.
   */
  lemma IndexIsExact(env: Env, trace: seq<State>, events: seq<Event>, i: nat) returns (index: LogIndex)
    requires env.CollisionFree() && env.CodecsRoundTrip() && IsRun(env, trace, events) && i < |trace|
    requires forall e | e in events :: Respectful(e)
    requires forall k | 0 <= k < |trace| :: OneLooker(trace[k])
    requires LOG_INDEX in trace[i].manifest
    ensures Stored(trace[i].mem, trace[i].manifest[LOG_INDEX], env.index.enc(index))
    ensures index.entryCount == |index.entries| == |trace[i].indexOrder|
    ensures forall a | 0 <= a < |index.entries| :: EntryOf(env, trace[i], index.entries[a], trace[i].indexOrder[a])
    ensures forall t: nat :: t in trace[i].indexOrder <==> t in trace[i].indexed
    ensures forall t: nat | Completed(trace[i], t) :: t in trace[i].indexOrder
  {
    RunKeepsIndex(env, trace, events, i);
    CompletedHaveWritten(env, trace, events, i);
    OrderIsOfIndexed(env, trace, events, i);
    var s := trace[i];
    index :| Stored(s.mem, s.manifest[LOG_INDEX], env.index.enc(index)) && ListsAll(env, s, index);
  }

  // ---- When they do overlap ----

  /** Two appends that have both uploaded their entries and found no index. */
  lemma BothLooked(env: Env, a: LogEntry, b: LogEntry, now: string) returns (trace: seq<State>, events: seq<Event>)
    requires a.rootHash == b.rootHash == None && a.entryId != b.entryId
    requires Landable(env, env.entry.enc(a)) && Landable(env, env.entry.enc(b))
    ensures IsRun(env, trace, events)
    ensures
      var s := Now(trace);
      && s.manifest == map[]
      && s.tasks == [Task(JobOf(a), WriteIndex(env, EmptyIndex(now), a, FrameRoot(env, env.entry.enc(a)), now)),
                     Task(JobOf(b), WriteIndex(env, EmptyIndex(now), b, FrameRoot(env, env.entry.enc(b)), now))]
  {
    trace, events := [INITIAL], [];
    trace, events := Extend(env, trace, events, Spawn(JobOf(a)));
    trace, events := Extend(env, trace, events, Spawn(JobOf(b)));
    trace, events := Extend(env, trace, events, Start(0, now, a.entryId));
    assert Now(trace).ids == map[0 := a.entryId];
    trace, events := Extend(env, trace, events, Start(1, now, b.entryId));
    trace, events := Pass(env, trace, events, 0, now);
    trace, events := Pass(env, trace, events, 1, now);
  }

  function JobOf(entry: LogEntry): Job
  {
    AppendJob(entry.eventType, entry.agentRole, entry.timestamp, entry.data)
  }

  function FirstIndex(env: Env, entry: LogEntry, now: string): LogIndex
    requires Framing.Frame(env.entry.enc(entry)).Some?
  {
    EmptyIndex(now).Append(FrameRoot(env, env.entry.enc(entry)), now)
  }

  ghost predicate IndexLandable(env: Env, entry: LogEntry, now: string)
  {
    && entry.rootHash == None && Landable(env, env.entry.enc(entry))
    && var index := env.index.enc(FirstIndex(env, entry, now));
       Landable(env, index) && Landable(env, ManifestBytes(env, map[LOG_INDEX := FrameRoot(env, index)], now))
  }

  /** The first has written its index and completed; the second still has its own to write. */
  lemma FirstDone(env: Env, a: LogEntry, b: LogEntry, now: string) returns (trace: seq<State>, events: seq<Event>)
    requires IndexLandable(env, a, now) && IndexLandable(env, b, now) && a.entryId != b.entryId
    ensures IsRun(env, trace, events)
    ensures
      var s := Now(trace);
      && s.manifest == map[LOG_INDEX := FrameRoot(env, env.index.enc(FirstIndex(env, a, now)))]
      && s.tasks == [Task(JobOf(a), Done),
                     Task(JobOf(b), WriteIndex(env, EmptyIndex(now), b, FrameRoot(env, env.entry.enc(b)), now))]
  {
    trace, events := BothLooked(env, a, b, now);
    trace, events := Pass(env, trace, events, 0, now);
    trace, events := Pass(env, trace, events, 0, now);
  }

  /**
    An append can vanish: two appends look the same index up, both complete, and the present index lists only the
    second entry.
   */
  lemma AppendCanBeLost(env: Env, a: LogEntry, b: LogEntry, now: string) returns (trace: seq<State>, events: seq<Event>)
    requires IndexLandable(env, a, now) && IndexLandable(env, b, now) && a.entryId != b.entryId
    ensures IsRun(env, trace, events)
    ensures
      var s := Now(trace);
      && s.tasks == [Task(JobOf(a), Done), Task(JobOf(b), Done)]
      && s.manifest == map[LOG_INDEX := FrameRoot(env, env.index.enc(FirstIndex(env, b, now)))]
      && FirstIndex(env, b, now).entries == [FrameRoot(env, env.entry.enc(b))]
  {
    trace, events := FirstDone(env, a, b, now);
    trace, events := Pass(env, trace, events, 1, now);
    assert Now(trace).manifest == map[LOG_INDEX := FrameRoot(env, env.index.enc(FirstIndex(env, b, now)))];
    trace, events := Pass(env, trace, events, 1, now);
  }
}
