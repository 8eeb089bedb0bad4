/**
  The storage stack under concurrency: any number of set, delete, append and update_status calls on one
  SwarmKV, each cut at every await. An upload's bytes may land at any moment while it is awaited, the
  awaiting call may resume only after they have, and any awaited call may fail instead, landed or not.
  Other users of the same client may land blobs at any time.
 */
module Interleaving {
  import opened Prelude
  import opened Models
  import opened Client
  import opened Kv
  import Framing

  datatype Job =
    | SetJob(key: string, value: Bytes)
    | DeleteJob(key: string)
    | AppendJob(eventType: LogEventType, agentRole: string, timestamp: string, data: Json)
    | StatusJob(role: string, state: AgentState)

  /** What follows a completed `set` inside the same call. */
  datatype After = Finish | ThenAggregate

  /** On whose behalf `set` stores a value; `read` and `before` are what the call had read. */
  datatype Purpose =
    | User
    | OwnRecord
    | IndexWrite(read: LogIndex, entry: LogEntry, entryRoot: string)
    | SwarmWrite(before: SwarmState)

  /** The code that runs when an awaited upload returns its root. */
  datatype Cont =
    | StoreValue(key: string, purpose: Purpose, next: After)
    | Publish(manifest: Manifest, next: After)
    | EntryStored(entry: LogEntry)

  datatype Pc =
    | Ready
    | Uploading(data: Bytes, cont: Cont)
    | LoadingIndex(root: string, entry: LogEntry, entryRoot: string)
    | LoadingSwarm(root: string)
    | Done
    | Failed

  datatype Task = Task(job: Job, pc: Pc)

  /** The KV's fields, the tasks, and the history the properties speak of. */
  datatype State = State(
    mem: Blobs,
    manifest: Manifest,
    root: Option<string>,
    tasks: seq<Task>,
    past: set<Manifest>,                   // every in-memory manifest so far
    writes: set<(string, Bytes)>,          // every value a set put under a key
    published: set<(string, Manifest)>,    // every manifest root ever assigned, with what it stood for
    ids: map<nat, string>,                 // the entry id of each started append
    indexed: set<nat>,                     // appends whose index write took effect
    aggregated: set<nat>,                  // status updates whose aggregate write took effect
    indexOrder: seq<nat>,                  // the former and the latter, in the order of those writes
    aggregateOrder: seq<nat>)

  const INITIAL := State(map[], map[], None, [], {map[]}, {}, {}, map[], {}, {}, [], [])

  datatype Event =
    | Spawn(job: Job)
    | Start(t: nat, now: string, freshId: string)
    | Land(t: nat)
    | Foreign(data: Bytes)
    | Resume(t: nat, now: string)
    | Fail(t: nat)

  // ---- The code between two awaits ----

  function Persisting(env: Env, m: Manifest, next: After, now: string): Pc
  {
    Uploading(ManifestBytes(env, m, now), Publish(m, next))
  }

  /** The entry an append uploads, its fresh id given. */
  function EntryFor(job: Job, id: string): LogEntry
    requires job.AppendJob?
  {
    LogEntry(id, job.eventType, job.agentRole, job.timestamp, job.data, None)
  }

  function WriteIndex(env: Env, read: LogIndex, entry: LogEntry, entryRoot: string, now: string): Pc
  {
    Uploading(env.index.enc(read.Append(entryRoot, now)), StoreValue(LOG_INDEX, IndexWrite(read, entry, entryRoot),
        Finish))
  }

  function WriteSwarm(env: Env, read: SwarmState, job: Job, now: string): Pc
    requires job.StatusJob?
  {
    Uploading(env.swarm.enc(read.UpdateAgent(job.role, job.state, now)),
        StoreValue(SWARM_STATE, SwarmWrite(read), Finish))
  }

  function At(s: State, t: nat, pc: Pc): State
    requires t < |s.tasks|
  {
    s.(tasks := s.tasks[t := s.tasks[t].(pc := pc)])
  }

  function Started(env: Env, s: State, t: nat, now: string, freshId: string): State
    requires t < |s.tasks|
  {
    match s.tasks[t].job
    case SetJob(key, value) => At(s, t, Uploading(value, StoreValue(key, User, Finish)))
    case DeleteJob(key) =>
      if key !in s.manifest then At(s, t, Done)
      else
        var m := s.manifest - {key};
        At(s.(manifest := m, past := s.past + {m}), t, Persisting(env, m, Finish, now))
    case AppendJob(_, _, _, _) =>
      var entry := EntryFor(s.tasks[t].job, freshId);
      At(s.(ids := s.ids[t := freshId]), t, Uploading(env.entry.enc(entry), EntryStored(entry)))
    case StatusJob(role, state) =>
      At(s, t, Uploading(env.agent.enc(state), StoreValue(AgentKey(role), OwnRecord, ThenAggregate)))
  }

  /** `self._manifest[key] = root`, then the persist begins. */
  function ValueStored(env: Env, s: State, t: nat, root: string, now: string): State
    requires t < |s.tasks| && s.tasks[t].pc.Uploading? && s.tasks[t].pc.cont.StoreValue?
  {
    var Uploading(data, StoreValue(key, purpose, next)) := s.tasks[t].pc;
    var m := s.manifest[key := root];
    At(s.(manifest := m, past := s.past + {m}, writes := s.writes + {(key, data)},
          indexed := if purpose.IndexWrite? then s.indexed + {t} else s.indexed,
          aggregated := if purpose.SwarmWrite? then s.aggregated + {t} else s.aggregated,
          indexOrder := if purpose.IndexWrite? then s.indexOrder + [t] else s.indexOrder,
          aggregateOrder := if purpose.SwarmWrite? then s.aggregateOrder + [t] else s.aggregateOrder),
       t, Persisting(env, m, next, now))
  }

  /** `self._manifest_root = root`, then whatever the call still has to do. */
  function ManifestStored(env: Env, s: State, t: nat, root: string, now: string): State
    requires t < |s.tasks| && s.tasks[t].pc.Uploading? && s.tasks[t].pc.cont.Publish?
  {
    var Uploading(_, Publish(m, next)) := s.tasks[t].pc;
    At(s.(root := Some(root), published := s.published + {(root, m)}), t,
       if next == Finish || !s.tasks[t].job.StatusJob? then Done
       else if SWARM_STATE in s.manifest then LoadingSwarm(s.manifest[SWARM_STATE])
       else WriteSwarm(env, EmptySwarm(now), s.tasks[t].job, now))
  }

  function EntryUploaded(env: Env, s: State, t: nat, root: string, now: string): State
    requires t < |s.tasks| && s.tasks[t].pc.Uploading? && s.tasks[t].pc.cont.EntryStored?
  {
    var entry := s.tasks[t].pc.cont.entry;
    At(s, t, if LOG_INDEX in s.manifest then LoadingIndex(s.manifest[LOG_INDEX], entry, root)
             else WriteIndex(env, EmptyIndex(now), entry, root, now))
  }

  function IndexLoaded(env: Env, s: State, t: nat, now: string): State
    requires t < |s.tasks| && s.tasks[t].pc.LoadingIndex? && s.tasks[t].pc.root in s.mem
  {
    var LoadingIndex(root, entry, entryRoot) := s.tasks[t].pc;
    var decoded := env.index.dec(Framing.Unframe(s.mem[root]));
    At(s, t, WriteIndex(env, if decoded.Some? then decoded.value else EmptyIndex(now), entry, entryRoot, now))
  }

  function SwarmLoaded(env: Env, s: State, t: nat, now: string): State
    requires t < |s.tasks| && s.tasks[t].pc.LoadingSwarm? && s.tasks[t].pc.root in s.mem && s.tasks[t].job.StatusJob?
  {
    var decoded := env.swarm.dec(Framing.Unframe(s.mem[s.tasks[t].pc.root]));
    At(s, t, WriteSwarm(env, if decoded.Some? then decoded.value else EmptySwarm(now), s.tasks[t].job, now))
  }

  // ---- Steps and runs ----

  ghost predicate Landable(env: Env, data: Bytes)
  {
    Framing.Frame(data).Some? && Framing.Frame(data).value in env.blobs
  }

  function FrameRoot(env: Env, data: Bytes): string
    requires Framing.Frame(data).Some?
  {
    env.rootOf(Framing.Frame(data).value)
  }

  ghost predicate Enabled(env: Env, s: State, e: Event)
  {
    match e
    case Spawn(_) => true
    case Start(t, _, freshId) => t < |s.tasks| && s.tasks[t].pc == Ready && freshId !in s.ids.Values
    case Land(t) => t < |s.tasks| && s.tasks[t].pc.Uploading? && Landable(env, s.tasks[t].pc.data)
    case Foreign(data) => Landable(env, data)
    case Resume(t, _) =>
      t < |s.tasks| &&
      (match s.tasks[t].pc
       case Uploading(data, _) => Landable(env, data) && FrameRoot(env, data) in s.mem
       case LoadingIndex(root, _, _) => root in s.mem
       case LoadingSwarm(root) => root in s.mem && s.tasks[t].job.StatusJob?
       case _ => false)
    case Fail(t) =>
      t < |s.tasks| && (s.tasks[t].pc.Uploading? || s.tasks[t].pc.LoadingIndex? || s.tasks[t].pc.LoadingSwarm?)
  }

  ghost function Landed(env: Env, s: State, data: Bytes): State
    requires Landable(env, data)
  {
    s.(mem := s.mem[FrameRoot(env, data) := Framing.Frame(data).value])
  }

  ghost function Resumed(env: Env, s: State, t: nat, now: string): State
    requires Enabled(env, s, Resume(t, now))
  {
    match s.tasks[t].pc
    case Uploading(data, cont) =>
      (match cont
       case StoreValue(_, _, _) => ValueStored(env, s, t, FrameRoot(env, data), now)
       case Publish(_, _) => ManifestStored(env, s, t, FrameRoot(env, data), now)
       case EntryStored(_) => EntryUploaded(env, s, t, FrameRoot(env, data), now))
    case LoadingIndex(_, _, _) => IndexLoaded(env, s, t, now)
    case LoadingSwarm(_) => SwarmLoaded(env, s, t, now)
  }

  ghost function Apply(env: Env, s: State, e: Event): State
    requires Enabled(env, s, e)
  {
    match e
    case Spawn(job) => s.(tasks := s.tasks + [Task(job, Ready)])
    case Start(t, now, freshId) => Started(env, s, t, now, freshId)
    case Land(t) => Landed(env, s, s.tasks[t].pc.data)
    case Foreign(data) => Landed(env, s, data)
    case Resume(t, now) => Resumed(env, s, t, now)
    case Fail(t) => At(s, t, Failed)
  }

  /** `trace` is a run of the machine: its first state, then one state per event. */
  ghost predicate IsRun(env: Env, trace: seq<State>, events: seq<Event>)
  {
    && |trace| == |events| + 1 && trace[0] == INITIAL
    && forall i {:trigger events[i]} | 0 <= i < |events| ::
         Enabled(env, trace[i], events[i]) && trace[i + 1] == Apply(env, trace[i], events[i])
  }

  // ---- What every state of every run satisfies ----

  ghost predicate Stored(mem: Blobs, root: string, data: Bytes)
  {
    root in mem && Framing.Unframe(mem[root]) == data
  }

  /** Every root the manifest mentions is stored, and yields bytes that were set under that very key. */
  ghost predicate Complete(s: State, m: Manifest)
  {
    forall key | key in m :: exists data :: (key, data) in s.writes && Stored(s.mem, m[key], data)
  }

  ghost predicate PublishedOk(env: Env, s: State)
  {
    && (forall p | p in s.published :: p.1 in s.past && HoldsManifest(env, s.mem, p.0, p.1))
    && (s.root.Some? ==> exists m :: (s.root.value, m) in s.published)
  }

  ghost predicate PublishingOk(env: Env, s: State)
  {
    forall t | 0 <= t < |s.tasks| && s.tasks[t].pc.Uploading? && s.tasks[t].pc.cont.Publish? ::
      s.tasks[t].pc.cont.manifest in s.past &&
      exists now :: s.tasks[t].pc.data == ManifestBytes(env, s.tasks[t].pc.cont.manifest, now)
  }

  ghost predicate KvInv(env: Env, s: State)
  {
    && FramesOnly(env, s.mem)
    && s.manifest in s.past
    && (forall m | m in s.past :: Complete(s, m))
    && PublishedOk(env, s)
    && PublishingOk(env, s)
  }

  /** Everything recorded so far is still there. */
  ghost predicate Grows(s: State, s': State)
  {
    && Extends(s.mem, s'.mem)
    && s.past <= s'.past && s.writes <= s'.writes && s.published <= s'.published
  }

  lemma CompleteGrows(s: State, s': State, m: Manifest)
    requires Complete(s, m) && Extends(s.mem, s'.mem) && s.writes <= s'.writes
    ensures Complete(s', m)
  {}

  lemma LandedGrows(env: Env, s: State, data: Bytes)
    requires env.CollisionFree() && FramesOnly(env, s.mem) && Landable(env, data)
    ensures
      var s' := Landed(env, s, data);
      && FramesOnly(env, s'.mem) && Extends(s.mem, s'.mem)
      && Stored(s'.mem, FrameRoot(env, data), data)
  {
    PutExtends(env, s.mem, data);
  }

  lemma LandedKeepsKvInv(env: Env, s: State, data: Bytes)
    requires env.CollisionFree() && KvInv(env, s) && Landable(env, data)
    ensures KvInv(env, Landed(env, s, data)) && Grows(s, Landed(env, s, data))
  {}

  /** A stored frame under the root of this payload is this payload's frame. */
  lemma LandedIsStored(env: Env, mem: Blobs, data: Bytes)
    requires env.CollisionFree() && FramesOnly(env, mem) && Landable(env, data) && FrameRoot(env, data) in mem
    ensures Stored(mem, FrameRoot(env, data), data)
  {
    Framing.FrameRoundTrip(data);
  }

  lemma DeleteKeepsKvInv(env: Env, s: State, t: nat, now: string, freshId: string)
    requires KvInv(env, s) && t < |s.tasks| && s.tasks[t].job.DeleteJob? && s.tasks[t].job.key in s.manifest
    ensures KvInv(env, Started(env, s, t, now, freshId)) && Grows(s, Started(env, s, t, now, freshId))
  {}

  lemma StartKeepsKvInv(env: Env, s: State, t: nat, now: string, freshId: string)
    requires KvInv(env, s) && t < |s.tasks| && s.tasks[t].pc == Ready
    ensures KvInv(env, Started(env, s, t, now, freshId)) && Grows(s, Started(env, s, t, now, freshId))
  {
    if s.tasks[t].job.DeleteJob? && s.tasks[t].job.key in s.manifest {
      DeleteKeepsKvInv(env, s, t, now, freshId);
    } else {
      OtherKeepsKvInv(env, s, Started(env, s, t, now, freshId));
    }
  }

  lemma ValueStoredKeepsKvInv(env: Env, s: State, t: nat, now: string)
    requires env.CollisionFree() && KvInv(env, s) && Enabled(env, s, Resume(t, now))
    requires s.tasks[t].pc.Uploading? && s.tasks[t].pc.cont.StoreValue?
    ensures KvInv(env, Resumed(env, s, t, now)) && Grows(s, Resumed(env, s, t, now))
  {
    var s' := Resumed(env, s, t, now);
    var Uploading(data, StoreValue(key, purpose, next)) := s.tasks[t].pc;
    var root := FrameRoot(env, data);
    LandedIsStored(env, s.mem, data);
    forall m | m in s.past
      ensures Complete(s', m)
    {
      CompleteGrows(s, s', m);
    }
    assert (key, data) in s'.writes && Stored(s'.mem, root, data);
    assert Complete(s', s.manifest[key := root]);
  }

  lemma ManifestStoredKeepsKvInv(env: Env, s: State, t: nat, now: string)
    requires env.CollisionFree() && KvInv(env, s) && Enabled(env, s, Resume(t, now))
    requires s.tasks[t].pc.Uploading? && s.tasks[t].pc.cont.Publish?
    ensures KvInv(env, Resumed(env, s, t, now)) && Grows(s, Resumed(env, s, t, now))
  {
    var s' := Resumed(env, s, t, now);
    var Uploading(data, Publish(m, next)) := s.tasks[t].pc;
    LandedIsStored(env, s.mem, data);
    assert HoldsManifest(env, s.mem, FrameRoot(env, data), m);
    assert (s'.root.value, m) in s'.published;
    forall m | m in s.past
      ensures Complete(s', m)
    {
      CompleteGrows(s, s', m);
    }
  }

  lemma OtherKeepsKvInv(env: Env, s: State, s': State)
    requires KvInv(env, s) && PublishingOk(env, s')
    requires s'.mem == s.mem && s'.manifest == s.manifest && s'.root == s.root
    requires s'.past == s.past && s'.writes == s.writes && s'.published == s.published
    ensures KvInv(env, s')
  {}

  lemma StepKeepsKvInv(env: Env, s: State, e: Event)
    requires env.CollisionFree() && KvInv(env, s) && Enabled(env, s, e)
    ensures KvInv(env, Apply(env, s, e)) && Grows(s, Apply(env, s, e))
  {
    match e
    case Spawn(_) => OtherKeepsKvInv(env, s, Apply(env, s, e));
    case Start(t, now, freshId) => StartKeepsKvInv(env, s, t, now, freshId);
    case Land(t) => LandedKeepsKvInv(env, s, s.tasks[t].pc.data);
    case Foreign(data) => LandedKeepsKvInv(env, s, data);
    case Fail(t) => OtherKeepsKvInv(env, s, Apply(env, s, e));
    case Resume(t, now) =>
      var pc := s.tasks[t].pc;
      if pc.Uploading? && pc.cont.StoreValue? {
        ValueStoredKeepsKvInv(env, s, t, now);
      } else if pc.Uploading? && pc.cont.Publish? {
        ManifestStoredKeepsKvInv(env, s, t, now);
      } else {
        OtherKeepsKvInv(env, s, Apply(env, s, e));
      }
  }

  lemma {:induction false} RunKeepsKvInv(env: Env, trace: seq<State>, events: seq<Event>, i: nat)
    requires env.CollisionFree() && IsRun(env, trace, events) && i < |trace|
    ensures KvInv(env, trace[i])
  {
    if i > 0 {
      RunKeepsKvInv(env, trace, events, i - 1);
      StepKeepsKvInv(env, trace[i - 1], events[i - 1]);
    }
  }

  lemma GrowsTransitive(a: State, b: State, c: State)
    requires Grows(a, b) && Grows(b, c)
    ensures Grows(a, c)
  {}

  lemma {:induction false} RunGrows(env: Env, trace: seq<State>, events: seq<Event>, i: nat, j: nat)
    requires env.CollisionFree() && IsRun(env, trace, events) && i <= j < |trace|
    ensures Grows(trace[i], trace[j])
  {
    if i < j {
      RunGrows(env, trace, events, i, j - 1);
      RunKeepsKvInv(env, trace, events, j - 1);
      StepKeepsKvInv(env, trace[j - 1], events[j - 1]);
      GrowsTransitive(trace[i], trace[j - 1], trace[j]);
    }
  }

  /** The manifest that loading this root yields. */
  function LoadedFrom(env: Env, mem: Blobs, root: string): Option<Manifest>
  {
    if root !in mem || env.json.dec(Framing.Unframe(mem[root])).None? then None
    else ReadKeys(KeysOf(env.json.dec(Framing.Unframe(mem[root])).value))
  }

  /**
    The central safety theorem. At every moment i of every interleaving, the manifest root decodes to a
    manifest that was the in-memory one at some earlier moment, and at every later moment j it still
    does, with every value it mentions stored and equal to bytes that were set under that key.
   */
  lemma PublishedRootStaysComplete(env: Env, trace: seq<State>, events: seq<Event>, i: nat, j: nat)
    returns (m: Manifest)
    requires env.CollisionFree() && env.json.RoundTrips() && IsRun(env, trace, events) && i <= j < |trace|
    requires trace[i].root.Some?
    ensures LoadedFrom(env, trace[i].mem, trace[i].root.value) == Some(m)
    ensures LoadedFrom(env, trace[j].mem, trace[i].root.value) == Some(m)
    ensures exists k | 0 <= k <= i :: trace[k].manifest == m
    ensures Complete(trace[i], m) && Complete(trace[j], m)
  {
    RunKeepsKvInv(env, trace, events, i);
    RunKeepsKvInv(env, trace, events, j);
    RunGrows(env, trace, events, i, j);
    m :| (trace[i].root.value, m) in trace[i].published;
    PastWasPresent(env, trace, events, i, m);
    HoldsManifestLoads(env, trace[i].mem, trace[i].root.value, m);
    HoldsManifestLoads(env, trace[j].mem, trace[i].root.value, m);
  }

  lemma HoldsManifestLoads(env: Env, mem: Blobs, root: string, m: Manifest)
    requires env.json.RoundTrips() && HoldsManifest(env, mem, root, m)
    ensures LoadedFrom(env, mem, root) == Some(m)
  {
    var now :| Framing.Unframe(mem[root]) == ManifestBytes(env, m, now);
    ManifestJsonRoundTrip(m, now);
  }

  /** `past` is no more than the manifests of the states so far. */
  lemma {:induction false} PastWasPresent(env: Env, trace: seq<State>, events: seq<Event>, i: nat, m: Manifest)
    requires IsRun(env, trace, events) && i < |trace| && m in trace[i].past
    ensures exists k | 0 <= k <= i :: trace[k].manifest == m
  {
    if i > 0 {
      assert trace[i] == Apply(env, trace[i - 1], events[i - 1]);
      if m in trace[i - 1].past {
        PastWasPresent(env, trace, events, i - 1, m);
      } else {
        assert trace[i].manifest == m;
      }
    }
  }

  // ---- Building runs ----

  ghost function Now(trace: seq<State>): State
    requires trace != []
  {
    trace[|trace| - 1]
  }

  lemma Extend(env: Env, trace: seq<State>, events: seq<Event>, e: Event)
    returns (trace': seq<State>, events': seq<Event>)
    requires IsRun(env, trace, events) && Enabled(env, Now(trace), e)
    ensures IsRun(env, trace', events') && events' == events + [e]
    ensures Now(trace') == Apply(env, Now(trace), e)
  {
    trace', events' := trace + [Apply(env, Now(trace), e)], events + [e];
  }

  /** An upload that lands and returns at once. */
  lemma Pass(env: Env, trace: seq<State>, events: seq<Event>, t: nat, now: string)
    returns (trace': seq<State>, events': seq<Event>)
    requires IsRun(env, trace, events) && Enabled(env, Now(trace), Land(t))
    ensures IsRun(env, trace', events') && events' == events + [Land(t), Resume(t, now)]
    ensures
      var landed := Apply(env, Now(trace), Land(t));
      Enabled(env, landed, Resume(t, now)) && Now(trace') == Apply(env, landed, Resume(t, now))
  {
    trace', events' := Extend(env, trace, events, Land(t));
    trace', events' := Extend(env, trace', events', Resume(t, now));
  }

  // ---- When the published manifest is the present one ----

  /** Two sets whose persists are both under way, each of the manifest it had made. */
  lemma PersistsOverlap(env: Env, a: string, b: string, value: Bytes, now: string)
    returns (trace: seq<State>, events: seq<Event>)
    requires a != b && Landable(env, value)
    ensures IsRun(env, trace, events)
    ensures
      var s, root := Now(trace), FrameRoot(env, value);
      && s.tasks == [Task(SetJob(a, value), Persisting(env, map[a := root], Finish, now)),
                     Task(SetJob(b, value), Persisting(env, map[a := root][b := root], Finish, now))]
      && s.manifest == map[a := root][b := root]
  {
    trace, events := [INITIAL], [];
    trace, events := Extend(env, trace, events, Spawn(SetJob(a, value)));
    trace, events := Extend(env, trace, events, Spawn(SetJob(b, value)));
    trace, events := Extend(env, trace, events, Start(0, now, ""));
    trace, events := Extend(env, trace, events, Start(1, now, ""));
    trace, events := Pass(env, trace, events, 0, now);
    trace, events := Pass(env, trace, events, 1, now);
  }

  /**
    A completed set can be missing from the published manifest: when two persists overlap and return in the
    other order, the root of the older manifest overwrites that of the newer one.
   */
  lemma CompletedSetCanGoUnpublished(env: Env, a: string, b: string, value: Bytes, now: string)
    returns (trace: seq<State>, events: seq<Event>)
    requires a != b && Landable(env, value)
    requires var root := FrameRoot(env, value);
      && Landable(env, ManifestBytes(env, map[a := root], now))
      && Landable(env, ManifestBytes(env, map[a := root][b := root], now))
    ensures IsRun(env, trace, events)
    ensures
      var s := Now(trace);
      && s.tasks == [Task(SetJob(a, value), Done), Task(SetJob(b, value), Done)]
      && s.manifest.Keys == {a, b}
      && s.root == Some(FrameRoot(env, ManifestBytes(env, map[a := FrameRoot(env, value)], now)))
  {
    trace, events := PersistsOverlap(env, a, b, value, now);
    trace, events := Pass(env, trace, events, 1, now);
    trace, events := Pass(env, trace, events, 0, now);
  }

  ghost predicate IsPersisting(s: State, t: nat)
  {
    t < |s.tasks| && s.tasks[t].pc.Uploading? && s.tasks[t].pc.cont.Publish?
  }

  /** No persist begins while another is awaited, and none fails. */
  ghost predicate SerialStep(s: State, e: Event, s': State)
  {
    forall t | IsPersisting(s, t) :: e != Fail(t) && forall u | IsPersisting(s', u) :: u == t
  }

  ghost predicate Quiet(s: State)
  {
    forall t :: !IsPersisting(s, t)
  }

  ghost predicate OnlyPersisting(s: State, t: nat)
  {
    IsPersisting(s, t) && s.tasks[t].pc.cont.manifest == s.manifest && forall u | IsPersisting(s, u) :: u == t
  }

  ghost predicate Untouched(s: State)
  {
    s.manifest == map[] && s.root == None
  }

  ghost predicate Current(s: State)
  {
    s.root.Some? && (s.root.value, s.manifest) in s.published
  }

  /** The published manifest is the current one, or the one persist under way will make it so. */
  ghost predicate InSync(s: State)
  {
    (Quiet(s) && (Untouched(s) || Current(s))) || exists t :: OnlyPersisting(s, t)
  }

  function Mover(e: Event): nat
  {
    if e.Start? || e.Resume? then e.t else 0
  }

  /**
    From s to s' only the mover may have begun a persist, and then of the present manifest; a new manifest means it
    has.
   */
  ghost predicate PersistBegun(s: State, s': State, mover: nat)
  {
    && (forall u: nat | u != mover :: IsPersisting(s', u) ==> IsPersisting(s, u) && s'.tasks[u] == s.tasks[u])
    && (IsPersisting(s', mover) && !IsPersisting(s, mover) ==> s'.tasks[mover].pc.cont.manifest == s'.manifest)
    && (s'.manifest != s.manifest ==> IsPersisting(s', mover) && !IsPersisting(s, mover))
  }

  lemma StartBeginsPersist(env: Env, s: State, t: nat, now: string, freshId: string)
    requires Enabled(env, s, Start(t, now, freshId))
    ensures PersistBegun(s, Started(env, s, t, now, freshId), t)
  {}

  lemma ResumeBeginsPersist(env: Env, s: State, t: nat, now: string)
    requires Enabled(env, s, Resume(t, now))
    ensures PersistBegun(s, Resumed(env, s, t, now), t)
  {}

  /** A step that changes the manifest is one that begins a persist of it. */
  lemma BeginsPersist(env: Env, s: State, e: Event)
    requires Enabled(env, s, e)
    ensures PersistBegun(s, Apply(env, s, e), Mover(e))
  {
    if e.Start? {
      StartBeginsPersist(env, s, e.t, e.now, e.freshId);
    } else if e.Resume? {
      ResumeBeginsPersist(env, s, e.t, e.now);
    }
  }

  lemma QuietStaysInSync(env: Env, s: State, e: Event)
    requires Enabled(env, s, e) && Quiet(s) && (Untouched(s) || Current(s))
    ensures InSync(Apply(env, s, e))
  {
    var s' := Apply(env, s, e);
    BeginsPersist(env, s, e);
    var moved := Mover(e);
    if IsPersisting(s', moved) {
      assert OnlyPersisting(s', moved);
    } else {
      if e.Resume? {
        assert !IsPersisting(s, e.t);
      }
      assert Quiet(s');
      assert s'.root == s.root;
    }
  }

  lemma PersistingStaysInSync(env: Env, s: State, e: Event, t: nat)
    requires Enabled(env, s, e) && OnlyPersisting(s, t) && SerialStep(s, e, Apply(env, s, e))
    ensures InSync(Apply(env, s, e))
  {
    var s' := Apply(env, s, e);
    BeginsPersist(env, s, e);
    if e.Resume? && e.t == t {
      assert Quiet(s') && Current(s');
    } else {
      assert s'.tasks[t] == s.tasks[t];
      assert OnlyPersisting(s', t);
    }
  }

  /**
    When persists neither overlap nor fail, the published manifest is the in-memory one at every moment at
    which no persist is under way: what a completed set or delete did survives a restart from that root.
   */
  lemma {:induction false} SerialPersistsStayInSync(env: Env, trace: seq<State>, events: seq<Event>, i: nat)
    requires IsRun(env, trace, events) && i < |trace|
    requires forall k | 0 <= k < |events| :: SerialStep(trace[k], events[k], trace[k + 1])
    ensures InSync(trace[i])
  {
    if i > 0 {
      SerialPersistsStayInSync(env, trace, events, i - 1);
      var s := trace[i - 1];
      assert SerialStep(trace[i - 1], events[i - 1], trace[i - 1 + 1]);
      if Quiet(s) && (Untouched(s) || Current(s)) {
        QuietStaysInSync(env, s, events[i - 1]);
      } else {
        var t :| OnlyPersisting(s, t);
        PersistingStaysInSync(env, s, events[i - 1], t);
      }
    }
  }

  /** Task t either stays as it is in a step or is the one that takes it. */
  lemma TaskStays(env: Env, s: State, e: Event, t: nat)
    requires Enabled(env, s, e) && t < |s.tasks| && !((e.Start? || e.Resume? || e.Fail?) && e.t == t)
    ensures t < |Apply(env, s, e).tasks| && Apply(env, s, e).tasks[t] == s.tasks[t]
  {}

  lemma JobsStay(env: Env, s: State, e: Event)
    requires Enabled(env, s, e)
    ensures SameJobs(s, Apply(env, s, e))
  {}

  ghost predicate SameJobs(s: State, s': State)
  {
    |s.tasks| <= |s'.tasks| && forall t | 0 <= t < |s.tasks| :: s'.tasks[t].job == s.tasks[t].job
  }

  /** In this step a persist returns. */
  ghost predicate Returns(s: State, e: Event)
  {
    e.Resume? && IsPersisting(s, e.t)
  }

  lemma RootChangesOnReturn(env: Env, s: State, e: Event)
    requires Enabled(env, s, e)
    ensures !Returns(s, e) ==> Apply(env, s, e).root == s.root
    ensures Returns(s, e) ==>
      var s' := Apply(env, s, e);
      s'.root.Some? && (s'.root.value, s.tasks[e.t].pc.cont.manifest) in s'.published && !IsPersisting(s', e.t)
  {}

  /** The persist that task t has under way at moment r began at moment b: of the manifest of that moment. */
  ghost predicate BeganAt(trace: seq<State>, t: nat, b: nat, r: nat)
  {
    && 0 < b <= r < |trace| && !IsPersisting(trace[b - 1], t) && IsPersisting(trace[r], t)
    && (forall j | b <= j <= r :: IsPersisting(trace[j], t) && trace[j].tasks[t] == trace[r].tasks[t])
    && trace[r].tasks[t].pc.cont.manifest == trace[b].manifest
  }

  lemma {:induction false} PersistBegan(env: Env, trace: seq<State>, events: seq<Event>, t: nat, r: nat)
    returns (b: nat)
    requires IsRun(env, trace, events) && r < |trace| && IsPersisting(trace[r], t)
    ensures BeganAt(trace, t, b, r)
  {
    var s, e := trace[r - 1], events[r - 1];
    if IsPersisting(s, t) {
      b := PersistBegan(env, trace, events, t, r - 1);
      RootChangesOnReturn(env, s, e);
      TaskStays(env, s, e, t);
    } else {
      b := r;
      BeginsPersist(env, s, e);
      assert t == Mover(e);
    }
  }

  ghost predicate ReturnsAt(trace: seq<State>, events: seq<Event>, j: nat)
  {
    j < |events| && j < |trace| && Returns(trace[j], events[j])
  }

  lemma RootStays(env: Env, trace: seq<State>, events: seq<Event>, j: nat)
    requires IsRun(env, trace, events) && j < |events|
    ensures !ReturnsAt(trace, events, j) ==> trace[j + 1].root == trace[j].root
  {
    RootChangesOnReturn(env, trace[j], events[j]);
  }

  /** The last return of a persist before moment i. */
  lemma {:induction false} LastReturn(env: Env, trace: seq<State>, events: seq<Event>, i: nat) returns (r: nat)
    requires IsRun(env, trace, events) && i < |trace| && trace[i].root.Some?
    ensures r < i && ReturnsAt(trace, events, r) && trace[i].root == trace[r + 1].root
    ensures forall j | r < j < i :: !ReturnsAt(trace, events, j)
  {
    RootStays(env, trace, events, i - 1);
    if ReturnsAt(trace, events, i - 1) {
      r := i - 1;
    } else {
      r := LastReturn(env, trace, events, i - 1);
    }
  }

  lemma PublishedOnReturn(env: Env, trace: seq<State>, events: seq<Event>, r: nat, i: nat, m: Manifest)
    requires env.CollisionFree() && IsRun(env, trace, events) && r < i < |trace| && ReturnsAt(trace, events, r)
    requires trace[r].tasks[events[r].t].pc.cont.manifest == m && trace[i].root == trace[r + 1].root
    ensures trace[i].root.Some? && HoldsManifest(env, trace[i].mem, trace[i].root.value, m)
  {
    RootChangesOnReturn(env, trace[r], events[r]);
    RunKeepsKvInv(env, trace, events, i);
    RunGrows(env, trace, events, r + 1, i);
    assert (trace[i].root.value, m) in trace[i].published;
  }

  /**
    What the published root stands for, exactly. At every moment it decodes to the in-memory manifest of the moment b
    at which the persist that returned last (in step r) had begun; so it stands for the present manifest if and only
    if that is the manifest of moment b.
   */
  lemma PublishedIsLastReturned(env: Env, trace: seq<State>, events: seq<Event>, i: nat) returns (b: nat, r: nat)
    requires env.CollisionFree() && env.json.RoundTrips() && IsRun(env, trace, events) && i < |trace| &&
             trace[i].root.Some?
    ensures r < i && ReturnsAt(trace, events, r) && BeganAt(trace, events[r].t, b, r)
    ensures forall j | r < j < i :: !ReturnsAt(trace, events, j)
    ensures LoadedFrom(env, trace[i].mem, trace[i].root.value) == Some(trace[b].manifest)
    ensures LoadedFrom(env, trace[i].mem, trace[i].root.value) == Some(trace[i].manifest) <==>
            trace[i].manifest == trace[b].manifest
  {
    r := LastReturn(env, trace, events, i);
    b := PersistBegan(env, trace, events, events[r].t, r);
    PublishedOnReturn(env, trace, events, r, i, trace[b].manifest);
    HoldsManifestLoads(env, trace[i].mem, trace[i].root.value, trace[b].manifest);
  }
}
