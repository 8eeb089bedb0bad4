/** core/storage/log.py: the append-only log whose index lives in the key-value store. */
module Log {
  import opened Prelude
  import opened Models
  import opened Client
  import opened Kv
  import Framing

  /** `_load_index`; None is a download error passing through. */
  function LoadIndex(env: Env, node: Node, mem: Blobs, kv: KvState, now: string): Option<LogIndex>
  {
    match Get(node, mem, kv, LOG_INDEX)
    case Absent => Some(EmptyIndex(now))
    case Raised => None
    case Found(raw) => Some(if env.index.dec(raw).Some? then env.index.dec(raw).value else EmptyIndex(now))
  }

  /** `append`; `entry` comes with its fresh id and timestamp, `now` and `later` are the next clock readings. */
  function Append(env: Env, node: Node, mem: Blobs, kv: KvState, entry: LogEntry, now: string, later: string): Outcome
  {
    match Put(env, mem, env.entry.enc(entry))
    case None => Outcome(mem, kv, false)
    case Some((mem', root)) =>
      match LoadIndex(env, node, mem', kv, now)
      case None => Outcome(mem', kv, false)
      case Some(index) => Set(env, mem', kv, LOG_INDEX, env.index.enc(index.Append(root, now)), later)
  }

  /** Python's `s[start:]` for any integer. */
  function From<T>(s: seq<T>, start: int): seq<T>
  {
    if start >= |s| then [] else if start >= 0 then s[start..]
    else if -start >= |s| then s else s[|s| + start..]
  }

  /** Python's `s[:stop]` for any integer. */
  function UpTo<T>(s: seq<T>, stop: int): seq<T>
  {
    if stop >= |s| then s else if stop >= 0 then s[..stop]
    else if -stop >= |s| then [] else s[..|s| + stop]
  }

  /** The entry behind a root, if it can be fetched and decoded. */
  function ReadEntry(env: Env, node: Node, mem: Blobs, root: string): Option<LogEntry>
  {
    match Download(node, mem, root)
    case None => None
    case Some(raw) => env.entry.dec(raw)
  }

  function EntryReader(env: Env, node: Node, mem: Blobs): string -> Option<LogEntry>
  {
    root => ReadEntry(env, node, mem, root)
  }

  /** The entries behind the roots, leaving out those that cannot be read. */
  function Readable(read: string -> Option<LogEntry>, roots: seq<string>): seq<LogEntry>
  {
    if roots == [] then []
    else
      var entry := read(roots[|roots| - 1]);
      Readable(read, roots[..|roots| - 1]) + if entry.Some? then [entry.value] else []
  }

  /** `recent`; None is a download error while loading the index. */
  function Recent(env: Env, node: Node, mem: Blobs, kv: KvState, limit: int, now: string): Option<seq<LogEntry>>
  {
    match LoadIndex(env, node, mem, kv, now)
    case None => None
    case Some(index) => Some(Readable(EntryReader(env, node, mem), From(index.entries, -limit)))
  }

  function OfAgent(entries: seq<LogEntry>, role: string): seq<LogEntry>
  {
    if entries == [] then []
    else OfAgent(entries[..|entries| - 1], role) +
         if entries[|entries| - 1].agentRole == role then [entries[|entries| - 1]] else []
  }

  function ByAgent(env: Env, node: Node, mem: Blobs, kv: KvState, role: string, limit: int,
                   now: string): Option<seq<LogEntry>>
  {
    match Recent(env, node, mem, kv, limit * 3, now)
    case None => None
    case Some(all) => Some(UpTo(OfAgent(all, role), limit))
  }

  // ---- What the log holds ----

  function RootOf(env: Env, entry: LogEntry): string
    requires Framing.Frame(env.entry.enc(entry)).Some?
  {
    env.rootOf(Framing.Frame(env.entry.enc(entry)).value)
  }

  /** The root is that of this entry, and the entry is stored under it. */
  ghost predicate Holds(env: Env, mem: Blobs, root: string, entry: LogEntry)
  {
    root in mem && Framing.Unframe(mem[root]) == env.entry.enc(entry)
  }

  /** The index in the KV lists exactly these entries, in this order. */
  ghost predicate LogIs(env: Env, mem: Blobs, v: map<string, Bytes>, log: seq<LogEntry>)
  {
    && (LOG_INDEX in v <==> log != [])
    && (log != [] ==>
          exists index: LogIndex ::
            && v[LOG_INDEX] == env.index.enc(index)
            && index.entryCount == |log|
            && ListsEntries(env, mem, index.entries, log))
  }

  ghost predicate ListsEntries(env: Env, mem: Blobs, roots: seq<string>, log: seq<LogEntry>)
  {
    |roots| == |log| && forall i | 0 <= i < |log| :: Holds(env, mem, roots[i], log[i])
  }

  ghost predicate AppendTrusted(env: Env, node: Node, mem: Blobs, kv: KvState, entry: LogEntry, now: string,
                                later: string)
  {
    && Trusted(env, env.entry.enc(entry))
    && (Put(env, mem, env.entry.enc(entry)).Some? ==>
          var (mem', root) := Put(env, mem, env.entry.enc(entry)).value;
          var index := LoadIndex(env, node, mem', kv, now);
          index.Some? ==> SetTrusted(env, kv, LOG_INDEX, env.index.enc(index.value.Append(root, now)), later))
  }

  lemma {:induction false} LoadIndexIs(env: Env, node: Node, mem: Blobs, kv: KvState, log: seq<LogEntry>, now: string)
    requires env.HexRoots() && env.index.RoundTrips() && FramesOnly(env, mem) && Closed(mem, kv) &&
             LogIs(env, mem, View(mem, kv), log)
    ensures
      var index := LoadIndex(env, node, mem, kv, now);
      index.Some? && index.value.entryCount == |log| && ListsEntries(env, mem, index.value.entries, log)
  {
    GetIsView(env, node, mem, kv, LOG_INDEX);
  }

  lemma {:induction false} IndexWritten(env: Env, mem: Blobs, mem': Blobs, v: map<string, Bytes>, log: seq<LogEntry>,
                                        index: LogIndex, root: string, entry: LogEntry, now: string)
    requires ListsEntries(env, mem, index.entries, log) && index.entryCount == |log|
    requires Holds(env, mem, root, entry) && Extends(mem, mem')
    requires LOG_INDEX in v && v[LOG_INDEX] == env.index.enc(index.Append(root, now))
    ensures LogIs(env, mem', v, log + [entry])
  {}

  lemma {:induction false} DownloadHeld(env: Env, node: Node, mem: Blobs, root: string, entry: LogEntry)
    requires env.HexRoots() && env.entry.RoundTrips() && FramesOnly(env, mem) && Holds(env, mem, root, entry)
    ensures Download(node, mem, root) == Some(env.entry.enc(entry))
    ensures env.entry.dec(env.entry.enc(entry)) == Some(entry)
  {
    LookupStored(env, mem, root, None);
  }

  /** The index write of an append whose entry is already stored. */
  lemma {:induction false} IndexSet(env: Env, mem: Blobs, kv: KvState, log: seq<LogEntry>, index: LogIndex,
                                    root: string, entry: LogEntry, now: string, later: string)
    requires env.CollisionFree() && FramesOnly(env, mem) && Closed(mem, kv) && LogIs(env, mem, View(mem, kv), log)
    requires ListsEntries(env, mem, index.entries, log) && index.entryCount == |log| && Holds(env, mem, root, entry)
    requires SetTrusted(env, kv, LOG_INDEX, env.index.enc(index.Append(root, now)), later)
    ensures
      var data := env.index.enc(index.Append(root, now));
      var out := Set(env, mem, kv, LOG_INDEX, data, later);
      && FramesOnly(env, out.mem) && Extends(mem, out.mem) && Closed(out.mem, out.kv)
      && Logged(env, View(mem, kv), out.mem, View(out.mem, out.kv), log, entry, Storable(data))
  {
    var data := env.index.enc(index.Append(root, now));
    SetView(env, mem, kv, LOG_INDEX, data, later);
    var out := Set(env, mem, kv, LOG_INDEX, data, later);
    if Storable(data) {
      IndexWritten(env, mem, out.mem, View(out.mem, out.kv), log, index, root, entry, now);
    } else {
      LogStays(env, mem, out.mem, View(mem, kv), log);
    }
  }

  /** The entry has been added at the end of the log, or nothing has changed. */
  ghost predicate Logged(env: Env, v: map<string, Bytes>, mem': Blobs, v': map<string, Bytes>, log: seq<LogEntry>,
                         entry: LogEntry, stored: bool)
  {
    if stored then OnlyLogged(env, v, mem', v', log + [entry]) else v' == v && LogIs(env, mem', v, log)
  }

  /** The log is now this one, and no key but the index has changed since v. */
  ghost predicate OnlyLogged(env: Env, v: map<string, Bytes>, mem': Blobs, v': map<string, Bytes>, log: seq<LogEntry>)
  {
    LogIs(env, mem', v', log) && LOG_INDEX in v' && v' == v[LOG_INDEX := v'[LOG_INDEX]]
  }

  lemma {:induction false} LogHolds(env: Env, mem: Blobs, v: map<string, Bytes>, log: seq<LogEntry>)
    requires LogIs(env, mem, v, log)
    ensures forall entry | entry in log :: exists root :: Holds(env, mem, root, entry)
  {}

  lemma {:induction false} LogStays(env: Env, mem: Blobs, mem': Blobs, v: map<string, Bytes>, log: seq<LogEntry>)
    requires LogIs(env, mem, v, log) && Extends(mem, mem')
    ensures LogIs(env, mem', v, log)
  {}

  /** The append gets as far as storing its index, though it may still raise in persisting the manifest. */
  predicate AppendStores(env: Env, node: Node, mem: Blobs, kv: KvState, entry: LogEntry, now: string)
  {
    match Put(env, mem, env.entry.enc(entry))
    case None => false
    case Some((mem', root)) =>
      match LoadIndex(env, node, mem', kv, now)
      case None => false
      case Some(index) => Storable(env.index.enc(index.Append(root, now)))
  }

  /**
    An append adds its entry at the end and touches no other key, exactly if it gets as far as storing the index; else
    nothing changes. An append that returns has got that far.
   */
  lemma {:induction false} AppendCorrect(env: Env, node: Node, mem: Blobs, kv: KvState, log: seq<LogEntry>,
                                         entry: LogEntry, now: string, later: string)
    requires env.CollisionFree() && env.HexRoots() && env.index.RoundTrips()
    requires FramesOnly(env, mem) && Closed(mem, kv) && LogIs(env, mem, View(mem, kv), log)
    requires AppendTrusted(env, node, mem, kv, entry, now, later)
    ensures
      var out, stored := Append(env, node, mem, kv, entry, now, later), AppendStores(env, node, mem, kv, entry, now);
      && FramesOnly(env, out.mem) && Extends(mem, out.mem) && Closed(out.mem, out.kv)
      && Logged(env, View(mem, kv), out.mem, View(out.mem, out.kv), log, entry, stored)
      && (out.ok ==> stored)
  {
    var data := env.entry.enc(entry);
    if Put(env, mem, data).Some? {
      PutExtends(env, mem, data);
      var (mem1, root) := Put(env, mem, data).value;
      ExtendsKeepsView(mem, mem1, kv);
      LogStays(env, mem, mem1, View(mem, kv), log);
      LoadIndexIs(env, node, mem1, kv, log, now);
      var index := LoadIndex(env, node, mem1, kv, now).value;
      IndexSet(env, mem1, kv, log, index, root, entry, now, later);
    }
  }

  ghost function CanRead(read: string -> Option<LogEntry>, roots: seq<string>): nat -> bool
  {
    (k: nat) => k < |roots| && read(roots[k]).Some?
  }

  /** The entries behind the roots at these places. */
  ghost predicate ReadAt(read: string -> Option<LogEntry>, roots: seq<string>, places: seq<nat>, out: seq<LogEntry>)
  {
    |out| == |places| && forall i | 0 <= i < |places| :: places[i] < |roots| && read(roots[places[i]]) == Some(out[i])
  }

  lemma {:induction false} FirstReadable(read: string -> Option<LogEntry>, roots: seq<string>, n: nat)
    returns (places: seq<nat>)
    requires n <= |roots|
    ensures Kept(n, CanRead(read, roots), places) && ReadAt(read, roots, places, Readable(read, roots[..n]))
  {
    if n == 0 {
      places := [];
    } else {
      places := FirstReadable(read, roots, n - 1);
      assert roots[..n][..n - 1] == roots[..n - 1] && roots[..n][n - 1] == roots[n - 1];
      KeptStep(n - 1, CanRead(read, roots), places);
      if read(roots[n - 1]).Some? {
        places := places + [n - 1];
      } else {
        assert places + [] == places;
      }
    }
  }

  /** Reading keeps exactly the entries that can be read, in order; the others are skipped. */
  lemma ReadableIs(read: string -> Option<LogEntry>, roots: seq<string>) returns (places: seq<nat>)
    ensures Kept(|roots|, CanRead(read, roots), places) && ReadAt(read, roots, places, Readable(read, roots))
  {
    places := FirstReadable(read, roots, |roots|);
    assert roots[..|roots|] == roots;
  }

  /** An index that is absent or does not decode counts as empty. */
  lemma MissingIndex(env: Env, node: Node, mem: Blobs, kv: KvState, now: string)
    requires LOG_INDEX in kv.manifest ==>
      var raw := Download(node, mem, kv.manifest[LOG_INDEX]); raw.Some? && env.index.dec(raw.value) == None
    ensures LoadIndex(env, node, mem, kv, now) == Some(LogIndex([], 0, now))
  {}

  lemma {:induction false} ReadableAll(read: string -> Option<LogEntry>, roots: seq<string>, log: seq<LogEntry>)
    requires |roots| == |log| && forall i | 0 <= i < |log| :: read(roots[i]) == Some(log[i])
    ensures Readable(read, roots) == log
  {
    if log != [] {
      var n := |log| - 1;
      ReadableAll(read, roots[..n], log[..n]);
      assert log == log[..n] + [log[n]];
    }
  }

  lemma {:induction false} ListedAreReadable(env: Env, node: Node, mem: Blobs, roots: seq<string>, log: seq<LogEntry>)
    requires env.HexRoots() && env.entry.RoundTrips() && FramesOnly(env, mem) && ListsEntries(env, mem, roots, log)
    ensures forall i | 0 <= i < |log| :: EntryReader(env, node, mem)(roots[i]) == Some(log[i])
  {
    forall i | 0 <= i < |log| ensures ReadEntry(env, node, mem, roots[i]) == Some(log[i]) {
      DownloadHeld(env, node, mem, roots[i], log[i]);
    }
  }

  lemma FromIs<T>(s: seq<T>, limit: int)
    ensures From(s, -limit) == s[if limit >= 1 then |s| - Min(limit, |s|) else Min(-limit, |s|)..]
  {}

  function Min(a: int, b: int): int
  {
    if a < b then a else b
  }

  /** The last min(k, n) of a sequence. */
  function Last<T>(s: seq<T>, k: nat): seq<T>
  {
    s[|s| - Min(k, |s|)..]
  }

  /** What `recent` fetches, of roots behind which these entries are read. */
  lemma {:induction false} ReadableRecent(read: string -> Option<LogEntry>, roots: seq<string>, log: seq<LogEntry>,
                                          limit: int)
    requires |roots| == |log| && forall i | 0 <= i < |log| :: read(roots[i]) == Some(log[i])
    ensures Readable(read, From(roots, -limit)) == if limit >= 1 then Last(log, limit) else log[Min(-limit, |log|)..]
  {
    var start := if limit >= 1 then |log| - Min(limit, |log|) else Min(-limit, |log|);
    FromIs(roots, limit);
    ReadableAll(read, roots[start..], log[start..]);
  }

  lemma {:induction false} IndexReadable(env: Env, node: Node, mem: Blobs, kv: KvState, log: seq<LogEntry>, now: string)
    requires env.HexRoots() && env.index.RoundTrips() && env.entry.RoundTrips()
    requires FramesOnly(env, mem) && Closed(mem, kv) && LogIs(env, mem, View(mem, kv), log)
    ensures
      var index := LoadIndex(env, node, mem, kv, now);
      && index.Some? && |index.value.entries| == |log|
      && forall i | 0 <= i < |log| :: EntryReader(env, node, mem)(index.value.entries[i]) == Some(log[i])
  {
    LoadIndexIs(env, node, mem, kv, log, now);
    ListedAreReadable(env, node, mem, LoadIndex(env, node, mem, kv, now).value.entries, log);
  }

  /**
    `recent(k)` is the last min(k, n) entries in order for every k >= 1; recent(0) is the whole log, and
    recent of a negative number drops entries from the front instead.
   */
  lemma {:induction false} RecentIs(env: Env, node: Node, mem: Blobs, kv: KvState, log: seq<LogEntry>, limit: int,
                                    now: string)
    requires env.HexRoots() && env.index.RoundTrips() && env.entry.RoundTrips()
    requires FramesOnly(env, mem) && Closed(mem, kv) && LogIs(env, mem, View(mem, kv), log)
    ensures Recent(env, node, mem, kv, limit, now) == Some(
      if limit >= 1 then Last(log, limit) else log[Min(-limit, |log|)..])
  {
    IndexReadable(env, node, mem, kv, log, now);
    ReadableRecent(EntryReader(env, node, mem), LoadIndex(env, node, mem, kv, now).value.entries, log, limit);
  }

  lemma {:induction false} ByAgentOf(env: Env, node: Node, mem: Blobs, kv: KvState, recent: seq<LogEntry>,
                                     role: string, k: int, now: string)
    requires Recent(env, node, mem, kv, k * 3, now) == Some(recent)
    ensures
      var matches := OfAgent(recent, role);
      ByAgent(env, node, mem, kv, role, k, now) ==
        Some(matches[..if k >= 0 then Min(k, |matches|) else |matches| - Min(-k, |matches|)])
  {
    UpToIs(OfAgent(recent, role), k);
  }

  lemma UpToIs<T>(s: seq<T>, k: int)
    ensures UpTo(s, k) == s[..if k >= 0 then Min(k, |s|) else |s| - Min(-k, |s|)]
  {}

  /**
    `by_agent(role, k)` is the first k of the role's entries among the last 3k of the log; for k <= 0 the window is
    that of `recent(3k)`, and -k entries are cut off the end.
   */
  lemma {:induction false} ByAgentIs(env: Env, node: Node, mem: Blobs, kv: KvState, log: seq<LogEntry>, role: string,
                                     k: int, now: string)
    requires env.HexRoots() && env.index.RoundTrips() && env.entry.RoundTrips()
    requires FramesOnly(env, mem) && Closed(mem, kv) && LogIs(env, mem, View(mem, kv), log)
    ensures
      var window := if k >= 1 then Last(log, k * 3) else log[Min(-(k * 3), |log|)..];
      var matches := OfAgent(window, role);
      ByAgent(env, node, mem, kv, role, k, now) ==
        Some(matches[..if k >= 0 then Min(k, |matches|) else |matches| - Min(-k, |matches|)])
  {
    RecentIs(env, node, mem, kv, log, k * 3, now);
    ByAgentOf(env, node, mem, kv, if k >= 1 then Last(log, k * 3) else log[Min(-(k * 3), |log|)..], role, k, now);
  }

  ghost function FromRole(log: seq<LogEntry>, role: string): nat -> bool
  {
    (k: nat) => k < |log| && log[k].agentRole == role
  }

  lemma {:induction false} FirstOfAgent(log: seq<LogEntry>, role: string, n: nat) returns (places: seq<nat>)
    requires n <= |log|
    ensures Kept(n, FromRole(log, role), places) && TakenFrom(log, places, OfAgent(log[..n], role))
  {
    if n == 0 {
      places := [];
    } else {
      places := FirstOfAgent(log, role, n - 1);
      assert log[..n][..n - 1] == log[..n - 1] && log[..n][n - 1] == log[n - 1];
      KeptStep(n - 1, FromRole(log, role), places);
      if log[n - 1].agentRole == role {
        places := places + [n - 1];
      } else {
        assert places + [] == places;
      }
    }
  }

  /** Filtering by role keeps exactly the entries of that role, in order, each once. */
  lemma OfAgentIs(log: seq<LogEntry>, role: string) returns (places: seq<nat>)
    ensures Kept(|log|, FromRole(log, role), places) && TakenFrom(log, places, OfAgent(log, role))
  {
    places := FirstOfAgent(log, role, |log|);
    assert log[..|log|] == log;
  }

  lemma {:induction false} OfAgentConcat(a: seq<LogEntry>, b: seq<LogEntry>, role: string)
    ensures OfAgent(a + b, role) == OfAgent(a, role) + OfAgent(b, role)
  {
    if b == [] {
      assert a + b == a;
    } else {
      var n := |b| - 1;
      assert (a + b)[..|a + b| - 1] == a + b[..n];
      OfAgentConcat(a, b[..n], role);
    }
  }

  lemma {:induction false} OfAgentFrom(log: seq<LogEntry>, role: string, i: nat)
    requires i < |OfAgent(log, role)|
    ensures exists j | 0 <= j < |log| :: log[j] == OfAgent(log, role)[i]
  {
    var n := |log| - 1;
    if i < |OfAgent(log[..n], role)| {
      OfAgentFrom(log[..n], role, i);
      var j :| 0 <= j < |log[..n]| && log[..n][j] == OfAgent(log[..n], role)[i];
      assert log[j] == OfAgent(log, role)[i];
    } else {
      assert log[n] == OfAgent(log, role)[i];
    }
  }

  ghost predicate Distinct(log: seq<LogEntry>)
  {
    forall i, j | 0 <= i < j < |log| :: log[i].entryId != log[j].entryId
  }

  lemma {:induction false} OfAgentDistinct(log: seq<LogEntry>, role: string)
    requires Distinct(log)
    ensures Distinct(OfAgent(log, role))
  {
    if log != [] {
      var n := |log| - 1;
      OfAgentDistinct(log[..n], role);
      forall i | 0 <= i < |OfAgent(log[..n], role)|
        ensures OfAgent(log[..n], role)[i].entryId != log[n].entryId
      {
        OfAgentFrom(log[..n], role, i);
      }
    }
  }

  /** The first k of a suffix are the last k of the whole exactly when the suffix has k elements, or is all there is. */
  lemma {:induction false} SuffixHead(older: seq<LogEntry>, window: seq<LogEntry>, k: nat)
    requires Distinct(older + window) && k >= 1
    ensures window[..Min(k, |window|)] == Last(older + window, k) <==> |window| == k || (|window| < k && older == [])
  {
    var all := older + window;
    if |window| > k {
      assert window[..k][0] == all[|older|];
      assert Last(all, k)[0] == all[|all| - k];
      assert all[|older|].entryId != all[|all| - k].entryId;
    } else if |window| == k {
      assert all[|all| - k..] == window;
    } else if older != [] {
      assert |Last(all, k)| > |window|;
    }
  }

  /**
    The documentation promises the agent's recent entries, that is its newest k. The code returns them
    exactly when the window of 3k holds k of them, or fewer than k and no older one exists.
   */
  lemma {:induction false} ByAgentIsNewestIff(log: seq<LogEntry>, role: string, k: nat)
    requires Distinct(log) && k >= 1
    ensures
      var all, window := OfAgent(log, role), OfAgent(Last(log, k * 3), role);
      window[..Min(k, |window|)] == Last(all, k) <==> |window| == k || (|window| < k && |all| == |window|)
  {
    var older := log[..|log| - Min(k * 3, |log|)];
    assert log == older + Last(log, k * 3);
    OfAgentConcat(older, Last(log, k * 3), role);
    OfAgentDistinct(log, role);
    SuffixHead(OfAgent(older, role), OfAgent(Last(log, k * 3), role), k);
  }

  /** An input on which they are not: two entries of one role, of which by_agent(role, 1) returns the older. */
  lemma ByAgentCanMissNewest(a: LogEntry, b: LogEntry)
    requires a.agentRole == b.agentRole && a.entryId != b.entryId
    ensures
      var window := OfAgent(Last([a, b], 1 * 3), a.agentRole);
      window[..Min(1, |window|)] == [a] && Last(OfAgent([a, b], a.agentRole), 1) == [b]
  {
    assert Last([a, b], 3) == [a, b] && [a, b][..1] == [a] && [a][..0] == [];
    assert OfAgent([a], a.agentRole) == [a];
    assert OfAgent([a, b], a.agentRole) == [a, b];
  }

  class SwarmLog {
    const client: ZeroGClient
    const kv: SwarmKV

    constructor (client: ZeroGClient, kv: SwarmKV)
      ensures this.client == client && this.kv == kv
    {
      this.client, this.kv := client, kv;
    }

    ghost predicate Valid()
    {
      kv.Valid() && kv.client == client
    }

    method ReadIndex(now: string, live: string -> Option<Bytes>) returns (index: Option<LogIndex>)
      requires Valid()
      ensures index == LoadIndex(client.env, client.NodeWith(live), client.Mem(), kv.State(), now)
    {
      var reply := kv.GetValue(LOG_INDEX, live);
      match reply
      case Absent => return Some(EmptyIndex(now));
      case Raised => return None;
      case Found(raw) =>
        var decoded := client.env.index.dec(raw);
        return Some(if decoded.Some? then decoded.value else EmptyIndex(now));
    }

    /** The returned entry carries its root; the stored one does not. */
    method AppendEntry(entry: LogEntry, now: string, later: string, live: string -> Option<Bytes>)
      returns (logged: Option<LogEntry>)
      requires Valid()
      modifies kv, client.Footprint()
      ensures Outcome(client.Mem(), kv.State(), logged.Some?) ==
              Append(client.env, client.NodeWith(live), old(client.Mem()), old(kv.State()), entry, now, later)
      ensures logged.Some? ==> Framing.Frame(client.env.entry.enc(entry)).Some?
      ensures logged.Some? ==> logged.value == entry.(rootHash := Some(RootOf(client.env, entry)))
    {
      var root := client.Upload(client.env.entry.enc(entry));
      if root.None? { return None; }
      var index := ReadIndex(now, live);
      if index.None? { return None; }
      var ok := kv.SetValue(LOG_INDEX, client.env.index.enc(index.value.Append(root.value, now)), later);
      if !ok { return None; }
      return Some(entry.(rootHash := root));
    }

    method ReadRecent(limit: int, now: string, live: string -> Option<Bytes>) returns (entries: Option<seq<LogEntry>>)
      requires Valid()
      ensures entries == Recent(client.env, client.NodeWith(live), client.Mem(), kv.State(), limit, now)
    {
      var index := ReadIndex(now, live);
      if index.None? { return None; }
      var found := ReadEntries(From(index.value.entries, -limit), live);
      return Some(found);
    }

    /** The loop of `recent`: an entry that cannot be fetched or decoded is skipped. */
    method ReadEntries(roots: seq<string>, live: string -> Option<Bytes>) returns (found: seq<LogEntry>)
      requires Valid()
      ensures found == Readable(EntryReader(client.env, client.NodeWith(live), client.Mem()), roots)
    {
      ghost var read := EntryReader(client.env, client.NodeWith(live), client.Mem());
      found := [];
      for i := 0 to |roots|
        invariant found == Readable(read, roots[..i])
      {
        assert roots[..i + 1][..i] == roots[..i];
        var raw := client.Fetch(roots[i], live);
        var entry := if raw.Some? then client.env.entry.dec(raw.value) else None;
        assert entry == read(roots[i]);
        if entry.Some? { found := found + [entry.value]; }
      }
      assert roots[..|roots|] == roots;
    }
  }
}

/** core/storage/agent_memory.py: one record per agent plus the aggregate of all of them. */
module Memory {
  import opened Prelude
  import opened Models
  import opened Client
  import opened Kv
  import opened Log
  import Framing

  /** `read_swarm_state`; None is a download error passing through. */
  function ReadSwarm(env: Env, node: Node, mem: Blobs, kv: KvState, now: string): Option<SwarmState>
  {
    match Get(node, mem, kv, SWARM_STATE)
    case Absent => Some(EmptySwarm(now))
    case Raised => None
    case Found(raw) => Some(if env.swarm.dec(raw).Some? then env.swarm.dec(raw).value else EmptySwarm(now))
  }

  /** The clock readings of one `update_status` call, in order. */
  datatype Stamps = Stamps(recordPersisted: string, swarmUpdated: string, swarmPersisted: string)

  /** `update_status` */
  function UpdateStatus(env: Env, node: Node, mem: Blobs, kv: KvState, role: string, state: AgentState,
                        t: Stamps): Outcome
  {
    var first := Set(env, mem, kv, AgentKey(role), env.agent.enc(state), t.recordPersisted);
    if !first.ok then first
    else
      match ReadSwarm(env, node, first.mem, first.kv, t.swarmUpdated)
      case None => first.(ok := false)
      case Some(swarm) =>
        Set(env, first.mem, first.kv, SWARM_STATE, env.swarm.enc(swarm.UpdateAgent(role, state, t.swarmUpdated)),
            t.swarmPersisted)
  }

  // ---- Runs over one shared KV ----

  /** A call on the shared KV, or an upload that others make on the same client (an audit makes several). */
  datatype MemOp =
    | Report(role: string, state: AgentState, t: Stamps)
    | Record(entry: LogEntry, now: string, later: string)
    | Custom(key: string, value: Bytes, now: string)
    | Store(data: Bytes)

  function Perform(env: Env, node: Node, mem: Blobs, kv: KvState, op: MemOp): Outcome
  {
    match op
    case Report(role, state, t) => UpdateStatus(env, node, mem, kv, role, state, t)
    case Record(entry, now, later) => Append(env, node, mem, kv, entry, now, later)
    case Custom(key, value, now) => Set(env, mem, kv, key, value, now)
    case Store(data) => if Put(env, mem, data).Some? then Outcome(Put(env, mem, data).value.0, kv, true)
        else Outcome(mem, kv, false)
  }

  /** A run goes on after a call that raises; `ok` says whether its last call returned. */
  function RunOn(env: Env, node: Node, ops: seq<MemOp>): Outcome
  {
    if ops == [] then Outcome(map[], FRESH_KV, true)
    else
      var before := RunOn(env, node, ops[..|ops| - 1]);
      Perform(env, node, before.mem, before.kv, ops[|ops| - 1])
  }

  ghost predicate Reserved(key: string)
  {
    key == LOG_INDEX || key == SWARM_STATE || exists role :: key == AgentKey(role)
  }

  ghost predicate OpTrusted(env: Env, node: Node, mem: Blobs, kv: KvState, op: MemOp)
  {
    match op
    case Report(role, state, t) =>
      && SetTrusted(env, kv, AgentKey(role), env.agent.enc(state), t.recordPersisted)
      && var first := Set(env, mem, kv, AgentKey(role), env.agent.enc(state), t.recordPersisted);
         var swarm := ReadSwarm(env, node, first.mem, first.kv, t.swarmUpdated);
         first.ok && swarm.Some? ==>
           SetTrusted(env, first.kv, SWARM_STATE,
                      env.swarm.enc(swarm.value.UpdateAgent(role, state, t.swarmUpdated)), t.swarmPersisted)
    case Record(entry, now, later) => AppendTrusted(env, node, mem, kv, entry, now, later)
    case Custom(key, value, now) => !Reserved(key) && SetTrusted(env, kv, key, value, now)
    case Store(data) => Trusted(env, data)
  }

  ghost predicate RunOnTrusted(env: Env, node: Node, ops: seq<MemOp>)
  {
    ops != [] ==>
      var before := RunOn(env, node, ops[..|ops| - 1]);
      && RunOnTrusted(env, node, ops[..|ops| - 1])
      && OpTrusted(env, node, before.mem, before.kv, ops[|ops| - 1])
  }

  // ---- What each call leaves behind, also when it raises ----

  function FirstHalf(env: Env, mem: Blobs, kv: KvState, op: MemOp): Outcome
    requires op.Report?
  {
    Set(env, mem, kv, AgentKey(op.role), env.agent.enc(op.state), op.t.recordPersisted)
  }

  /** The aggregate that the second half of a report is to store. */
  function NextSwarm(env: Env, node: Node, first: Outcome, op: MemOp): Option<SwarmState>
    requires op.Report?
  {
    match ReadSwarm(env, node, first.mem, first.kv, op.t.swarmUpdated)
    case None => None
    case Some(swarm) => Some(swarm.UpdateAgent(op.role, op.state, op.t.swarmUpdated))
  }

  /** The report gets as far as storing the aggregate. */
  predicate StoresAggregate(env: Env, node: Node, mem: Blobs, kv: KvState, op: MemOp)
    requires op.Report?
  {
    var first := FirstHalf(env, mem, kv, op);
    first.ok && NextSwarm(env, node, first, op).Some? && Storable(env.swarm.enc(NextSwarm(env, node, first, op).value))
  }

  /**
    The log entries whose index was stored; per role the last state stored as its record and the last stored in the
    aggregate; how often the aggregate was stored, by reports that returned and by reports that still raised.
   */
  datatype Tally = Tally(
    log: seq<LogEntry>,
    records: map<string, AgentState>,
    aggregate: map<string, AgentState>,
    completed: nat,
    cutShort: nat)
  {
    function Writes(): nat { completed + cutShort }
  }

  function HalfTally(env: Env, t: Tally, role: string, state: AgentState): Tally
  {
    if Storable(env.agent.enc(state)) then t.(records := t.records[role := state]) else t
  }

  function OneMoreWrite(half: Tally, op: MemOp, returned: bool): Tally
    requires op.Report?
  {
    var t' := half.(aggregate := half.aggregate[op.role := op.state]);
    if returned then t'.(completed := half.completed + 1) else t'.(cutShort := half.cutShort + 1)
  }

  function Count(env: Env, node: Node, mem: Blobs, kv: KvState, t: Tally, op: MemOp): Tally
  {
    match op
    case Report(role, state, _) =>
      var half := HalfTally(env, t, role, state);
      if StoresAggregate(env, node, mem, kv, op) then OneMoreWrite(half, op, Perform(env, node, mem, kv, op).ok)
          else half
    case Record(entry, now, _) => if AppendStores(env, node, mem, kv, entry, now) then t.(log := t.log + [entry]) else t
    case Custom(_, _, _) => t
    case Store(_) => t
  }

  function TallyOf(env: Env, node: Node, ops: seq<MemOp>): Tally
  {
    if ops == [] then Tally([], map[], map[], 0, 0)
    else
      var before := RunOn(env, node, ops[..|ops| - 1]);
      Count(env, node, before.mem, before.kv, TallyOf(env, node, ops[..|ops| - 1]), ops[|ops| - 1])
  }

  /** Each role's own record is the given state, and only those roles have one. */
  ghost predicate RecordsAre(env: Env, v: map<string, Bytes>, records: map<string, AgentState>)
  {
    forall role ::
      if role in records then AgentKey(role) in v && v[AgentKey(role)] == env.agent.enc(records[role])
      else AgentKey(role) !in v
  }

  /** The aggregate lists exactly these agents, at this version. */
  ghost predicate AggregateIs(env: Env, v: map<string, Bytes>, agents: map<string, AgentState>, version: nat)
  {
    if version == 0 then SWARM_STATE !in v && agents == map[]
    else SWARM_STATE in v && exists s: SwarmState ::
      v[SWARM_STATE] == env.swarm.enc(s) && s.version == version && s.agents == agents && Untouched(s)
  }

  /** The fields no update touches are still those of a new aggregate. */
  ghost predicate Untouched(s: SwarmState)
  {
    s.activeOpportunity == None && s.swarmMetadata == JObj(map[])
  }

  ghost predicate Agrees(env: Env, mem: Blobs, kv: KvState, t: Tally)
  {
    FramesOnly(env, mem) && Closed(mem, kv) && Shows(env, mem, View(mem, kv), t)
  }

  /** The map shows what the tally says. */
  ghost predicate Shows(env: Env, mem: Blobs, v: map<string, Bytes>, t: Tally)
  {
    LogIs(env, mem, v, t.log) && RecordsAre(env, v, t.records) && AggregateIs(env, v, t.aggregate, t.Writes())
  }

  lemma {:induction false} ReadSwarmIs(env: Env, node: Node, mem: Blobs, kv: KvState, agents: map<string, AgentState>,
                                       version: nat, now: string)
    requires env.HexRoots() && env.swarm.RoundTrips() && FramesOnly(env, mem) && Closed(mem, kv)
    requires AggregateIs(env, View(mem, kv), agents, version)
    ensures
      var swarm := ReadSwarm(env, node, mem, kv, now);
      swarm.Some? && swarm.value.version == version && swarm.value.agents == agents && Untouched(swarm.value)
  {
    GetIsView(env, node, mem, kv, SWARM_STATE);
  }

  lemma {:induction false} RecordWritten(env: Env, v: map<string, Bytes>, records: map<string, AgentState>,
                                         role: string,
                                         state: AgentState)
    requires RecordsAre(env, v, records)
    ensures RecordsAre(env, v[AgentKey(role) := env.agent.enc(state)], records[role := state])
  {
    forall r
      ensures AgentKey(r) == AgentKey(role) ==> r == role
    {
      AgentKeysSeparate(r, role);
    }
  }

  lemma {:induction false} OtherKeyWritten(env: Env, v: map<string, Bytes>, records: map<string, AgentState>,
                                           key: string,
                                           data: Bytes)
    requires RecordsAre(env, v, records) && forall role :: key != AgentKey(role)
    ensures RecordsAre(env, v[key := data], records)
  {}

  lemma {:induction false} SharedKeysAreNoRecords()
    ensures forall role :: AgentKey(role) != SWARM_STATE && AgentKey(role) != LOG_INDEX
    ensures SWARM_STATE != LOG_INDEX
  {
    forall role
      ensures AgentKey(role) != SWARM_STATE && AgentKey(role) != LOG_INDEX
    {
      AgentKeysSeparate(role, role);
    }
    AgentKeysSeparate("", "");
  }

  lemma {:induction false} LogUntouched(env: Env, mem: Blobs, mem': Blobs, v: map<string, Bytes>, key: string,
                                        data: Bytes,
                                        log: seq<LogEntry>)
    requires LogIs(env, mem, v, log) && Extends(mem, mem') && key != LOG_INDEX
    ensures LogIs(env, mem', v[key := data], log)
  {}

  /** A set that stores nothing under any key leaves everything agreed. */
  lemma {:induction false} NothingStored(env: Env, mem: Blobs, kv: KvState, t: Tally, mem': Blobs, kv': KvState)
    requires Agrees(env, mem, kv, t) && FramesOnly(env, mem') && Extends(mem, mem') && Closed(mem', kv')
    requires View(mem', kv') == View(mem, kv)
    ensures Agrees(env, mem', kv', t)
  {
    LogStays(env, mem, mem', View(mem, kv), t.log);
  }

  /** The first half of a report: the role's own record. */
  lemma {:induction false} RecordSet(env: Env, mem: Blobs, kv: KvState, t: Tally, role: string, state: AgentState,
                                     now: string)
    requires env.CollisionFree() && Agrees(env, mem, kv, t)
    requires SetTrusted(env, kv, AgentKey(role), env.agent.enc(state), now)
    ensures
      var data := env.agent.enc(state);
      var out := Set(env, mem, kv, AgentKey(role), data, now);
      Agrees(env, out.mem, out.kv, HalfTally(env, t, role, state))
  {
    var key, data := AgentKey(role), env.agent.enc(state);
    SharedKeysAreNoRecords();
    SetView(env, mem, kv, key, data, now);
    var out := Set(env, mem, kv, key, data, now);
    if Storable(data) {
      RecordWritten(env, View(mem, kv), t.records, role, state);
      LogUntouched(env, mem, out.mem, View(mem, kv), key, data, t.log);
    } else {
      NothingStored(env, mem, kv, t, out.mem, out.kv);
    }
  }

  /** The second half: the aggregate, on its way to the given tally. */
  lemma {:induction false} AggregateSet(env: Env, mem: Blobs, kv: KvState, t: Tally, t': Tally, next: SwarmState,
                                        now: string)
    requires env.CollisionFree() && Agrees(env, mem, kv, t) &&
             SetTrusted(env, kv, SWARM_STATE, env.swarm.enc(next), now)
    requires t'.log == t.log && t'.records == t.records
    requires t'.Writes() == t.Writes() + 1 == next.version && t'.aggregate == next.agents && Untouched(next)
    ensures
      var data := env.swarm.enc(next);
      var out := Set(env, mem, kv, SWARM_STATE, data, now);
      Agrees(env, out.mem, out.kv, if Storable(data) then t' else t)
  {
    var data, v := env.swarm.enc(next), View(mem, kv);
    SharedKeysAreNoRecords();
    SetView(env, mem, kv, SWARM_STATE, data, now);
    var out := Set(env, mem, kv, SWARM_STATE, data, now);
    if Storable(data) {
      OtherKeyWritten(env, v, t.records, SWARM_STATE, data);
      LogUntouched(env, mem, out.mem, v, SWARM_STATE, data, t.log);
      assert AggregateIs(env, v[SWARM_STATE := data], next.agents, next.version);
    } else {
      NothingStored(env, mem, kv, t, out.mem, out.kv);
    }
  }

  lemma NextSwarmIs(env: Env, node: Node, first: Outcome, half: Tally, op: MemOp)
    requires env.HexRoots() && env.swarm.RoundTrips() && op.Report? && Agrees(env, first.mem, first.kv, half)
    ensures
      var next := NextSwarm(env, node, first, op);
      && next.Some? && next.value.version == half.Writes() + 1
      && next.value.agents == half.aggregate[op.role := op.state] && Untouched(next.value)
  {
    ReadSwarmIs(env, node, first.mem, first.kv, half.aggregate, half.Writes(), op.t.swarmUpdated);
  }

  lemma {:induction false} SecondHalf(env: Env, node: Node, first: Outcome, half: Tally, t': Tally, op: MemOp)
    requires env.CollisionFree() && env.HexRoots() && env.swarm.RoundTrips() && op.Report?
    requires Agrees(env, first.mem, first.kv, half)
    requires t'.log == half.log && t'.records == half.records
    requires t'.Writes() == half.Writes() + 1 && t'.aggregate == half.aggregate[op.role := op.state]
    requires NextSwarm(env, node, first, op).Some? ==>
      SetTrusted(env, first.kv, SWARM_STATE, env.swarm.enc(NextSwarm(env, node, first, op).value), op.t.swarmPersisted)
    ensures
      var next := NextSwarm(env, node, first, op);
      && next.Some?
      && var data := env.swarm.enc(next.value);
         var out := Set(env, first.mem, first.kv, SWARM_STATE, data, op.t.swarmPersisted);
         Agrees(env, out.mem, out.kv, if Storable(data) then t' else half)
  {
    NextSwarmIs(env, node, first, half, op);
    AggregateSet(env, first.mem, first.kv, half, t', NextSwarm(env, node, first, op).value, op.t.swarmPersisted);
  }

  /** The call and its tally, taken apart at the first write. */
  lemma ReportParts(env: Env, node: Node, mem: Blobs, kv: KvState, t: Tally, op: MemOp)
    requires op.Report?
    ensures
      var first, out := FirstHalf(env, mem, kv, op), Perform(env, node, mem, kv, op);
      var half := HalfTally(env, t, op.role, op.state);
      var t' := Count(env, node, mem, kv, t, op);
      var next := NextSwarm(env, node, first, op);
      if !first.ok then out == first && t' == half
      else if next.None? then out == first.(ok := false) && t' == half
      else
        var data := env.swarm.enc(next.value);
        && out == Set(env, first.mem, first.kv, SWARM_STATE, data, op.t.swarmPersisted)
        && t' == if Storable(data) then OneMoreWrite(half, op, out.ok) else half
  {}

  lemma TrustedParts(env: Env, node: Node, mem: Blobs, kv: KvState, op: MemOp)
    requires op.Report? && OpTrusted(env, node, mem, kv, op)
    ensures SetTrusted(env, kv, AgentKey(op.role), env.agent.enc(op.state), op.t.recordPersisted)
    ensures
      var first := FirstHalf(env, mem, kv, op);
      var next := NextSwarm(env, node, first, op);
      first.ok && next.Some? ==>
        SetTrusted(env, first.kv, SWARM_STATE, env.swarm.enc(next.value), op.t.swarmPersisted)
  {}

  lemma {:induction false} ReportAgrees(env: Env, node: Node, mem: Blobs, kv: KvState, t: Tally, op: MemOp)
    requires env.CollisionFree() && env.HexRoots() && env.swarm.RoundTrips()
    requires Agrees(env, mem, kv, t) && op.Report? && OpTrusted(env, node, mem, kv, op)
    ensures var out := Perform(env, node, mem, kv, op); Agrees(env, out.mem, out.kv, Count(env, node, mem, kv, t, op))
  {
    TrustedParts(env, node, mem, kv, op);
    RecordSet(env, mem, kv, t, op.role, op.state, op.t.recordPersisted);
    var first, out := FirstHalf(env, mem, kv, op), Perform(env, node, mem, kv, op);
    var half, t' := HalfTally(env, t, op.role, op.state), Count(env, node, mem, kv, t, op);
    ReportParts(env, node, mem, kv, t, op);
    if first.ok {
      SecondHalf(env, node, first, half, OneMoreWrite(half, op, out.ok), op);
      assert Agrees(env, out.mem, out.kv, t');
    } else {
      assert out == first && t' == half;
    }
  }

  lemma {:induction false} CustomAgrees(env: Env, mem: Blobs, kv: KvState, t: Tally, key: string, value: Bytes,
                                        now: string)
    requires env.CollisionFree() && Agrees(env, mem, kv, t) && !Reserved(key) && SetTrusted(env, kv, key, value, now)
    ensures var out := Set(env, mem, kv, key, value, now); Agrees(env, out.mem, out.kv, t)
  {
    SetView(env, mem, kv, key, value, now);
    var out, v := Set(env, mem, kv, key, value, now), View(mem, kv);
    if Storable(value) {
      OtherKeyWritten(env, v, t.records, key, value);
      LogUntouched(env, mem, out.mem, v, key, value, t.log);
    } else {
      NothingStored(env, mem, kv, t, out.mem, out.kv);
    }
  }

  lemma {:induction false} RecordAgrees(env: Env, node: Node, mem: Blobs, kv: KvState, t: Tally, entry: LogEntry,
                                        now: string, later: string)
    requires env.CollisionFree() && env.HexRoots() && env.index.RoundTrips()
    requires Agrees(env, mem, kv, t) && AppendTrusted(env, node, mem, kv, entry, now, later)
    ensures
      var out := Append(env, node, mem, kv, entry, now, later);
      Agrees(env, out.mem, out.kv, if AppendStores(env, node, mem, kv, entry, now) then t.(log := t.log + [entry])
          else t)
  {
    AppendCorrect(env, node, mem, kv, t.log, entry, now, later);
    var out := Append(env, node, mem, kv, entry, now, later);
    if AppendStores(env, node, mem, kv, entry, now) {
      LoggedShows(env, mem, View(mem, kv), t, entry, out.mem, View(out.mem, out.kv));
    } else {
      NothingStored(env, mem, kv, t, out.mem, out.kv);
    }
  }

  lemma LoggedShows(env: Env, mem: Blobs, v: map<string, Bytes>, t: Tally, entry: LogEntry, mem': Blobs,
                    v': map<string, Bytes>)
    requires Shows(env, mem, v, t) && OnlyLogged(env, v, mem', v', t.log + [entry])
    ensures Shows(env, mem', v', t.(log := t.log + [entry]))
  {
    SharedKeysAreNoRecords();
    OtherKeyWritten(env, v, t.records, LOG_INDEX, v'[LOG_INDEX]);
  }

  lemma StoreAgrees(env: Env, mem: Blobs, kv: KvState, t: Tally, data: Bytes)
    requires env.CollisionFree() && Agrees(env, mem, kv, t) && Trusted(env, data) && Put(env, mem, data).Some?
    ensures Agrees(env, Put(env, mem, data).value.0, kv, t)
  {
    PutExtends(env, mem, data);
    var mem' := Put(env, mem, data).value.0;
    ExtendsKeepsView(mem, mem', kv);
    NothingStored(env, mem, kv, t, mem', kv);
  }

  lemma PerformAgrees(env: Env, node: Node, mem: Blobs, kv: KvState, t: Tally, op: MemOp)
    requires Ideal(env) && Agrees(env, mem, kv, t) && OpTrusted(env, node, mem, kv, op)
    ensures var out := Perform(env, node, mem, kv, op); Agrees(env, out.mem, out.kv, Count(env, node, mem, kv, t, op))
  {
    match op
    case Report(_, _, _) => ReportAgrees(env, node, mem, kv, t, op);
    case Record(entry, now, later) => RecordAgrees(env, node, mem, kv, t, entry, now, later);
    case Custom(key, value, now) => CustomAgrees(env, mem, kv, t, key, value, now);
    case Store(data) =>
      if Put(env, mem, data).Some? {
        StoreAgrees(env, mem, kv, t, data);
      }
  }

  /**
    After any sequential run on one shared KV, with calls that return and calls that raise: the log is the list of the
    entries whose index was stored, in order; each role's record is the last one stored; the aggregate has for each
    role the last state stored there; and its version counts the aggregate writes.
   */
  lemma {:induction false} RunAgrees(env: Env, node: Node, ops: seq<MemOp>)
    requires Ideal(env) && RunOnTrusted(env, node, ops)
    ensures Agrees(env, RunOn(env, node, ops).mem, RunOn(env, node, ops).kv, TallyOf(env, node, ops))
  {
    if ops != [] {
      var before := RunOn(env, node, ops[..|ops| - 1]);
      RunAgrees(env, node, ops[..|ops| - 1]);
      PerformAgrees(env, node, before.mem, before.kv, TallyOf(env, node, ops[..|ops| - 1]), ops[|ops| - 1]);
    }
  }

  /** The role's own record, as a reader gets it, and its entry in the aggregate are the same. */
  ghost predicate SameStory(env: Env, own: GetReply, swarm: SwarmState, role: string)
  {
    if role in swarm.agents then own.Found? && env.agent.dec(own.data) == Some(swarm.agents[role]) else own == Absent
  }

  predicate SameAt(a: map<string, AgentState>, b: map<string, AgentState>, role: string)
  {
    (role in a <==> role in b) && (role in a ==> a[role] == b[role])
  }

  /**
    The readers' side of RunAgrees. `read_agent_state` and `read_swarm_state` tell the same story about a role exactly
    if the last record and the last aggregate entry stored for it are the same, and the version is the number of
    completed reports exactly if no report raised after it had stored its aggregate.
   */
  lemma {:induction false} AggregateAgreesWithRecords(env: Env, node: Node, ops: seq<MemOp>, role: string, now: string)
    requires Ideal(env) && RunOnTrusted(env, node, ops)
    ensures Readers(env, node, RunOn(env, node, ops), TallyOf(env, node, ops), role, now)
  {
    RunAgrees(env, node, ops);
    ReadersOf(env, node, RunOn(env, node, ops), TallyOf(env, node, ops), role, now);
  }

  ghost predicate Readers(env: Env, node: Node, out: Outcome, t: Tally, role: string, now: string)
  {
    var swarm := ReadSwarm(env, node, out.mem, out.kv, now);
    && swarm.Some? && swarm.value.agents == t.aggregate && swarm.value.version == t.Writes() && Untouched(swarm.value)
    && (swarm.value.version == t.completed <==> t.cutShort == 0)
    && (SameStory(env, Get(node, out.mem, out.kv, AgentKey(role)), swarm.value, role) <==>
       SameAt(t.records, t.aggregate, role))
  }

  lemma ReadersOf(env: Env, node: Node, out: Outcome, t: Tally, role: string, now: string)
    requires Ideal(env) && Agrees(env, out.mem, out.kv, t)
    ensures Readers(env, node, out, t, role, now)
  {
    ReadSwarmIs(env, node, out.mem, out.kv, t.aggregate, t.Writes(), now);
    GetIsView(env, node, out.mem, out.kv, AgentKey(role));
    if role in t.records {
      assert env.agent.dec(env.agent.enc(t.records[role])) == Some(t.records[role]);
    }
  }

  // ---- Runs in which every call returns ----

  ghost predicate AllReturn(env: Env, node: Node, ops: seq<MemOp>)
  {
    ops != [] ==> AllReturn(env, node, ops[..|ops| - 1]) && RunOn(env, node, ops).ok
  }

  /** What a reader of the calls alone expects. */
  datatype Expectation = Expectation(log: seq<LogEntry>, agents: map<string, AgentState>, reports: nat)

  function Expected(ops: seq<MemOp>): Expectation
  {
    if ops == [] then Expectation([], map[], 0)
    else
      var x := Expected(ops[..|ops| - 1]);
      match ops[|ops| - 1]
      case Report(role, state, _) => x.(agents := x.agents[role := state], reports := x.reports + 1)
      case Record(entry, _, _) => x.(log := x.log + [entry])
      case Custom(_, _, _) => x
      case Store(_) => x
  }

  /** A call that returns leaves behind all it was to leave behind. */
  lemma ReturnedHasStored(env: Env, node: Node, mem: Blobs, kv: KvState, t: Tally, op: MemOp)
    requires Perform(env, node, mem, kv, op).ok
    ensures
      var t' := Count(env, node, mem, kv, t, op);
      && t'.cutShort == t.cutShort
      && (if op.Report? then
            t' == t.(records := t.records[op.role := op.state], aggregate :=
                t.aggregate[op.role := op.state], completed := t.completed + 1)
          else if op.Record? then t' == t.(log := t.log + [op.entry])
          else t' == t)
  {}

  /** Then log, records, aggregate and version are exactly what the calls say. */
  lemma {:induction false} CompletedRunIsExpected(env: Env, node: Node, ops: seq<MemOp>)
    requires AllReturn(env, node, ops)
    ensures
      var t, x := TallyOf(env, node, ops), Expected(ops);
      t == Tally(x.log, x.agents, x.agents, x.reports, 0)
  {
    if ops != [] {
      var before := RunOn(env, node, ops[..|ops| - 1]);
      CompletedRunIsExpected(env, node, ops[..|ops| - 1]);
      ReturnedHasStored(env, node, before.mem, before.kv, TallyOf(env, node, ops[..|ops| - 1]), ops[|ops| - 1]);
    }
  }

  /** `recent` and `by_agent` over the run's own log. */
  lemma {:induction false} HistoryIsTheRun(env: Env, node: Node, ops: seq<MemOp>, role: string, k: nat, now: string)
    requires Ideal(env) && RunOnTrusted(env, node, ops) && k >= 1
    ensures History(env, node, RunOn(env, node, ops), TallyOf(env, node, ops).log, role, k, now)
  {
    RunAgrees(env, node, ops);
    HistoryOf(env, node, RunOn(env, node, ops), TallyOf(env, node, ops).log, role, k, now);
  }

  ghost predicate History(env: Env, node: Node, out: Outcome, log: seq<LogEntry>, role: string, k: nat, now: string)
  {
    var matches := OfAgent(Last(log, k * 3), role);
    && Recent(env, node, out.mem, out.kv, k, now) == Some(Last(log, k))
    && ByAgent(env, node, out.mem, out.kv, role, k, now) == Some(matches[..Min(k, |matches|)])
  }

  lemma HistoryOf(env: Env, node: Node, out: Outcome, log: seq<LogEntry>, role: string, k: nat, now: string)
    requires Ideal(env) && FramesOnly(env, out.mem) && Closed(out.mem, out.kv) && k >= 1
    requires LogIs(env, out.mem, View(out.mem, out.kv), log)
    ensures History(env, node, out, log, role, k, now)
  {
    RecentIs(env, node, out.mem, out.kv, log, k, now);
    ByAgentIs(env, node, out.mem, out.kv, log, role, k, now);
  }

  /** A report that raises between its two writes: the record is there, the aggregate knows nothing of it. */
  lemma HalfReport(env: Env, node: Node, op: MemOp)
    requires op.Report? && Storable(env.agent.enc(op.state))
    requires
      var root := env.rootOf(Framing.Frame(env.agent.enc(op.state)).value);
      && Storable(ManifestBytes(env, map[AgentKey(op.role) := root], op.t.recordPersisted))
      && !Storable(env.swarm.enc(EmptySwarm(op.t.swarmUpdated).UpdateAgent(op.role, op.state, op.t.swarmUpdated)))
    ensures !RunOn(env, node, [op]).ok
    ensures TallyOf(env, node, [op]) == Tally([], map[op.role := op.state], map[], 0, 0)
  {
    AgentKeysSeparate(op.role, "");
    assert [op][..0] == [];
    assert RunOn(env, node, []) == Outcome(map[], FRESH_KV, true);
    assert TallyOf(env, node, []) == Tally([], map[], map[], 0, 0);
  }

  /** A report that raises in its last persist: its aggregate counts, though it did not complete. */
  lemma CutShortReport(env: Env, node: Node, op: MemOp)
    requires op.Report? && Storable(env.agent.enc(op.state))
    requires
      var record := env.rootOf(Framing.Frame(env.agent.enc(op.state)).value);
      var swarm := env.swarm.enc(EmptySwarm(op.t.swarmUpdated).UpdateAgent(op.role, op.state, op.t.swarmUpdated));
      && Storable(ManifestBytes(env, map[AgentKey(op.role) := record], op.t.recordPersisted)) && Storable(swarm)
      && var m := map[AgentKey(op.role) := record][SWARM_STATE := env.rootOf(Framing.Frame(swarm).value)];
         !Storable(ManifestBytes(env, m, op.t.swarmPersisted))
    ensures !RunOn(env, node, [op]).ok
    ensures TallyOf(env, node, [op]) == Tally([], map[op.role := op.state], map[op.role := op.state], 0, 1)
  {
    AgentKeysSeparate(op.role, "");
    assert [op][..0] == [];
    assert RunOn(env, node, []) == Outcome(map[], FRESH_KV, true);
    assert TallyOf(env, node, []) == Tally([], map[], map[], 0, 0);
  }

  lemma {:induction false} AuditLogged(env: Env, node: Node, mem: Blobs, audit: LogEntry, now: string, later: string)
    requires env.CollisionFree() && env.HexRoots() && env.index.RoundTrips()
    requires FramesOnly(env, mem) && AppendTrusted(env, node, mem, FRESH_KV, audit, now, later)
    ensures
      var out := Append(env, node, mem, FRESH_KV, audit, now, later);
      && FramesOnly(env, out.mem) && Extends(mem, out.mem) && Closed(out.mem, out.kv)
      && (out.ok ==> OnlyLogged(env, map[], out.mem, View(out.mem, out.kv), [audit]))
  {
    assert View(mem, FRESH_KV) == map[];
    AppendCorrect(env, node, mem, FRESH_KV, [], audit, now, later);
    assert [] + [audit] == [audit];
  }

  lemma {:induction false} OthersUnmoved(env: Env, node: Node, mem: Blobs, mem': Blobs, kv: KvState, key: string)
    requires env.HexRoots() && FramesOnly(env, mem) && FramesOnly(env, mem') && Closed(mem, kv) && Extends(mem, mem')
    ensures Get(node, mem', kv, key) == Get(node, mem, kv, key)
  {
    ExtendsKeepsView(mem, mem', kv);
    GetIsView(env, node, mem, kv, key);
    GetIsView(env, node, mem', kv, key);
  }

  /**
    An audit is appended through a KV of its own. It leaves every answer of the shared KV as it was, its
    own index holds just that entry, and the entry is in the next snapshot of the buffer.
   */
  lemma {:induction false} AuditIsolated(env: Env, node: Node, mem: Blobs, shared: KvState, audit: LogEntry,
                                         now: string, later: string, key: string)
    requires env.CollisionFree() && env.HexRoots() && env.index.RoundTrips() && env.entry.RoundTrips()
    requires FramesOnly(env, mem) && Closed(mem, shared)
    requires AppendTrusted(env, node, mem, FRESH_KV, audit, now, later)
    ensures
      var out := Append(env, node, mem, FRESH_KV, audit, now, later);
      && Get(node, out.mem, shared, key) == Get(node, mem, shared, key)
      && (out.ok ==>
            && Closed(out.mem, out.kv)
            && OnlyLogged(env, map[], out.mem, View(out.mem, out.kv), [audit])
            && Recent(env, node, out.mem, out.kv, 1, now) == Some([audit])
            && Carries(Snapshot(out.mem, later), out.mem)
            && exists root :: Holds(env, out.mem, root, audit))
  {
    AuditLogged(env, node, mem, audit, now, later);
    var out := Append(env, node, mem, FRESH_KV, audit, now, later);
    OthersUnmoved(env, node, mem, out.mem, shared, key);
    if out.ok {
      AuditReadBack(env, node, out.mem, out.kv, audit, now, later);
    }
  }

  lemma {:induction false} AuditReadBack(env: Env, node: Node, mem: Blobs, kv: KvState, audit: LogEntry, now: string,
                                         later: string)
    requires env.HexRoots() && env.index.RoundTrips() && env.entry.RoundTrips()
    requires FramesOnly(env, mem) && Closed(mem, kv) && LogIs(env, mem, View(mem, kv), [audit])
    ensures Recent(env, node, mem, kv, 1, now) == Some([audit])
    ensures Carries(Snapshot(mem, later), mem)
    ensures exists root :: Holds(env, mem, root, audit)
  {
    RecentIs(env, node, mem, kv, [audit], 1, now);
    assert Last([audit], 1) == [audit];
    assert Carries(Snapshot(mem, later), mem) by { SnapshotRoundTrip(mem, later); }
    LogHolds(env, mem, View(mem, kv), [audit]);
    assert audit in [audit];
  }

  lemma {:induction false} ReportExtends(env: Env, node: Node, mem: Blobs, kv: KvState, role: string,
                                         state: AgentState, t: Stamps)
    requires env.CollisionFree() && FramesOnly(env, mem) && Closed(mem, kv)
    requires OpTrusted(env, node, mem, kv, Report(role, state, t))
    ensures
      var mem' := UpdateStatus(env, node, mem, kv, role, state, t).mem;
      FramesOnly(env, mem') && Extends(mem, mem')
  {
    SetCorrect(env, mem, kv, AgentKey(role), env.agent.enc(state), t.recordPersisted);
    var first := Set(env, mem, kv, AgentKey(role), env.agent.enc(state), t.recordPersisted);
    var swarm := ReadSwarm(env, node, first.mem, first.kv, t.swarmUpdated);
    if first.ok && swarm.Some? {
      SetCorrect(env, first.mem, first.kv, SWARM_STATE,
                 env.swarm.enc(swarm.value.UpdateAgent(role, state, t.swarmUpdated)), t.swarmPersisted);
    }
  }

  /** A report through a KV of its own is invisible to every other KV, the aggregate included. */
  lemma {:induction false} SeparateMemoriesDoNotShare(env: Env, node: Node, mem: Blobs, mine: KvState, other: KvState,
                                                      role: string, state: AgentState, t: Stamps, now: string)
    requires env.CollisionFree() && env.HexRoots() && FramesOnly(env, mem) && Closed(mem, mine) && Closed(mem, other)
    requires OpTrusted(env, node, mem, other, Report(role, state, t))
    ensures
      var mem' := UpdateStatus(env, node, mem, other, role, state, t).mem;
      ReadSwarm(env, node, mem', mine, now) == ReadSwarm(env, node, mem, mine, now)
  {
    ReportExtends(env, node, mem, other, role, state, t);
    OthersUnmoved(env, node, mem, UpdateStatus(env, node, mem, other, role, state, t).mem, mine, SWARM_STATE);
  }

  /** An aggregate that is absent or does not decode counts as new. */
  lemma MissingSwarm(env: Env, node: Node, mem: Blobs, kv: KvState, now: string)
    requires SWARM_STATE in kv.manifest ==>
      var raw := Download(node, mem, kv.manifest[SWARM_STATE]); raw.Some? && env.swarm.dec(raw.value) == None
    ensures ReadSwarm(env, node, mem, kv, now) == Some(SwarmState(0, now, map[], None, JObj(map[])))
  {}

  class AgentMemory {
    const role: string
    const client: ZeroGClient
    const kv: SwarmKV
    const slog: SwarmLog

    constructor (role: string, client: ZeroGClient, kv: SwarmKV, slog: SwarmLog)
      ensures this.role == role && this.client == client && this.kv == kv && this.slog == slog
    {
      this.role, this.client, this.kv, this.slog := role, client, kv, slog;
    }

    ghost predicate Valid()
    {
      kv.Valid() && kv.client == client && slog.kv == kv && slog.client == client
    }

    method ReadSwarmState(now: string, live: string -> Option<Bytes>) returns (swarm: Option<SwarmState>)
      requires Valid()
      ensures swarm == ReadSwarm(client.env, client.NodeWith(live), client.Mem(), kv.State(), now)
    {
      var reply := kv.GetValue(SWARM_STATE, live);
      match reply
      case Absent => return Some(EmptySwarm(now));
      case Raised => return None;
      case Found(raw) =>
        var decoded := client.env.swarm.dec(raw);
        return Some(if decoded.Some? then decoded.value else EmptySwarm(now));
    }

    method WriteStatus(state: AgentState, t: Stamps, live: string -> Option<Bytes>) returns (ok: bool)
      requires Valid()
      modifies kv, client.Footprint()
      ensures Outcome(client.Mem(), kv.State(), ok) ==
              UpdateStatus(client.env, client.NodeWith(live), old(client.Mem()), old(kv.State()), role, state, t)
    {
      ok := kv.SetValue(AgentKey(role), client.env.agent.enc(state), t.recordPersisted);
      if !ok { return; }
      var swarm := ReadSwarmState(t.swarmUpdated, live);
      if swarm.None? { return false; }
      var updated := swarm.value.UpdateAgent(role, state, t.swarmUpdated);
      ok := kv.SetValue(SWARM_STATE, client.env.swarm.enc(updated), t.swarmPersisted);
    }
  }

  /** `make_shared_memory_set`: one KV behind all the roles. */
  method MakeSharedMemorySet(roles: seq<string>, client: ZeroGClient)
    returns (kv: SwarmKV, memories: map<string, AgentMemory>)
    requires client.Valid()
    ensures fresh(kv) && kv.Valid() && kv.client == client && kv.State() == FRESH_KV
    ensures memories.Keys == set role | role in roles
    ensures forall role | role in memories ::
      memories[role].Valid() && memories[role].role == role && memories[role].kv == kv
  {
    kv := new SwarmKV(client);
    memories := map[];
    for i := 0 to |roles|
      invariant kv.Valid() && kv.client == client && kv.State() == FRESH_KV
      invariant memories.Keys == set role | role in roles[..i]
      invariant forall role | role in memories ::
        memories[role].Valid() && memories[role].role == role && memories[role].kv == kv
    {
      var slog := new SwarmLog(client, kv);
      var memory := new AgentMemory(roles[i], client, kv, slog);
      memories := memories[roles[i] := memory];
      assert roles[..i + 1] == roles[..i] + [roles[i]];
    }
    assert roles[..|roles|] == roles;
  }
}
