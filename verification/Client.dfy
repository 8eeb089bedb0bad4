/**
  core/storage/client.py above the framing layer: the in-memory store, the write-back buffer and the
  client that chooses between them. The live node is foreign; what it answers is a parameter.
 */
module Client {
  import opened Prelude
  import opened Models
  import Framing
  import Hex

  type Blobs = map<string, Bytes>

  /** `root_hash.removeprefix("0x")` */
  function StripPrefix(root: string): string
  {
    if "0x" <= root then root[2..] else root
  }

  function Probe(mem: Blobs, key: string): Option<Bytes>
  {
    if key in mem then Some(mem[key]) else None
  }

  /** `_InMemoryStore.download`; an empty blob is falsy, so `or` passes it over. None is the KeyError. */
  function MemLookup(mem: Blobs, root: string): Option<Bytes>
  {
    var first := Probe(mem, StripPrefix(root));
    if first.Some? && first.value != [] then first else Probe(mem, root)
  }

  /** `_BufferedStore.download`; `live` is the live node's answer, used only for a root that is not buffered. */
  function BufLookup(mem: Blobs, root: string, live: Option<Bytes>): Option<Bytes>
  {
    if StripPrefix(root) in mem then Some(mem[StripPrefix(root)])
    else if root in mem then Some(mem[root])
    else live
  }

  /** The backend upload of a framed payload. None: the payload cannot be framed. */
  function Put(env: Env, mem: Blobs, data: Bytes): Option<(Blobs, string)>
  {
    match Framing.Frame(data)
    case None => None
    case Some(framed) => Some((mem[env.rootOf(framed) := framed], env.rootOf(framed)))
  }

  /** Where a download looks: only in memory, or in the buffer and then at a live node with these answers. */
  datatype Node = Plain | Live(answers: string -> Option<Bytes>)

  /** `ZeroGClient.download`; None is a raised error. */
  function Download(node: Node, mem: Blobs, root: string): Option<Bytes>
  {
    UnframeReply(match node
                 case Plain => MemLookup(mem, root)
                 case Live(answers) => BufLookup(mem, root, answers(root)))
  }

  function UnframeReply(raw: Option<Bytes>): Option<Bytes>
  {
    if raw.Some? then Some(Framing.Unframe(raw.value)) else None
  }

  /** What the live node says to an upload: an error, or a root and perhaps a transaction hash. */
  datatype LiveReply = Refused | Accepted(root: string, tx: Option<string>)

  function HexBlobs(mem: Blobs): map<string, Json>
  {
    map root | root in mem :: JStr(Hex.Encode(mem[root]))
  }

  function UnhexBlobs(data: map<string, Json>): Option<Blobs>
  {
    if forall root | root in data :: data[root].JStr? && Hex.Decode(data[root].s).Some? then
      Some(map root | root in data :: Hex.Decode(data[root].s).value)
    else None
  }

  /** The object `flush` serialises. */
  function Snapshot(mem: Blobs, now: string): Json
  {
    JObj(map["version" := JNum(1), "ts" := JStr(now), "entry_count" := JNum(|mem|), "data" := JObj(HexBlobs(mem))])
  }

  /** A snapshot read back: its entry count and its blobs. */
  function ReadSnapshot(snapshot: Json): Option<(int, Blobs)>
  {
    if snapshot.JObj? && "data" in snapshot.fields && "entry_count" in snapshot.fields then
      match (snapshot.fields["entry_count"], snapshot.fields["data"])
      case (JNum(n), JObj(data)) => if UnhexBlobs(data).Some? then Some((n, UnhexBlobs(data).value)) else None
      case _ => None
    else None
  }

  lemma HexBlobsRoundTrip(mem: Blobs)
    ensures UnhexBlobs(HexBlobs(mem)) == Some(mem)
  {
    var data := HexBlobs(mem);
    forall root | root in data
      ensures data[root].JStr? && Hex.Decode(data[root].s) == Some(mem[root])
    {
      Hex.RoundTrip(mem[root]);
    }
    assert UnhexBlobs(data).value == mem;
  }

  /** Every flush carries exactly the buffered blobs, and says how many there are, its version and its time. */
  lemma SnapshotRoundTrip(mem: Blobs, now: string)
    ensures ReadSnapshot(Snapshot(mem, now)) == Some((|mem|, mem))
    ensures
      var fields := Snapshot(mem, now).fields;
      && fields.Keys == {"version", "ts", "entry_count", "data"}
      && fields["version"] == JNum(1) && fields["ts"] == JStr(now)
  {
    HexBlobsRoundTrip(mem);
    assert "version" != "data" && "ts" != "data" && "entry_count" != "data";
    var fields := Snapshot(mem, now).fields;
    assert fields["data"] == JObj(HexBlobs(mem));
    assert fields["entry_count"] == JNum(|mem|);
  }

  // ---- The three classes ----

  class InMemoryStore {
    const env: Env
    var store: Blobs

    constructor (env: Env)
      ensures this.env == env && store == map[]
    {
      this.env, store := env, map[];
    }

    method Upload(data: Bytes) returns (root: string)
      modifies this
      ensures root == env.rootOf(data) && store == old(store)[root := data]
    {
      root := env.rootOf(data);
      store := store[root := data];
    }

    method Download(root: string) returns (data: Option<Bytes>)
      ensures data == MemLookup(store, root)
    {
      var key := StripPrefix(root);
      if key in store && store[key] != [] { return Some(store[key]); }
      if root in store { return Some(store[root]); }
      return None;
    }
  }

  class BufferedStore {
    const env: Env
    var mem: Blobs
    var snapshotRoot: Option<string>
    var snapshotTx: Option<string>
    /** Every snapshot handed to the live node so far. */
    ghost var submitted: seq<Json>

    constructor (env: Env)
      ensures this.env == env && mem == map[] && snapshotRoot == snapshotTx == None && submitted == []
    {
      this.env, mem, snapshotRoot, snapshotTx, submitted := env, map[], None, None, [];
    }

    ghost function State(): Buffer
      reads this
    {
      Buffer(mem, snapshotRoot, snapshotTx, submitted)
    }

    method Upload(data: Bytes) returns (root: string)
      modifies this
      ensures root == env.rootOf(data) && State() == old(State()).(mem := old(mem)[root := data])
    {
      root := env.rootOf(data);
      mem := mem[root := data];
    }

    method Download(root: string, live: Option<Bytes>) returns (data: Option<Bytes>)
      ensures data == BufLookup(mem, root, live)
    {
      var key := StripPrefix(root);
      if key in mem { return Some(mem[key]); }
      if root in mem { return Some(mem[root]); }
      return live;
    }

    /** `raised` is the live node's error passing through; then nothing is recorded. */
    method Flush(now: string, live: LiveReply) returns (root: Option<string>, raised: bool)
      modifies this
      ensures (State(), FlushReply(root, raised)) == BufFlush(old(State()), now, live)
      ensures raised <==> old(mem) != map[] && live.Refused?
      ensures root == if old(mem) != map[] && live.Accepted? then Some(live.root) else None
      ensures root.Some? ==> snapshotRoot == Some(live.root) && snapshotTx == live.tx
      ensures root.None? ==> snapshotRoot == old(snapshotRoot) && snapshotTx == old(snapshotTx)
    {
      if mem == map[] { return None, false; }
      var snapshot := Snapshot(mem, now);
      submitted := submitted + [snapshot];
      match live
      case Refused => return None, true;
      case Accepted(r, tx) =>
        snapshotRoot, snapshotTx := Some(r), tx;
        return Some(r), false;
    }
  }

  datatype Backend = InMemory(store: InMemoryStore) | Buffered(buffer: BufferedStore)

  class ZeroGClient {
    const env: Env
    const backend: Backend

    constructor (env: Env, backend: Backend)
      requires match backend case InMemory(s) => s.env == env case Buffered(b) => b.env == env
      ensures this.env == env && this.backend == backend && Valid()
    {
      this.env, this.backend := env, backend;
    }

    ghost predicate Valid()
    {
      match backend case InMemory(s) => s.env == env case Buffered(b) => b.env == env
    }

    ghost function Footprint(): set<object>
    {
      match backend case InMemory(s) => {s} case Buffered(b) => {b}
    }

    ghost function Mem(): Blobs
      reads Footprint()
    {
      match backend case InMemory(s) => s.store case Buffered(b) => b.mem
    }

    /** The node a download consults when the live one would answer as given. */
    function NodeWith(live: string -> Option<Bytes>): Node
    {
      if backend.InMemory? then Plain else Live(live)
    }

    /** None: the payload cannot be framed. A non-suspending backend has no other way to fail. */
    method Upload(data: Bytes) returns (root: Option<string>)
      requires Valid()
      modifies Footprint()
      ensures match Put(env, old(Mem()), data)
              case None => root == None && Mem() == old(Mem())
              case Some((mem, r)) => root == Some(r) && Mem() == mem
      ensures backend.Buffered? ==> backend.buffer.submitted == old(backend.buffer.submitted)
    {
      match Framing.Frame(data)
      case None => return None;
      case Some(framed) =>
        match backend {
          case InMemory(s) => var r := s.Upload(framed); root := Some(r);
          case Buffered(b) => var r := b.Upload(framed); root := Some(r);
        }
    }

    /** `flush`: only a buffered client has anything to commit. */
    method Flush(now: string, live: LiveReply) returns (root: Option<string>, raised: bool)
      requires Valid()
      modifies Footprint()
      ensures Mem() == old(Mem())
      ensures match backend
              case InMemory(_) => root == None && !raised
              case Buffered(b) => (b.State(), FlushReply(root, raised)) == BufFlush(old(b.State()), now, live)
    {
      match backend {
        case InMemory(_) => return None, false;
        case Buffered(b) => root, raised := b.Flush(now, live);
      }
    }

    method Fetch(root: string, live: string -> Option<Bytes>) returns (data: Option<Bytes>)
      requires Valid()
      ensures data == Download(NodeWith(live), Mem(), root)
    {
      var raw;
      match backend {
        case InMemory(s) => raw := s.Download(root);
        case Buffered(b) => raw := b.Download(root, live(root));
      }
      data := UnframeReply(raw);
    }
  }

  // ---- The buffer against the plain store, over whole traces ----

  datatype Buffer = Buffer(mem: Blobs, snapshotRoot: Option<string>, snapshotTx: Option<string>, submitted: seq<Json>)

  /** A client call; `Fetch` and `Commit` carry what the live node would answer. */
  datatype Op =
    | Store(data: Bytes)
    | Fetch(root: string, answer: Option<Bytes>)
    | Commit(now: string, reply: LiveReply)

  datatype Reply =
    | StoreReply(root: Option<string>)
    | FetchReply(data: Option<Bytes>)
    | FlushReply(snapshot: Option<string>, raised: bool)

  function BufFlush(b: Buffer, now: string, live: LiveReply): (Buffer, Reply)
  {
    if b.mem == map[] then (b, FlushReply(None, false))
    else
      var sent := b.(submitted := b.submitted + [Snapshot(b.mem, now)]);
      match live
      case Refused => (sent, FlushReply(None, true))
      case Accepted(r, tx) => (sent.(snapshotRoot := Some(r), snapshotTx := tx), FlushReply(Some(r), false))
  }

  function StoreInto(env: Env, mem: Blobs, data: Bytes): (Blobs, Reply)
  {
    match Put(env, mem, data)
    case None => (mem, StoreReply(None))
    case Some((mem', root)) => (mem', StoreReply(Some(root)))
  }

  /** The client over `_InMemoryStore`. */
  function MemStep(env: Env, mem: Blobs, op: Op): (Blobs, Reply)
  {
    match op
    case Store(data) => StoreInto(env, mem, data)
    case Fetch(root, _) => (mem, FetchReply(UnframeReply(MemLookup(mem, root))))
    case Commit(_, _) => (mem, FlushReply(None, false))
  }

  /** The client over `_BufferedStore`. */
  function BufStep(env: Env, b: Buffer, op: Op): (Buffer, Reply)
  {
    match op
    case Store(data) => var (mem, reply) := StoreInto(env, b.mem, data); (b.(mem := mem), reply)
    case Fetch(root, answer) => (b, FetchReply(UnframeReply(BufLookup(b.mem, root, answer))))
    case Commit(now, reply) => BufFlush(b, now, reply)
  }

  const EMPTY_BUFFER := Buffer(map[], None, None, [])

  function MemRun(env: Env, ops: seq<Op>): Blobs
  {
    if ops == [] then map[] else MemStep(env, MemRun(env, ops[..|ops| - 1]), ops[|ops| - 1]).0
  }

  function BufRun(env: Env, ops: seq<Op>): Buffer
  {
    if ops == [] then EMPTY_BUFFER else BufStep(env, BufRun(env, ops[..|ops| - 1]), ops[|ops| - 1]).0
  }

  /** Every byte string the trace hashes is one of the blobs hashing is trusted on. */
  ghost predicate HashesOnly(env: Env, ops: seq<Op>)
  {
    forall op | op in ops :: op.Store? && Framing.Frame(op.data).Some? ==> Framing.Frame(op.data).value in env.blobs
  }

  ghost predicate FramesOnly(env: Env, mem: Blobs)
  {
    forall root | root in mem ::
      mem[root] in env.blobs && root == env.rootOf(mem[root]) && mem[root] != []
  }

  ghost predicate Extends(mem: Blobs, mem': Blobs)
  {
    forall root | root in mem :: root in mem' && mem'[root] == mem[root]
  }

  /** Storing a frame forgets nothing that was stored before. */
  lemma PutExtends(env: Env, mem: Blobs, data: Bytes)
    requires env.CollisionFree() && FramesOnly(env, mem)
    requires Framing.Frame(data).Some? && Framing.Frame(data).value in env.blobs
    ensures var (mem', root) := Put(env, mem, data).value;
      && FramesOnly(env, mem') && Extends(mem, mem')
      && root in mem' && Framing.Unframe(mem'[root]) == data
  {
    Framing.FrameRoundTrip(data);
  }

  /** The in-memory and buffered lookups agree on a stored root, written with or without "0x". */
  lemma LookupStored(env: Env, mem: Blobs, root: string, live: Option<Bytes>)
    requires env.HexRoots() && FramesOnly(env, mem) && root in mem
    ensures MemLookup(mem, root) == BufLookup(mem, root, live) == Some(mem[root])
    ensures MemLookup(mem, "0x" + root) == BufLookup(mem, "0x" + root, live) == Some(mem[root])
    ensures forall node :: Download(node, mem, root) == Some(Framing.Unframe(mem[root]))
  {
    assert IsDigest(env.rootOf(mem[root]));
    var digest :| env.rootOf(mem[root]) == Hex.Encode(digest);
    Hex.NeverPrefixed(digest);
    assert StripPrefix("0x" + root) == root;
  }

  lemma {:induction false} RunKeepsFrames(env: Env, ops: seq<Op>)
    requires env.CollisionFree() && HashesOnly(env, ops)
    ensures FramesOnly(env, MemRun(env, ops))
    ensures BufRun(env, ops).mem == MemRun(env, ops)
  {
    if ops != [] {
      var before, op := ops[..|ops| - 1], ops[|ops| - 1];
      RunKeepsFrames(env, before);
      if op.Store? && Framing.Frame(op.data).Some? {
        assert op in ops;
        PutExtends(env, MemRun(env, before), op.data);
      }
    }
  }

  lemma {:induction false} RunExtends(env: Env, ops: seq<Op>, n: nat)
    requires env.CollisionFree() && HashesOnly(env, ops) && n <= |ops|
    ensures Extends(MemRun(env, ops[..n]), MemRun(env, ops))
  {
    if n == |ops| {
      assert ops[..n] == ops;
    } else {
      var before, op := ops[..|ops| - 1], ops[|ops| - 1];
      RunExtends(env, before, n);
      assert before[..n] == ops[..n];
      RunKeepsFrames(env, before);
      if op.Store? && Framing.Frame(op.data).Some? {
        assert op in ops;
        PutExtends(env, MemRun(env, before), op.data);
      }
    }
  }

  /**
    The write-back buffer refines the plain store: in any trace, the n-th call answers the same in
    both, except that a buffered download of a root the plain store does not have asks the live node.
   */
  lemma BufferRefinesMemory(env: Env, ops: seq<Op>, n: nat)
    requires env.CollisionFree() && HashesOnly(env, ops) && n < |ops|
    ensures
      var plain := MemStep(env, MemRun(env, ops[..n]), ops[n]).1;
      var buffered := BufStep(env, BufRun(env, ops[..n]), ops[n]).1;
      match ops[n]
      case Store(_) => buffered == plain
      case Fetch(_, answer) => buffered == if plain.data.Some? then plain else FetchReply(UnframeReply(answer))
      case Commit(_, _) => plain == FlushReply(None, false)
  {
    assert HashesOnly(env, ops[..n]);
    RunKeepsFrames(env, ops[..n]);
  }

  lemma {:induction false} StoredStays(env: Env, ops: seq<Op>, i: nat)
    requires env.CollisionFree() && HashesOnly(env, ops)
    requires i < |ops| && ops[i].Store? && Framing.Frame(ops[i].data).Some?
    ensures
      var framed := Framing.Frame(ops[i].data).value;
      env.rootOf(framed) in MemRun(env, ops) && MemRun(env, ops)[env.rootOf(framed)] == framed
  {
    var upTo := ops[..i + 1];
    assert upTo[..|upTo| - 1] == ops[..i] && upTo[i] == ops[i];
    RunExtends(env, ops, i + 1);
  }

  /** Whatever the trace stored at step i reads back ever after, from both backends, by either spelling of its root. */
  lemma StoredReadsBack(env: Env, ops: seq<Op>, i: nat, live: Option<Bytes>) returns (root: string)
    requires env.CollisionFree() && env.HexRoots() && HashesOnly(env, ops)
    requires i < |ops| && ops[i].Store? && Framing.Frame(ops[i].data).Some?
    ensures BufStep(env, BufRun(env, ops[..i]), ops[i]).1 == StoreReply(Some(root))
    ensures UnframeReply(MemLookup(MemRun(env, ops), root)) == Some(ops[i].data)
    ensures UnframeReply(MemLookup(MemRun(env, ops), "0x" + root)) == Some(ops[i].data)
    ensures UnframeReply(BufLookup(BufRun(env, ops).mem, root, live)) == Some(ops[i].data)
    ensures UnframeReply(BufLookup(BufRun(env, ops).mem, "0x" + root, live)) == Some(ops[i].data)
  {
    root := env.rootOf(Framing.Frame(ops[i].data).value);
    RunKeepsFrames(env, ops);
    StoredStays(env, ops, i);
    LookupStored(env, MemRun(env, ops), root, live);
    Framing.FrameRoundTrip(ops[i].data);
  }

  ghost predicate Carries(snapshot: Json, mem: Blobs)
  {
    ReadSnapshot(snapshot) == Some((|mem|, mem))
  }

  /** `mems` are the contents of the snapshots in b, one inside the next, the last inside the buffer. */
  ghost predicate NestedSnapshots(b: Buffer, mems: seq<Blobs>)
  {
    && |mems| == |b.submitted|
    && (forall i | 0 <= i < |mems| :: Carries(b.submitted[i], mems[i]) && mems[i] != map[] && Extends(mems[i], b.mem))
    && (forall i, j | 0 <= i < j < |mems| :: Extends(mems[i], mems[j]))
  }

  lemma FlushNests(b: Buffer, mems: seq<Blobs>, snapshot: Json)
    requires NestedSnapshots(b, mems) && Carries(snapshot, b.mem) && b.mem != map[]
    ensures NestedSnapshots(b.(submitted := b.submitted + [snapshot]), mems + [b.mem])
  {
    var b', mems' := b.(submitted := b.submitted + [snapshot]), mems + [b.mem];
    forall i | 0 <= i < |mems'|
      ensures Carries(b'.submitted[i], mems'[i]) && mems'[i] != map[] && Extends(mems'[i], b'.mem)
    {
      if i < |mems| {
        assert Carries(b.submitted[i], mems[i]);
      }
    }
  }

  lemma StoreNests(b: Buffer, mems: seq<Blobs>, mem': Blobs)
    requires NestedSnapshots(b, mems) && Extends(b.mem, mem')
    ensures NestedSnapshots(b.(mem := mem'), mems)
  {}

  lemma CommitNests(env: Env, b: Buffer, mems: seq<Blobs>, op: Op) returns (mems': seq<Blobs>)
    requires NestedSnapshots(b, mems) && op.Commit?
    ensures NestedSnapshots(BufStep(env, b, op).0, mems')
  {
    mems' := mems;
    if b.mem != map[] {
      assert Carries(Snapshot(b.mem, op.now), b.mem) by { SnapshotRoundTrip(b.mem, op.now); }
      FlushNests(b, mems, Snapshot(b.mem, op.now));
      mems' := mems + [b.mem];
    }
  }

  /** Each flush decodes to exactly what was buffered then; successive snapshots are nested. */
  lemma {:induction false} SnapshotsNested(env: Env, ops: seq<Op>) returns (mems: seq<Blobs>)
    requires env.CollisionFree() && HashesOnly(env, ops)
    ensures NestedSnapshots(BufRun(env, ops), mems)
  {
    if ops == [] {
      mems := [];
    } else {
      var before, op := ops[..|ops| - 1], ops[|ops| - 1];
      var b := BufRun(env, before);
      mems := SnapshotsNested(env, before);
      if op.Commit? {
        mems := CommitNests(env, b, mems, op);
      } else if op.Store? && Framing.Frame(op.data).Some? {
        assert op in ops;
        RunKeepsFrames(env, before);
        PutExtends(env, b.mem, op.data);
        StoreNests(b, mems, Put(env, b.mem, op.data).value.0);
      }
    }
  }

  // ---- What a flush answers and records ----

  /** Something has been stored before the n-th call, so there is something to flush. */
  predicate HasStored(ops: seq<Op>, n: nat)
    requires n <= |ops|
  {
    n > 0 && ((ops[n - 1].Store? && |ops[n - 1].data| < 0x1_0000_0000) || HasStored(ops, n - 1))
  }

  lemma {:induction false} BufferedIffStored(env: Env, ops: seq<Op>, n: nat)
    requires n <= |ops|
    ensures BufRun(env, ops[..n]).mem != map[] <==> HasStored(ops, n)
  {
    if n > 0 {
      BufferedIffStored(env, ops, n - 1);
      assert ops[..n][..n - 1] == ops[..n - 1] && ops[..n][n - 1] == ops[n - 1];
      if ops[n - 1].Store? && Framing.Frame(ops[n - 1].data).Some? {
        StoredIsThere(env, BufRun(env, ops[..n - 1]).mem, ops[n - 1].data);
      }
    }
  }

  lemma StoredIsThere(env: Env, mem: Blobs, data: Bytes)
    requires Framing.Frame(data).Some?
    ensures Put(env, mem, data).value.0 != map[]
  {
    assert Put(env, mem, data).value.1 in Put(env, mem, data).value.0;
  }

  /** The n-th call is a flush of something, and the live node accepts it. */
  ghost predicate AcceptedAt(ops: seq<Op>, n: nat)
  {
    n < |ops| && ops[n].Commit? && ops[n].reply.Accepted? && HasStored(ops, n)
  }

  /**
    A flush answers with the root the live node gave exactly if there was something to flush and the live node
    accepted it, raises exactly if the live node refused it, and else answers None. What it submits is one snapshot
    of everything stored.
   */
  lemma FlushAnswers(env: Env, ops: seq<Op>, n: nat, root: string)
    requires n < |ops| && ops[n].Commit?
    ensures
      var b := BufRun(env, ops[..n]);
      var (b', reply) := BufStep(env, b, ops[n]);
      && (reply == FlushReply(Some(root), false) <==> AcceptedAt(ops, n) && root == ops[n].reply.root)
      && (reply == FlushReply(None, true) <==> HasStored(ops, n) && ops[n].reply.Refused?)
      && (reply == FlushReply(None, false) <==> !HasStored(ops, n))
      && b'.mem == b.mem
      && (if HasStored(ops, n) then
            |b'.submitted| == |b.submitted| + 1 && b.submitted < b'.submitted &&
                Carries(b'.submitted[|b.submitted|], b.mem)
          else b'.submitted == b.submitted)
  {
    BufferedIffStored(env, ops, n);
    SnapshotRoundTrip(BufRun(env, ops[..n]).mem, ops[n].now);
  }

  /** Of the first n calls, the k-th is the last flush that the live node accepted. */
  ghost predicate LastAccepted(ops: seq<Op>, n: nat, k: nat)
  {
    k < n && AcceptedAt(ops, k) && forall j: nat | k < j < n :: !AcceptedAt(ops, j)
  }

  lemma StepRecords(env: Env, b: Buffer, op: Op)
    ensures
      var b' := BufStep(env, b, op).0;
      if op.Commit? && op.reply.Accepted? && b.mem != map[] then
        b'.snapshotRoot == Some(op.reply.root) && b'.snapshotTx == op.reply.tx
      else b'.snapshotRoot == b.snapshotRoot && b'.snapshotTx == b.snapshotTx
  {}

  /** The snapshot root and transaction on record after n calls. */
  function Recorded(env: Env, ops: seq<Op>, n: nat): (Option<string>, Option<string>)
    requires n <= |ops|
  {
    (BufRun(env, ops[..n]).snapshotRoot, BufRun(env, ops[..n]).snapshotTx)
  }

  lemma RecordsAt(env: Env, ops: seq<Op>, n: nat)
    requires n < |ops|
    ensures Recorded(env, ops, n + 1) ==
            if AcceptedAt(ops, n) then (Some(ops[n].reply.root), ops[n].reply.tx) else Recorded(env, ops, n)
  {
    BufferedIffStored(env, ops, n);
    StepRecords(env, BufRun(env, ops[..n]), ops[n]);
    BufRunStep(env, ops, n);
  }

  /** The recorded snapshot is that of the last flush the live node accepted, and there is none before the first. */
  lemma SnapshotIsLastAccepted(env: Env, ops: seq<Op>, n: nat) returns (last: Option<nat>)
    requires n <= |ops|
    ensures
      match last
      case None => (forall k: nat | k < n :: !AcceptedAt(ops, k)) && Recorded(env, ops, n) == (None, None)
      case Some(k) => LastAccepted(ops, n, k) && Recorded(env, ops, n) == (Some(ops[k].reply.root), ops[k].reply.tx)
  {
    var rec := (k: nat) => if k <= |ops| then Recorded(env, ops, k) else (None, None);
    var given := (k: nat) => if AcceptedAt(ops, k) then (Some(ops[k].reply.root), ops[k].reply.tx) else (None, None);
    var when := (k: nat) => AcceptedAt(ops, k);
    forall k: nat | k < n
      ensures LastingStep(when, given, rec, k)
    {
      RecordsAt(env, ops, k);
    }
    last := LastWins(when, given, rec, n);
    assert forall k: nat :: when(k) == AcceptedAt(ops, k);
    assert rec(0) == (None, None) && rec(n) == Recorded(env, ops, n);
  }

  ghost predicate LastingStep<T>(when: nat -> bool, given: nat -> T, rec: nat -> T, k: nat)
  {
    rec(k + 1) == if when(k) then given(k) else rec(k)
  }

  /** A record that is overwritten at certain steps and kept at all others is that of the last such step. */
  lemma {:induction false} LastWins<T>(when: nat -> bool, given: nat -> T, rec: nat -> T, n: nat)
    returns (last: Option<nat>)
    requires forall k: nat | k < n :: LastingStep(when, given, rec, k)
    ensures
      match last
      case None => (forall k: nat | k < n :: !when(k)) && rec(n) == rec(0)
      case Some(k) => k < n && when(k) && (forall j: nat | k < j < n :: !when(j)) && rec(n) == given(k)
  {
    if n == 0 {
      last := None;
    } else {
      last := LastWins(when, given, rec, n - 1);
      assert LastingStep(when, given, rec, n - 1);
      if when(n - 1) {
        last := Some(n - 1);
      }
    }
  }

  lemma BufRunStep(env: Env, ops: seq<Op>, n: nat)
    requires n < |ops|
    ensures BufRun(env, ops[..n + 1]) == BufStep(env, BufRun(env, ops[..n]), ops[n]).0
  {
    assert ops[..n + 1][..n] == ops[..n] && ops[..n + 1][n] == ops[n];
  }

  /**
    Below the framing layer the two lookups are not the same: they part exactly on an empty blob that
    the second probe of the in-memory store does not find again. Frames are never empty, so no client sees it.
   */
  lemma RawLookupsAgreeIff(mem: Blobs, root: string)
    ensures MemLookup(mem, root) == BufLookup(mem, root, None) <==>
      !(StripPrefix(root) in mem && mem[StripPrefix(root)] == [] && Probe(mem, root) != Some([]))
  {}

  lemma RawLookupsDisagree()
    ensures
      var mem: Blobs := map["ab" := []];
      MemLookup(mem, "0xab") == None && BufLookup(mem, "0xab", None) == Some([])
  {}
}
