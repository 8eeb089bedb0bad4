/** core/storage/kv.py: the key-value store whose manifest is itself stored on every write. */
module Kv {
  import opened Prelude
  import opened Models
  import opened Client
  import Framing

  type Manifest = map<string, string>

  /** The fields of a `SwarmKV`. */
  datatype KvState = KvState(manifest: Manifest, root: Option<string>)

  const FRESH_KV := KvState(map[], None)

  // ---- Manifests as JSON ----

  function KeysJson(m: Manifest): Json
  {
    JObj(map key | key in m :: JStr(m[key]))
  }

  function ManifestJson(m: Manifest, now: string): Json
  {
    JObj(map["_ts" := JStr(now), "_keys" := KeysJson(m)])
  }

  /** The manifest part of a decoded blob: the "_keys" member if there is one, else the whole object. */
  function KeysOf(decoded: Json): Json
  {
    if decoded.JObj? && "_keys" in decoded.fields then decoded.fields["_keys"] else decoded
  }

  function ReadKeys(keys: Json): Option<Manifest>
  {
    if keys.JObj? && forall key | key in keys.fields :: keys.fields[key].JStr? then
      Some(map key | key in keys.fields :: keys.fields[key].s)
    else None
  }

  /** No key name confuses the wrapper, not even "_keys" or "_ts". */
  lemma ManifestJsonRoundTrip(m: Manifest, now: string)
    ensures ReadKeys(KeysOf(ManifestJson(m, now))) == Some(m)
  {
    assert KeysOf(ManifestJson(m, now)) == KeysJson(m);
    assert ReadKeys(KeysJson(m)).value == m;
  }

  function ManifestBytes(env: Env, m: Manifest, now: string): Bytes
  {
    env.json.enc(ManifestJson(m, now))
  }

  // ---- The operations ----

  /** State after a call, and whether it returned rather than raised. */
  datatype Outcome = Outcome(mem: Blobs, kv: KvState, ok: bool)

  /** `_persist_manifest` */
  function Persist(env: Env, mem: Blobs, kv: KvState, now: string): Outcome
  {
    match Put(env, mem, ManifestBytes(env, kv.manifest, now))
    case None => Outcome(mem, kv, false)
    case Some((mem', root)) => Outcome(mem', kv.(root := Some(root)), true)
  }

  /** `set` */
  function Set(env: Env, mem: Blobs, kv: KvState, key: string, value: Bytes, now: string): Outcome
  {
    match Put(env, mem, value)
    case None => Outcome(mem, kv, false)
    case Some((mem', root)) => Persist(env, mem', kv.(manifest := kv.manifest[key := root]), now)
  }

  /** `delete` */
  function Delete(env: Env, mem: Blobs, kv: KvState, key: string, now: string): Outcome
  {
    if key !in kv.manifest then Outcome(mem, kv, true)
    else Persist(env, mem, kv.(manifest := kv.manifest - {key}), now)
  }

  /** `load_manifest`, given what the download of the root returned. */
  function Load(env: Env, kv: KvState, root: Option<string>, fetched: Option<Bytes>): KvState
  {
    if root.None? then kv
    else if fetched.None? || env.json.dec(fetched.value).None? then kv.(manifest := map[])
    else
      match ReadKeys(KeysOf(env.json.dec(fetched.value).value))
      case Some(m) => KvState(m, root)
      case None => KvState(map[], root)
  }

  datatype GetReply = Absent | Found(data: Bytes) | Raised

  /** `get` */
  function Get(node: Node, mem: Blobs, kv: KvState, key: string): GetReply
  {
    if key !in kv.manifest then Absent
    else match Download(node, mem, kv.manifest[key])
         case Some(data) => Found(data)
         case None => Raised
  }

  // ---- One operation ----

  /** The payload can be framed, so uploading it does not raise. */
  predicate Storable(data: Bytes)
  {
    Framing.Frame(data).Some?
  }

  /** Hashing is trusted on the frame of this payload. */
  ghost predicate Trusted(env: Env, data: Bytes)
  {
    Framing.Frame(data).Some? ==> Framing.Frame(data).value in env.blobs
  }

  ghost predicate SetTrusted(env: Env, kv: KvState, key: string, value: Bytes, now: string)
  {
    && Trusted(env, value)
    && (Framing.Frame(value).Some? ==>
          Trusted(env, ManifestBytes(env, kv.manifest[key := env.rootOf(Framing.Frame(value).value)], now)))
  }

  ghost predicate DeleteTrusted(env: Env, kv: KvState, key: string, now: string)
  {
    key in kv.manifest ==> Trusted(env, ManifestBytes(env, kv.manifest - {key}, now))
  }

  /** Everything the manifest mentions is stored. */
  ghost predicate Closed(mem: Blobs, kv: KvState)
  {
    forall key | key in kv.manifest :: kv.manifest[key] in mem
  }

  ghost predicate Ideal(env: Env)
  {
    env.CollisionFree() && env.HexRoots() && env.CodecsRoundTrip()
  }

  /** The abstract map a KV presents. */
  ghost function View(mem: Blobs, kv: KvState): map<string, Bytes>
    requires Closed(mem, kv)
  {
    map key | key in kv.manifest :: Framing.Unframe(mem[kv.manifest[key]])
  }

  lemma GetIsView(env: Env, node: Node, mem: Blobs, kv: KvState, key: string)
    requires env.HexRoots() && FramesOnly(env, mem) && Closed(mem, kv)
    ensures Get(node, mem, kv, key) == if key in View(mem, kv) then Found(View(mem, kv)[key]) else Absent
  {
    if key in kv.manifest {
      LookupStored(env, mem, kv.manifest[key], None);
    }
  }

  lemma ExtendsKeepsView(mem: Blobs, mem': Blobs, kv: KvState)
    requires Closed(mem, kv) && Extends(mem, mem')
    ensures Closed(mem', kv) && View(mem', kv) == View(mem, kv)
  {}

  /** A stored manifest under root r, all of whose values are stored too: the snapshot v. */
  ghost predicate Snapshots(env: Env, mem: Blobs, r: string, m: Manifest, v: map<string, Bytes>)
  {
    && Closed(mem, KvState(m, Some(r)))
    && v == View(mem, KvState(m, Some(r)))
    && HoldsManifest(env, mem, r, m)
  }

  ghost predicate HoldsManifest(env: Env, mem: Blobs, r: string, m: Manifest)
  {
    r in mem && exists now :: Framing.Unframe(mem[r]) == ManifestBytes(env, m, now)
  }

  lemma PutManifest(env: Env, mem: Blobs, m: Manifest, now: string)
    requires env.CollisionFree() && FramesOnly(env, mem)
    requires Framing.Frame(ManifestBytes(env, m, now)).Some? && Trusted(env, ManifestBytes(env, m, now))
    ensures
      var (mem', root) := Put(env, mem, ManifestBytes(env, m, now)).value;
      FramesOnly(env, mem') && Extends(mem, mem') && HoldsManifest(env, mem', root, m)
  {
    PutExtends(env, mem, ManifestBytes(env, m, now));
  }

  /**
    Even where the manifest mentions roots that are not stored here, a persist forgets nothing and stores that
    manifest.
   */
  lemma PersistExtends(env: Env, mem: Blobs, kv: KvState, now: string)
    requires env.CollisionFree() && FramesOnly(env, mem) && Trusted(env, ManifestBytes(env, kv.manifest, now))
    ensures
      var out := Persist(env, mem, kv, now);
      && FramesOnly(env, out.mem) && Extends(mem, out.mem) && out.kv.manifest == kv.manifest
      && (out.ok ==> out.kv.root.Some? && HoldsManifest(env, out.mem, out.kv.root.value, kv.manifest))
  {
    if Framing.Frame(ManifestBytes(env, kv.manifest, now)).Some? {
      PutManifest(env, mem, kv.manifest, now);
    }
  }

  lemma SetExtends(env: Env, mem: Blobs, kv: KvState, key: string, value: Bytes, now: string)
    requires env.CollisionFree() && FramesOnly(env, mem) && SetTrusted(env, kv, key, value, now)
    ensures
      var out := Set(env, mem, kv, key, value, now);
      && FramesOnly(env, out.mem) && Extends(mem, out.mem)
      && (out.ok ==> out.kv.root.Some? && HoldsManifest(env, out.mem, out.kv.root.value, out.kv.manifest))
  {
    if Framing.Frame(value).Some? {
      PutExtends(env, mem, value);
      var (mem1, root) := Put(env, mem, value).value;
      PersistExtends(env, mem1, kv.(manifest := kv.manifest[key := root]), now);
    }
  }

  lemma PersistCorrect(env: Env, mem: Blobs, kv: KvState, now: string)
    requires env.CollisionFree() && FramesOnly(env, mem) && Closed(mem, kv)
    requires Trusted(env, ManifestBytes(env, kv.manifest, now))
    ensures
      var out := Persist(env, mem, kv, now);
      && FramesOnly(env, out.mem) && Extends(mem, out.mem) && Closed(out.mem, out.kv)
      && out.kv.manifest == kv.manifest && View(out.mem, out.kv) == View(mem, kv)
      && (out.ok ==> out.kv.root.Some? && Snapshots(env, out.mem, out.kv.root.value, kv.manifest, View(mem, kv)))
      && (!out.ok ==> out.mem == mem && out.kv == kv)
  {
    if Framing.Frame(ManifestBytes(env, kv.manifest, now)).Some? {
      PutManifest(env, mem, kv.manifest, now);
      var out := Persist(env, mem, kv, now);
      ExtendsKeepsView(mem, out.mem, kv);
    }
  }

  lemma PutView(env: Env, mem: Blobs, kv: KvState, key: string, value: Bytes)
    requires env.CollisionFree() && FramesOnly(env, mem) && Closed(mem, kv)
    requires Framing.Frame(value).Some? && Trusted(env, value)
    ensures
      var (mem', root) := Put(env, mem, value).value;
      var kv' := kv.(manifest := kv.manifest[key := root]);
      && FramesOnly(env, mem') && Extends(mem, mem')
      && Closed(mem', kv') && View(mem', kv') == View(mem, kv)[key := value]
  {
    PutExtends(env, mem, value);
  }

  /**
    What a set does to the abstract map: exactly one entry changes, and it now reads as the value set.
    A set that raises either did nothing or changed the in-memory map and published nothing.
   */
  lemma SetCorrect(env: Env, mem: Blobs, kv: KvState, key: string, value: Bytes, now: string)
    requires env.CollisionFree() && FramesOnly(env, mem) && Closed(mem, kv) && SetTrusted(env, kv, key, value, now)
    ensures
      var out := Set(env, mem, kv, key, value, now);
      && FramesOnly(env, out.mem) && Extends(mem, out.mem) && Closed(out.mem, out.kv)
      && (out.ok ==>
            && View(out.mem, out.kv) == View(mem, kv)[key := value]
            && out.kv.root.Some?
            && Snapshots(env, out.mem, out.kv.root.value, out.kv.manifest, View(mem, kv)[key := value]))
      && (!out.ok ==>
            && out.kv.root == kv.root
            && View(out.mem, out.kv) == if Framing.Frame(value).Some? then View(mem, kv)[key := value]
               else View(mem, kv))
  {
    if Framing.Frame(value).Some? {
      PutView(env, mem, kv, key, value);
      var (mem1, root) := Put(env, mem, value).value;
      PersistCorrect(env, mem1, kv.(manifest := kv.manifest[key := root]), now);
    }
  }

  /** Whether or not it returns, a set changes at most its own entry, and does so exactly if the value can be stored. */
  lemma SetView(env: Env, mem: Blobs, kv: KvState, key: string, value: Bytes, now: string)
    requires env.CollisionFree() && FramesOnly(env, mem) && Closed(mem, kv) && SetTrusted(env, kv, key, value, now)
    ensures
      var out := Set(env, mem, kv, key, value, now);
      && FramesOnly(env, out.mem) && Extends(mem, out.mem) && Closed(out.mem, out.kv)
      && (out.ok ==> Storable(value))
      && View(out.mem, out.kv) == if Storable(value) then View(mem, kv)[key := value] else View(mem, kv)
  {
    SetCorrect(env, mem, kv, key, value, now);
  }

  lemma RemoveView(mem: Blobs, kv: KvState, key: string)
    requires Closed(mem, kv)
    ensures var kv' := kv.(manifest := kv.manifest - {key}); Closed(mem, kv') && View(mem, kv') == View(mem, kv) - {key}
  {}

  lemma DeleteCorrect(env: Env, mem: Blobs, kv: KvState, key: string, now: string)
    requires env.CollisionFree() && FramesOnly(env, mem) && Closed(mem, kv) && DeleteTrusted(env, kv, key, now)
    ensures
      var out := Delete(env, mem, kv, key, now);
      && FramesOnly(env, out.mem) && Extends(mem, out.mem) && Closed(out.mem, out.kv)
      && View(out.mem, out.kv) == View(mem, kv) - {key}
      && (out.ok && key in kv.manifest ==>
            out.kv.root.Some? && Snapshots(env, out.mem, out.kv.root.value, out.kv.manifest, View(mem, kv) - {key}))
      && (!out.ok || key !in kv.manifest ==> out.mem == mem && out.kv.root == kv.root)
  {
    if key in kv.manifest {
      RemoveView(mem, kv, key);
      PersistCorrect(env, mem, kv.(manifest := kv.manifest - {key}), now);
    } else {
      assert View(mem, kv) - {key} == View(mem, kv);
    }
  }

  /** A fresh KV that loads a snapshot's root presents exactly that snapshot. */
  lemma LoadSnapshot(env: Env, node: Node, mem: Blobs, before: KvState, r: string, m: Manifest, v: map<string, Bytes>)
    requires env.HexRoots() && env.json.RoundTrips() && FramesOnly(env, mem) && Snapshots(env, mem, r, m, v)
    ensures
      var kv := Load(env, before, Some(r), Download(node, mem, r));
      kv == KvState(m, Some(r)) && Closed(mem, kv) && View(mem, kv) == v
  {
    LookupStored(env, mem, r, None);
    var now :| Framing.Unframe(mem[r]) == ManifestBytes(env, m, now);
    ManifestJsonRoundTrip(m, now);
  }

  /**
    Loading nothing changes nothing; a root that cannot be read or decoded empties the manifest and keeps the old
    root.
   */
  lemma FailedLoad(env: Env, kv: KvState, root: Option<string>, fetched: Option<Bytes>)
    ensures root == None ==> Load(env, kv, root, fetched) == kv
    ensures root.Some? && (fetched.None? || env.json.dec(fetched.value).None?) ==>
      Load(env, kv, root, fetched) == KvState(map[], kv.root)
  {}

  /** A manifest stored without the wrapper loads as it is exactly if no key of it is called "_keys". */
  lemma BareManifestLoadsIff(env: Env, kv: KvState, root: string, m: Manifest)
    requires env.json.RoundTrips()
    ensures Load(env, kv, Some(root), Some(env.json.enc(KeysJson(m)))) == KvState(m, Some(root)) <==> "_keys" !in m
  {
    assert env.json.dec(env.json.enc(KeysJson(m))) == Some(KeysJson(m));
    if "_keys" !in m {
      assert ReadKeys(KeysJson(m)).value == m;
    } else {
      assert KeysOf(KeysJson(m)) == JStr(m["_keys"]);
    }
  }

  // ---- Whole runs: any number of KVs on one client ----

  /** `kvs` are the KVs built on the client, `published` what each manifest root stood for when it was published. */
  datatype World = World(mem: Blobs, kvs: map<nat, KvState>, published: seq<(string, Manifest)>)

  const EMPTY_WORLD := World(map[], map[], [])

  datatype KvOp =
    | Create(id: nat)
    | DoSet(id: nat, key: string, value: Bytes, now: string)
    | DoDelete(id: nat, key: string, now: string)
    | DoLoad(id: nat, root: Option<string>, node: Node)
    | Upload(data: Bytes)

  function Settle(w: World, id: nat, out: Outcome): World
  {
    World(out.mem, w.kvs[id := out.kv],
          if out.ok && out.kv.root.Some? then w.published + [(out.kv.root.value, out.kv.manifest)] else w.published)
  }

  function KvOf(w: World, id: nat): KvState
  {
    if id in w.kvs then w.kvs[id] else FRESH_KV
  }

  function Step(env: Env, w: World, op: KvOp): World
  {
    match op
    case Create(id) => w.(kvs := w.kvs[id := FRESH_KV])
    case DoSet(id, key, value, now) => Settle(w, id, Set(env, w.mem, KvOf(w, id), key, value, now))
    case DoDelete(id, key, now) =>
      if key !in KvOf(w, id).manifest then w
      else Settle(w, id, Delete(env, w.mem, KvOf(w, id), key, now))
    case DoLoad(id, root, node) =>
      w.(kvs := w.kvs[id := Load(env, KvOf(w, id), root, if root.Some? then Download(node, w.mem, root.value)
          else None)])
    case Upload(data) => if Put(env, w.mem, data).Some? then w.(mem := Put(env, w.mem, data).value.0) else w
  }

  function Run(env: Env, w: World, ops: seq<KvOp>): World
    decreases |ops|
  {
    if ops == [] then w else Run(env, Step(env, w, ops[0]), ops[1..])
  }

  ghost predicate StepTrusted(env: Env, w: World, op: KvOp)
  {
    match op
    case DoSet(id, key, value, now) => SetTrusted(env, KvOf(w, id), key, value, now)
    case DoDelete(id, key, now) => DeleteTrusted(env, KvOf(w, id), key, now)
    case Upload(data) => Trusted(env, data)
    case _ => true
  }

  /** Hashing is trusted on all the run hashes. */
  ghost predicate RunTrusted(env: Env, w: World, ops: seq<KvOp>)
    decreases |ops|
  {
    ops != [] ==> StepTrusted(env, w, ops[0]) && RunTrusted(env, Step(env, w, ops[0]), ops[1..])
  }

  /** Every root ever published still stores the manifest it was published for. */
  ghost predicate WorldOk(env: Env, w: World)
  {
    FramesOnly(env, w.mem) && forall p | p in w.published :: HoldsManifest(env, w.mem, p.0, p.1)
  }

  lemma SettleOk(env: Env, w: World, id: nat, out: Outcome)
    requires WorldOk(env, w) && FramesOnly(env, out.mem) && Extends(w.mem, out.mem)
    requires out.ok && out.kv.root.Some? ==> HoldsManifest(env, out.mem, out.kv.root.value, out.kv.manifest)
    ensures WorldOk(env, Settle(w, id, out))
  {
    ManifestsStay(env, w, out.mem);
  }

  lemma ManifestsStay(env: Env, w: World, mem': Blobs)
    requires WorldOk(env, w) && Extends(w.mem, mem')
    ensures forall p | p in w.published :: HoldsManifest(env, mem', p.0, p.1)
  {
    forall p | p in w.published
      ensures HoldsManifest(env, mem', p.0, p.1)
    {
      assert HoldsManifest(env, w.mem, p.0, p.1);
    }
  }

  lemma StepKeepsOk(env: Env, w: World, op: KvOp)
    requires env.CollisionFree() && WorldOk(env, w) && StepTrusted(env, w, op)
    ensures WorldOk(env, Step(env, w, op))
    ensures Extends(w.mem, Step(env, w, op).mem)
    ensures w.published <= Step(env, w, op).published
  {
    if op.DoSet? {
      SetExtends(env, w.mem, KvOf(w, op.id), op.key, op.value, op.now);
      SettleOk(env, w, op.id, Set(env, w.mem, KvOf(w, op.id), op.key, op.value, op.now));
    } else if op.DoDelete? && op.key in KvOf(w, op.id).manifest {
      var kv := KvOf(w, op.id);
      PersistExtends(env, w.mem, kv.(manifest := kv.manifest - {op.key}), op.now);
      SettleOk(env, w, op.id, Delete(env, w.mem, kv, op.key, op.now));
    } else if op.Upload? && Put(env, w.mem, op.data).Some? {
      PutExtends(env, w.mem, op.data);
      ManifestsStay(env, w, Put(env, w.mem, op.data).value.0);
    }
  }

  /**
    Over every run of any number of KVs on one client, whatever they load: nothing stored is lost, and every root
    ever published still stores the manifest it was published for.
   */
  lemma {:induction false} RunKeepsOk(env: Env, w: World, ops: seq<KvOp>)
    requires env.CollisionFree() && WorldOk(env, w) && RunTrusted(env, w, ops)
    ensures WorldOk(env, Run(env, w, ops))
    ensures Extends(w.mem, Run(env, w, ops).mem)
    ensures w.published <= Run(env, w, ops).published
    decreases |ops|
  {
    if ops != [] {
      StepKeepsOk(env, w, ops[0]);
      RunKeepsOk(env, Step(env, w, ops[0]), ops[1..]);
    }
  }

  /** What this one KV loads during the run is wholly on this client. */
  ghost predicate LoadsClosed(env: Env, w: World, ops: seq<KvOp>, id: nat)
    decreases |ops|
  {
    ops != [] ==>
      var w' := Step(env, w, ops[0]);
      && (ops[0].DoLoad? && ops[0].id == id ==> Closed(w'.mem, KvOf(w', id)))
      && LoadsClosed(env, w', ops[1..], id)
  }

  lemma StepKeepsClosed(env: Env, w: World, op: KvOp, id: nat)
    requires env.CollisionFree() && WorldOk(env, w) && StepTrusted(env, w, op) && Closed(w.mem, KvOf(w, id))
    requires op.DoLoad? && op.id == id ==> Closed(Step(env, w, op).mem, KvOf(Step(env, w, op), id))
    ensures Closed(Step(env, w, op).mem, KvOf(Step(env, w, op), id))
  {
    StepKeepsOk(env, w, op);
    if op.DoSet? && op.id == id {
      SetCorrect(env, w.mem, KvOf(w, id), op.key, op.value, op.now);
    } else if op.DoDelete? && op.id == id {
      DeleteCorrect(env, w.mem, KvOf(w, id), op.key, op.now);
    }
  }

  /** A KV that loads only what is on this client never mentions a root that is not, whatever the other KVs load. */
  lemma {:induction false} RunKeepsClosed(env: Env, w: World, ops: seq<KvOp>, id: nat)
    requires env.CollisionFree() && WorldOk(env, w) && RunTrusted(env, w, ops)
    requires Closed(w.mem, KvOf(w, id)) && LoadsClosed(env, w, ops, id)
    ensures Closed(Run(env, w, ops).mem, KvOf(Run(env, w, ops), id))
    decreases |ops|
  {
    if ops != [] {
      StepKeepsOk(env, w, ops[0]);
      StepKeepsClosed(env, w, ops[0], id);
      RunKeepsClosed(env, Step(env, w, ops[0]), ops[1..], id);
    }
  }

  /** The root stores the manifest, and all that the manifest mentions is stored. */
  ghost predicate PublishedStands(env: Env, mem: Blobs, p: (string, Manifest))
  {
    Closed(mem, KvState(p.1, None)) && HoldsManifest(env, mem, p.0, p.1)
  }

  /** Loading a root that stands, or one that cannot be read, leaves the KV closed. */
  lemma PublishedLoadsClosed(env: Env, w: World, op: KvOp)
    requires env.HexRoots() && env.json.RoundTrips() && WorldOk(env, w) && op.DoLoad? && op.root.Some?
    requires (exists m :: PublishedStands(env, w.mem, (op.root.value, m))) ||
             Download(op.node, w.mem, op.root.value) == None
    ensures Closed(Step(env, w, op).mem, KvOf(Step(env, w, op), op.id))
  {
    if Download(op.node, w.mem, op.root.value) != None {
      var m :| PublishedStands(env, w.mem, (op.root.value, m));
      LoadSnapshot(env, op.node, w.mem, KvOf(w, op.id), op.root.value, m, View(w.mem, KvState(m, None)));
    }
  }

  /**
    Time travel. A root that stands in w loads, after any further operations of any KVs of the same client, as
    exactly the map it stood for in w, key by key.
   */
  lemma SnapshotOutlives(env: Env, w: World, ops: seq<KvOp>, p: (string, Manifest), node: Node, key: string)
    requires env.CollisionFree() && env.HexRoots() && env.json.RoundTrips()
    requires WorldOk(env, w) && RunTrusted(env, w, ops) && PublishedStands(env, w.mem, p)
    ensures
      var stood := View(w.mem, KvState(p.1, None));
      var mem := Run(env, w, ops).mem;
      var kv := Load(env, FRESH_KV, Some(p.0), Download(node, mem, p.0));
      && kv.manifest.Keys == stood.Keys
      && Get(node, mem, kv, key) == if key in stood then Found(stood[key]) else Absent
  {
    RunKeepsOk(env, w, ops);
    var mem := Run(env, w, ops).mem;
    ExtendsKeepsView(w.mem, mem, KvState(p.1, None));
    assert HoldsManifest(env, mem, p.0, p.1);
    LoadSnapshot(env, node, mem, FRESH_KV, p.0, p.1, View(mem, KvState(p.1, None)));
    GetIsView(env, node, mem, KvState(p.1, Some(p.0)), key);
  }

  /** What a set or a delete makes of the abstract map. */
  function Changed(v: map<string, Bytes>, op: KvOp): map<string, Bytes>
    requires op.DoSet? || op.DoDelete?
  {
    if op.DoSet? then v[op.key := op.value] else v - {op.key}
  }

  /** The operation publishes a manifest. */
  predicate Publishes(env: Env, w: World, op: KvOp)
  {
    || (op.DoSet? && Set(env, w.mem, KvOf(w, op.id), op.key, op.value, op.now).ok)
    || (op.DoDelete? && op.key in KvOf(w, op.id).manifest && Delete(env, w.mem, KvOf(w, op.id), op.key, op.now).ok)
  }

  lemma PublishesSnapshot(env: Env, w: World, op: KvOp)
    requires env.CollisionFree() && WorldOk(env, w) && StepTrusted(env, w, op)
    requires Publishes(env, w, op) && Closed(w.mem, KvOf(w, op.id))
    ensures
      var w', kv := Step(env, w, op), KvOf(Step(env, w, op), op.id);
      && kv.root.Some? && PublishedStands(env, w'.mem, (kv.root.value, kv.manifest))
      && View(w'.mem, KvState(kv.manifest, None)) == Changed(View(w.mem, KvOf(w, op.id)), op)
  {
    if op.DoSet? {
      SetCorrect(env, w.mem, KvOf(w, op.id), op.key, op.value, op.now);
    } else {
      DeleteCorrect(env, w.mem, KvOf(w, op.id), op.key, op.now);
    }
  }

  /**
    The same over whole runs. The root that a set or a delete publishes after the run `before` loads, after any run
    `after`, as exactly the map that operation made. Of the KV that publishes, and of it alone, it is asked that
    what it holds is on this client (see RunKeepsClosed).
   */
  lemma TimeTravel(env: Env, before: seq<KvOp>, op: KvOp, after: seq<KvOp>, node: Node, key: string)
    requires env.CollisionFree() && env.HexRoots() && env.json.RoundTrips() && RunTrusted(env, EMPTY_WORLD, before)
    requires
      var w := Run(env, EMPTY_WORLD, before);
      && Publishes(env, w, op) && Closed(w.mem, KvOf(w, op.id))
      && StepTrusted(env, w, op) && RunTrusted(env, Step(env, w, op), after)
    ensures
      var w := Run(env, EMPTY_WORLD, before);
      var published := KvOf(Step(env, w, op), op.id).root;
      var mem := Run(env, Step(env, w, op), after).mem;
      && published.Some?
      && var v := Changed(View(w.mem, KvOf(w, op.id)), op);
         var kv := Load(env, FRESH_KV, published, Download(node, mem, published.value));
         && kv.manifest.Keys == v.Keys
         && Get(node, mem, kv, key) == if key in v then Found(v[key]) else Absent
  {
    var w := Run(env, EMPTY_WORLD, before);
    RunKeepsOk(env, EMPTY_WORLD, before);
    StepKeepsOk(env, w, op);
    PublishesSnapshot(env, w, op);
    var kv := KvOf(Step(env, w, op), op.id);
    SnapshotOutlives(env, Step(env, w, op), after, (kv.root.value, kv.manifest), node, key);
  }

  function Target(op: KvOp): Option<nat>
  {
    if op.Upload? then None else Some(op.id)
  }

  lemma {:induction false} OthersLeaveState(env: Env, w: World, ops: seq<KvOp>, id: nat)
    requires forall op | op in ops :: Target(op) != Some(id)
    ensures KvOf(Run(env, w, ops), id) == KvOf(w, id)
    decreases |ops|
  {
    if ops != [] {
      assert Target(ops[0]) != Some(id);
      OthersLeaveState(env, Step(env, w, ops[0]), ops[1..], id);
    }
  }

  /** Non-interference: no operation through other KVs, whatever they load, changes an answer of this one. */
  lemma OtherKvsDoNotInterfere(env: Env, w: World, ops: seq<KvOp>, id: nat, node: Node, key: string)
    requires env.CollisionFree() && env.HexRoots() && WorldOk(env, w) && RunTrusted(env, w, ops)
    requires Closed(w.mem, KvOf(w, id)) && forall op | op in ops :: Target(op) != Some(id)
    ensures KvOf(Run(env, w, ops), id) == KvOf(w, id)
    ensures Get(node, Run(env, w, ops).mem, KvOf(w, id), key) == Get(node, w.mem, KvOf(w, id), key)
  {
    OthersLeaveState(env, w, ops, id);
    RunKeepsOk(env, w, ops);
    ExtendsKeepsView(w.mem, Run(env, w, ops).mem, KvOf(w, id));
    GetIsView(env, node, w.mem, KvOf(w, id), key);
    GetIsView(env, node, Run(env, w, ops).mem, KvOf(w, id), key);
  }

  // ---- The class ----

  class SwarmKV {
    const client: ZeroGClient
    var manifest: Manifest
    var manifestRoot: Option<string>

    constructor (client: ZeroGClient)
      ensures this.client == client && State() == FRESH_KV
    {
      this.client, manifest, manifestRoot := client, map[], None;
    }

    ghost predicate Valid()
    {
      client.Valid() && this !in client.Footprint()
    }

    ghost function State(): KvState
      reads this
    {
      KvState(manifest, manifestRoot)
    }

    method LoadManifest(root: Option<string>, live: string -> Option<Bytes>)
      requires Valid()
      modifies this
      ensures State() == Load(client.env, old(State()), root,
                              if root.Some? then Download(client.NodeWith(live), client.Mem(), root.value) else None)
    {
      if root.None? { return; }
      var raw := client.Fetch(root.value, live);
      if raw.None? || client.env.json.dec(raw.value).None? {
        manifest := map[];
        return;
      }
      match ReadKeys(KeysOf(client.env.json.dec(raw.value).value)) {
        case Some(m) => manifest := m;
        case None => manifest := map[];
      }
      manifestRoot := root;
    }

    method PersistManifest(now: string) returns (ok: bool)
      requires Valid()
      modifies this`manifestRoot, client.Footprint()
      ensures Outcome(client.Mem(), State(), ok) == Persist(client.env, old(client.Mem()), old(State()), now)
    {
      var root := client.Upload(ManifestBytes(client.env, manifest, now));
      if root.None? { return false; }
      manifestRoot := root;
      return true;
    }

    method SetValue(key: string, value: Bytes, now: string) returns (ok: bool)
      requires Valid()
      modifies this, client.Footprint()
      ensures Outcome(client.Mem(), State(), ok) == Set(client.env, old(client.Mem()), old(State()), key, value, now)
    {
      var root := client.Upload(value);
      if root.None? { return false; }
      manifest := manifest[key := root.value];
      ok := PersistManifest(now);
    }

    method GetValue(key: string, live: string -> Option<Bytes>) returns (reply: GetReply)
      requires Valid()
      ensures reply == Get(client.NodeWith(live), client.Mem(), State(), key)
    {
      if key !in manifest { return Absent; }
      var data := client.Fetch(manifest[key], live);
      return if data.Some? then Found(data.value) else Raised;
    }

    method DeleteKey(key: string, now: string) returns (ok: bool)
      requires Valid()
      modifies this, client.Footprint()
      ensures Outcome(client.Mem(), State(), ok) == Delete(client.env, old(client.Mem()), old(State()), key, now)
    {
      if key !in manifest { return true; }
      manifest := manifest - {key};
      ok := PersistManifest(now);
    }
  }
}
