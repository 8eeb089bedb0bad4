/** The stored records of core/storage/models.py and the external functions the storage stack relies on. */
module Models {
  import opened Prelude
  import Hex

  /** A float, by its bit pattern: stored records carry floats but do no arithmetic on them. */
  type Float64 = bits: int | 0 <= bits < 0x1_0000_0000_0000_0000

  /** The JSON values that manifests, snapshots and free-form record fields are made of. */
  datatype Json =
    | JNull
    | JBool(b: bool)
    | JNum(n: int)
    | JFloat(x: Float64)
    | JStr(s: string)
    | JList(items: seq<Json>)
    | JObj(fields: map<string, Json>)

  datatype AgentStatus = Idle | Scanning | Deciding | Executing | Error

  datatype LogEventType =
    AgentStarted | AgentStopped | MarketSignal | RiskDecision | TradeExecuted | TradeFailed | StateUpdated | ErrorEvent

  datatype AgentState = AgentState(
    agentRole: string,
    status: AgentStatus,
    lastSeen: string,
    lastSignal: Json,
    lastRiskScore: Option<Float64>,
    lastTxHash: Option<string>,
    errorMessage: Option<string>,
    metadata: Json)

  datatype SwarmState = SwarmState(
    version: int,
    updatedAt: string,
    agents: map<string, AgentState>,
    activeOpportunity: Option<Json>,
    swarmMetadata: Json)
  {
    /** `SwarmState.update_agent`: a changed copy. */
    function UpdateAgent(role: string, state: AgentState, now: string): SwarmState
    {
      this.(agents := agents[role := state], version := version + 1, updatedAt := now)
    }
  }

  function EmptySwarm(now: string): SwarmState
  {
    SwarmState(0, now, map[], None, JObj(map[]))
  }

  datatype LogEntry = LogEntry(
    entryId: string,
    eventType: LogEventType,
    agentRole: string,
    timestamp: string,
    data: Json,
    rootHash: Option<string>)

  datatype LogIndex = LogIndex(entries: seq<string>, entryCount: int, lastUpdated: string)
  {
    /** `LogIndex.append`: a changed copy. */
    function Append(root: string, now: string): LogIndex
    {
      LogIndex(entries + [root], entryCount + 1, now)
    }
  }

  function EmptyIndex(now: string): LogIndex
  {
    LogIndex([], 0, now)
  }

  ghost predicate IsDigest(root: string)
  {
    exists digest: Bytes :: root == Hex.Encode(digest)
  }

  /** An encode/decode pair; decoding None stands for a raised validation error. */
  datatype Codec<!T(!new)> = Codec(enc: T -> Bytes, dec: Bytes -> Option<T>)
  {
    ghost predicate RoundTrips()
    {
      forall x: T :: dec(enc(x)) == Some(x)
    }
  }

  /**
    What the code takes from outside: the content hash and the serialisers. `blobs` are the byte
    strings hashed during the run under consideration; hashing is assumed collision-free on those only.
   */
  datatype Env = Env(
    rootOf: Bytes -> string,
    blobs: iset<Bytes>,
    json: Codec<Json>,
    entry: Codec<LogEntry>,
    index: Codec<LogIndex>,
    agent: Codec<AgentState>,
    swarm: Codec<SwarmState>)
  {
    ghost predicate CollisionFree()
    {
      forall a: Bytes, b: Bytes :: a in blobs && b in blobs && rootOf(a) == rootOf(b) ==> a == b
    }

    /** Roots are digests in lower-case hex. */
    ghost predicate HexRoots()
    {
      forall b: Bytes :: IsDigest(rootOf(b))
    }

    ghost predicate CodecsRoundTrip()
    {
      json.RoundTrips() && entry.RoundTrips() && index.RoundTrips() && agent.RoundTrips() && swarm.RoundTrips()
    }
  }

  // KVKey

  const SWARM_STATE := "swarmfi:state:v1"
  const LOG_INDEX := "swarmfi:log:index:v1"
  const AGENT_PREFIX := "swarmfi:agent:"
  const AGENT_SUFFIX := ":v1"

  function AgentKey(role: string): string
  {
    AGENT_PREFIX + role + AGENT_SUFFIX
  }

  /** Each role string has its own key, and none of them is one of the two shared keys. */
  lemma AgentKeysSeparate(a: string, b: string)
    ensures AgentKey(a) == "swarmfi:agent:" + a + ":v1"
    ensures AgentKey(a) == AgentKey(b) ==> a == b
    ensures AgentKey(a) != SWARM_STATE && AgentKey(a) != LOG_INDEX && SWARM_STATE != LOG_INDEX
  {
    var ka, kb := AgentKey(a), AgentKey(b);
    assert ka[|AGENT_PREFIX|..|ka| - |AGENT_SUFFIX|] == a;
    assert kb[|AGENT_PREFIX|..|kb| - |AGENT_SUFFIX|] == b;
    assert ka[8] == 'a' && SWARM_STATE[8] == 's' && LOG_INDEX[8] == 'l';
  }
}
