/**
  The assumptions about hashing and serialisation can all be met at once, by a hash that is collision-free on every
  byte string and by serialisers that lose nothing. So no result that assumes them is empty.
 */
module Assumptions {
  import opened Prelude
  import opened Models
  import Hex
  import Kv

  // ---- A self-delimiting code for JSON, written in front of any bytes ----

  ghost function NatCode(n: nat, r: Bytes): Bytes
  {
    if n == 0 then [0] + r else [1] + NatCode(n - 1, r)
  }

  ghost function IntCode(n: int, r: Bytes): Bytes
  {
    if n >= 0 then [0] + NatCode(n, r) else [1] + NatCode(-n, r)
  }

  ghost function StrCode(s: string, r: Bytes): Bytes
  {
    if s == "" then [0] + r else [1] + NatCode(s[0] as int, StrCode(s[1..], r))
  }

  ghost function AnyKey(fields: map<string, Json>): string
    requires fields != map[]
    ensures AnyKey(fields) in fields
  {
    assert exists key :: key in fields;
    var key :| key in fields;
    key
  }

  ghost function JsonCode(j: Json, r: Bytes): Bytes
    decreases j
  {
    match j
    case JNull => [0] + r
    case JBool(b) => [if b then 1 else 2] + r
    case JNum(n) => [3] + IntCode(n, r)
    case JFloat(x) => [4] + NatCode(x, r)
    case JStr(s) => [5] + StrCode(s, r)
    case JList(items) => [6] + ListCode(j, 0, r)
    case JObj(fields) => [7] + FieldsCode(j, fields, r)
  }

  /** The items of a list from the n-th on. */
  ghost function ListCode(whole: Json, n: nat, r: Bytes): Bytes
    requires whole.JList? && n <= |whole.items|
    decreases whole, |whole.items| - n
  {
    if n == |whole.items| then [0] + r else [1] + JsonCode(whole.items[n], ListCode(whole, n + 1, r))
  }

  /** Some fields of an object, in an arbitrary but fixed order. */
  ghost function FieldsCode(whole: Json, fields: map<string, Json>, r: Bytes): Bytes
    requires whole.JObj? && forall key | key in fields :: key in whole.fields && whole.fields[key] == fields[key]
    decreases whole, |fields|
  {
    if fields == map[] then [0] + r
    else
      var key := AnyKey(fields);
      [1] + StrCode(key, JsonCode(fields[key], FieldsCode(whole, fields - {key}, r)))
  }

  // ---- Equal codes are codes of equal values, in front of equal bytes ----

  lemma Front(a: byte, r: Bytes, b: byte, s: Bytes)
    requires [a] + r == [b] + s
    ensures a == b && r == s
  {
    assert ([a] + r)[0] == a && ([b] + s)[0] == b;
    assert ([a] + r)[1..] == r && ([b] + s)[1..] == s;
  }

  lemma {:induction false} NatApart(m: nat, n: nat, r: Bytes, s: Bytes)
    requires NatCode(m, r) == NatCode(n, s)
    ensures m == n && r == s
  {
    Front(if m == 0 then 0 else 1, if m == 0 then r else NatCode(m - 1, r),
          if n == 0 then 0 else 1, if n == 0 then s else NatCode(n - 1, s));
    if m > 0 {
      NatApart(m - 1, n - 1, r, s);
    }
  }

  lemma IntApart(m: int, n: int, r: Bytes, s: Bytes)
    requires IntCode(m, r) == IntCode(n, s)
    ensures m == n && r == s
  {
    var x, y := if m >= 0 then m else -m, if n >= 0 then n else -n;
    Front(if m >= 0 then 0 else 1, NatCode(x, r), if n >= 0 then 0 else 1, NatCode(y, s));
    NatApart(x, y, r, s);
  }

  lemma {:induction false} StrApart(a: string, b: string, r: Bytes, s: Bytes)
    requires StrCode(a, r) == StrCode(b, s)
    ensures a == b && r == s
  {
    Front(if a == "" then 0 else 1, if a == "" then r else NatCode(a[0] as int, StrCode(a[1..], r)),
          if b == "" then 0 else 1, if b == "" then s else NatCode(b[0] as int, StrCode(b[1..], s)));
    if a != "" {
      NatApart(a[0] as int, b[0] as int, StrCode(a[1..], r), StrCode(b[1..], s));
      StrApart(a[1..], b[1..], r, s);
      assert a == [a[0]] + a[1..] && b == [b[0]] + b[1..];
    }
  }

  ghost function Tag(j: Json): byte
  {
    match j
    case JNull => 0
    case JBool(b) => if b then 1 else 2
    case JNum(_) => 3
    case JFloat(_) => 4
    case JStr(_) => 5
    case JList(_) => 6
    case JObj(_) => 7
  }

  lemma {:induction false} JsonApart(i: Json, j: Json, r: Bytes, s: Bytes)
    requires JsonCode(i, r) == JsonCode(j, s)
    ensures i == j && r == s
    decreases i
  {
    Front(Tag(i), JsonCode(i, r)[1..], Tag(j), JsonCode(j, s)[1..]);
    if i.JNum? {
      IntApart(i.n, j.n, r, s);
    } else if i.JFloat? {
      NatApart(i.x, j.x, r, s);
    } else if i.JStr? {
      StrApart(i.s, j.s, r, s);
    } else if i.JList? {
      ListApart(i, j, 0, r, s);
    } else if i.JObj? {
      FieldsApart(i, i.fields, j, j.fields, r, s);
    }
  }

  lemma {:induction false} ListApart(i: Json, j: Json, n: nat, r: Bytes, s: Bytes)
    requires i.JList? && j.JList? && n <= |i.items| && n <= |j.items| && ListCode(i, n, r) == ListCode(j, n, s)
    ensures i.items[n..] == j.items[n..] && r == s
    decreases i, |i.items| - n
  {
    var atEnd, atEnd' := n == |i.items|, n == |j.items|;
    Front(if atEnd then 0 else 1, ListCode(i, n, r)[1..], if atEnd' then 0 else 1, ListCode(j, n, s)[1..]);
    if !atEnd {
      JsonApart(i.items[n], j.items[n], ListCode(i, n + 1, r), ListCode(j, n + 1, s));
      ListApart(i, j, n + 1, r, s);
      assert i.items[n..] == [i.items[n]] + i.items[n + 1..] && j.items[n..] == [j.items[n]] + j.items[n + 1..];
    }
  }

  lemma {:induction false} FieldsApart(i: Json, f: map<string, Json>, j: Json, g: map<string, Json>, r: Bytes, s: Bytes)
    requires i.JObj? && forall key | key in f :: key in i.fields && i.fields[key] == f[key]
    requires j.JObj? && forall key | key in g :: key in j.fields && j.fields[key] == g[key]
    requires FieldsCode(i, f, r) == FieldsCode(j, g, s)
    ensures f == g && r == s
    decreases i, |f|
  {
    Front(if f == map[] then 0 else 1, FieldsCode(i, f, r)[1..], if g == map[] then 0 else 1, FieldsCode(j, g, s)[1..]);
    if f != map[] {
      var k, l := AnyKey(f), AnyKey(g);
      var f', g' := f - {k}, g - {l};
      var r', s' := FieldsCode(i, f', r), FieldsCode(j, g', s);
      StrApart(k, l, JsonCode(f[k], r'), JsonCode(g[l], s'));
      JsonApart(f[k], g[l], r', s');
      FieldsApart(i, f', j, g', r, s);
      assert f == f'[k := f[k]] && g == g'[l := g[l]];
    }
  }

  // ---- Records as JSON ----

  ghost function OptionJson(o: Option<string>): Json
  {
    if o.Some? then JStr(o.value) else JNull
  }

  ghost function StatusJson(status: AgentStatus): Json
  {
    JNum(match status case Idle => 0 case Scanning => 1 case Deciding => 2 case Executing => 3 case Error => 4)
  }

  ghost function EventJson(e: LogEventType): Json
  {
    JNum(match e
         case AgentStarted => 0 case AgentStopped => 1 case MarketSignal => 2 case RiskDecision => 3
         case TradeExecuted => 4 case TradeFailed => 5 case StateUpdated => 6 case ErrorEvent => 7)
  }

  ghost function AgentJson(a: AgentState): Json
  {
    JList([JStr(a.agentRole), StatusJson(a.status), JStr(a.lastSeen), a.lastSignal,
           if a.lastRiskScore.Some? then JFloat(a.lastRiskScore.value) else JNull,
           OptionJson(a.lastTxHash), OptionJson(a.errorMessage), a.metadata])
  }

  ghost function SwarmJson(s: SwarmState): Json
  {
    JList([JNum(s.version), JStr(s.updatedAt), JObj(map role | role in s.agents :: AgentJson(s.agents[role])),
           JList(if s.activeOpportunity.Some? then [s.activeOpportunity.value] else []), s.swarmMetadata])
  }

  ghost function EntryJson(e: LogEntry): Json
  {
    JList([JStr(e.entryId), EventJson(e.eventType), JStr(e.agentRole), JStr(e.timestamp), e.data,
        OptionJson(e.rootHash)])
  }

  ghost function IndexJson(index: LogIndex): Json
  {
    JList([JList(seq(|index.entries|, i requires 0 <= i < |index.entries| => JStr(index.entries[i]))),
           JNum(index.entryCount), JStr(index.lastUpdated)])
  }

  lemma AgentApart(a: AgentState, b: AgentState)
    requires AgentJson(a) == AgentJson(b)
    ensures a == b
  {
    var p, q := AgentJson(a).items, AgentJson(b).items;
    assert p[0] == q[0] && p[1] == q[1] && p[2] == q[2] && p[3] == q[3] && p[4] == q[4] && p[5] == q[5] &&
        p[6] == q[6] && p[7] == q[7];
  }

  lemma SwarmApart(a: SwarmState, b: SwarmState)
    requires SwarmJson(a) == SwarmJson(b)
    ensures a == b
  {
    var p, q := SwarmJson(a).items, SwarmJson(b).items;
    assert p[0] == q[0] && p[1] == q[1] && p[2] == q[2] && p[3] == q[3] && p[4] == q[4];
    assert p[3].items == q[3].items;
    assert a.activeOpportunity == b.activeOpportunity by {
      if a.activeOpportunity.Some? { assert p[3].items[0] == a.activeOpportunity.value; }
      if b.activeOpportunity.Some? { assert q[3].items[0] == b.activeOpportunity.value; }
    }
    assert p[2].fields.Keys == q[2].fields.Keys;
    forall role | role in a.agents ensures role in b.agents && a.agents[role] == b.agents[role] {
      assert role in p[2].fields && role in q[2].fields;
      AgentApart(a.agents[role], b.agents[role]);
    }
    assert forall role | role in b.agents :: role in q[2].fields;
    assert a.agents == b.agents;
  }

  lemma EntryApart(a: LogEntry, b: LogEntry)
    requires EntryJson(a) == EntryJson(b)
    ensures a == b
  {
    var p, q := EntryJson(a).items, EntryJson(b).items;
    assert p[0] == q[0] && p[1] == q[1] && p[2] == q[2] && p[3] == q[3] && p[4] == q[4] && p[5] == q[5];
  }

  lemma IndexApart(a: LogIndex, b: LogIndex)
    requires IndexJson(a) == IndexJson(b)
    ensures a == b
  {
    var p, q := IndexJson(a).items, IndexJson(b).items;
    assert p[0] == q[0] && p[1] == q[1] && p[2] == q[2];
    assert |a.entries| == |p[0].items| == |q[0].items| == |b.entries|;
    forall i | 0 <= i < |a.entries| ensures a.entries[i] == b.entries[i] {
      assert p[0].items[i] == q[0].items[i];
    }
  }

  // ---- The environment ----

  ghost function Inverse<T(!new)>(enc: T -> Bytes, b: Bytes): Option<T>
  {
    if exists x :: enc(x) == b then
      var x :| enc(x) == b;
      Some(x)
    else None
  }

  /** An encoding of records through JSON that tells them apart has a decoder. */
  lemma CodecThrough<T(!new)>(toJson: T -> Json) returns (codec: Codec<T>)
    requires forall x, y :: toJson(x) == toJson(y) ==> x == y
    ensures codec.RoundTrips()
  {
    var enc: T -> Bytes := (x: T) => JsonCode(toJson(x), []);
    codec := Codec(enc, (b: Bytes) => Inverse(enc, b));
    forall x: T
      ensures codec.dec(codec.enc(x)) == Some(x)
    {
      var y :| enc(y) == enc(x) && Inverse(enc, enc(x)) == Some(y);
      JsonApart(toJson(x), toJson(y), [], []);
    }
  }

  /** All assumptions hold together in this environment, and it trusts hashing on every byte string there is. */
  lemma Met() returns (env: Env)
    ensures Kv.Ideal(env)
    ensures forall b: Bytes :: b in env.blobs
  {
    forall a, b | AgentJson(a) == AgentJson(b) ensures a == b { AgentApart(a, b); }
    forall a, b | SwarmJson(a) == SwarmJson(b) ensures a == b { SwarmApart(a, b); }
    forall a, b | EntryJson(a) == EntryJson(b) ensures a == b { EntryApart(a, b); }
    forall a, b | IndexJson(a) == IndexJson(b) ensures a == b { IndexApart(a, b); }
    var json := CodecThrough((j: Json) => j);
    var entry := CodecThrough((e: LogEntry) => EntryJson(e));
    var index := CodecThrough((i: LogIndex) => IndexJson(i));
    var agent := CodecThrough((a: AgentState) => AgentJson(a));
    var swarm := CodecThrough((s: SwarmState) => SwarmJson(s));
    env := Env((b: Bytes) => Hex.Encode(b), (iset b: Bytes | |b| >= 0), json, entry, index, agent, swarm);
    forall a: Bytes, b: Bytes | Hex.Encode(a) == Hex.Encode(b)
      ensures a == b
    {
      Hex.RoundTrip(a);
      Hex.RoundTrip(b);
    }
    assert env.HexRoots() by {
      forall b: Bytes
        ensures IsDigest(env.rootOf(b))
      {
        assert env.rootOf(b) == Hex.Encode(b);
      }
    }
  }
}
