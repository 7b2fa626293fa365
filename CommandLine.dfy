/**
 * The client object of CommandLineClient.java and its `main`. Sending a
 * packet over the transport is recorded by appending it to the ghost
 * sequence `sent`; what `notifyPktReceived` prints is recorded in the ghost
 * sequence `displayed`.
 */
module CommandLine {
  import opened Sequences
  import opened Attributes
  import opened Packets
  import opened ArgScanner

  class CommandLineClient {
    const serverHost: string
    const serverPort: int
    /** The client is registered as packet listener and the receive loop is started. */
    var listening: bool
    /** Every packet handed to the transport, in order. */
    ghost var sent: seq<Packet>
    /** Every packet `notifyPktReceived` printed, in order. */
    ghost var displayed: seq<Packet>

    /** Lines 159-161: a client bound to the server; the connection itself is not modelled. */
    constructor (serverHost: string, serverPort: int)
      ensures this.serverHost == serverHost && this.serverPort == serverPort
      ensures !listening && sent == [] && displayed == []
    {
      this.serverHost := serverHost;
      this.serverPort := serverPort;
      listening := false;
      sent := [];
      displayed := [];
    }

    /** Lines 137-138: register this client as listener and start receiving. */
    method StartListening()
      modifies this
      ensures listening
      ensures sent == old(sent) && displayed == old(displayed)
    {
      listening := true;
    }

    /** Lines 163-170: send the rule under identifier 2000 to the CPU engine. */
    method SendRule(ruleSource: string)
      modifies this
      ensures sent == old(sent) + [RulePkt(RuleId, ruleSource, CPU)]
      ensures listening == old(listening) && displayed == old(displayed)
    {
      sent := sent + [RulePkt(RuleId, ruleSource, CPU)];
    }

    /** Lines 172-181: one subscription packet per id, in list order. */
    method Subscribe(subTypes: seq<int>)
      modifies this
      ensures sent == old(sent) + SubPackets(subTypes)
      ensures listening == old(listening) && displayed == old(displayed)
    {
      for k := 0 to |subTypes|
        invariant sent == old(sent) + SubPackets(subTypes[..k])
        invariant listening == old(listening) && displayed == old(displayed)
      {
        assert SubPackets(subTypes[..k + 1]) == SubPackets(subTypes[..k]) + [SubPkt(subTypes[k])];
        sent := sent + [SubPkt(subTypes[k])];
      }
      assert subTypes[..|subTypes|] == subTypes;
    }

    /**
     * Lines 183-216: type every value and add the attributes in key order,
     * then send the packet. `values` must have an entry for every key
     * (`values.get(i)` throws otherwise); entries past the keys are unused.
     */
    method Publish(pubType: int, keys: seq<string>, values: seq<string>, parsesAsFloat: string -> bool)
      requires |keys| <= |values|
      modifies this
      ensures sent == old(sent) + [PubPacket(pubType, keys, values, parsesAsFloat)]
      ensures listening == old(listening) && displayed == old(displayed)
    {
      var attributes: seq<Attribute> := [];
      for k := 0 to |keys|
        invariant |attributes| == k
        invariant forall l :: 0 <= l < k ==> attributes[l] == Attribute(keys[l], Classify(values[l], parsesAsFloat))
      {
        attributes := attributes + [Attribute(keys[k], Classify(values[k], parsesAsFloat))];
      }
      assert attributes == PubPacket(pubType, keys, values, parsesAsFloat).attributes;
      sent := sent + [PubPkt(pubType, attributes)];
    }

    /** Lines 219-238: a packet that is not a PubPkt is ignored; a PubPkt is printed. */
    method NotifyPktReceived(pkt: Packet)
      modifies this
      ensures displayed == old(displayed) + Displayed([pkt])
      ensures sent == old(sent) && listening == old(listening)
    {
      if !pkt.PubPkt? {
        return;
      }
      displayed := displayed + [pkt];
    }
  }

  /**
   * The keys of a map and its values in one and the same order, as
   * `new ArrayList<>(m.keySet())` and `new ArrayList<>(m.values())` give them
   * (lines 142-143). HashMap's order is unspecified: any order may be chosen.
   */
  method Enumerate(m: map<string, string>) returns (keys: seq<string>, values: seq<string>)
    ensures EnumeratesMap(keys, values, m)
  {
    keys, values := [], [];
    var rest := m.Keys;
    while rest != {}
      invariant rest <= m.Keys
      invariant |keys| == |values| && |keys| + |rest| == |m|
      invariant Distinct(keys)
      invariant forall k :: 0 <= k < |keys| ==> keys[k] in m && keys[k] !in rest && values[k] == m[keys[k]]
      decreases rest
    {
      var key :| key in rest;
      keys, values := keys + [key], values + [m[key]];
      rest := rest - {key};
    }
  }

  /** How `main` ends. */
  datatype Exit =
    | UsageError            // printUsageAndExit: System.exit(-1)
    | Crash(index: nat)     // uncaught ArrayIndexOutOfBoundsException
    | Hang                  // the scanning loop never ends
    | Returned              // `main` returns normally

  /**
   * One publication packet per published type, each carrying that type's
   * key/value map, no type twice.
   */
  ghost predicate PublishesEach(pubs: seq<Packet>, notifications: map<int, map<string, string>>, parsesAsFloat: string -> bool) {
    && |pubs| == |notifications|
    && (forall k :: 0 <= k < |pubs| ==> pubs[k].PubPkt? && pubs[k].eventType in notifications
                                        && CarriesMap(pubs[k].attributes, notifications[pubs[k].eventType], parsesAsFloat))
    && (forall k, l :: 0 <= k < l < |pubs| ==> pubs[k].eventType != pubs[l].eventType)
  }

  /** What a session sends before its publications: subscriptions, then the rule if asked for. */
  function Preamble(cfg: Config): (r: seq<Packet>)
    ensures |r| == |cfg.subscriptions| + (if cfg.sendRule then 1 else 0)
    ensures r[..|cfg.subscriptions|] == SubPackets(cfg.subscriptions)
    ensures cfg.sendRule ==> r[|r| - 1] == RulePkt(RuleId, cfg.rulePath, CPU)
    ensures forall k :: 0 <= k < |r| ==> !r[k].PubPkt?
  {
    SubPackets(cfg.subscriptions) + (if cfg.sendRule then [RulePkt(RuleId, cfg.rulePath, CPU)] else [])
  }

  /** Every published type gets its packet. */
  lemma PublishesEachCoversAll(pubs: seq<Packet>, notifications: map<int, map<string, string>>, parsesAsFloat: string -> bool)
    requires PublishesEach(pubs, notifications, parsesAsFloat)
    ensures forall t :: t in notifications ==> exists k :: 0 <= k < |pubs| && pubs[k].eventType == t
  {
    var types := seq(|pubs|, k requires 0 <= k < |pubs| => pubs[k].eventType);
    assert |notifications.Keys| == |notifications|;
    DistinctCovers(types, notifications.Keys);
    forall t | t in notifications
      ensures exists k :: 0 <= k < |pubs| && pubs[k].eventType == t
    {
      var k :| 0 <= k < |types| && types[k] == t;
      assert pubs[k].eventType == t;
    }
  }

  /** The packets so far publish exactly the types in `done`, once each. */
  ghost predicate PublishedSoFar(pubs: seq<Packet>, done: set<int>, notifications: map<int, map<string, string>>, parsesAsFloat: string -> bool) {
    && done <= notifications.Keys
    && |pubs| == |done|
    && (forall k :: 0 <= k < |pubs| ==> pubs[k].PubPkt? && pubs[k].eventType in done
                                        && CarriesMap(pubs[k].attributes, notifications[pubs[k].eventType], parsesAsFloat))
    && (forall k, l :: 0 <= k < l < |pubs| ==> pubs[k].eventType != pubs[l].eventType)
  }

  /** Publishing a type still to do keeps `PublishedSoFar`, with that type done. */
  lemma PublishedOneMore(pubs: seq<Packet>, rest: set<int>, notifications: map<int, map<string, string>>, parsesAsFloat: string -> bool, pkt: Packet)
    requires rest <= notifications.Keys
    requires PublishedSoFar(pubs, notifications.Keys - rest, notifications, parsesAsFloat)
    requires pkt.PubPkt? && pkt.eventType in rest
    requires CarriesMap(pkt.attributes, notifications[pkt.eventType], parsesAsFloat)
    ensures PublishedSoFar(pubs + [pkt], notifications.Keys - (rest - {pkt.eventType}), notifications, parsesAsFloat)
  {
    var done := notifications.Keys - rest;
    assert notifications.Keys - (rest - {pkt.eventType}) == done + {pkt.eventType};
    assert |done + {pkt.eventType}| == |done| + 1;
  }

  /** The next key of a HashMap iteration: any key not visited yet. */
  method NextKey<T>(rest: set<T>) returns (key: T)
    requires rest != {}
    ensures key in rest
  {
    key :| key in rest;
  }

  /** Lines 142-143: publish one type's map, its keys and values listed in one order. */
  method PublishType(client: CommandLineClient, pubType: int, m: map<string, string>, parsesAsFloat: string -> bool)
      returns (ghost pkt: Packet)
    modifies client
    ensures client.sent == old(client.sent) + [pkt]
    ensures pkt.PubPkt? && pkt.eventType == pubType && CarriesMap(pkt.attributes, m, parsesAsFloat)
    ensures client.listening == old(client.listening) && client.displayed == old(client.displayed)
  {
    var keys, values := Enumerate(m);
    client.Publish(pubType, keys, values, parsesAsFloat);
    PubPacketFromMap(pubType, keys, values, m, parsesAsFloat);
    pkt := PubPacket(pubType, keys, values, parsesAsFloat);
  }

  /** Once no type remains, the packets publish each type once. */
  lemma PublishedAll(pubs: seq<Packet>, rest: set<int>, notifications: map<int, map<string, string>>, parsesAsFloat: string -> bool)
    requires rest == {}
    requires PublishedSoFar(pubs, notifications.Keys - rest, notifications, parsesAsFloat)
    ensures PublishesEach(pubs, notifications, parsesAsFloat)
  {
    assert notifications.Keys - rest == notifications.Keys;
    assert |notifications.Keys| == |notifications|;
  }

  /**
   * Lines 142-144: publish each type's map, in the map's unspecified order;
   * `pubs` names the packets sent.
   */
  method PublishAll(client: CommandLineClient, notifications: map<int, map<string, string>>, parsesAsFloat: string -> bool)
      returns (ghost pubs: seq<Packet>)
    modifies client
    ensures client.sent == old(client.sent) + pubs
    ensures PublishesEach(pubs, notifications, parsesAsFloat)
    ensures client.listening == old(client.listening) && client.displayed == old(client.displayed)
  {
    pubs := [];
    var rest := notifications.Keys;
    while rest != {}
      invariant rest <= notifications.Keys
      invariant client.sent == old(client.sent) + pubs
      invariant client.listening == old(client.listening) && client.displayed == old(client.displayed)
      invariant PublishedSoFar(pubs, notifications.Keys - rest, notifications, parsesAsFloat)
      decreases rest
    {
      var key := NextKey(rest);
      ghost var pkt := PublishType(client, key, notifications[key], parsesAsFloat);
      PublishedOneMore(pubs, rest, notifications, parsesAsFloat, pkt);
      pubs, rest := pubs + [pkt], rest - {key};
    }
    PublishedAll(pubs, rest, notifications, parsesAsFloat);
  }

  /**
   * `main` (lines 89-148). `reachable` says whether the connection succeeds;
   * when it does not, `main` prints the IOException and returns.
   */
  method Run(args: seq<string>, reachable: bool, parsesAsFloat: string -> bool) returns (exit: Exit, client: CommandLineClient?)
    ensures Scan(args) == UsageExit ==> exit == UsageError && client == null
    ensures Scan(args).OutOfBounds? ==> exit == Crash(Scan(args).index) && client == null
    ensures Scan(args).Diverges? ==> exit == Hang && client == null
    ensures Scan(args).Parsed? ==> exit == Returned && (client != null <==> reachable)
    ensures client != null ==> Scan(args).Parsed? && fresh(client)
    ensures client != null ==>
      var cfg := Scan(args).config;
      && client.serverHost == cfg.host && client.serverPort == cfg.port
      && client.listening == (|cfg.subscriptions| > 0)
      && |client.sent| == |Preamble(cfg)| + |cfg.notifications|
      && client.sent[..|Preamble(cfg)|] == Preamble(cfg)
      && PublishesEach(client.sent[|Preamble(cfg)|..], cfg.notifications, parsesAsFloat)
  {
    var scanned := ScanArgs(args);
    if scanned == UsageExit {
      return UsageError, null;
    } else if scanned.OutOfBounds? {
      return Crash(scanned.index), null;
    } else if scanned.Diverges? {
      return Hang, null;
    }
    var cfg := scanned.config;
    if !reachable {
      return Returned, null;
    }
    client := new CommandLineClient(cfg.host, cfg.port);
    if |cfg.subscriptions| > 0 {
      client.StartListening();
      client.Subscribe(cfg.subscriptions);
    }
    if cfg.sendRule {
      client.SendRule(cfg.rulePath);
    }
    assert client.sent == Preamble(cfg);
    ghost var pubs := PublishAll(client, cfg.notifications, parsesAsFloat);
    assert client.sent[..|Preamble(cfg)|] == Preamble(cfg);
    assert client.sent[|Preamble(cfg)|..] == pubs;
    return Returned, client;
  }
}
