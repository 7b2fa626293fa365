/**
 * The TRex packets this client builds, sends and receives, and the two pieces
 * of packet logic in CommandLineClient.java: the packet `publish` builds from
 * key/value lists (lines 189-210) and the filter in `notifyPktReceived`
 * (lines 220-223).
 */
module Packets {
  import opened Sequences
  import opened Attributes

  /** The execution engine a rule is submitted for; this client always uses CPU. */
  datatype Engine = CPU | GPU

  /**
   * PubPkt: an event of a type with its attributes. SubPkt: a subscription to
   * an event type. RulePkt: a rule under the identifier given to the rule
   * parser; its source is the path of the rule file. OtherPkt: any other kind
   * of TRex packet the transport may deliver.
   */
  datatype Packet =
    | PubPkt(eventType: int, attributes: seq<Attribute>)
    | SubPkt(eventType: int)
    | RulePkt(ruleId: int, ruleSource: string, engine: Engine)
    | OtherPkt

  /** The identifier `sendRule` hands to the rule parser. */
  const RuleId: int := 2000

  /** The packet `publish(pubType, keys, values)` sends: one attribute per key, in key order. */
  function PubPacket(pubType: int, keys: seq<string>, values: seq<string>, parsesAsFloat: string -> bool): (r: Packet)
    requires |keys| <= |values|
    ensures r.PubPkt? && r.eventType == pubType
    ensures Names(r.attributes) == keys
    ensures forall k :: 0 <= k < |keys| ==> r.attributes[k].value == Classify(values[k], parsesAsFloat)
  {
    PubPkt(pubType, seq(|keys|, k requires 0 <= k < |keys| => Attribute(keys[k], Classify(values[k], parsesAsFloat))))
  }

  /** The packets `subscribe(subTypes)` sends: one SubPkt per id, in list order. */
  function SubPackets(ids: seq<int>): (r: seq<Packet>)
    ensures |r| == |ids|
    ensures forall k :: 0 <= k < |r| ==> r[k].SubPkt? && r[k].eventType == ids[k]
  {
    seq(|ids|, k requires 0 <= k < |ids| => SubPkt(ids[k]))
  }

  /**
   * The packets `notifyPktReceived` shows, in arrival order: every packet that
   * is not a PubPkt is ignored.
   */
  function Displayed(pkts: seq<Packet>): (r: seq<Packet>)
    ensures |r| <= |pkts|
    ensures forall p :: p in r ==> p in pkts && p.PubPkt?
    ensures forall p :: p in pkts && p.PubPkt? ==> p in r
  {
    if pkts == [] then []
    else (if pkts[0].PubPkt? then [pkts[0]] else []) + Displayed(pkts[1..])
  }

  /**
   * Showing packets one call at a time shows them in arrival order: what a
   * stream shows is what its first part shows followed by what the rest shows.
   */
  lemma {:induction false} DisplayedConcat(a: seq<Packet>, b: seq<Packet>)
    ensures Displayed(a + b) == Displayed(a) + Displayed(b)
  {
    if a == [] {
      assert a + b == b;
    } else {
      var head := if a[0].PubPkt? then [a[0]] else [];
      assert (a + b)[0] == a[0] && (a + b)[1..] == a[1..] + b;
      calc {
        Displayed(a + b);
        head + Displayed(a[1..] + b);
        { DisplayedConcat(a[1..], b); }
        head + (Displayed(a[1..]) + Displayed(b));
        (head + Displayed(a[1..])) + Displayed(b);
      }
    }
  }

  /** Two notifications A, B arriving in that order are shown as A, B; any other packet between them is dropped. */
  lemma DisplayedKeepsOrder(a: Packet, x: Packet, b: Packet)
    requires a.PubPkt? && b.PubPkt? && !x.PubPkt?
    ensures Displayed([a, x, b]) == [a, b]
  {
    assert [a, x, b][1..] == [x, b];
    assert [x, b][1..] == [b];
  }

  /** The attribute names, in packet order. */
  function Names(attrs: seq<Attribute>): (r: seq<string>)
    ensures |r| == |attrs|
    ensures forall k :: 0 <= k < |r| ==> r[k] == attrs[k].name
  {
    seq(|attrs|, k requires 0 <= k < |attrs| => attrs[k].name)
  }

  /**
   * The attributes are exactly the entries of `m`: one per key, no name
   * twice, each typed from its own value.
   */
  ghost predicate CarriesMap(attrs: seq<Attribute>, m: map<string, string>, parsesAsFloat: string -> bool) {
    && |attrs| == |m|
    && Distinct(Names(attrs))
    && forall k :: 0 <= k < |attrs| ==> attrs[k].name in m && attrs[k].value == Classify(m[attrs[k].name], parsesAsFloat)
  }

  /**
   * `keys` and `values` list the entries of `m` in one order, as
   * `new ArrayList<>(m.keySet())` and `new ArrayList<>(m.values())` do.
   */
  ghost predicate EnumeratesMap(keys: seq<string>, values: seq<string>, m: map<string, string>) {
    && |keys| == |values| == |m|
    && Distinct(keys)
    && forall k :: 0 <= k < |keys| ==> keys[k] in m && values[k] == m[keys[k]]
  }

  /**
   * Publishing the keys and values of a map yields a packet of that type
   * whose attributes are the map's entries, every key of the map present.
   */
  lemma PubPacketFromMap(pubType: int, keys: seq<string>, values: seq<string>, m: map<string, string>, parsesAsFloat: string -> bool)
    requires EnumeratesMap(keys, values, m)
    ensures PubPacket(pubType, keys, values, parsesAsFloat).eventType == pubType
    ensures CarriesMap(PubPacket(pubType, keys, values, parsesAsFloat).attributes, m, parsesAsFloat)
    ensures forall x :: x in m ==> x in Names(PubPacket(pubType, keys, values, parsesAsFloat).attributes)
  {
    var attrs := PubPacket(pubType, keys, values, parsesAsFloat).attributes;
    assert Names(attrs) == keys;
    assert |m.Keys| == |m|;
    DistinctCovers(keys, m.Keys);
  }

  /** The documented example: keys area, value with values toto, 50. */
  lemma PublishExample(parsesAsFloat: string -> bool)
    requires !parsesAsFloat("toto")
    ensures PubPacket(2001, ["area", "value"], ["toto", "50"], parsesAsFloat)
         == PubPkt(2001, [Attribute("area", StringVal("toto")), Attribute("value", IntVal(50))])
  {
    ExampleValues(parsesAsFloat);
  }
}
