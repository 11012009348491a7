/**
 * The producer and consumer ends of a stream (hop/io.py Producer and Consumer):
 * the broker addresses and options they hand to the Kafka client, what a
 * producer sends, and how a consumer decides when it has read everything.
 *
 * The Kafka client itself is outside the model. A consumer's read takes what
 * the client would report as inputs: the dict the first poll returns, the
 * partition assignment, the end offsets, the current positions and the
 * messages the client then yields.
 */
module Clients {
  import opened Basics
  import opened Text
  import opened Values
  import opened Messages
  import Auth

  const DefaultPort: string := ":9092"

  /** kafka-python needs an explicit port: an address without ':' gets the default one. */
  function WithDefaultPort(broker: string): string
  {
    if ':' in broker then broker else broker + DefaultPort
  }

  /** Every result names a port, keeps the address as its prefix, and is left alone by a second pass. */
  lemma DefaultPortProperties(broker: string)
    ensures ':' in WithDefaultPort(broker)
    ensures WithDefaultPort(broker)[..|broker|] == broker
    ensures ':' in broker <==> WithDefaultPort(broker) == broker
    ensures WithDefaultPort(WithDefaultPort(broker)) == WithDefaultPort(broker)
  {
    var r := WithDefaultPort(broker);
    if ':' !in broker {
      assert r[|broker|] == ':';
      assert |r| > |broker|;
    }
  }

  /** The loop both constructors run to build `addresses_with_ports`. */
  method AddDefaultPorts(brokers: seq<string>) returns (addresses: seq<string>)
    ensures |addresses| == |brokers|
    ensures forall i :: 0 <= i < |brokers| ==> addresses[i] == WithDefaultPort(brokers[i])
  {
    addresses := [];
    for i := 0 to |brokers|
      invariant |addresses| == i
      invariant forall j :: 0 <= j < i ==> addresses[j] == WithDefaultPort(brokers[j])
    {
      var broker := brokers[i];
      if ':' !in broker {
        addresses := addresses + [broker + DefaultPort];
      } else {
        addresses := addresses + [broker];
      }
    }
  }

  // ---------------------------------------------------------------------------
  // Consumer
  // ---------------------------------------------------------------------------

  datatype StartPosition = Earliest | Latest

  /** `consumer_timeout_ms`: infinite when reading forever, ten seconds otherwise. */
  datatype Timeout = Forever | Ms(ms: nat)

  /** The keyword arguments a Consumer hands to KafkaConsumer. */
  datatype ConsumerConfig = ConsumerConfig(
    groupId: Option<string>,
    bootstrapServers: seq<string>,
    auth: Option<Auth.Credential>,
    consumerTimeout: Timeout,
    autoOffsetReset: string,
    autoCommitIntervalMs: Option<int>,
    apiVersion: (int, int))

  function StartPositionName(p: StartPosition): string
  {
    match p
    case Earliest => "earliest"
    case Latest => "latest"
  }

  datatype TopicPartition = TopicPartition(topic: string, partition: int)

  /** A message as the Kafka client yields it, its value already JSON-decoded. */
  datatype KafkaMessage = KafkaMessage(topic: string, partition: int, offset: int, value: Value)

  function PartitionOf(m: KafkaMessage): TopicPartition
  {
    TopicPartition(m.topic, m.partition)
  }

  /**
   * What `poll` returns: a dict from each partition to the records fetched from
   * it, as its (key, value) pairs in iteration order.
   */
  type Polled = seq<(TopicPartition, seq<KafkaMessage>)>

  /** The records of `data.items()`, partition after partition. */
  function PolledMessages(data: Polled): seq<KafkaMessage>
  {
    if |data| == 0 then [] else data[0].1 + PolledMessages(data[1..])
  }

  /** The message is the last one of its partition. */
  predicate Completes(m: KafkaMessage, ends: map<TopicPartition, int>)
  {
    PartitionOf(m) in ends && m.offset + 1 == ends[PartitionOf(m)]
  }

  /** The partitions whose last message is among `stream[i..k]`. */
  function Completed(ends: map<TopicPartition, int>, stream: seq<KafkaMessage>, i: nat, k: nat): set<TopicPartition>
    requires i <= k <= |stream|
  {
    set j | i <= j < k && Completes(stream[j], ends) :: PartitionOf(stream[j])
  }

  /** The exceptions that end a read. */
  datatype ReadError =
    | Undecodable(cause: DeserializeError)   // raised by deserialize
    | NotIterable(partition: int)            // TypeError: an int is not iterable

  /**
   * What a read produced before it ended: the payloads it yielded in order, the
   * exception that ended it (if one did), the partitions it was still waiting
   * for (None when it never asked for them), and how many messages of the
   * client's iterator it took.
   */
  datatype ReadOutcome = ReadOutcome(
    payloads: seq<Decoded>,
    failure: Option<ReadError>,
    pending: Option<set<TopicPartition>>,
    consumed: nat)

  /** The partitions of `ends` whose position already equals their end offset. */
  function AtEnd(ends: map<TopicPartition, int>, position: TopicPartition -> int): set<TopicPartition>
  {
    set p | p in ends && position(p) == ends[p]
  }

  /**
   * Yield every message of `msgs` from `i` on, until one fails to deserialize;
   * no tracking. What was yielded before is kept as a prefix, and a read that
   * does not fail takes every message and yields one payload for each.
   */
  function DecodeAll(plugins: set<string>, msgs: seq<KafkaMessage>, i: nat, payloads: seq<Decoded>): (r: ReadOutcome)
    requires i <= |msgs|
    ensures r.pending.None?
    ensures i <= r.consumed <= |msgs|
    ensures |payloads| <= |r.payloads| && r.payloads[..|payloads|] == payloads
    ensures r.failure.None? ==> r.consumed == |msgs| && |r.payloads| == |payloads| + |msgs| - i
    ensures r.failure.Some? ==> i < r.consumed && r.failure.value.Undecodable?
                                && Deserialize(plugins, msgs[r.consumed - 1].value).Err?
    decreases |msgs| - i
  {
    if i == |msgs| then ReadOutcome(payloads, None, None, i)
    else
      match Deserialize(plugins, msgs[i].value)
      case Err(e) => ReadOutcome(payloads, Some(Undecodable(e)), None, i + 1)
      case Ok(d) =>
        var r := DecodeAll(plugins, msgs, i + 1, payloads + [d]);
        assert r.payloads[..|payloads|] == (r.payloads[..|payloads| + 1])[..|payloads|];
        r
  }

  /**
   * The second loop of Consumer.read when not reading forever: yield, drop the
   * message's partition from `pending` when the message was its last, and
   * stop as soon as nothing is pending.
   */
  function Drain(plugins: set<string>, pending: set<TopicPartition>, ends: map<TopicPartition, int>,
                 stream: seq<KafkaMessage>, i: nat, payloads: seq<Decoded>): (r: ReadOutcome)
    requires i <= |stream|
    ensures r.pending.Some?
    ensures i <= r.consumed <= |stream| && (i < |stream| ==> i < r.consumed)
    decreases |stream| - i
  {
    if i == |stream| then ReadOutcome(payloads, None, Some(pending), i)
    else
      match Deserialize(plugins, stream[i].value)
      case Err(e) => ReadOutcome(payloads, Some(Undecodable(e)), Some(pending), i + 1)
      case Ok(d) =>
        var next := if Completes(stream[i], ends) then pending - {PartitionOf(stream[i])} else pending;
        if next == {} then ReadOutcome(payloads + [d], None, Some(next), i + 1)
        else Drain(plugins, next, ends, stream, i + 1, payloads + [d])
  }

  /**
   * What Consumer.read produces, as a function of what the Kafka client
   * reports, with the first poll's records taken from `data.items()`.
   */
  function ReadSpec(readForever: bool, plugins: set<string>, data: Polled,
                    assignment: set<TopicPartition>, ends: map<TopicPartition, int>,
                    position: TopicPartition -> int, stream: seq<KafkaMessage>): (r: ReadOutcome)
    ensures r.consumed <= |stream|
    ensures r.failure.None? ==> |r.payloads| == |PolledMessages(data)| + r.consumed
    ensures r.pending.Some? ==> r.pending.value <= assignment - AtEnd(ends, position)
    ensures readForever && r.failure.None? ==> r.consumed == |stream|
    ensures !readForever && r.failure.None? && r.consumed < |stream| ==> r.pending == Some({})
  {
    var first := DecodeAll(plugins, PolledMessages(data), 0, []);
    if first.failure.Some? then ReadOutcome(first.payloads, first.failure, None, 0)
    else
      var tracked := assignment - AtEnd(ends, position);
      if readForever then
        var rest := DecodeAll(plugins, stream, 0, first.payloads);
        ReadOutcome(rest.payloads, rest.failure, Some(tracked), rest.consumed)
      else if tracked == {} then ReadOutcome(first.payloads, None, Some(tracked), 0)
      else
        DrainShrinks(plugins, tracked, ends, stream, 0, first.payloads);
        Drain(plugins, tracked, ends, stream, 0, first.payloads)
  }

  /**
   * Consumer.read as written: `for topic, messages in data:` iterates the
   * dict's keys; a TopicPartition key unpacks into its topic and its partition
   * number, and `for message in messages` over that number raises TypeError
   * before anything is yielded. An empty first poll never reaches it.
   */
  function ReadAsWritten(readForever: bool, plugins: set<string>, data: Polled,
                         assignment: set<TopicPartition>, ends: map<TopicPartition, int>,
                         position: TopicPartition -> int, stream: seq<KafkaMessage>): (r: ReadOutcome)
    ensures |data| > 0 ==> r.payloads == [] && r.consumed == 0 && r.failure == Some(NotIterable(data[0].0.partition))
    ensures |data| == 0 ==> r == ReadSpec(readForever, plugins, data, assignment, ends, position, stream)
    ensures r.failure.None? ==> |data| == 0
  {
    if |data| == 0 then ReadSpec(readForever, plugins, data, assignment, ends, position, stream)
    else ReadOutcome([], Some(NotIterable(data[0].0.partition)), None, 0)
  }

  /**
   * As written, a first poll that fetched anything ends the read with a
   * TypeError, yielding nothing: one packed value in partition 0 is lost where
   * the read over `data.items()` delivers it.
   */
  lemma ReadAsWrittenFails(readForever: bool, plugins: set<string>, data: Polled,
                           assignment: set<TopicPartition>, ends: map<TopicPartition, int>,
                           position: TopicPartition -> int, stream: seq<KafkaMessage>, v: Value)
    ensures |data| > 0 ==> ReadAsWritten(readForever, plugins, data, assignment, ends, position, stream)
                           == ReadOutcome([], Some(NotIterable(data[0].0.partition)), None, 0)
    ensures var m := KafkaMessage("t", 0, 0, Pack(Plain(v)));
      && ReadAsWritten(true, plugins, [(TopicPartition("t", 0), [m])], {}, map[], p => 0, []).payloads == []
      && ReadSpec(true, plugins, [(TopicPartition("t", 0), [m])], {}, map[], p => 0, []).payloads == [Content(v)]
  {
    var m := KafkaMessage("t", 0, 0, Pack(Plain(v)));
    var data1: Polled := [(TopicPartition("t", 0), [m])];
    assert PolledMessages(data1[1..]) == [];
    assert PolledMessages(data1) == [m];
    PackRoundTrip(plugins, v);
    assert DecodeAll(plugins, [m], 1, [Content(v)]).payloads == [Content(v)];
  }

  /** Where the loop as written does not raise, it agrees with the read over `data.items()`. */
  lemma ReadAsWrittenAgrees(readForever: bool, plugins: set<string>, data: Polled,
                            assignment: set<TopicPartition>, ends: map<TopicPartition, int>,
                            position: TopicPartition -> int, stream: seq<KafkaMessage>)
    ensures var r := ReadAsWritten(readForever, plugins, data, assignment, ends, position, stream);
      (r.failure.Some? ==> !r.failure.value.NotIterable?)
      ==> r == ReadSpec(readForever, plugins, data, assignment, ends, position, stream)
  {
  }

  /** An opened consumer: its subscription, its mode and the configuration it was built with. */
  class Consumer {
    const topics: seq<string>
    const readForever: bool
    const config: ConsumerConfig

    /**
     * hop/io.py Consumer.__init__ as Stream.open calls it (read_forever and
     * start_at always given); `commitIntervalMs` is offset_commit_interval in
     * whole milliseconds.
     */
    constructor(groupId: Option<string>, brokers: seq<string>, topics: seq<string>, readForever: bool,
                startAt: StartPosition, auth: Option<Auth.Credential>, commitIntervalMs: Option<int>)
      ensures this.topics == topics && this.readForever == readForever
      ensures config.groupId == groupId && config.auth == auth
      ensures |config.bootstrapServers| == |brokers|
      ensures forall i :: 0 <= i < |brokers| ==> config.bootstrapServers[i] == WithDefaultPort(brokers[i])
      ensures config.consumerTimeout == if readForever then Forever else Ms(10000)
      ensures config.autoOffsetReset == StartPositionName(startAt)
      ensures config.autoCommitIntervalMs == commitIntervalMs
      ensures config.apiVersion == (1, 0)
    {
      var addresses := AddDefaultPorts(brokers);
      this.topics := topics;
      this.readForever := readForever;
      config := ConsumerConfig(groupId, addresses, auth, if readForever then Forever else Ms(10000),
                               StartPositionName(startAt), commitIntervalMs, (1, 0));
    }

    /**
     * hop/io.py Consumer.read, with the Kafka client's answers as inputs and the
     * first poll's records taken from `data.items()` (see ReadAsWritten).
     */
    method Read(plugins: set<string>, data: Polled, assignment: set<TopicPartition>,
                ends: map<TopicPartition, int>, position: TopicPartition -> int, stream: seq<KafkaMessage>)
      returns (r: ReadOutcome)
      ensures r == ReadSpec(readForever, plugins, data, assignment, ends, position, stream)
    {
      var firstPoll := PolledMessages(data);
      ghost var first := DecodeAll(plugins, firstPoll, 0, []);
      // the first poll: every message is yielded; nothing is tracked yet
      var payloads: seq<Decoded> := [];
      for i := 0 to |firstPoll|
        invariant first == DecodeAll(plugins, firstPoll, i, payloads)
      {
        var d := Deserialize(plugins, firstPoll[i].value);
        if d.Err? {
          return ReadOutcome(payloads, Some(Undecodable(d.error)), None, 0);
        }
        payloads := payloads + [d.value];
      }
      assert first.failure.None? && first.payloads == payloads;

      var partitions := GetPartitions(assignment, ends, position);
      ghost var tracked := partitions;
      if !readForever && |partitions| == 0 {
        return ReadOutcome(payloads, None, Some(partitions), 0);
      }

      // the client's iterator
      var i := 0;
      while i < |stream|
        invariant 0 <= i <= |stream|
        invariant partitions <= tracked
        invariant readForever ==> partitions == tracked
        invariant readForever ==> DecodeAll(plugins, stream, 0, first.payloads) == DecodeAll(plugins, stream, i, payloads)
        invariant !readForever ==> partitions != {}
        invariant !readForever ==> Drain(plugins, tracked, ends, stream, 0, first.payloads)
                                   == Drain(plugins, partitions, ends, stream, i, payloads)
      {
        var message := stream[i];
        var d := Deserialize(plugins, message.value);
        if d.Err? {
          return ReadOutcome(payloads, Some(Undecodable(d.error)), Some(partitions), i + 1);
        }
        payloads := payloads + [d.value];
        if !readForever {
          if Completes(message, ends) {
            partitions := partitions - {PartitionOf(message)};
          }
          if |partitions| == 0 {
            return ReadOutcome(payloads, None, Some(partitions), i + 1);
          }
        }
        i := i + 1;
      }
      return ReadOutcome(payloads, None, Some(partitions), i);
    }
  }

  /** get_partitions in Consumer.read: the assigned partitions not yet at their end offset. */
  method GetPartitions(assignment: set<TopicPartition>, ends: map<TopicPartition, int>, position: TopicPartition -> int)
    returns (partitions: set<TopicPartition>)
    ensures partitions == assignment - AtEnd(ends, position)
    ensures forall p :: p in partitions <==> p in assignment && (p !in ends || position(p) != ends[p])
  {
    partitions := assignment;
    var keys := ends.Keys;
    while keys != {}
      invariant keys <= ends.Keys
      invariant partitions == assignment - (AtEnd(ends, position) - keys)
      decreases |keys|
    {
      var p :| p in keys;
      if position(p) == ends[p] {
        partitions := partitions - {p};
      }
      keys := keys - {p};
    }
  }

  /** Tracking only ever removes partitions, and it stops early only once none is left. */
  lemma {:induction false} DrainShrinks(plugins: set<string>, pending: set<TopicPartition>, ends: map<TopicPartition, int>,
                                        stream: seq<KafkaMessage>, i: nat, payloads: seq<Decoded>)
    requires i <= |stream|
    ensures var r := Drain(plugins, pending, ends, stream, i, payloads);
      && r.pending.Some? && r.pending.value <= pending
      && i <= r.consumed <= |stream|
      && |payloads| <= |r.payloads| && r.payloads[..|payloads|] == payloads
      && (r.failure.None? ==> |r.payloads| == |payloads| + (r.consumed - i))
      && (r.failure.None? && r.consumed < |stream| ==> r.pending.value == {})
    decreases |stream| - i
  {
    if i < |stream| {
      match Deserialize(plugins, stream[i].value)
      case Err(e) =>
      case Ok(d) =>
        var next := if Completes(stream[i], ends) then pending - {PartitionOf(stream[i])} else pending;
        if next != {} {
          DrainShrinks(plugins, next, ends, stream, i + 1, payloads + [d]);
          var r := Drain(plugins, next, ends, stream, i + 1, payloads + [d]);
          assert r.payloads[..|payloads|] == (r.payloads[..|payloads| + 1])[..|payloads|];
        }
    }
  }

  /** A partition stops being awaited only because a message at its end offset was read. */
  lemma {:induction false} DrainRemovesCompleted(plugins: set<string>, pending: set<TopicPartition>, ends: map<TopicPartition, int>,
                                                 stream: seq<KafkaMessage>, i: nat, payloads: seq<Decoded>, p: TopicPartition)
    requires i <= |stream|
    requires p in pending && p !in Drain(plugins, pending, ends, stream, i, payloads).pending.value
    ensures exists j :: i <= j < Drain(plugins, pending, ends, stream, i, payloads).consumed
                        && Completes(stream[j], ends) && PartitionOf(stream[j]) == p
    decreases |stream| - i
  {
    if i == |stream| {
      assert false;
    }
    match Deserialize(plugins, stream[i].value)
    case Err(e) =>
      assert false;
    case Ok(d) =>
      var next := if Completes(stream[i], ends) then pending - {PartitionOf(stream[i])} else pending;
      if p in next {
        DrainRemovesCompleted(plugins, next, ends, stream, i + 1, payloads + [d], p);
      } else {
        assert Completes(stream[i], ends) && PartitionOf(stream[i]) == p;
      }
  }

  /** Splitting off the first message of a range of completed partitions. */
  lemma CompletedFront(ends: map<TopicPartition, int>, stream: seq<KafkaMessage>, i: nat, k: nat)
    requires i < k <= |stream|
    ensures Completed(ends, stream, i, i) == {}
    ensures Completed(ends, stream, i, k)
         == (if Completes(stream[i], ends) then {PartitionOf(stream[i])} else {}) + Completed(ends, stream, i + 1, k)
  {
    var head := if Completes(stream[i], ends) then {PartitionOf(stream[i])} else {};
    forall p | p in Completed(ends, stream, i, k)
      ensures p in head + Completed(ends, stream, i + 1, k)
    {
      var j :| i <= j < k && Completes(stream[j], ends) && PartitionOf(stream[j]) == p;
      if j > i {
        assert p in Completed(ends, stream, i + 1, k);
      }
    }
  }

  /**
   * The set a drain ends with is exactly the starting set less the partitions
   * whose last message it read (the message that failed to deserialize is
   * taken from the iterator but not read).
   */
  lemma {:induction false} DrainPending(plugins: set<string>, pending: set<TopicPartition>, ends: map<TopicPartition, int>,
                                        stream: seq<KafkaMessage>, i: nat, payloads: seq<Decoded>)
    requires i <= |stream|
    ensures var r := Drain(plugins, pending, ends, stream, i, payloads);
      var read := if r.failure.Some? then r.consumed - 1 else r.consumed;
      && i <= read <= |stream|
      && r.pending.value == pending - Completed(ends, stream, i, read)
    decreases |stream| - i
  {
    if i == |stream| {
      assert Completed(ends, stream, i, i) == {};
    } else {
      CompletedFront(ends, stream, i, i + 1);
      match Deserialize(plugins, stream[i].value)
      case Err(e) =>
      case Ok(d) =>
        var next := if Completes(stream[i], ends) then pending - {PartitionOf(stream[i])} else pending;
        assert next == pending - Completed(ends, stream, i, i + 1);
        if next != {} {
          DrainPending(plugins, next, ends, stream, i + 1, payloads + [d]);
          var r := Drain(plugins, next, ends, stream, i + 1, payloads + [d]);
          assert Drain(plugins, pending, ends, stream, i, payloads) == r;
          var read := if r.failure.Some? then r.consumed - 1 else r.consumed;
          CompletedFront(ends, stream, i, read);
          assert r.pending.value == next - Completed(ends, stream, i + 1, read);
        }
    }
  }

  /** Reading the last message of an awaited partition stops it being awaited. */
  lemma CompletedIsRemoved(plugins: set<string>, pending: set<TopicPartition>, ends: map<TopicPartition, int>,
                           stream: seq<KafkaMessage>, i: nat, payloads: seq<Decoded>, j: nat)
    requires i <= j < |stream| && Completes(stream[j], ends)
    requires var r := Drain(plugins, pending, ends, stream, i, payloads);
      j + 1 < r.consumed || (j < r.consumed && r.failure.None?)
    ensures PartitionOf(stream[j]) !in Drain(plugins, pending, ends, stream, i, payloads).pending.value
  {
    DrainPending(plugins, pending, ends, stream, i, payloads);
    var r := Drain(plugins, pending, ends, stream, i, payloads);
    var read := if r.failure.Some? then r.consumed - 1 else r.consumed;
    assert PartitionOf(stream[j]) in Completed(ends, stream, i, read);
  }

  /**
   * A drain takes the next message only while something is still awaited, so
   * the message that empties the set is the last one it takes.
   */
  lemma {:induction false} DrainStopsAtEmpty(plugins: set<string>, pending: set<TopicPartition>, ends: map<TopicPartition, int>,
                                             stream: seq<KafkaMessage>, i: nat, payloads: seq<Decoded>)
    requires i <= |stream| && pending != {}
    ensures var r := Drain(plugins, pending, ends, stream, i, payloads);
      forall k :: i <= k < r.consumed ==> pending - Completed(ends, stream, i, k) != {}
    decreases |stream| - i
  {
    if i < |stream| {
      CompletedFront(ends, stream, i, i + 1);
      match Deserialize(plugins, stream[i].value)
      case Err(e) =>
      case Ok(d) =>
        var next := if Completes(stream[i], ends) then pending - {PartitionOf(stream[i])} else pending;
        if next != {} {
          DrainStopsAtEmpty(plugins, next, ends, stream, i + 1, payloads + [d]);
          var r := Drain(plugins, next, ends, stream, i + 1, payloads + [d]);
          forall k | i < k < r.consumed
            ensures pending - Completed(ends, stream, i, k) != {}
          {
            CompletedFront(ends, stream, i, k);
            assert pending - Completed(ends, stream, i, k) == next - Completed(ends, stream, i + 1, k);
          }
        }
    }
  }

  /** Without errors, decoding delivers one payload per message, in order. */
  lemma {:induction false} DecodeAllDelivers(plugins: set<string>, msgs: seq<KafkaMessage>, i: nat, payloads: seq<Decoded>)
    requires i <= |msgs|
    requires forall j :: i <= j < |msgs| ==> Deserialize(plugins, msgs[j].value).Ok?
    ensures var r := DecodeAll(plugins, msgs, i, payloads);
      && r.failure.None? && r.consumed == |msgs|
      && |r.payloads| == |payloads| + |msgs| - i
      && r.payloads[..|payloads|] == payloads
      && forall j :: i <= j < |msgs| ==> r.payloads[|payloads| + j - i] == Deserialize(plugins, msgs[j].value).value
    decreases |msgs| - i
  {
    if i < |msgs| {
      var d := Deserialize(plugins, msgs[i].value).value;
      DecodeAllDelivers(plugins, msgs, i + 1, payloads + [d]);
    }
  }

  /** Reading forever, once the first poll decodes, is decoding the iterator after it. */
  lemma ReadForeverDecodes(plugins: set<string>, data: Polled, assignment: set<TopicPartition>,
                           ends: map<TopicPartition, int>, position: TopicPartition -> int, stream: seq<KafkaMessage>)
    requires DecodeAll(plugins, PolledMessages(data), 0, []).failure.None?
    ensures var rest := DecodeAll(plugins, stream, 0, DecodeAll(plugins, PolledMessages(data), 0, []).payloads);
      var r := ReadSpec(true, plugins, data, assignment, ends, position, stream);
      r.payloads == rest.payloads && r.failure == rest.failure && r.consumed == rest.consumed
  {
  }

  /** Decoding two runs of messages one after the other delivers both, in order. */
  lemma DecodeBothDelivers(plugins: set<string>, firstPoll: seq<KafkaMessage>, stream: seq<KafkaMessage>)
    requires forall j :: 0 <= j < |firstPoll| ==> Deserialize(plugins, firstPoll[j].value).Ok?
    requires forall j :: 0 <= j < |stream| ==> Deserialize(plugins, stream[j].value).Ok?
    ensures DecodeAll(plugins, firstPoll, 0, []).failure.None?
    ensures var rest := DecodeAll(plugins, stream, 0, DecodeAll(plugins, firstPoll, 0, []).payloads);
      && rest.failure.None? && rest.consumed == |stream|
      && |rest.payloads| == |firstPoll| + |stream|
      && (forall j :: 0 <= j < |firstPoll| ==> rest.payloads[j] == Deserialize(plugins, firstPoll[j].value).value)
      && (forall j :: 0 <= j < |stream| ==> rest.payloads[|firstPoll| + j] == Deserialize(plugins, stream[j].value).value)
  {
    DecodeAllDelivers(plugins, firstPoll, 0, []);
    var first := DecodeAll(plugins, firstPoll, 0, []);
    DecodeAllDelivers(plugins, stream, 0, first.payloads);
    var rest := DecodeAll(plugins, stream, 0, first.payloads);
    forall j | 0 <= j < |firstPoll|
      ensures rest.payloads[j] == Deserialize(plugins, firstPoll[j].value).value
    {
      assert rest.payloads[j] == rest.payloads[..|first.payloads|][j];
    }
  }

  /** Reading forever delivers every record of the first poll and then every message of the iterator. */
  lemma ReadForeverDeliversAll(plugins: set<string>, data: Polled, assignment: set<TopicPartition>,
                               ends: map<TopicPartition, int>, position: TopicPartition -> int, stream: seq<KafkaMessage>)
    requires forall j :: 0 <= j < |PolledMessages(data)| ==> Deserialize(plugins, PolledMessages(data)[j].value).Ok?
    requires forall j :: 0 <= j < |stream| ==> Deserialize(plugins, stream[j].value).Ok?
    ensures var firstPoll, r := PolledMessages(data), ReadSpec(true, plugins, data, assignment, ends, position, stream);
      && r.failure.None? && r.consumed == |stream|
      && |r.payloads| == |firstPoll| + |stream|
      && (forall j :: 0 <= j < |firstPoll| ==> r.payloads[j] == Deserialize(plugins, firstPoll[j].value).value)
      && (forall j :: 0 <= j < |stream| ==> r.payloads[|firstPoll| + j] == Deserialize(plugins, stream[j].value).value)
  {
    DecodeBothDelivers(plugins, PolledMessages(data), stream);
    ReadForeverDecodes(plugins, data, assignment, ends, position, stream);
  }

  /**
   * Without read_forever: the awaited set starts as the assignment less the
   * partitions already at their end, and loses exactly the partitions whose
   * last message was read; a read whose whole assignment is at its end takes
   * nothing from the iterator; and every message taken was taken while some
   * partition was still awaited.
   */
  lemma ReadTracking(plugins: set<string>, data: Polled, assignment: set<TopicPartition>,
                     ends: map<TopicPartition, int>, position: TopicPartition -> int, stream: seq<KafkaMessage>)
    requires DecodeAll(plugins, PolledMessages(data), 0, []).failure.None?
    ensures var tracked, r := assignment - AtEnd(ends, position), ReadSpec(false, plugins, data, assignment, ends, position, stream);
      && r.pending.Some?
      && (r.failure.Some? ==> r.consumed >= 1)
      && r.pending.value == tracked - Completed(ends, stream, 0, if r.failure.Some? then r.consumed - 1 else r.consumed)
      && (forall k :: 0 <= k < r.consumed ==> tracked - Completed(ends, stream, 0, k) != {})
      && (tracked == {} ==> r.consumed == 0 && r.payloads == DecodeAll(plugins, PolledMessages(data), 0, []).payloads)
  {
    var first := DecodeAll(plugins, PolledMessages(data), 0, []);
    var tracked := assignment - AtEnd(ends, position);
    if tracked != {} {
      DrainPending(plugins, tracked, ends, stream, 0, first.payloads);
      DrainStopsAtEmpty(plugins, tracked, ends, stream, 0, first.payloads);
    } else {
      assert Completed(ends, stream, 0, 0) == {};
    }
  }

  // ---------------------------------------------------------------------------
  // Producer
  // ---------------------------------------------------------------------------

  /** The keyword arguments a Producer hands to KafkaProducer. */
  datatype ProducerConfig = ProducerConfig(bootstrapServers: seq<string>, auth: Option<Auth.Credential>)

  /** A record handed to the Kafka client: its topic and its JSON value. */
  datatype Record = Record(topic: string, value: Value)

  /** An opened producer; `sent` is what it has handed to the Kafka client so far. */
  class Producer {
    const topic: string
    const config: ProducerConfig
    var sent: seq<Record>

    /** hop/io.py Producer.__init__. */
    constructor(brokers: seq<string>, topic: string, auth: Option<Auth.Credential>)
      ensures this.topic == topic && config.auth == auth && sent == []
      ensures |config.bootstrapServers| == |brokers|
      ensures forall i :: 0 <= i < |brokers| ==> config.bootstrapServers[i] == WithDefaultPort(brokers[i])
    {
      var addresses := AddDefaultPorts(brokers);
      this.topic := topic;
      config := ProducerConfig(addresses, auth);
      sent := [];
    }

    /** hop/io.py Producer.write: the packed message is sent to the producer's topic. */
    method Write(message: Outgoing)
      modifies this
      ensures sent == old(sent) + [Record(topic, Pack(message))]
    {
      sent := sent + [Record(topic, Pack(message))];
    }
  }

  /** Messages carrying a producer's records, in the order it sent them. */
  predicate Carries(stream: seq<KafkaMessage>, sent: seq<Record>)
  {
    |stream| == |sent| && forall i :: 0 <= i < |stream| ==> stream[i].topic == sent[i].topic && stream[i].value == sent[i].value
  }

  /**
   * Plain values a producer has sent, read back in the order they were sent by
   * a consumer reading forever, come out unchanged and in that order.
   */
  lemma WriteThenRead(plugins: set<string>, vs: seq<Value>, sent: seq<Record>, stream: seq<KafkaMessage>,
                      assignment: set<TopicPartition>, ends: map<TopicPartition, int>, position: TopicPartition -> int)
    requires |sent| == |vs| && forall i :: 0 <= i < |vs| ==> sent[i].value == Pack(Plain(vs[i]))
    requires Carries(stream, sent)
    ensures var r := ReadSpec(true, plugins, [], assignment, ends, position, stream);
      r.failure.None? && r.payloads == seq(|vs|, i requires 0 <= i < |vs| => Content(vs[i]))
  {
    forall j | 0 <= j < |stream|
      ensures Deserialize(plugins, stream[j].value) == Ok(Content(vs[j]))
    {
      PackRoundTrip(plugins, vs[j]);
    }
    assert PolledMessages([]) == [];
    ReadForeverDeliversAll(plugins, [], assignment, ends, position, stream);
  }
}
