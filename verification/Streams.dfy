/** The Redis Streams queue: nine append-only streams, one consumer group
    (internal/infrastructure/redis/queue.go). */
module Streams {
  import opened Entity

  datatype StreamKey = StreamKey(channel: Channel, priority: Priority)

  function ChannelName(c: Channel): string {
    match c case Sms => "sms" case Email => "email" case Push => "push"
  }

  function PriorityName(p: Priority): string {
    match p case High => "high" case Normal => "normal" case Low => "low"
  }

  /** The Redis key of a stream. */
  function StreamName(k: StreamKey): string {
    "notifications:" + ChannelName(k.channel) + ":" + PriorityName(k.priority)
  }

  lemma StreamNames()
    ensures StreamName(StreamKey(Sms, High)) == "notifications:sms:high"
    ensures StreamName(StreamKey(Sms, Normal)) == "notifications:sms:normal"
    ensures StreamName(StreamKey(Sms, Low)) == "notifications:sms:low"
    ensures StreamName(StreamKey(Email, High)) == "notifications:email:high"
    ensures StreamName(StreamKey(Email, Normal)) == "notifications:email:normal"
    ensures StreamName(StreamKey(Email, Low)) == "notifications:email:low"
    ensures StreamName(StreamKey(Push, High)) == "notifications:push:high"
    ensures StreamName(StreamKey(Push, Normal)) == "notifications:push:normal"
    ensures StreamName(StreamKey(Push, Low)) == "notifications:push:low"
  {
  }

  /** The nine streams have nine different names, so a key may stand for its name. */
  lemma StreamNamesAreDistinct(j: StreamKey, k: StreamKey)
    requires StreamName(j) == StreamName(k)
    ensures j == k
  {
    var prefix := |"notifications:"|;
    assert StreamName(j)[prefix] == ChannelName(j.channel)[0];
    assert StreamName(k)[prefix] == ChannelName(k.channel)[0];
    assert j.channel == k.channel;
    var at := prefix + |ChannelName(j.channel)| + 1;
    assert StreamName(j)[at] == PriorityName(j.priority)[0];
    assert StreamName(k)[at] == PriorityName(k.priority)[0];
  }

  /** Entry ids are positions. The group has read the entries before `cursor`;
      those in `pending` have not been acknowledged. */
  datatype Stream = Stream(entries: seq<Notification>, cursor: nat, pending: set<nat>) {
    predicate Valid() {
      cursor <= |entries| && forall i :: i in pending ==> i < cursor
    }

    predicate Acked(i: nat) { i < cursor && i !in pending }
  }

  const EMPTY := Stream([], 0, {})

  type Queues = map<StreamKey, Stream>

  function KeyOf(n: Notification): StreamKey { StreamKey(n.channel, n.priority) }

  function At(q: Queues, k: StreamKey): Stream {
    if k in q then q[k] else EMPTY
  }

  /** XADD. */
  function Append(q: Queues, n: Notification): Queues {
    var s := At(q, KeyOf(n));
    q[KeyOf(n) := s.(entries := s.entries + [n])]
  }

  /** XREADGROUP ">" of one entry: the group moves past it, it becomes pending. */
  function ReadOne(q: Queues, k: StreamKey): Queues {
    var s := At(q, k);
    if s.cursor < |s.entries| then q[k := s.(cursor := s.cursor + 1, pending := s.pending + {s.cursor})]
    else q
  }

  /** XREADGROUP with a count. */
  function ReadMany(q: Queues, k: StreamKey, count: nat): Queues {
    if count == 0 then q else ReadMany(ReadOne(q, k), k, count - 1)
  }

  /** XACK. */
  function Acknowledge(q: Queues, k: StreamKey, id: nat): Queues {
    if k in q then q[k := q[k].(pending := q[k].pending - {id})] else q
  }

  /** XADD to one stream: an entry at its end, and nothing else. */
  ghost predicate Added(q: Queues, q': Queues, k: StreamKey, n: Notification) {
    && k in q' && q'.Keys == q.Keys + {k}
    && q'[k] == (if k in q then Stream(q[k].entries + [n], q[k].cursor, q[k].pending) else Stream([n], 0, {}))
    && forall j :: j in q && j != k ==> q'[j] == q[j]
  }

  /** The group of one stream reads its next entry, which becomes pending. */
  ghost predicate ReadNext(q: Queues, q': Queues, k: StreamKey) {
    && k in q && q[k].cursor < |q[k].entries| && q'.Keys == q.Keys
    && q'[k] == Stream(q[k].entries, q[k].cursor + 1, q[k].pending + {q[k].cursor})
    && forall j :: j in q && j != k ==> q'[j] == q[j]
  }

  /** XACK: one entry of one stream is no longer pending, if it was, and nothing else. */
  ghost predicate Settled(q: Queues, q': Queues, k: StreamKey, id: nat) {
    && q'.Keys == q.Keys
    && (k in q ==> q'[k] == Stream(q[k].entries, q[k].cursor, q[k].pending - {id}))
    && forall j :: j in q && j != k ==> q'[j] == q[j]
  }

  /** A notification goes to the stream of its channel and priority. */
  lemma AppendAdds(q: Queues, n: Notification)
    ensures Added(q, Append(q, n), StreamKey(n.channel, n.priority), n)
  {
  }

  lemma ReadOneReads(q: Queues, k: StreamKey)
    requires k in q && q[k].cursor < |q[k].entries|
    ensures ReadNext(q, ReadOne(q, k), k)
  {
  }

  lemma AcknowledgeSettles(q: Queues, k: StreamKey, id: nat)
    ensures Settled(q, Acknowledge(q, k, id), k, id)
  {
  }

  datatype QueueMessage = QueueMessage(streamMsgId: nat, notification: Notification)

  ghost predicate AllValid(q: Queues) {
    forall k :: k in q ==> q[k].Valid()
  }

  /** What a counted read does to the stream it reads: the next entries, oldest
      first, become pending, each delivered to this one read only. */
  lemma {:induction false} ReadManyDelivers(q: Queues, k: StreamKey, count: nat)
    requires AllValid(q)
    ensures AllValid(ReadMany(q, k, count))
    ensures
      var s, s' := At(q, k), At(ReadMany(q, k, count), k);
      var last := if s.cursor + count < |s.entries| then s.cursor + count else |s.entries|;
      && s'.entries == s.entries && s'.cursor == last
      && forall i :: i in s'.pending <==> i in s.pending || s.cursor <= i < last
    ensures forall j :: j != k ==> At(ReadMany(q, k, count), j) == At(q, j)
    decreases count
  {
    if count > 0 { ReadManyDelivers(ReadOne(q, k), k, count - 1); }
  }

  class StreamQueue {
    var streams: Queues

    ghost predicate Valid()
      reads this
    {
      AllValid(streams)
    }

    constructor ()
      ensures Valid() && streams == map[]
    {
      streams := map[];
    }

    /** Creates the nine streams with their consumer group; existing ones stay. */
    method EnsureStreams()
      requires Valid()
      modifies this
      ensures Valid()
      ensures forall k: StreamKey :: k in streams
      ensures forall k :: At(streams, k) == At(old(streams), k)
      ensures forall k :: streams[k] == if k in old(streams) then old(streams)[k] else Stream([], 0, {})
    {
      for i := 0 to |ALL_CHANNELS|
        invariant Valid()
        invariant forall k :: At(streams, k) == At(old(streams), k)
        invariant forall c, p :: 0 <= c < i && 0 <= p < |ALL_PRIORITIES| ==>
                    StreamKey(ALL_CHANNELS[c], ALL_PRIORITIES[p]) in streams
      {
        for j := 0 to |ALL_PRIORITIES|
          invariant Valid()
          invariant forall k :: At(streams, k) == At(old(streams), k)
          invariant forall c, p :: 0 <= c < i && 0 <= p < |ALL_PRIORITIES| ==>
                      StreamKey(ALL_CHANNELS[c], ALL_PRIORITIES[p]) in streams
          invariant forall p :: 0 <= p < j ==> StreamKey(ALL_CHANNELS[i], ALL_PRIORITIES[p]) in streams
        {
          var key := StreamKey(ALL_CHANNELS[i], ALL_PRIORITIES[j]);
          if key !in streams {
            streams := streams[key := EMPTY];
          }
        }
      }
      forall k: StreamKey ensures k in streams {
        var c := if k.channel == Sms then 0 else if k.channel == Email then 1 else 2;
        var p := if k.priority == High then 0 else if k.priority == Normal then 1 else 2;
        assert StreamKey(ALL_CHANNELS[c], ALL_PRIORITIES[p]) == k;
      }
      assert forall k :: streams[k] == At(streams, k) == At(old(streams), k);
    }

    method Enqueue(n: Notification)
      requires Valid()
      modifies this
      ensures Valid() && streams == Append(old(streams), n)
      ensures Added(old(streams), streams, StreamKey(n.channel, n.priority), n)
    {
      var key := KeyOf(n);
      var s := At(streams, key);
      streams := streams[key := s.(entries := s.entries + [n])];
    }

    /** Up to `count` new messages, oldest first; none is an empty answer, not an error. */
    method Dequeue(k: StreamKey, count: nat) returns (messages: seq<QueueMessage>)
      requires Valid()
      modifies this
      ensures Valid() && streams == ReadMany(old(streams), k, count)
      ensures |messages| <= count
      ensures |messages| < count ==> At(streams, k).cursor == |At(streams, k).entries|
      ensures At(streams, k).cursor == At(old(streams), k).cursor + |messages|
      ensures forall i :: 0 <= i < |messages| ==>
                var id := At(old(streams), k).cursor + i;
                && id < |At(old(streams), k).entries|
                && messages[i] == QueueMessage(id, At(old(streams), k).entries[id])
    {
      messages := [];
      var i := 0;
      while i < count
        invariant 0 <= i <= count && |messages| <= i && Valid()
        invariant ReadMany(streams, k, count - i) == ReadMany(old(streams), k, count)
        invariant At(streams, k).entries == At(old(streams), k).entries
        invariant At(streams, k).cursor == At(old(streams), k).cursor + |messages|
        invariant |messages| < i ==> At(streams, k).cursor == |At(streams, k).entries|
        invariant forall j :: 0 <= j < |messages| ==>
                    var id := At(old(streams), k).cursor + j;
                    && id < |At(old(streams), k).entries|
                    && messages[j] == QueueMessage(id, At(old(streams), k).entries[id])
      {
        var s := At(streams, k);
        if s.cursor < |s.entries| {
          messages := messages + [QueueMessage(s.cursor, s.entries[s.cursor])];
        }
        streams := ReadOne(streams, k);
        i := i + 1;
      }
    }

    method Ack(channel: Channel, priority: Priority, msgId: nat)
      requires Valid()
      modifies this
      ensures Valid() && streams == Acknowledge(old(streams), StreamKey(channel, priority), msgId)
      ensures Settled(old(streams), streams, StreamKey(channel, priority), msgId)
    {
      var key := StreamKey(channel, priority);
      if key in streams {
        streams := streams[key := streams[key].(pending := streams[key].pending - {msgId})];
      }
    }
  }
}
