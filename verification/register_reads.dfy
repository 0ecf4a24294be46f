/** What a read answers: exactly when it skips imposing, and what a late reply does to it. */
module RegisterReads {
  import opened Collections
  import opened Histories
  import opened RegisterNode

  /** The node waits for replies to a read on `key` that has just been invoked. */
  ghost predicate ReadsAfresh(node: Node, key: nat) {
    && node.Knows(key) && node.n >= 1 && node.readCount > 0
    && node.readLists[key] == map[] && node.registers[key].reading && node.registers[key].skipImpose
  }

  /** Replies to that read, from different nodes. */
  ghost predicate AreReplies(node: Node, key: nat, ms: seq<Msg>)
    requires node.Knows(key)
  {
    && (forall m | m in ms :: m.Value? && m.key == key && m.runId == node.runId && m.rid == node.registers[key].rid)
    && forall i, j | 0 <= i < j < |ms| :: ms[i].senderRank != ms[j].senderRank
  }

  predicate SameTs(ms: seq<Msg>)
    requires forall m | m in ms :: m.Value?
  {
    forall m | m in ms :: m.ts == ms[0].ts
  }

  function ListOfReplies(ms: seq<Msg>): ReadList
    requires forall m | m in ms :: m.Value?
  {
    if ms == [] then map[]
    else
      var m := ms[|ms| - 1];
      ListOfReplies(ms[..|ms| - 1])[m.senderRank := Entry(m.ts, m.wr, m.value)]
  }

  lemma {:induction false} RepliesInList(ms: seq<Msg>)
    requires forall m | m in ms :: m.Value?
    requires forall i, j | 0 <= i < j < |ms| :: ms[i].senderRank != ms[j].senderRank
    ensures |ListOfReplies(ms)| == |ms| && forall k :: k in ListOfReplies(ms) <==> exists i :: 0 <= i < |ms| && ms[i].senderRank == k
  {
    if ms != [] {
      var front := ms[..|ms| - 1];
      RepliesInList(front);
      assert forall i | 0 <= i < |front| :: front[i] == ms[i];
      assert ms[|ms| - 1].senderRank !in ListOfReplies(front);
    }
  }

  /** The register after some replies. */
  function Noted(r: Register, ms: seq<Msg>): Register
    requires forall m | m in ms :: m.Value?
  {
    if ms == [] then r else r.(firstReceivedTs := ms[0].ts, readval := ms[0].value, skipImpose := SameTs(ms))
  }

  /** The node after a minority of replies, one after the other. */
  function Collecting(node: Node, key: nat, ms: seq<Msg>): Node
    requires node.Knows(key) && forall m | m in ms :: m.Value?
  {
    node.WithRegister(key, Noted(node.registers[key], ms), ListOfReplies(ms))
  }

  lemma NotedReply(r: Register, front: seq<Msg>, m: Msg)
    requires r.reading && r.skipImpose && m.Value? && forall f | f in front :: f.Value?
    ensures forall f | f in front + [m] :: f.Value?
    ensures NoteValue(Noted(r, front), front == [], m) == Noted(r, front + [m])
  {
    if front != [] {
      assert (front + [m])[0] == front[0] && front[0] in front;
      assert SameTs(front + [m]) == (SameTs(front) && m.ts == front[0].ts);
    }
  }

  lemma ListedReply(front: seq<Msg>, m: Msg)
    requires m.Value? && forall f | f in front :: f.Value?
    requires forall i, j | 0 <= i < j < |front + [m]| :: (front + [m])[i].senderRank != (front + [m])[j].senderRank
    ensures forall f | f in front + [m] :: f.Value?
    ensures ListOfReplies(front)[m.senderRank := Entry(m.ts, m.wr, m.value)] == ListOfReplies(front + [m])
    ensures |ListOfReplies(front + [m])| == |front| + 1 && (ListOfReplies(front) == map[] <==> front == [])
  {
    var ms := front + [m];
    assert ms[..|front|] == front;
    assert forall i | 0 <= i < |front| :: front[i] == ms[i];
    RepliesInList(front);
    RepliesInList(ms);
  }

  /** A reply that leaves the replies in the minority. */
  lemma OneReplyMore(node: Node, key: nat, front: seq<Msg>, m: Msg, now: int)
    requires ReadsAfresh(node, key) && AreReplies(node, key, front + [m]) && |front| < node.n / 2
    ensures AreReplies(node, key, front) && m.Value?
    ensures ReceiveValue(Collecting(node, key, front), m, now) == Handled(Collecting(node, key, front + [m]), [])
  {
    RepliesSplit(node, key, front, m);
    NotedReply(node.registers[key], front, m);
    ListedReply(front, m);
    var before, after := Collecting(node, key, front), Collecting(node, key, front + [m]);
    assert before.WithRegister(key, Noted(node.registers[key], front + [m]), ListOfReplies(front + [m])).registers == after.registers;
  }

  lemma RepliesSplit(node: Node, key: nat, front: seq<Msg>, m: Msg)
    requires node.Knows(key) && AreReplies(node, key, front + [m])
    ensures AreReplies(node, key, front) && m.Value? && m.key == key && m.runId == node.runId && m.rid == node.registers[key].rid
  {
    assert m in front + [m] && forall f | f in front :: f in front + [m];
    assert forall i | 0 <= i < |front| :: front[i] == (front + [m])[i];
  }

  /** The replies that the majority completes all carry one timestamp. */
  lemma AgreedReadAnswers(node: Node, key: nat, front: seq<Msg>, m: Msg, now: int)
    requires ReadsAfresh(node, key) && AreReplies(node, key, front + [m]) && |front| == node.n / 2 && SameTs(front + [m])
    ensures AreReplies(node, key, front) && m.Value?
    ensures ReceiveValue(Collecting(node, key, front), m, now)
            == AnswerRead(node.WithRegister(key, Noted(node.registers[key], front + [m]).(value := (front + [m])[0].value), map[]),
                          key, (front + [m])[0].value, now)
  {
    RepliesSplit(node, key, front, m);
    NotedReply(node.registers[key], front, m);
    ListedReply(front, m);
    var r := Noted(node.registers[key], front + [m]);
    assert Collecting(node, key, front).WithRegister(key, r.(value := r.readval), map[])
           == node.WithRegister(key, r.(value := r.readval), map[]);
  }

  lemma DividedReadImposes(node: Node, key: nat, front: seq<Msg>, m: Msg, now: int)
    requires ReadsAfresh(node, key) && AreReplies(node, key, front + [m]) && |front| == node.n / 2 && !SameTs(front + [m])
    ensures AreReplies(node, key, front) && m.Value?
    ensures var r := ReceiveValue(Collecting(node, key, front), m, now);
            r.Handled? && r.node.readCount == node.readCount && Imposes(node, key, front + [m], r.sent)
  {
    RepliesSplit(node, key, front, m);
    NotedReply(node.registers[key], front, m);
    ListedReply(front, m);
    var before, r := Collecting(node, key, front), Noted(node.registers[key], front + [m]);
    var max := MaxEntry(ListOfReplies(front + [m]));
    assert before.Bcast(ImposedWrite(before, r, m, max))
           == node.Bcast(Write(node.runId, key, node.registers[key].rid, max.ts, max.wr, max.value));
  }

  /**
   * The majority decides: the read answers at once if and only if all replies carry the same
   * timestamp, whatever their writers, and then with the value of the first reply.
   */
  lemma ReadSkipsIff(node: Node, key: nat, front: seq<Msg>, m: Msg, now: int)
    requires ReadsAfresh(node, key) && AreReplies(node, key, front + [m]) && |front| == node.n / 2
    ensures AreReplies(node, key, front) && m.Value?
    ensures var ms, r := front + [m], ReceiveValue(Collecting(node, key, front), m, now);
            r.Handled? && if SameTs(ms)
                          then r == AnswerRead(node.WithRegister(key, Noted(node.registers[key], ms).(value := ms[0].value), map[]), key, ms[0].value, now)
                          else r.node.readCount == node.readCount && Imposes(node, key, ms, r.sent)
  {
    RepliesSplit(node, key, front, m);
    if SameTs(front + [m]) {
      AgreedReadAnswers(node, key, front, m, now);
    } else {
      DividedReadImposes(node, key, front, m, now);
    }
  }

  /** The largest reply is written back to all nodes. */
  ghost predicate Imposes(node: Node, key: nat, ms: seq<Msg>, sent: seq<Packet>)
    requires node.Knows(key) && forall m | m in ms :: m.Value?
  {
    exists max :: max in ListOfReplies(ms).Values
      && (forall f | f in ListOfReplies(ms).Values ::
            f.ts <= max.ts && (f.ts == max.ts ==> f.wr <= max.wr && (f.wr == max.wr ==> f.value <= max.value)))
      && sent == node.Bcast(Write(node.runId, key, node.registers[key].rid, max.ts, max.wr, max.value))
  }

  /** A write that completes its majority takes the timestamp after the largest one it has seen, its own rank and its own value. */
  lemma WriteTakesNextTimestamp(node: Node, m: Msg, now: int)
    requires m.Value? && m.runId == node.runId && node.Knows(m.key) && m.rid == node.registers[m.key].rid
    requires !node.registers[m.key].reading
    requires |node.readLists[m.key][m.senderRank := Entry(m.ts, m.wr, m.value)]| > node.n / 2
    ensures var list, r := node.readLists[m.key][m.senderRank := Entry(m.ts, m.wr, m.value)], ReceiveValue(node, m, now);
            r.Handled? && r.node.writeCount == node.writeCount
            && exists ts: nat ::
                 && (forall f | f in list.Values :: f.ts < ts) && (exists f :: f in list.Values && f.ts == ts - 1)
                 && r.sent == node.Bcast(Write(node.runId, m.key, m.rid, ts, node.rank, node.registers[m.key].writeval))
  {
    var list, r := node.readLists[m.key][m.senderRank := Entry(m.ts, m.wr, m.value)], ReceiveValue(node, m, now);
    var ts := MaxEntry(list).ts + 1;
    assert MaxEntry(list) in list.Values && MaxEntry(list).ts == ts - 1;
    assert r.sent == node.Bcast(Write(node.runId, m.key, m.rid, ts, node.rank, node.registers[m.key].writeval));
  }

  /** A read that has imposed a value waits for its last acknowledgement; no reply is late so far. */
  ghost predicate AlmostAnswers(node: Node, key: nat) {
    && node.Knows(key) && node.n >= 2 && node.readCount > 0
    && node.readLists[key] == map[] && node.registers[key].reading && node.registers[key].acks == node.n / 2
  }

  /** The test log after a reaction, whether it was kept or sent to the master. */
  function LogAt(r: Reaction): Trace
    requires r.Handled?
  {
    if r.sent != [] && r.sent[0].msg.TestDone? then r.sent[0].msg.timestamps else r.node.timestamps
  }

  /** A reply that is late, and the first after the majority, is what the read answers, whatever it has imposed. */
  lemma LateReplyDecidesAnswer(node: Node, key: nat, late: Msg, now: int, then': int)
    requires AlmostAnswers(node, key)
    requires late.Value? && late.key == key && late.runId == node.runId && late.rid == node.registers[key].rid
    ensures var noted := ReceiveValue(node, late, now);
            noted.Handled? && noted.sent == []
            && var answered := ReceiveAck(noted.node, Ack(node.runId, key, late.rid), then');
               && answered.Handled? && answered.node.readCount == node.readCount - 1
               && (answered.sent != [] <==> node.readCount == 1 && node.writeCount == 0)
               && (node.testing ==>
                     LogAt(answered) == node.timestamps + [KVTimestamp(key, KVOperation.ReadResponse, Some(late.value), then', node.rank)])
  {
    var list := node.readLists[key][late.senderRank := Entry(late.ts, late.wr, late.value)];
    assert list.Keys == {late.senderRank};
    assert |list| == |list.Keys| == 1;
  }
}
