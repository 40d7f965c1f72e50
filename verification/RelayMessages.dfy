/** Message numbering and mailboxes in every reachable state of the relay. */
module RelayMessages {
  import opened Basics
  import opened Records
  import opened Trade
  import opened Relay
  import opened RelaySafety

  // ----- numbering

  /** Per trade and sender the sequences 1 to head are taken, no others. */
  ghost predicate Contiguous(sequences: map<(Stream, nat), string>, heads: map<Stream, nat>) {
    && (forall s, n: nat :: (s, n) in sequences ==> 1 <= n <= Head(heads, s))
    && (forall s, n: nat :: 1 <= n <= Head(heads, s) ==> (s, n) in sequences)
  }

  /** Sequences and stored messages name each other. */
  predicate Indexed(messages: map<string, SignedMessage>, sequences: map<(Stream, nat), string>) {
    && (forall k :: k in sequences ==>
          sequences[k] in messages && StreamOf(messages[sequences[k]]) == k.0 && messages[sequences[k]].message.sequence == k.1)
    && (forall id :: id in messages ==>
          messages[id].id == id && (StreamOf(messages[id]), messages[id].message.sequence) in sequences &&
          sequences[(StreamOf(messages[id]), messages[id].message.sequence)] == id)
  }

  // ----- mailboxes

  /** Cursors count from one without gaps. */
  predicate Counted(mailboxes: map<string, Mailbox>) {
    forall o :: o in mailboxes ==> CountedBox(mailboxes[o])
  }

  predicate CountedBox(box: Mailbox) {
    box.sequence == |box.items| && forall i :: 0 <= i < |box.items| ==> box.items[i].cursor == i + 1
  }

  predicate Before(a: MailboxItem, b: MailboxItem) {
    a.content.MessageItem? && b.content.MessageItem? && StreamOf(a.content.message) == StreamOf(b.content.message) ==>
      a.content.message.message.sequence < b.content.message.message.sequence
  }

  predicate OrderedItems(items: seq<MailboxItem>) {
    forall i, j :: 0 <= i < j < |items| ==> Before(items[i], items[j])
  }

  /** A mailbox lists the messages of one sender in one trade in strictly increasing sequence. */
  predicate Ordered(mailboxes: map<string, Mailbox>) {
    forall o :: o in mailboxes ==> OrderedItems(mailboxes[o].items)
  }

  predicate Genuine(o: string, item: MailboxItem, messages: map<string, SignedMessage>) {
    item.content.MessageItem? ==>
      var m := item.content.message;
      m.message.recipientPublicKey == o && m.id in messages && messages[m.id] == m
  }

  /** Every message in a mailbox is stored and addressed to its owner. */
  predicate AllGenuine(mailboxes: map<string, Mailbox>, messages: map<string, SignedMessage>) {
    forall o :: o in mailboxes ==> forall i :: 0 <= i < |mailboxes[o].items| ==> Genuine(o, mailboxes[o].items[i], messages)
  }

  ghost predicate Holds(box: Mailbox, m: SignedMessage) {
    exists i :: 0 <= i < |box.items| && box.items[i].content == MessageItem(m)
  }

  /** Every stored message is in the mailbox of its recipient. */
  ghost predicate Delivered(mailboxes: map<string, Mailbox>, messages: map<string, SignedMessage>) {
    forall id :: id in messages ==> Holds(BoxOf(mailboxes, messages[id].message.recipientPublicKey), messages[id])
  }

  ghost predicate Filed(db: Db) {
    && Contiguous(db.sequences, db.heads) && Indexed(db.messages, db.sequences)
    && Counted(db.mailboxes) && Ordered(db.mailboxes)
    && AllGenuine(db.mailboxes, db.messages) && Delivered(db.mailboxes, db.messages)
  }

  // ----- appending one item

  lemma AppendCounted(mailboxes: map<string, Mailbox>, o: string, at: int, content: Content)
    requires Counted(mailboxes)
    ensures Counted(AppendTo(mailboxes, o, at, content))
  {
    assert CountedBox(BoxOf(mailboxes, o));
  }

  /** A mailbox only grows at its end. */
  lemma AppendOnly(mailboxes: map<string, Mailbox>, o: string, at: int, content: Content)
    ensures forall p :: BoxOf(mailboxes, p).items <= BoxOf(AppendTo(mailboxes, o, at, content), p).items
    ensures
      var items := BoxOf(AppendTo(mailboxes, o, at, content), o).items;
      |items| > 0 && items[..|items| - 1] == BoxOf(mailboxes, o).items && items[|items| - 1].content == content
  {
  }

  lemma AppendDelivered(mailboxes: map<string, Mailbox>, messages: map<string, SignedMessage>, o: string,
                        at: int, content: Content)
    requires Delivered(mailboxes, messages)
    ensures Delivered(AppendTo(mailboxes, o, at, content), messages)
  {
    hide AppendTo, BoxOf;
    AppendOnly(mailboxes, o, at, content);
    var after := AppendTo(mailboxes, o, at, content);
    forall id | id in messages ensures Holds(BoxOf(after, messages[id].message.recipientPublicKey), messages[id]) {
      var box := BoxOf(mailboxes, messages[id].message.recipientPublicKey);
      var i :| 0 <= i < |box.items| && box.items[i].content == MessageItem(messages[id]);
      assert BoxOf(after, messages[id].message.recipientPublicKey).items[i] == box.items[i];
    }
  }

  lemma AppendPlainOrdered(mailboxes: map<string, Mailbox>, o: string, at: int, content: Content)
    requires Ordered(mailboxes) && !content.MessageItem?
    ensures Ordered(AppendTo(mailboxes, o, at, content))
  {
    SnocOrdered(BoxOf(mailboxes, o).items, MailboxItem(BoxOf(mailboxes, o).sequence + 1, at, content));
  }

  lemma SnocOrdered(items: seq<MailboxItem>, item: MailboxItem)
    requires OrderedItems(items) && forall i :: 0 <= i < |items| ==> Before(items[i], item)
    ensures OrderedItems(items + [item])
  {
  }

  lemma AppendPlainGenuine(mailboxes: map<string, Mailbox>, messages: map<string, SignedMessage>, o: string,
                           at: int, content: Content)
    requires AllGenuine(mailboxes, messages) && !content.MessageItem?
    ensures AllGenuine(AppendTo(mailboxes, o, at, content), messages)
  {
    hide Genuine;
    PlainIsGenuine(o, MailboxItem(BoxOf(mailboxes, o).sequence + 1, at, content), messages);
  }

  lemma PlainIsGenuine(o: string, item: MailboxItem, messages: map<string, SignedMessage>)
    requires !item.content.MessageItem?
    ensures Genuine(o, item, messages)
  {
  }

  lemma AppendPlainFiled(db: Db, after: Db, o: string, at: int, content: Content)
    requires Filed(db) && !content.MessageItem?
    requires after.messages == db.messages && after.sequences == db.sequences && after.heads == db.heads
    requires after.mailboxes == AppendTo(db.mailboxes, o, at, content)
    ensures Filed(after)
  {
    hide Contiguous, Indexed, Counted, Ordered, AllGenuine, Delivered, AppendTo;
    AppendCounted(db.mailboxes, o, at, content);
    AppendPlainOrdered(db.mailboxes, o, at, content);
    AppendPlainGenuine(db.mailboxes, db.messages, o, at, content);
    AppendDelivered(db.mailboxes, db.messages, o, at, content);
  }

  // ----- storing one message

  /** What PublishMessage has checked when it stores a message. */
  predicate IsNext(db: Db, m: SignedMessage) {
    m.id !in db.messages && m.message.sequence == Head(db.heads, StreamOf(m)) + 1
  }

  lemma EnqueueContiguous(db: Db, m: SignedMessage)
    requires Contiguous(db.sequences, db.heads) && IsNext(db, m)
    ensures Contiguous(db.sequences[(StreamOf(m), m.message.sequence) := m.id], db.heads[StreamOf(m) := m.message.sequence])
  {
    var sequences, heads := db.sequences[(StreamOf(m), m.message.sequence) := m.id], db.heads[StreamOf(m) := m.message.sequence];
    forall s, n: nat | 1 <= n <= Head(heads, s) ensures (s, n) in sequences {
      if !(s == StreamOf(m) && n == m.message.sequence) {
        assert 1 <= n <= Head(db.heads, s);
      }
    }
  }

  lemma EnqueueIndexed(db: Db, m: SignedMessage)
    requires Contiguous(db.sequences, db.heads) && Indexed(db.messages, db.sequences) && IsNext(db, m)
    ensures Indexed(db.messages[m.id := m], db.sequences[(StreamOf(m), m.message.sequence) := m.id])
  {
  }

  lemma EnqueueOrdered(db: Db, m: SignedMessage, at: int)
    requires Contiguous(db.sequences, db.heads) && Indexed(db.messages, db.sequences) && IsNext(db, m)
    requires Ordered(db.mailboxes) && AllGenuine(db.mailboxes, db.messages)
    ensures Ordered(AppendTo(db.mailboxes, m.message.recipientPublicKey, at, MessageItem(m)))
  {
    var o := m.message.recipientPublicKey;
    var box := BoxOf(db.mailboxes, o);
    var item := MailboxItem(box.sequence + 1, at, MessageItem(m));
    forall i | 0 <= i < |box.items| ensures Before(box.items[i], item) {
      assert Genuine(o, box.items[i], db.messages);
    }
    SnocOrdered(box.items, item);
  }

  lemma EnqueueGenuine(db: Db, m: SignedMessage, at: int)
    requires AllGenuine(db.mailboxes, db.messages) && m.id !in db.messages
    ensures AllGenuine(AppendTo(db.mailboxes, m.message.recipientPublicKey, at, MessageItem(m)), db.messages[m.id := m])
  {
  }

  lemma EnqueueDelivered(db: Db, m: SignedMessage, at: int)
    requires Delivered(db.mailboxes, db.messages) && m.id !in db.messages
    ensures Delivered(AppendTo(db.mailboxes, m.message.recipientPublicKey, at, MessageItem(m)), db.messages[m.id := m])
  {
    hide AppendTo, BoxOf;
    var o := m.message.recipientPublicKey;
    AppendOnly(db.mailboxes, o, at, MessageItem(m));
    AppendDelivered(db.mailboxes, db.messages, o, at, MessageItem(m));
    var items := BoxOf(AppendTo(db.mailboxes, o, at, MessageItem(m)), o).items;
    assert items[|items| - 1].content == MessageItem(m);
  }

  lemma EnqueueFiled(db: Db, m: SignedMessage, now: int)
    requires Filed(db) && IsNext(db, m)
    ensures Filed(Enqueued(db, m, now))
  {
    hide Contiguous, Indexed, Counted, Ordered, AllGenuine, Delivered, AppendTo;
    var o := m.message.recipientPublicKey;
    EnqueueContiguous(db, m);
    EnqueueIndexed(db, m);
    AppendCounted(db.mailboxes, o, now, MessageItem(m));
    EnqueueOrdered(db, m, now);
    EnqueueGenuine(db, m, now);
    EnqueueDelivered(db, m, now);
  }

  // ----- every operation

  lemma StepFiled(c: Crypto, db: Db, op: Op, now: int)
    requires Filed(db)
    ensures Filed(After(c, db, op, now))
  {
    match op {
      case PublishOrder(_) => OrdersLeaveMail(c, db, op, now);
      case CancelOrder(_) => OrdersLeaveMail(c, db, op, now);
      case Cancel(_, _, _) => OrdersLeaveMail(c, db, op, now);
      case Submit(_, _) => SubmitFiled(c, db, op, now);
      case Match(_, _) => MatchFiled(c, db, op, now);
      case Message(m) => MessageFiled(c, db, m, now);
    }
  }

  lemma OrdersLeaveMail(c: Crypto, db: Db, op: Op, now: int)
    requires op.PublishOrder? || op.CancelOrder? || op.Cancel?
    ensures
      var after := After(c, db, op, now);
      after == db.(orders := after.orders, acceptances := after.acceptances, cancellations := after.cancellations)
  {
    hide OrderVerified, OrderCancellationVerified, OpenOf, CancellationVerified, CancellationBinds, CancelledFor;
  }

  lemma SubmitFiled(c: Crypto, db: Db, op: Op, now: int)
    requires Filed(db) && op.Submit?
    ensures Filed(After(c, db, op, now))
  {
    hide Filed, AcceptanceVerified, Tombstoned, Pending, AppendTo;
    var r := Submitted(c, db, op.orderID, op.acceptance, now);
    if r.Ok? && r.value.2 {
      AppendPlainFiled(db, r.value.0, db.orders[op.orderID].signed.order.makerPublicKey, now, AcceptanceItem(r.value.1));
    }
  }

  lemma MatchFiled(c: Crypto, db: Db, op: Op, now: int)
    requires Filed(db) && op.Match?
    ensures Filed(After(c, db, op, now))
  {
    hide Filed, MatchVerified, AppendTo;
    var r := Confirmed(c, db, op.orderID, op.matched, now);
    if r.Ok? && r.value.2 {
      var taker := db.acceptances[op.matched.payload.acceptanceID].signed.acceptance.takerPublicKey;
      AppendPlainFiled(db, r.value.0, taker, now, MatchItem(op.matched));
    }
  }

  lemma MessageFiled(c: Crypto, db: Db, m: SignedMessage, now: int)
    requires Filed(db)
    ensures Filed(After(c, db, Message(m), now))
  {
    hide Filed, MessageVerified, Routed, Enqueued;
    var r := Sent(c, db, m, now);
    if r.Ok? && r.value.1 {
      EnqueueFiled(db, m, now);
    }
  }

  lemma {:induction false} AlwaysFiled(c: Crypto, ops: seq<(Op, int)>)
    ensures Filed(Run(c, ops))
  {
    if |ops| > 0 {
      hide Filed, After;
      AlwaysFiled(c, ops[..|ops| - 1]);
      StepFiled(c, Run(c, ops[..|ops| - 1]), ops[|ops| - 1].0, ops[|ops| - 1].1);
    }
  }

  // ----- the theorems

  /** The messages of a trade and sender carry exactly the sequences 1 to head. */
  lemma ExactlyOneToHead(c: Crypto, ops: seq<(Op, int)>, s: Stream, n: nat)
    ensures
      var db := Run(c, ops);
      1 <= n <= Head(db.heads, s) <==>
      exists id :: id in db.messages && StreamOf(db.messages[id]) == s && db.messages[id].message.sequence == n
  {
    hide Run;
    AlwaysFiled(c, ops);
    var db := Run(c, ops);
    if 1 <= n <= Head(db.heads, s) {
      assert (s, n) in db.sequences;
      assert db.sequences[(s, n)] in db.messages;
    }
  }

  /** Before any message of a sender in a trade stand all its earlier numbers, each on a message of that very
      sender and trade. */
  lemma NoGapBefore(c: Crypto, ops: seq<(Op, int)>, id: string, n: nat) returns (earlier: string)
    requires id in Run(c, ops).messages && 1 <= n <= Run(c, ops).messages[id].message.sequence
    ensures earlier in Run(c, ops).messages
    ensures
      var m, e := Run(c, ops).messages[id].message, Run(c, ops).messages[earlier].message;
      e.tradeID == m.tradeID && e.senderPublicKey == m.senderPublicKey && e.sequence == n
  {
    hide Run;
    AlwaysFiled(c, ops);
    var db := Run(c, ops);
    var s := StreamOf(db.messages[id]);
    assert (s, db.messages[id].message.sequence) in db.sequences;
    assert (s, n) in db.sequences;
    earlier := db.sequences[(s, n)];
  }

  /** No sequence number is ever bound to two envelopes: two stored messages with the same number in the
      same stream are the same message. */
  lemma OneEnvelopePerSequence(c: Crypto, ops: seq<(Op, int)>, a: string, b: string)
    requires a in Run(c, ops).messages && b in Run(c, ops).messages
    requires
      var m, n := Run(c, ops).messages[a].message, Run(c, ops).messages[b].message;
      m.tradeID == n.tradeID && m.senderPublicKey == n.senderPublicKey && m.sequence == n.sequence
    ensures a == b
  {
    hide Run;
    AlwaysFiled(c, ops);
  }

  /** What is stored stays stored, whatever happens later: numbers are not rebound in time either. */
  lemma {:induction false} MessagesStay(c: Crypto, ops: seq<(Op, int)>, i: nat, id: string)
    requires i <= |ops| && id in Run(c, ops[..i]).messages
    ensures id in Run(c, ops).messages && Run(c, ops).messages[id] == Run(c, ops[..i]).messages[id]
    decreases |ops|
  {
    if i == |ops| {
      assert ops[..i] == ops;
    } else {
      hide After;
      assert ops[..|ops| - 1][..i] == ops[..i];
      MessagesStay(c, ops[..|ops| - 1], i, id);
      StepKeepsMessages(c, Run(c, ops[..|ops| - 1]), ops[|ops| - 1].0, ops[|ops| - 1].1);
    }
  }

  lemma StepKeepsMessages(c: Crypto, db: Db, op: Op, now: int)
    ensures
      var after := After(c, db, op, now);
      forall id :: id in db.messages ==> id in after.messages && after.messages[id] == db.messages[id]
  {
    hide OrderVerified, OrderCancellationVerified, OpenOf, CancellationVerified, CancellationBinds, CancelledFor;
    hide AcceptanceVerified, Tombstoned, Pending, AppendTo, MatchVerified, MessageVerified, Routed;
  }

  /** A mailbox lists one sender's messages for one trade in strictly increasing sequence, each of them
      stored and addressed to the owner, under cursors that count from one. */
  lemma MailboxInOrder(c: Crypto, ops: seq<(Op, int)>, o: string, i: nat, j: nat)
    requires o in Run(c, ops).mailboxes && i < j < |Run(c, ops).mailboxes[o].items|
    ensures
      var items := Run(c, ops).mailboxes[o].items;
      && items[i].cursor == i + 1 && items[j].cursor == j + 1
      && (items[i].content.MessageItem? && items[j].content.MessageItem? &&
          StreamOf(items[i].content.message) == StreamOf(items[j].content.message) ==>
            items[i].content.message.message.sequence < items[j].content.message.message.sequence)
      && (items[j].content.MessageItem? ==>
            var m := items[j].content.message;
            m.message.recipientPublicKey == o && m.id in Run(c, ops).messages && Run(c, ops).messages[m.id] == m)
  {
    hide Run;
    AlwaysFiled(c, ops);
    var db := Run(c, ops);
    assert CountedBox(db.mailboxes[o]);
    assert Before(db.mailboxes[o].items[i], db.mailboxes[o].items[j]);
    assert Genuine(o, db.mailboxes[o].items[j], db.messages);
  }

  /** Every stored message waits in its recipient's mailbox at exactly one cursor. */
  lemma DeliveredOnce(c: Crypto, ops: seq<(Op, int)>, id: string) returns (i: nat)
    requires id in Run(c, ops).messages
    ensures
      var db := Run(c, ops);
      var m := db.messages[id];
      var items := BoxOf(db.mailboxes, m.message.recipientPublicKey).items;
      && i < |items| && items[i].content == MessageItem(m)
      && forall j :: 0 <= j < |items| && items[j].content == MessageItem(m) ==> j == i
  {
    hide Run;
    AlwaysFiled(c, ops);
    var db := Run(c, ops);
    var m := db.messages[id];
    var items := BoxOf(db.mailboxes, m.message.recipientPublicKey).items;
    assert Holds(BoxOf(db.mailboxes, m.message.recipientPublicKey), m);
    i :| 0 <= i < |items| && items[i].content == MessageItem(m);
    assert OrderedItems(items);
    assert forall j :: 0 <= j < i ==> Before(items[j], items[i]);
    assert forall j :: i < j < |items| ==> Before(items[i], items[j]);
  }
}
