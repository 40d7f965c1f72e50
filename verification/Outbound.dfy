/** From the journaled outbox to the relay: sendProtocolMessage and SaveOutboundMessage on one side,
    PublishMessage on the other, with lost responses, retries and crashes in between. */
module Outbound {
  import opened Basics
  import opened Records
  import opened Encoding
  import opened Trade
  import opened SwapState
  import opened Relay
  import opened RelaySafety
  import opened RelayMessages

  // ----- the next sequence number

  predicate Own(m: SignedMessage, s: Stream) {
    StreamOf(m) == s
  }

  /** One past the largest own number, or one. */
  ghost predicate IsNextSequence(messages: map<string, SignedMessage>, s: Stream, n: nat) {
    && n >= 1
    && (forall k :: k in messages && Own(messages[k], s) ==> messages[k].message.sequence < n)
    && (n == 1 || exists k :: k in messages && Own(messages[k], s) && messages[k].message.sequence == n - 1)
  }

  /** The scan of sendProtocolMessage over the journaled messages. */
  method NextSequence(journal: Journal, s: Stream) returns (n: nat)
    ensures IsNextSequence(journal.messages, s, n)
  {
    n := 1;
    var rest := journal.messages.Keys;
    while rest != {}
      invariant rest <= journal.messages.Keys && n >= 1
      invariant forall k :: k in journal.messages && k !in rest && Own(journal.messages[k], s) ==>
                  journal.messages[k].message.sequence < n
      invariant n == 1 ||
                exists k :: k in journal.messages && Own(journal.messages[k], s) && journal.messages[k].message.sequence == n - 1
      decreases rest
    {
      var k :| k in rest;
      rest := rest - {k};
      var m := journal.messages[k];
      if Own(m, s) && m.message.sequence >= n {
        n := m.message.sequence + 1;
      }
    }
  }

  // ----- one trade as the sender and the relay see it together

  /** `out` lists the envelopes the sender has journaled for the trade, in the order it did. */
  datatype System = System(box: Outbox, relay: Db, out: seq<SignedMessage>)

  datatype Move =
    | Compose(key: string, envelope: SignedMessage)
    | Deliver(key: string, now: int)
    | Receive(message: SignedMessage)
    | Elsewhere(op: Op, now: int)

  /** What sendProtocolMessage would send for a protocol step: only an envelope already journaled. */
  function Bound(box: Outbox, trade: string, key: string): Option<SignedMessage> {
    if trade in box.trades && key in box.trades[trade].sentMessages && box.trades[trade].sentMessages[key] != "" &&
       box.trades[trade].sentMessages[key] in box.messages
    then Some(box.messages[box.trades[trade].sentMessages[key]])
    else None
  }

  /** Whether a step of the protocol is still without an envelope. */
  predicate Unbound(box: Outbox, trade: string, key: string) {
    trade in box.trades && (key in box.trades[trade].sentMessages ==> box.trades[trade].sentMessages[key] == "")
  }

  /** One atomic move. A crash is the absence of further moves; a lost response changes nothing. */
  function Moved(c: Crypto, s: Stream, sys: System, move: Move): System {
    match move
    case Compose(key, m) =>
      (match SaveOutbound(c, sys.box, s.0, key, m)
       case Ok(saved) => sys.(box := saved.0, out := if Unbound(sys.box, s.0, key) then sys.out + [m] else sys.out)
       case Err(_) => sys)
    case Deliver(key, now) =>
      (match Bound(sys.box, s.0, key)
       case Some(m) => sys.(relay := After(c, sys.relay, Message(m), now))
       case None => sys)
    case Receive(m) =>
      if MessageVerified(c, m, m.message.createdAt) && m.id !in sys.box.messages then
        sys.(box := sys.box.(messages := sys.box.messages[m.id := m]))
      else sys
    case Elsewhere(op, now) => sys.(relay := After(c, sys.relay, op, now))
  }

  /** The sender numbers its own messages as sendProtocolMessage does, under identities of their own; nobody else can sign for it, so
      what arrives anywhere under its name is an envelope it has journaled. */
  ghost predicate Honest(c: Crypto, s: Stream, sys: System, move: Move) {
    match move
    case Compose(key, m) =>
      && Own(m, s) && IsNextSequence(sys.box.messages, s, m.message.sequence)
      && NoSecondPreimage(c, SigningBytes(MessageRecord(m.message)))
    case Deliver(_, _) => true
    case Receive(m) => Own(m, s) ==> m in sys.out
    case Elsewhere(op, _) => op.Message? && Own(op.message, s) ==> op.message in sys.out
  }

  // ----- what every move keeps

  /** Every listed envelope is journaled, numbered by its place. */
  predicate Journaled(messages: map<string, SignedMessage>, s: Stream, out: seq<SignedMessage>) {
    forall i :: 0 <= i < |out| ==>
      Own(out[i], s) && out[i].message.sequence == i + 1 && out[i].id in messages && messages[out[i].id] == out[i]
  }

  /** Every journaled own message is listed. */
  predicate Complete(messages: map<string, SignedMessage>, s: Stream, out: seq<SignedMessage>) {
    forall k :: k in messages && Own(messages[k], s) ==>
      1 <= messages[k].message.sequence <= |out| && out[messages[k].message.sequence - 1] == messages[k]
  }

  predicate Listed(messages: map<string, SignedMessage>, s: Stream, out: seq<SignedMessage>) {
    Journaled(messages, s, out) && Complete(messages, s, out)
  }

  predicate Verified(c: Crypto, messages: map<string, SignedMessage>) {
    forall k :: k in messages ==> messages[k].id == k && MessageVerified(c, messages[k], messages[k].message.createdAt)
  }

  /** A bound protocol step names one of the listed envelopes. */
  predicate StepsListed(box: Outbox, s: Stream, out: seq<SignedMessage>) {
    s.0 in box.trades ==>
      forall key :: key in box.trades[s.0].sentMessages && box.trades[s.0].sentMessages[key] != "" ==>
        box.trades[s.0].sentMessages[key] in box.messages && box.messages[box.trades[s.0].sentMessages[key]] in out
  }

  /** The relay's messages of the stream are the first ones of the list. */
  predicate IsPrefix(relay: Db, s: Stream, out: seq<SignedMessage>) {
    Head(relay.heads, s) <= |out| &&
    forall n: nat :: 1 <= n <= Head(relay.heads, s) ==>
      (s, n) in relay.sequences && relay.sequences[(s, n)] in relay.messages &&
      relay.messages[relay.sequences[(s, n)]] == out[n - 1]
  }

  ghost predicate Coupled(c: Crypto, s: Stream, sys: System) {
    && Listed(sys.box.messages, s, sys.out) && Verified(c, sys.box.messages)
    && StepsListed(sys.box, s, sys.out) && Filed(sys.relay) && IsPrefix(sys.relay, s, sys.out)
  }

  lemma NextIsLength(messages: map<string, SignedMessage>, s: Stream, out: seq<SignedMessage>, n: nat)
    requires Listed(messages, s, out) && IsNextSequence(messages, s, n)
    ensures n == |out| + 1
  {
    if |out| > 0 {
      assert out[|out| - 1].id in messages;
    }
  }

  /** A new number means a new envelope: it cannot carry an identity journaled before. */
  lemma NewEnvelope(c: Crypto, messages: map<string, SignedMessage>, s: Stream, out: seq<SignedMessage>,
                    m: SignedMessage)
    requires NoSecondPreimage(c, SigningBytes(MessageRecord(m.message))) && Listed(messages, s, out) && Verified(c, messages)
    requires Own(m, s) && m.message.sequence == |out| + 1 && MessageVerified(c, m, m.message.createdAt)
    ensures m.id !in messages
  {
    hide MessageVerified;
    if m.id in messages {
      MessageIdentity(c, m, messages[m.id], m.message.createdAt, messages[m.id].message.createdAt);
    }
  }

  lemma ComposeCoupled(c: Crypto, s: Stream, sys: System, key: string, m: SignedMessage)
    requires Coupled(c, s, sys) && Honest(c, s, sys, Compose(key, m))
    ensures Coupled(c, s, Moved(c, s, sys, Compose(key, m)))
  {
    hide Filed, MessageVerified, IsPrefix, Listed, StepsListed, Verified, IsNextSequence;
    if SaveOutbound(c, sys.box, s.0, key, m).Ok? && Unbound(sys.box, s.0, key) {
      NextIsLength(sys.box.messages, s, sys.out, m.message.sequence);
      NewEnvelope(c, sys.box.messages, s, sys.out, m);
      AddedListed(sys.box.messages, s, sys.out, m);
      NewVerified(c, sys.box.messages, m);
      AddedSteps(sys.box, s, sys.out, key, m);
      LongerPrefix(sys.relay, s, sys.out, m);
    }
  }

  lemma AddedListed(messages: map<string, SignedMessage>, s: Stream, out: seq<SignedMessage>, m: SignedMessage)
    requires Listed(messages, s, out) && m.id !in messages && Own(m, s) && m.message.sequence == |out| + 1
    ensures Listed(messages[m.id := m], s, out + [m])
  {
    assert Journaled(messages[m.id := m], s, out + [m]) by {
      hide Complete, Own;
    }
    assert Complete(messages[m.id := m], s, out + [m]) by {
      hide Journaled, StreamOf;
    }
  }

  lemma AddedSteps(box: Outbox, s: Stream, out: seq<SignedMessage>, key: string, m: SignedMessage)
    requires StepsListed(box, s, out) && s.0 in box.trades && m.id !in box.messages
    ensures
      var r := box.trades[s.0];
      StepsListed(Outbox(box.trades[s.0 := r.(sentMessages := r.sentMessages[key := m.id])], box.messages[m.id := m]), s, out + [m])
  {
  }

  lemma LongerPrefix(relay: Db, s: Stream, out: seq<SignedMessage>, m: SignedMessage)
    requires IsPrefix(relay, s, out)
    ensures IsPrefix(relay, s, out + [m])
  {
  }

  lemma ReceiveCoupled(c: Crypto, s: Stream, sys: System, m: SignedMessage)
    requires Coupled(c, s, sys) && Honest(c, s, sys, Receive(m))
    ensures Coupled(c, s, Moved(c, s, sys, Receive(m)))
  {
    hide Filed, MessageVerified, IsPrefix, Verified, StepsListed, Listed;
    if MessageVerified(c, m, m.message.createdAt) && m.id !in sys.box.messages {
      OwnIsKnown(s, sys, m);
      StrangerListed(sys.box.messages, s, sys.out, m);
      NewVerified(c, sys.box.messages, m);
      StrangerSteps(sys.box, s, sys.out, m);
    }
  }

  lemma OwnIsKnown(s: Stream, sys: System, m: SignedMessage)
    requires Listed(sys.box.messages, s, sys.out) && (Own(m, s) ==> m in sys.out) && m.id !in sys.box.messages
    ensures !Own(m, s)
  {
  }

  lemma StrangerListed(messages: map<string, SignedMessage>, s: Stream, out: seq<SignedMessage>, m: SignedMessage)
    requires Listed(messages, s, out) && m.id !in messages && !Own(m, s)
    ensures Listed(messages[m.id := m], s, out)
  {
    assert Journaled(messages[m.id := m], s, out) by {
      hide Complete, Own;
    }
    assert Complete(messages[m.id := m], s, out) by {
      hide Journaled, StreamOf;
    }
  }

  lemma NewVerified(c: Crypto, messages: map<string, SignedMessage>, m: SignedMessage)
    requires Verified(c, messages) && MessageVerified(c, m, m.message.createdAt)
    ensures Verified(c, messages[m.id := m])
  {
    hide MessageVerified;
  }

  lemma StrangerSteps(box: Outbox, s: Stream, out: seq<SignedMessage>, m: SignedMessage)
    requires StepsListed(box, s, out) && m.id !in box.messages
    ensures StepsListed(box.(messages := box.messages[m.id := m]), s, out)
  {
  }

  /** Whatever is offered to the relay in the sender's name comes from the list, so only the next one of
      the list can be accepted. */
  lemma OfferKeepsPrefix(c: Crypto, s: Stream, relay: Db, out: seq<SignedMessage>, op: Op, now: int)
    requires Filed(relay) && IsPrefix(relay, s, out)
    requires forall i :: 0 <= i < |out| ==> out[i].message.sequence == i + 1
    requires op.Message? && Own(op.message, s) ==> op.message in out
    ensures IsPrefix(After(c, relay, op, now), s, out)
  {
    if op.Message? {
      MessageKeepsPrefix(c, s, relay, out, op.message, now);
    } else {
      OtherKeepsPrefix(c, s, relay, out, op, now);
    }
  }

  lemma MessageKeepsPrefix(c: Crypto, s: Stream, relay: Db, out: seq<SignedMessage>, m: SignedMessage, now: int)
    requires Filed(relay) && IsPrefix(relay, s, out)
    requires forall i :: 0 <= i < |out| ==> out[i].message.sequence == i + 1
    requires Own(m, s) ==> m in out
    ensures IsPrefix(After(c, relay, Message(m), now), s, out)
  {
    hide MessageVerified, Routed, AppendTo, Filed;
  }

  lemma OtherKeepsPrefix(c: Crypto, s: Stream, relay: Db, out: seq<SignedMessage>, op: Op, now: int)
    requires IsPrefix(relay, s, out) && !op.Message?
    ensures IsPrefix(After(c, relay, op, now), s, out)
  {
    hide After, IsPrefix;
    OnlyMessagesNumber(c, relay, op, now);
    SamePrefix(relay, After(c, relay, op, now), s, out);
  }

  lemma OnlyMessagesNumber(c: Crypto, relay: Db, op: Op, now: int)
    requires !op.Message?
    ensures
      var after := After(c, relay, op, now);
      after.messages == relay.messages && after.sequences == relay.sequences && after.heads == relay.heads
  {
    hide After;
    if op.Submit? || op.Match? {
      MailsNumberNothing(c, relay, op, now);
    } else {
      OrdersLeaveMail(c, relay, op, now);
    }
  }

  lemma MailsNumberNothing(c: Crypto, relay: Db, op: Op, now: int)
    requires op.Submit? || op.Match?
    ensures
      var after := After(c, relay, op, now);
      after.messages == relay.messages && after.sequences == relay.sequences && after.heads == relay.heads
  {
    hide AcceptanceVerified, Tombstoned, Pending, AppendTo, MatchVerified;
  }

  lemma SamePrefix(relay: Db, after: Db, s: Stream, out: seq<SignedMessage>)
    requires IsPrefix(relay, s, out)
    requires after.messages == relay.messages && after.sequences == relay.sequences && after.heads == relay.heads
    ensures IsPrefix(after, s, out)
  {
  }

  lemma MoveCoupled(c: Crypto, s: Stream, sys: System, move: Move)
    requires Coupled(c, s, sys) && Honest(c, s, sys, move)
    ensures Coupled(c, s, Moved(c, s, sys, move))
  {
    match move {
      case Compose(key, m) => ComposeCoupled(c, s, sys, key, m);
      case Receive(m) => ReceiveCoupled(c, s, sys, m);
      case Deliver(key, now) => DeliverCoupled(c, s, sys, key, now);
      case Elsewhere(op, now) => ElsewhereCoupled(c, s, sys, op, now);
    }
  }

  lemma DeliverCoupled(c: Crypto, s: Stream, sys: System, key: string, now: int)
    requires Coupled(c, s, sys)
    ensures Coupled(c, s, Moved(c, s, sys, Deliver(key, now)))
  {
    hide Filed, After, IsPrefix, Verified;
    if Bound(sys.box, s.0, key).Some? {
      var m := Bound(sys.box, s.0, key).value;
      StepFiled(c, sys.relay, Message(m), now);
      OfferKeepsPrefix(c, s, sys.relay, sys.out, Message(m), now);
    }
  }

  lemma ElsewhereCoupled(c: Crypto, s: Stream, sys: System, op: Op, now: int)
    requires Coupled(c, s, sys) && Honest(c, s, sys, Elsewhere(op, now))
    ensures Coupled(c, s, Moved(c, s, sys, Elsewhere(op, now)))
  {
    hide Filed, After, IsPrefix, Verified, StepsListed;
    StepFiled(c, sys.relay, op, now);
    OfferKeepsPrefix(c, s, sys.relay, sys.out, op, now);
  }

  // ----- whole runs

  function Moves(c: Crypto, s: Stream, start: System, moves: seq<Move>): System {
    if |moves| == 0 then start else Moved(c, s, Moves(c, s, start, moves[..|moves| - 1]), moves[|moves| - 1])
  }

  ghost predicate AllHonest(c: Crypto, s: Stream, start: System, moves: seq<Move>) {
    forall i :: 0 <= i < |moves| ==> Honest(c, s, Moves(c, s, start, moves[..i]), moves[i])
  }

  /** Before the trade's first message. */
  ghost predicate AtStart(c: Crypto, s: Stream, sys: System) {
    && sys.out == [] && Verified(c, sys.box.messages)
    && (forall k :: k in sys.box.messages ==> !Own(sys.box.messages[k], s))
    && (s.0 in sys.box.trades ==> sys.box.trades[s.0].sentMessages == map[])
    && Filed(sys.relay) && Head(sys.relay.heads, s) == 0
  }

  lemma {:induction false} AlwaysCoupled(c: Crypto, s: Stream, start: System, moves: seq<Move>)
    requires AtStart(c, s, start) && AllHonest(c, s, start, moves)
    ensures Coupled(c, s, Moves(c, s, start, moves))
  {
    if |moves| > 0 {
      hide Coupled, Moved, Honest;
      var front := moves[..|moves| - 1];
      assert forall i :: 0 <= i < |front| ==> front[..i] == moves[..i];
      AlwaysCoupled(c, s, start, front);
      MoveCoupled(c, s, Moves(c, s, start, front), moves[|moves| - 1]);
    }
  }

  /** With any lost responses, retries and crashes, the relay's messages of an honest sender in a trade
      are a prefix of its journaled outbox, in order and byte for byte. */
  lemma RelayHoldsPrefix(c: Crypto, s: Stream, start: System, moves: seq<Move>, n: nat)
    requires AtStart(c, s, start) && AllHonest(c, s, start, moves)
    requires 1 <= n <= Head(Moves(c, s, start, moves).relay.heads, s)
    ensures
      var sys := Moves(c, s, start, moves);
      && n <= |sys.out| && (s, n) in sys.relay.sequences && sys.relay.sequences[(s, n)] in sys.relay.messages
      && sys.relay.messages[sys.relay.sequences[(s, n)]] == sys.out[n - 1]
      && sys.out[n - 1].message.sequence == n
      && sys.out[n - 1].id in sys.box.messages && sys.box.messages[sys.out[n - 1].id] == sys.out[n - 1]
  {
    hide Filed, Verified, StepsListed, Moves;
    AlwaysCoupled(c, s, start, moves);
  }

  /** The outbox itself only grows, so no number is ever given to a second envelope. */
  lemma {:induction false} OutboxOnlyGrows(c: Crypto, s: Stream, start: System, moves: seq<Move>, i: nat)
    requires i <= |moves|
    ensures Moves(c, s, start, moves[..i]).out <= Moves(c, s, start, moves).out
    decreases |moves|
  {
    if i == |moves| {
      assert moves[..i] == moves;
    } else {
      hide SaveOutbound, After, MessageVerified;
      assert moves[..|moves| - 1][..i] == moves[..i];
      OutboxOnlyGrows(c, s, start, moves[..|moves| - 1], i);
    }
  }
}
