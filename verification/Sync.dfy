/** Reading the mailbox: paging on the relay's side, the durable cursor of syncRelay on the client's
    (internal/app/service.go). */
module Sync {
  import opened Basics
  import opened Records
  import opened Trade
  import opened Terms
  import opened SwapState
  import opened Relay
  import RS = RelaySafety
  import opened RelayMessages
  import opened Snapshot
  import opened Scenes

  predicate CountedItems(items: seq<MailboxItem>) {
    forall i :: 0 <= i < |items| ==> items[i].cursor == i + 1
  }

  // ----- pages

  lemma {:induction false} SeekCounted(items: seq<MailboxItem>, after: nat, from: nat)
    requires CountedItems(items) && from <= |items| && from <= after
    ensures Seek(items, after + 1, from) == if after <= |items| then after else |items|
    decreases |items| - from
  {
    if from < |items| && items[from].cursor < after + 1 {
      SeekCounted(items, after, from + 1);
    }
  }

  lemma PageExact(items: seq<MailboxItem>, after: nat, limit: nat)
    requires CountedItems(items)
    ensures
      var page := PageOf(items, after, limit);
      if after <= |items| then
        && after <= page.next <= |items| && page.items == items[after..page.next] && |page.items| <= limit
        && (page.hasMore <==> page.next < |items|) && (page.hasMore ==> |page.items| == limit)
      else page == Page([], after, false)
  {
    SeekCounted(items, after, 0);
  }

  /** One poll: the mailbox as it was then, and the limit asked for. */
  datatype Poll = Poll(items: seq<MailboxItem>, limit: nat)

  /** What a reader that follows the cursor has received, and where it stands. */
  function Read(polls: seq<Poll>, start: nat): (seq<MailboxItem>, nat) {
    if |polls| == 0 then ([], start)
    else
      var (got, at) := Read(polls[..|polls| - 1], start);
      var page := PageOf(polls[|polls| - 1].items, at, polls[|polls| - 1].limit);
      (got + page.items, page.next)
  }

  predicate Growing(polls: seq<Poll>) {
    && (forall i :: 0 <= i < |polls| ==> CountedItems(polls[i].items))
    && (forall i, j :: 0 <= i < j < |polls| ==> polls[i].items <= polls[j].items)
  }

  /** Where a reader stands and what it has, after the polls up to a mailbox. */
  predicate UpTo(items: seq<MailboxItem>, start: nat, got: seq<MailboxItem>, at: nat) {
    if start <= |items| then start <= at <= |items| && got == items[start..at] else got == [] && at == start
  }

  lemma ReadOn(before: seq<MailboxItem>, items: seq<MailboxItem>, start: nat, got: seq<MailboxItem>, at: nat,
               limit: nat)
    requires CountedItems(items) && before <= items && UpTo(before, start, got, at)
    ensures UpTo(items, start, got + PageOf(items, at, limit).items, PageOf(items, at, limit).next)
    ensures start <= |items| && !PageOf(items, at, limit).hasMore ==> PageOf(items, at, limit).next == |items|
  {
    hide PageOf;
    PageExact(items, at, limit);
    if start <= |before| {
      assert got == items[start..at];
    }
  }

  /** From any cursor, with any limits, while items are appended: everything after the cursor, once, in
      order; and a page without more means the reader has caught up. */
  lemma {:induction false} ReadsExactlyOnce(polls: seq<Poll>, start: nat)
    requires Growing(polls) && |polls| > 0
    ensures
      var last := polls[|polls| - 1];
      var (got, at) := Read(polls, start);
      && (if start <= |last.items| then start <= at <= |last.items| && got == last.items[start..at] else got == [] && at == start)
      && (start <= |last.items| && !PageOf(last.items, Read(polls[..|polls| - 1], start).1, last.limit).hasMore ==>
            at == |last.items| && got == last.items[start..])
  {
    hide PageOf, CountedItems;
    var front, last := polls[..|polls| - 1], polls[|polls| - 1];
    var (got, at) := Read(front, start);
    if |front| > 0 {
      ReadsExactlyOnce(front, start);
      ReadOn(front[|front| - 1].items, last.items, start, got, at, last.limit);
    } else {
      ReadOn([], last.items, start, got, at, last.limit);
    }
  }

  // ----- the durable cursor

  class Reader {
    const crypto: Crypto
    const journal: Journal
    const identity: string
    /** What validateAsyncTakerFunding finds out from the wallets. */
    const fundable: (SignedOrder, SignedAcceptance) -> bool
    var relay: Db
    /** The relay's clock. */
    var clock: int
    /** The latest time this client's own clock has shown. */
    var reading: int
    /** Acceptances whose agreement or funding was found invalid. */
    var refused: set<string>
    /** Matches handed to the network, which may still reach the relay. */
    var posted: set<(string, SignedMatch)>
    /** The cursors of the items that were handled to the end, over all passes. */
    ghost var handled: set<nat>
    ghost const origin: World
    ghost const start: int
    /** Everything that has happened at the relay and in the journal since. */
    ghost var acts: seq<Act>

    function Now(): Scene
      reads this, journal
    {
      Scene(relay, clock, reading, refused, journal.trades, journal.messages)
    }

    function Mail(): seq<MailboxItem>
      reads this
    {
      MailOf(relay, identity)
    }

    /** The acts, each of them careful, lead from the origin to this scene. */
    ghost predicate Told(s: Scene)
      reads this`acts
    {
      && start > 0 && RS.Consistent(crypto, origin.relay, start) && AllSelected(origin, identity)
      && Orderly(crypto, identity, origin, start, acts) && Run(crypto, origin, acts) == World(s.relay, s.trades)
      && Time(start, acts) <= s.clock
    }

    ghost predicate Tidy(s: Scene)
      reads this`posted
    {
      && CountedBox(BoxOf(s.relay.mailboxes, identity)) && OnlyMakersPend(s.trades) && MatchesOwn(s.trades)
      && AcceptancesFiled(s.relay, MailOf(s.relay, identity))
      && forall p :: p in posted ==> Posted(World(s.relay, s.trades), p)
    }

    ghost predicate Handled(s: Scene)
      reads this`handled, journal`relayCursor
    {
      && journal.relayCursor <= |MailOf(s.relay, identity)|
      && (forall k :: 1 <= k <= journal.relayCursor ==> k in handled)
      && (forall k :: k in handled ==> 1 <= k <= |MailOf(s.relay, identity)| && Kept(MailOf(s.relay, identity)[k - 1], s))
    }

    ghost predicate Valid()
      reads this, journal
    {
      journal.crypto == crypto && Told(Now()) && Tidy(Now()) && Handled(Now())
    }

    constructor (crypto: Crypto, journal: Journal, identity: string, fundable: (SignedOrder, SignedAcceptance) -> bool,
                 relay: Db, clock: int)
      requires journal.crypto == crypto && journal.relayCursor == 0 && clock > 0
      requires RS.Consistent(crypto, relay, clock) && AllSelected(World(relay, journal.trades), identity)
      requires CountedBox(BoxOf(relay.mailboxes, identity)) && OnlyMakersPend(journal.trades) && MatchesOwn(journal.trades)
      requires AcceptancesFiled(relay, MailOf(relay, identity))
      ensures Valid() && this.crypto == crypto && this.journal == journal && handled == {} && acts == []
    {
      this.crypto, this.journal, this.identity, this.fundable := crypto, journal, identity, fundable;
      this.relay, this.clock, this.reading, this.refused, this.posted := relay, clock, 0, {}, {};
      this.handled, this.origin, this.start, this.acts := {}, World(relay, journal.trades), clock, [];
    }

    lemma HandledLater(before: Scene)
      requires Handled(before) && Later(identity, before, Now())
      ensures Handled(Now())
    {
      hide OrdersLater, CancelledLater, TradesLater, Kept;
      forall k | k in handled
        ensures 1 <= k <= |Mail()| && Kept(Mail()[k - 1], Now())
      {
        KeptLater(Mail()[k - 1], identity, before, Now());
      }
    }

    /** The relay's database is consistent now. */
    lemma PresentConsistent()
      requires Told(Now())
      ensures clock > 0 && RS.Consistent(crypto, relay, clock) && AllSelected(World(relay, journal.trades), identity)
    {
      hide RS.Consistent, AllSelected;
      AlwaysSelected(crypto, identity, origin, start, acts);
      RS.ConsistentLater(crypto, relay, Time(start, acts), clock);
    }

    lemma ConsistentAt(at: int)
      requires Told(Now()) && at >= clock
      ensures RS.Consistent(crypto, relay, at)
    {
      hide RS.Consistent, Told;
      PresentConsistent();
      RS.ConsistentLater(crypto, relay, clock, at);
    }

    /** One more act, already carried out. */
    ghost method Tell(before: Scene, act: Act)
      requires journal.crypto == crypto && Told(before) && Handled(before) && Tidy(Now()) && Later(identity, before, Now())
      requires World(relay, journal.trades) == Acted(crypto, World(before.relay, before.trades), act)
      requires Careful(identity, World(before.relay, before.trades), act)
      requires Time(start, acts) <= TimeOf(act, Time(start, acts)) <= clock
      modifies this`acts
      ensures Valid() && acts == old(acts) + [act]
    {
      hide RS.Consistent, AllSelected, Careful, Acted, Tidy, Handled, Later, Kept, Orderly, Run;
      HandledLater(before);
      ActsExtend(crypto, identity, origin, start, acts, act);
      acts := acts + [act];
    }

    // ----- the relay moves on

    /** An operation arrives at the relay. */
    method Arrive(op: RS.Op, at: int)
      requires Valid() && at >= clock && (op.Match? ==> MayMatch(identity, World(relay, journal.trades), op.orderID, op.matched))
      modifies this`relay, this`clock, this`acts
      ensures Valid() && Later(identity, old(Now()), Now())
      ensures relay == RS.After(crypto, old(relay), op, at) && clock == at && acts == old(acts) + [AtRelay(op, at)]
    {
      hide RS.Consistent, AllSelected, Kept, Posted, Orderly, RS.After, Run;
      PresentConsistent();
      ghost var before := Now();
      relay, clock := RS.After(crypto, relay, op, at), at;
      OpLater(crypto, before.relay, op, before.clock, at);
      MailLater(crypto, before.relay, op, at, identity);
      AcceptancesStayFiled(crypto, before.relay, op, at, identity);
      forall p | p in posted
        ensures Posted(World(relay, journal.trades), p)
      {
        PostedThroughOp(crypto, World(before.relay, before.trades), op, at, p);
      }
      Tell(before, AtRelay(op, at));
    }

    /** Whatever else reaches the relay meanwhile: anything of others, and matches of own orders only if they
        were posted, since nobody else can sign them. */
    method Others()
      requires Valid()
      modifies this`relay, this`clock, this`acts
      ensures Valid() && Later(identity, old(Now()), Now())
    {
      hide Valid, Later;
      LaterReflexive(identity, Now());
      var ops: seq<(RS.Op, int)> := *;
      for i := 0 to |ops|
        invariant Valid() && Later(identity, old(Now()), Now())
      {
        ghost var scene := Now();
        Other(ops[i].0, ops[i].1);
        LaterTransitive(identity, old(Now()), scene, Now());
      }
    }

    method Other(op: RS.Op, at: int)
      requires Valid()
      modifies this`relay, this`clock, this`acts
      ensures Valid() && Later(identity, old(Now()), Now())
    {
      hide Told, Handled, Later, Posted;
      LaterReflexive(identity, Now());
      var own := op.Match? && op.orderID in relay.orders && relay.orders[op.orderID].signed.order.makerPublicKey == identity;
      if at < clock || (own && (op.orderID, op.matched) !in posted) {
        return;
      }
      if op.Match? && (op.orderID, op.matched) in posted {
        PostedMayMatch(identity, World(relay, journal.trades), op.orderID, op.matched);
      }
      Arrive(op, at);
    }

    // ----- writes of the journal

    /** Journal.Create, as an act. */
    method Select(role: Party, order: SignedOrder, acceptance: SignedAcceptance, matched: SignedMatch)
      returns (r: Result<Swap, Error>)
      requires Valid()
      modifies this`acts, journal`trades
      ensures Valid() && Later(identity, old(Now()), Now())
      ensures r.Ok? ==>
                && acceptance.acceptance.tradeID in journal.trades && journal.trades[acceptance.acceptance.tradeID] == r.value
                && r.value.role == role && r.value.order.id == order.id && r.value.acceptance.id == acceptance.id
                && matched.payload.tradeID == acceptance.acceptance.tradeID
      ensures forall k :: k in journal.trades && k != acceptance.acceptance.tradeID ==>
                k in old(journal.trades) && journal.trades[k] == old(journal.trades)[k]
      ensures TradesGrow(old(journal.trades), journal.trades)
    {
      hide Told, Handled, Kept, Posted, MatchVerified, Later, CountedBox, AcceptancesFiled, TradesLater, SelectionsKept,
        OnlyMakersPend, MatchesOwn;
      ghost var before := Now();
      r := journal.Create(role, order, acceptance, matched);
      ghost var id := acceptance.acceptance.tradeID;
      if r.Ok? {
        CreatedMatches(crypto, role, order, acceptance, matched);
      }
      if r.Ok? && id !in before.trades {
        SelectedLater(before.trades, r.value);
        Rewritten(before, Selects(id, r.value));
      } else {
        assert journal.trades == before.trades;
        LaterReflexive(identity, before);
      }
    }

    /** A journal write that leaves every swap's selection alone. */
    ghost method Rewritten(before: Scene, act: Act)
      requires journal.crypto == crypto && Told(before) && Tidy(before) && Handled(before)
      requires Now() == before.(trades := journal.trades)
      requires act.Selects? || act.Updates?
      requires World(relay, journal.trades) == Acted(crypto, World(before.relay, before.trades), act)
      requires SelectionsKept(before.trades, journal.trades) && TradesLater(before.trades, journal.trades)
      requires OnlyMakersPend(journal.trades) && MatchesOwn(journal.trades)
      modifies this`acts
      ensures Valid() && Later(identity, before, Now())
    {
      hide Told, Handled, Kept, Posted, Later, TradesLater, SelectionsKept, Acted;
      SameRelayLater(identity, before, Now());
      forall p | p in posted
        ensures Posted(World(relay, journal.trades), p)
      {
        PostedThroughWrite(World(before.relay, before.trades), journal.trades, p);
      }
      ClockKept(before);
      Tell(before, act);
    }

    lemma ClockKept(before: Scene)
      requires Told(before)
      ensures Time(start, acts) <= before.clock
    {
    }

    /** MarkRelayMatched, as an act: the engine may drive the swap from here on. */
    method Release(id: string) returns (r: Result<Swap, Error>)
      requires Valid() && id in journal.trades
      modifies this`acts, journal`trades
      ensures Valid() && Later(identity, old(Now()), Now())
      ensures journal.trades ==
              if r.Ok? then old(journal.trades)[id := old(journal.trades)[id].(relayMatchPending := false)] else old(journal.trades)
    {
      hide Told, Handled, Posted, Later, BoxOf, CountedBox, AcceptancesFiled;
      ghost var before := Now();
      r := journal.UpdateSwap(id, URelayMatched);
      if r.Ok? {
        ReleaseKeeps(before.trades, id);
        Rewritten(before, Updates(id, URelayMatched));
      } else {
        LaterReflexive(identity, before);
      }
    }

    /** RemoveRelayPendingSwap, as an act: allowed once the relay has called the acceptance cancelled. */
    method Withdraw(id: string, acceptanceID: string) returns (r: Result<(), Error>)
      requires Valid() && CancelledAt(relay, acceptanceID)
      modifies this`acts, journal`trades
      ensures Valid() && Later(identity, old(Now()), Now())
      ensures r.Ok? ==> journal.trades == old(journal.trades) - {id}
      ensures r.Ok? && id in old(journal.trades) ==> old(journal.trades)[id].acceptance.id == acceptanceID
      ensures r.Err? ==> journal.trades == old(journal.trades)
    {
      hide Told, Handled, Posted, Later, BoxOf, TradesLater, CountedBox, AcceptancesFiled;
      ghost var before := Now();
      r := journal.RemoveRelayPendingSwap(id, acceptanceID);
      if r.Ok? && id in before.trades {
        DropLater(before.trades, id);
        forall p | p in posted
          ensures Posted(World(relay, journal.trades), p)
        {
          PostedThroughDrop(World(before.relay, before.trades), id, p);
        }
        SameRelayLater(identity, before, Now());
        ClockKept(before);
        Tell(before, Drops(id));
      } else {
        assert journal.trades == before.trades;
        LaterReflexive(identity, before);
      }
    }

    // ----- matching

    /** A match handed to the network. */
    method Post(orderID: string, m: SignedMatch)
      requires Valid() && IsSelected(journal.trades, orderID, m.payload.acceptanceID)
      modifies this`posted
      ensures Valid() && (orderID, m) in posted && Now() == old(Now())
    {
      hide Told, Handled, BoxOf, IsSelected;
      posted := posted + {(orderID, m)};
    }

    /** What the relay's answer to a match says about the relay once the match has arrived. */
    lemma AnswerMeans(before: Scene, orderID: string, m: SignedMatch, at: int,
                      answer: Result<(Db, Relay.OrderRecord, bool), RelayError>)
      requires RS.Consistent(crypto, before.relay, at) && answer == Relay.Confirmed(crypto, before.relay, orderID, m, at)
      requires relay == RS.After(crypto, before.relay, RS.Match(orderID, m), at) && Later(identity, before, Now())
      ensures answer.Ok? ==> orderID in relay.orders && relay.orders[orderID].status == Status.Matched
      ensures answer == Err(RelayError.AcceptanceCancelled) ==> CancelledAt(relay, m.payload.acceptanceID)
    {
      hide Relay.Confirmed, RS.After, RS.Consistent, OrdersLater, TradesLater;
      if answer.Ok? {
        ConfirmedCloses(crypto, before.relay, orderID, m, at);
      } else if answer == Err(RelayError.AcceptanceCancelled) {
        CancelledAnswer(crypto, before.relay, orderID, m, at);
      }
    }

    /** relay.Match: the request may be lost on its way, or only its answer; others go on meanwhile. */
    method SendMatch(orderID: string, m: SignedMatch) returns (reply: Reply)
      requires Valid() && IsSelected(journal.trades, orderID, m.payload.acceptanceID)
      modifies this`relay, this`clock, this`acts, this`posted
      ensures Valid() && Later(identity, old(Now()), Now())
      ensures reply.Answer? && reply.result.Ok? ==>
                orderID in relay.orders && relay.orders[orderID].status == Status.Matched
      ensures reply == Answer(Err(RelayError.AcceptanceCancelled)) ==> CancelledAt(relay, m.payload.acceptanceID)
    {
      hide Told, Handled, Later, BoxOf, RS.After, Relay.Confirmed, IsSelected;
      Post(orderID, m);
      Others();
      var arrives: bool, at: int := *, *;
      if !arrives || at < clock {
        return Lost;
      }
      PostedMayMatch(identity, World(relay, journal.trades), orderID, m);
      ghost var before := Now();
      ConsistentAt(at);
      var answer := Relay.Confirmed(crypto, relay, orderID, m, at);
      Arrive(RS.Match(orderID, m), at);
      LaterTransitive(identity, old(Now()), before, Now());
      AnswerMeans(before, orderID, m, at, answer);
      var lost: bool := *;
      if lost {
        return Lost;
      }
      return Answer(match answer case Ok(o) => Ok((o.1, o.2)) case Err(e) => Err(e));
    }

    /** The journaled selection of an acceptance, made now if there is none: its agreement and its funding are
        checked before. */
    method Choose(order: SignedOrder, a: SignedAcceptance) returns (r: Result<SignedMatch, Attempt>)
      requires Valid()
      modifies this`acts, this`refused, journal`trades
      ensures Valid() && Later(identity, old(Now()), Now())
      ensures r.Ok? ==>
                && a.acceptance.tradeID in journal.trades && SelectedFor(journal.trades[a.acceptance.tradeID], order.id, a.id)
                && r.value.payload.acceptanceID == a.id
      ensures r.Err? ==> r.error == Refused || r.error.Stopped?
      ensures r == Err(Refused) ==>
                && a.id in refused && a.acceptance.version == ASYNC_VERSION
                && (BuildAsyncAgreement(crypto, order, a).None? || !fundable(order, a))
                && a.acceptance.tradeID !in journal.trades
      ensures TradesGrow(old(journal.trades), journal.trades)
    {
      hide Valid, BuildAsyncAgreement;
      LaterReflexive(identity, Now());
      var id := a.acceptance.tradeID;
      if id in journal.trades {
        var record := journal.trades[id];
        if record.role.Taker? || record.order.id != order.id || record.acceptance.id != a.id {
          return Err(Stopped(Rejected));
        }
        MatchOfTrade(id);
        return Ok(record.matched);
      }
      if a.acceptance.version == ASYNC_VERSION && (BuildAsyncAgreement(crypto, order, a).None? || !fundable(order, a)) {
        Refuse(a.id);
        return Err(Refused);
      }
      var matched: SignedMatch := *;
      var created := Select(Maker, order, a, matched);
      if created.Err? {
        return Err(Stopped(created.error));
      }
      MatchOfTrade(id);
      return Ok(created.value.matched);
    }

    lemma MatchOfTrade(id: string)
      requires Valid() && id in journal.trades && journal.trades[id].role.Maker?
      ensures journal.trades[id].matched.payload.acceptanceID == journal.trades[id].acceptance.id
    {
      hide Told, Handled, BoxOf, Posted;
    }

    method Refuse(id: string)
      requires Valid()
      modifies this`refused
      ensures Valid() && id in refused && Later(identity, old(Now()), Now())
    {
      hide RS.Consistent, AllSelected, Posted, Orderly, Run, Kept, BoxOf;
      ghost var before := Now();
      refused := refused + {id};
      SameRelayRefused(identity, before, Now());
      HandledLater(before);
    }

    /** matchAcceptance: the exact signed match is journaled before the relay is asked, and only the relay's
        answer releases the swap. Initializing the released swap may still fail. */
    method MatchAcceptance(order: SignedOrder, a: SignedAcceptance) returns (attempt: Attempt)
      requires Valid() && order.id in relay.orders
      modifies this`relay, this`clock, this`acts, this`posted, this`refused, journal`trades
      ensures Valid() && Later(identity, old(Now()), Now())
      ensures attempt == Done ==>
                && order.id in relay.orders && EffectiveStatus(relay.orders[order.id], clock) != Status.Open
                && Released(journal.trades, order.id, a.id)
      ensures attempt == Refused ==> a.id in refused
      ensures attempt == Withdrawn ==> CancelledAt(relay, a.id)
      ensures attempt == Done || attempt == Refused ==> !Provisional(journal.trades, a)
      ensures PendingStay(old(journal.trades), journal.trades, a.id)
    {
      hide Valid, BuildAsyncAgreement, Later;
      var chosen := Choose(order, a);
      if chosen.Err? {
        return chosen.error;
      }
      ghost var before := Now();
      attempt := Propose(order.id, a, chosen.value);
      LaterTransitive(identity, old(Now()), before, Now());
    }

    /** Ask the relay to match, then release the swap. */
    method Propose(orderID: string, a: SignedAcceptance, m: SignedMatch) returns (attempt: Attempt)
      requires Valid() && a.acceptance.tradeID in journal.trades && m.payload.acceptanceID == a.id
      requires SelectedFor(journal.trades[a.acceptance.tradeID], orderID, a.id)
      modifies this`relay, this`clock, this`acts, this`posted, journal`trades
      ensures Valid() && Later(identity, old(Now()), Now()) && attempt != Refused
      ensures attempt == Done ==>
                && orderID in relay.orders && EffectiveStatus(relay.orders[orderID], clock) != Status.Open
                && Released(journal.trades, orderID, a.id)
      ensures attempt == Withdrawn ==> CancelledAt(relay, a.id)
      ensures attempt == Done ==> !Provisional(journal.trades, a)
      ensures PendingStay(old(journal.trades), journal.trades, a.id)
    {
      hide Valid, Later;
      var id := a.acceptance.tradeID;
      assert IsSelected(journal.trades, orderID, a.id);
      var reply := SendMatch(orderID, m);
      match reply {
        case Lost => return Stopped(Interrupted);
        case Answer(Err(AcceptanceCancelled)) => return Withdrawn;
        case Answer(Err(_)) => return Stopped(Rejected);
        case Answer(Ok(_)) =>
      }
      ghost var before := Now();
      var released := Release(id);
      LaterTransitive(identity, old(Now()), before, Now());
      if released.Err? {
        return Stopped(released.error);
      }
      assert SelectedFor(journal.trades[id], orderID, a.id);
      var initialized: bool := *;
      return if initialized then Done else Stopped(Interrupted);
    }

    // ----- handling an item

    /** This client's own clock: it may show anything. */
    method ReadClock() returns (now: int)
      requires Valid()
      modifies this`reading
      ensures Valid() && Later(identity, old(Now()), Now()) && now <= reading
    {
      hide RS.Consistent, AllSelected, Posted, Orderly, Run, Kept, BoxOf;
      now := *;
      ghost var before := Now();
      reading := Max(reading, now);
      SameRelayReading(identity, before, Now());
      HandledLater(before);
    }

    /** An acceptance of an own order: adopt a match the relay already has, skip what is closed or expired,
        or match it now; a lost race discards the provisional swap again. */
    method HandleAcceptance(a: SignedAcceptance, receivedAt: int)
      returns (r: Result<(), Error>, ghost fetched: Scene, ghost read: int)
      requires Valid() && IsStored(relay, a)
      modifies this`relay, this`clock, this`acts, this`posted, this`refused, this`reading, journal`trades
      ensures Valid() && Later(identity, old(Now()), Now())
      ensures r.Ok? ==> Answered(a, Now())
      ensures Later(identity, old(Now()), fetched) && Later(identity, fetched, Now()) && read <= fetched.reading
      ensures r.Ok? ==>
                (Provisional(journal.trades, a) <==>
                 Provisional(old(journal.trades), a) && Skipped(fetched.relay, fetched.clock, read, a))
      ensures PendingStay(old(journal.trades), journal.trades, a.id)
    {
      hide Valid, Later, AcceptanceVerified, IsStored;
      Others();
      ghost var polled := Now();
      var now := ReadClock();
      LaterTransitive(identity, old(Now()), polled, Now());
      fetched, read := Now(), now;
      LaterReflexive(identity, fetched);
      var answers: bool := *;
      if !answers || a.acceptance.orderID !in relay.orders {
        return Err(Interrupted), fetched, read;
      }
      StoredLater(identity, old(Now()), fetched, a);
      var record := At(relay.orders[a.acceptance.orderID], clock);
      var verification := if a.acceptance.expiresAt <= now then receivedAt else now;
      if !AcceptanceVerified(crypto, a, record.signed, verification) || record.signed.order.makerPublicKey != identity {
        return Err(Rejected), fetched, read;
      }
      AcceptsOrder(crypto, a, record.signed, verification);
      if record.status == Status.Matched {
        r := Adopt(a.acceptance.orderID, a);
      } else if record.status != Status.Open || a.acceptance.expiresAt <= now {
        r := Ok(());
      } else {
        r := Accept(record.signed, a);
      }
      LaterTransitive(identity, old(Now()), fetched, Now());
    }

    /** The relay has already matched the order: if to this acceptance, the journal follows. */
    method Adopt(orderID: string, a: SignedAcceptance) returns (r: Result<(), Error>)
      requires Valid() && orderID in relay.orders && relay.orders[orderID].status == Status.Matched
      requires relay.orders[orderID].signed.id == orderID && a.acceptance.orderID == orderID && IsStored(relay, a)
      modifies this`acts, journal`trades
      ensures Valid() && Later(identity, old(Now()), Now())
      ensures r.Ok? && MatchedTo(relay.orders[orderID], a.id) ==> Released(journal.trades, orderID, a.id)
      ensures r.Ok? && MatchedTo(relay.orders[orderID], a.id) ==> !Provisional(journal.trades, a)
      ensures r.Ok? && !MatchedTo(relay.orders[orderID], a.id) ==> journal.trades == old(journal.trades)
      ensures PendingStay(old(journal.trades), journal.trades, a.id)
    {
      hide Valid, Later, IsSelected, IsStored;
      MatchedIsStored(orderID, a);
      LaterReflexive(identity, Now());
      var record := relay.orders[orderID];
      if record.acceptance.None? || record.matched.None? || record.acceptance.value.id != a.id {
        MatchedHasMatch(orderID);
        return Ok(());
      }
      var created := Select(Maker, record.signed, record.acceptance.value, record.matched.value);
      if created.Err? {
        return Err(created.error);
      }
      var id := record.acceptance.value.acceptance.tradeID;
      ghost var before := Now();
      var released := Release(id);
      LaterTransitive(identity, old(Now()), before, Now());
      if released.Err? {
        return Err(released.error);
      }
      assert SelectedFor(journal.trades[id], orderID, a.id);
      return Ok(());
    }

    lemma MatchedHasMatch(orderID: string)
      requires Valid() && orderID in relay.orders && relay.orders[orderID].status == Status.Matched
      ensures relay.orders[orderID].matched.Some?
    {
      hide Told, Tidy, Handled, AllSelected, RS.WasVerified, RS.OrdersKeyed, RS.AcceptancesKeyed, RS.CancellationsKeyed,
        RS.CancelledExactly;
      PresentConsistent();
    }

    /** The relay has matched the order to the very acceptance it stores under that ID. */
    lemma MatchedIsStored(orderID: string, a: SignedAcceptance)
      requires Valid() && orderID in relay.orders && IsStored(relay, a)
      ensures MatchedTo(relay.orders[orderID], a.id) ==> relay.orders[orderID].acceptance == Some(a)
    {
      hide Told, Tidy, Handled, AllSelected, RS.WasVerified, RS.OrdersKeyed, RS.AcceptancesKeyed, RS.CancellationsKeyed,
        RS.CancelledExactly;
      PresentConsistent();
    }

    /** Match it now: done, or refused for its terms, or cancelled before the relay could match it. */
    method Accept(order: SignedOrder, a: SignedAcceptance) returns (r: Result<(), Error>)
      requires Valid() && order.id in relay.orders && a.acceptance.orderID == order.id
      modifies this`relay, this`clock, this`acts, this`posted, this`refused, journal`trades
      ensures Valid() && Later(identity, old(Now()), Now())
      ensures r.Ok? ==> Answered(a, Now()) && !Provisional(journal.trades, a)
      ensures PendingStay(old(journal.trades), journal.trades, a.id)
    {
      hide Valid, TradesLater, CancelledLater, ClosedFor;
      var attempt := MatchAcceptance(order, a);
      match attempt {
        case Stopped(e) => return Err(e);
        case Withdrawn =>
          ghost var before := Now();
          r := Withdraw(a.acceptance.tradeID, a.id);
          LaterTransitive(identity, old(Now()), before, Now());
        case _ => return Ok(());
      }
    }

    /** A match of an own acceptance becomes a swap this participant takes. */
    method HandleMatch(m: SignedMatch) returns (r: Result<(), Error>)
      requires Valid()
      modifies this`acts, journal`trades
      ensures Valid() && Later(identity, old(Now()), Now())
      ensures r.Ok? ==> Selected(journal.trades, m.payload.tradeID)
      ensures TradesGrow(old(journal.trades), journal.trades)
    {
      hide Told, Handled, Posted, Later;
      LaterReflexive(identity, Now());
      var order: SignedOrder, acceptance: SignedAcceptance := *, *;
      if acceptance.acceptance.takerPublicKey != identity {
        return Err(Rejected);
      }
      var created := Select(Taker, order, acceptance, m);
      return if created.Err? then Err(created.error) else Ok(());
    }

    /** The switch on the item's kind. */
    method Handle(item: MailboxItem) returns (r: Result<(), Error>)
      requires Valid() && 1 <= item.cursor <= |Mail()| && Mail()[item.cursor - 1] == item
      modifies this, journal`trades, journal`messages
      ensures Valid() && Later(identity, old(Now()), Now()) && old(handled) <= handled
      ensures r.Ok? ==> handled == old(handled) + {item.cursor}
      ensures forall id :: id in old(journal.trades) && old(journal.trades)[id].relayMatchPending
                           && !Names(item, old(journal.trades)[id].acceptance.id) ==>
                id in journal.trades && journal.trades[id] == old(journal.trades)[id]
    {
      hide Valid, Later, Answered, Provisional, Skipped;
      match item.content {
        case MessageItem(m) => r := HandleMessage(m);
        case MatchItem(m) => r := HandleMatch(m);
        case AcceptanceItem(a) =>
          FiledIsStored(item);
          ghost var fetched, read;
          r, fetched, read := HandleAcceptance(a.signed, a.receivedAt);
      }
      if r.Ok? {
        MailStays(old(Now()), item);
        MarkHandled(item);
      }
    }

    lemma FiledIsStored(item: MailboxItem)
      requires Valid() && 1 <= item.cursor <= |Mail()| && Mail()[item.cursor - 1] == item && item.content.AcceptanceItem?
      ensures IsStored(relay, item.content.acceptance.signed)
    {
      hide Told, Handled, Posted;
    }

    lemma MailStays(before: Scene, item: MailboxItem)
      requires Later(identity, before, Now())
      requires 1 <= item.cursor <= |MailOf(before.relay, identity)| && MailOf(before.relay, identity)[item.cursor - 1] == item
      ensures item.cursor <= |Mail()| && Mail()[item.cursor - 1] == item
    {
      hide OrdersLater, TradesLater, CancelledLater;
    }

    ghost method MarkHandled(item: MailboxItem)
      requires Valid() && Kept(item, Now()) && 1 <= item.cursor <= |Mail()| && Mail()[item.cursor - 1] == item
      modifies this`handled
      ensures Valid() && handled == old(handled) + {item.cursor}
    {
      hide Told, Tidy, Kept;
      handled := handled + {item.cursor};
    }

    method HandleMessage(m: SignedMessage) returns (r: Result<(), Error>)
      requires Valid()
      modifies journal`messages
      ensures Valid() && Later(identity, old(Now()), Now())
      ensures r.Ok? ==> m.id in journal.messages
    {
      hide RS.Consistent, AllSelected, Posted, Orderly, Run, Kept, BoxOf, MessageVerified;
      ghost var before := Now();
      var saved := journal.SaveRelayMessage(m);
      SameRelayMessages(identity, before, Now());
      HandledLater(before);
      return if saved.Err? then Err(saved.error) else Ok(());
    }

    /** One page: the cursor moves only past an item that was handled. */
    method SyncPage() returns (r: Result<bool, Error>)
      requires Valid()
      modifies this, journal`trades, journal`messages, journal`relayCursor
      ensures Valid() && Later(identity, old(Now()), Now()) && old(handled) <= handled
      ensures journal.relayCursor >= old(journal.relayCursor)
      ensures r == Ok(true) ==> journal.relayCursor >= |old(Mail())|
      ensures LeftoversStay(identity, old(Now()), old(journal.relayCursor), Now(), journal.relayCursor)
    {
      hide Valid, Later, LeftoversStay;
      LaterReflexive(identity, Now());
      LeftoversReflexive(identity, Now(), journal.relayCursor);
      var lost: bool := *;
      if lost {
        return Err(Interrupted);
      }
      MailCounted();
      var cursor := journal.relayCursor;
      PageExact(Mail(), cursor, 1);
      var page := PageOf(Mail(), cursor, 1);
      if |page.items| > 0 {
        var item := page.items[0];
        var handling := Handle(item);
        OthersLeft(old(Now()), cursor, item);
        if handling.Err? {
          return Err(handling.error);
        }
        if item.cursor <= cursor {
          return Err(InvalidValue);
        }
        var moved := MoveCursor(item.cursor);
        LeftoversFurther(identity, old(Now()), cursor, Now(), journal.relayCursor);
        if moved.Err? {
          return Err(moved.error);
        }
      }
      return Ok(!page.hasMore);
    }

    /** Handling the item at the cursor touches no selection whose acceptance lies behind it. */
    lemma OthersLeft(before: Scene, cursor: nat, item: MailboxItem)
      requires Later(identity, before, Now()) && AcceptancesFiled(before.relay, MailOf(before.relay, identity))
      requires cursor < |MailOf(before.relay, identity)| && MailOf(before.relay, identity)[cursor] == item
      requires forall id :: id in before.trades && before.trades[id].relayMatchPending
                            && !Names(item, before.trades[id].acceptance.id) ==>
                 id in journal.trades && journal.trades[id] == before.trades[id]
      ensures LeftoversStay(identity, before, cursor, Now(), cursor)
    {
      hide OrdersLater, CancelledLater, AcceptancesLater, TradesLater;
      forall id | Leftover(before, identity, cursor, id)
        ensures Leftover(Now(), identity, cursor, id) && journal.trades[id] == before.trades[id]
      {
        var k :| 0 <= k < cursor && k < |MailOf(before.relay, identity)| &&
                 Names(MailOf(before.relay, identity)[k], before.trades[id].acceptance.id);
        assert !Names(item, before.trades[id].acceptance.id);
        assert Names(Mail()[k], journal.trades[id].acceptance.id);
      }
    }

    lemma MailCounted()
      requires Valid()
      ensures CountedItems(Mail()) && journal.relayCursor <= |Mail()| && AcceptancesFiled(relay, Mail())
    {
      hide Told, Kept, Posted;
    }

    method MoveCursor(cursor: nat) returns (r: Result<(), Error>)
      requires Valid() && cursor in handled && cursor == journal.relayCursor + 1
      modifies journal`relayCursor
      ensures Valid() && Now() == old(Now()) && journal.relayCursor == if r.Ok? then cursor else old(journal.relayCursor)
    {
      hide Told, Tidy, Kept;
      r := journal.SetRelayCursor(cursor);
    }

    /** syncRelay: at most ten pages of one item each. */
    method SyncRelay() returns (r: Result<bool, Error>)
      requires Valid()
      modifies this, journal`trades, journal`messages, journal`relayCursor
      ensures Valid() && Later(identity, old(Now()), Now()) && old(handled) <= handled
      ensures journal.relayCursor >= old(journal.relayCursor)
      ensures r == Ok(true) ==> journal.relayCursor >= |old(Mail())|
      ensures LeftoversStay(identity, old(Now()), old(journal.relayCursor), Now(), journal.relayCursor)
    {
      hide Valid, OrdersLater, TradesLater, CancelledLater, AcceptancesLater, LeftoversStay;
      LaterReflexive(identity, Now());
      LeftoversReflexive(identity, Now(), journal.relayCursor);
      for pages := 0 to 10
        invariant Valid() && Later(identity, old(Now()), Now()) && old(handled) <= handled
        invariant LeftoversStay(identity, old(Now()), old(journal.relayCursor), Now(), journal.relayCursor)
        invariant journal.relayCursor >= old(journal.relayCursor)
      {
        ghost var before, cursor := Now(), journal.relayCursor;
        Others();
        LaterTransitive(identity, old(Now()), before, Now());
        MailMovesOn(identity, before, cursor, Now());
        LeftoversTransitive(identity, old(Now()), old(journal.relayCursor), before, cursor, Now(), cursor);
        ghost var polled := Now();
        r := SyncPage();
        LaterTransitive(identity, old(Now()), polled, Now());
        LeftoversTransitive(identity, old(Now()), old(journal.relayCursor), polled, cursor, Now(), journal.relayCursor);
        if r != Ok(false) {
          return;
        }
      }
      return Ok(false);
    }

    /** The worker's ticker: a provisional selection whose acceptance has been passed by stays provisional for
        good, however many passes follow and whatever arrives. */
    method SyncTicks(ticks: nat)
      requires Valid()
      modifies this, journal`trades, journal`messages, journal`relayCursor
      ensures Valid() && Later(identity, old(Now()), Now())
      ensures LeftoversStay(identity, old(Now()), old(journal.relayCursor), Now(), journal.relayCursor)
    {
      hide Valid, Later, LeftoversStay;
      LaterReflexive(identity, Now());
      LeftoversReflexive(identity, Now(), journal.relayCursor);
      for i := 0 to ticks
        invariant Valid() && Later(identity, old(Now()), Now())
        invariant LeftoversStay(identity, old(Now()), old(journal.relayCursor), Now(), journal.relayCursor)
      {
        ghost var before, cursor := Now(), journal.relayCursor;
        var pass := SyncRelay();
        LaterTransitive(identity, old(Now()), before, Now());
        LeftoversTransitive(identity, old(Now()), old(journal.relayCursor), before, cursor, Now(), journal.relayCursor);
      }
    }
  }
}
