/** What a round of the loop of driveAsyncSwap (internal/app/async_engine.go) has to have done, phase by phase,
    when it ends without an error and does not send the swap back: the looks it took, in the order that
    matters, and what it handed to the wallets and to the relay. */
module Rounds {
  import opened Basics
  import opened Terms
  import opened SwapState
  import opened Protocol

  predicate LooksAt(e: Event, p: Party) {
    e.SawClaim? && e.claimant == p
  }

  /** The first look at a party's claim. */
  function FirstLook(h: seq<Event>, p: Party): Option<ClaimView> {
    if |h| == 0 then None
    else if LooksAt(h[0], p) then Some(h[0].view)
    else FirstLook(h[1..], p)
  }

  /** What follows it. */
  function AfterLook(h: seq<Event>, p: Party): (after: seq<Event>)
    ensures FirstLook(h, p).None? ==> after == []
  {
    if |h| == 0 then []
    else if LooksAt(h[0], p) then h[1..]
    else AfterLook(h[1..], p)
  }

  /** What follows the first occurrence of an event. */
  function Since(h: seq<Event>, e: Event): seq<Event> {
    if |h| == 0 then []
    else if h[0] == e then h[1..]
    else Since(h[1..], e)
  }

  predicate LooksAtFunding(h: seq<Event>, p: Party) {
    SawFunding(p, true) in h || SawFunding(p, false) in h
  }

  // ----- the phases

  /** A taker looks for the maker's claim again and publishes the completed one unless it is there. */
  predicate PublishesProxy(h: seq<Event>) {
    var again := FirstLook(h, Maker);
    again.Some? && (!again.value.found ==> SentProxyClaim in h)
  }

  /** The maker claims, or the taker publishes its claim, and looks for it again. */
  predicate MakerClaimMade(role: Party, h: seq<Event>) {
    if role.Maker? then SentClaim(Maker) in h && FirstLook(Since(h, SentClaim(Maker)), Maker).Some?
    else PublishesProxy(h) && FirstLook(AfterLook(h, Maker), Maker).Some?
  }

  /** The maker's claim is there; or the taker funding is still confirmed and each party has handed over what
      it can claim it with. */
  predicate MakerSideDone(role: Party, h: seq<Event>) {
    var first := FirstLook(h, Maker);
    && first.Some?
    && (!first.value.found ==> SawFunding(Taker, true) in h && MakerClaimMade(role, AfterLook(h, Maker)))
  }

  /** The taker has claimed, which reveals the secret, and looks after the maker's claim. */
  predicate TakerSideDone(h: seq<Event>) {
    SentClaim(Taker) in h && PublishesProxy(Since(h, SentClaim(Taker)))
  }

  /** The leg that ends the swap has been looked at, and an own one refunded unless that has happened. */
  predicate RefundDone(r: Swap, h: seq<Event>) {
    && (SawRefund(RefundLeg(r), true) in h || SawRefund(RefundLeg(r), false) in h)
    && (FundingOf(r, r.role).Some? ==>
          SentRefund in h || (FundingOf(r, r.role).value.asset == "QDAY" && SawRefund(r.role, true) in h))
  }

  /** The taker's funding is confirmed, or it has been published and looked for once more. */
  predicate TakerFundingDone(h: seq<Event>) {
    || (SawFunding(Taker, true) in h && SawFunding(Taker, false) !in h)
    || (SentTakerFunding in h && LooksAtFunding(Since(h, SentTakerFunding), Taker))
  }

  /** The maker's template is with the relay, its funding with a wallet, and the relay has the notice. */
  predicate MakerFundingDone(r: Swap, h: seq<Event>) {
    && TemplateDelivered in h && NoticeDelivered in h
    && (r.makerFunding.Some? || SawRecovery(true) in h || SentMakerFunding in h)
  }

  /** What a round on this record has done, by the phase it is in. */
  predicate Does(r: Swap, h: seq<Event>) {
    match r.phase
    case AsyncTakerFunding => TakerFundingDone(h)
    case AsyncTakerFunded => SawFunding(Taker, true) in h
    case AsyncMakerFunding =>
      && SawFunding(Taker, true) in h
      && (r.role.Maker? ==> MakerFundingDone(r, h))
      && (r.role.Maker? || r.makerFunding.Some? ==> LooksAtFunding(h, Maker))
    case AsyncMakerFunded => SawFunding(Taker, true) in h && SawFunding(Maker, true) in h
    case AsyncTakerClaiming =>
      && SawFunding(Taker, true) in h && SawFunding(Maker, true) in h
      && (r.role.Taker? && r.makerClaimTemplate.Some? ==> TakerSideDone(h))
      && (!AwaitsTemplate(r) ==> FirstLook(Since(h, SawFunding(Maker, true)), Taker).Some?)
    case AsyncTakerClaimed => FirstLook(h, Taker).Some?
    case AsyncMakerClaiming => MakerSideDone(r.role, if r.role.Maker? then h else AfterLook(h, Taker))
    case Complete => SawClaim(Taker, ClaimView(true, true)) in h && SawClaim(Maker, ClaimView(true, true)) in h
    case Refunding => RefundDone(r, h)
    case Refunded => SawRefund(RefundLeg(r), true) in h
    case _ => true
  }

  /** The phase a phase moves on to. */
  function Successor(p: Phase): Phase {
    match p
    case AsyncTakerFunding => AsyncTakerFunded
    case AsyncTakerFunded => AsyncMakerFunding
    case AsyncMakerFunding => AsyncMakerFunded
    case AsyncMakerFunded => AsyncTakerClaiming
    case AsyncTakerClaiming => AsyncTakerClaimed
    case AsyncTakerClaimed => AsyncMakerClaiming
    case AsyncMakerClaiming => Complete
    case WaitingForRefund => Refunding
    case Refunding => Refunded
    case _ => p
  }

  /** The swap stays where it is or moves on: it is not sent back. */
  predicate GoesOn(from: Phase, to: Phase) {
    to == from || to == Successor(from)
  }

  /** Every rewind of the phase graph sends the swap back. */
  lemma RewindsGoBack(from: Phase, to: Phase)
    requires ValidRewind(from, to)
    ensures !GoesOn(from, to)
  {
  }

  // ----- appending

  lemma {:induction false} LookConcat(a: seq<Event>, b: seq<Event>, p: Party)
    ensures FirstLook(a + b, p) == if FirstLook(a, p).Some? then FirstLook(a, p) else FirstLook(b, p)
    ensures AfterLook(a + b, p) == if FirstLook(a, p).Some? then AfterLook(a, p) + b else AfterLook(b, p)
  {
    if |a| == 0 {
      assert a + b == b;
    } else {
      assert (a + b)[1..] == a[1..] + b;
      LookConcat(a[1..], b, p);
    }
  }

  lemma {:induction false} SinceConcat(a: seq<Event>, b: seq<Event>, e: Event)
    ensures Since(a + b, e) == if e in a then Since(a, e) + b else Since(b, e)
  {
    if |a| == 0 {
      assert a + b == b;
    } else {
      assert (a + b)[1..] == a[1..] + b;
      SinceConcat(a[1..], b, e);
    }
  }

  lemma {:induction false} NoLook(h: seq<Event>, p: Party)
    requires forall e :: e in h ==> !LooksAt(e, p)
    ensures FirstLook(h, p).None?
  {
    if |h| > 0 {
      NoLook(h[1..], p);
    }
  }

  /** A history and what was added to it since. */
  lemma AddedInSteps(a: seq<Event>, b: seq<Event>, c: seq<Event>)
    requires a <= b && b <= c
    ensures a <= c && c[|a|..] == b[|a|..] + c[|b|..]
  {
  }

  /** An event added to a history is in every later addition. */
  lemma Noted(before: seq<Event>, e: Event, after: seq<Event>)
    requires before + [e] <= after
    ensures before <= after && e in after[|before|..]
  {
    assert after[|before|..][0] == e;
  }

  lemma NotedLast(before: seq<Event>, mid: seq<Event>, e: Event, after: seq<Event>)
    requires before <= mid < after && after[|after| - 1] == e
    ensures before <= after && e in after[|before|..]
  {
    assert after[|before|..][|after| - 1 - |before|] == e;
  }

  lemma StillNoted(a: seq<Event>, b: seq<Event>, c: seq<Event>, e: Event)
    requires a <= b <= c && (e in b[|a|..] || e in c[|b|..])
    ensures a <= c && e in c[|a|..]
  {
    AddedInSteps(a, b, c);
  }

  lemma ProxyConcat(a: seq<Event>, b: seq<Event>)
    requires PublishesProxy(a)
    ensures PublishesProxy(a + b)
  {
    LookConcat(a, b, Maker);
  }

  /** A write takes nothing away from what a round has done. */
  lemma ThenWrote(r: Swap, h: seq<Event>, after: Swap)
    requires Does(r, h)
    ensures Does(r, h + [Wrote(after)])
  {
    var more := [Wrote(after)];
    LookConcat(h, more, Taker);
    LookConcat(h, more, Maker);
    SinceConcat(h, more, SentTakerFunding);
    SinceConcat(h, more, SentClaim(Taker));
    SinceConcat(h, more, SawFunding(Maker, true));
    if r.phase == AsyncTakerClaiming {
      LookConcat(Since(h, SawFunding(Maker, true)), more, Taker);
      if TakerSideDone(h) {
        ProxyConcat(Since(h, SentClaim(Taker)), more);
      }
    }
    if r.phase == AsyncMakerClaiming {
      assert !MakerSideDone(r.role, []);
      MakerSideConcat(r.role, if r.role.Maker? then h else AfterLook(h, Taker), more);
    }
    hide Since, FirstLook, AfterLook, MakerSideDone, PublishesProxy;
  }

  lemma MakerClaimMadeConcat(role: Party, a: seq<Event>, b: seq<Event>)
    requires MakerClaimMade(role, a)
    ensures MakerClaimMade(role, a + b)
  {
    if role.Maker? {
      SinceConcat(a, b, SentClaim(Maker));
      LookConcat(Since(a, SentClaim(Maker)), b, Maker);
    } else {
      ProxyConcat(a, b);
      LookConcat(a, b, Maker);
      LookConcat(AfterLook(a, Maker), b, Maker);
    }
  }

  lemma MakerSideConcat(role: Party, a: seq<Event>, b: seq<Event>)
    requires MakerSideDone(role, a)
    ensures MakerSideDone(role, a + b)
  {
    hide MakerClaimMade;
    LookConcat(a, b, Maker);
    if !FirstLook(a, Maker).value.found {
      MakerClaimMadeConcat(role, AfterLook(a, Maker), b);
    }
  }

  // ----- putting the parts of a round together

  /** The two confirmations come first. */
  lemma FundingsFirst(h: seq<Event>)
    ensures
      var all := [SawFunding(Taker, true)] + [SawFunding(Maker, true)] + h;
      && SawFunding(Taker, true) in all && SawFunding(Maker, true) in all && Since(all, SawFunding(Maker, true)) == h
      && Since(all, SentClaim(Taker)) == Since(h, SentClaim(Taker))
  {
    var t, m := SawFunding(Taker, true), SawFunding(Maker, true);
    var rest := [m] + h;
    assert [t] + [m] + h == [t] + rest;
    assert ([t] + rest)[0] == t && ([t] + rest)[1..] == rest && rest[0] == m && rest[1..] == h;
    assert ([t] + rest)[1] == m;
  }

  lemma TakerClaimingDone(r: Swap, side: seq<Event>, look: seq<Event>)
    requires r.phase == AsyncTakerClaiming && FirstLook(look, Taker).Some?
    requires r.role.Taker? ==> TakerSideDone(side)
    ensures Does(r, [SawFunding(Taker, true)] + [SawFunding(Maker, true)] + (side + look))
  {
    FundingsFirst(side + look);
    LookConcat(side, look, Taker);
    if r.role.Taker? {
      SinceConcat(side, look, SentClaim(Taker));
      ProxyConcat(Since(side, SentClaim(Taker)), look);
    }
    hide Since, FirstLook, PublishesProxy;
  }

  lemma MakerFundingsDone(r: Swap, side: seq<Event>, look: seq<Event>)
    requires r.phase == AsyncMakerFunding
    requires r.role.Maker? ==>
               TemplateDelivered in side && NoticeDelivered in side && (r.makerFunding.Some? || SentMakerFunding in side)
    requires r.role.Maker? || r.makerFunding.Some? ==> LooksAtFunding(look, Maker)
    ensures Does(r, [SawFunding(Taker, true)] + (side + look))
  {
    assert ([SawFunding(Taker, true)] + (side + look))[0] == SawFunding(Taker, true);
  }

  /** A vain look, the taker funding still confirmed, the claim handed over. */
  lemma ClaimedInVain(role: Party, v: ClaimView, side: seq<Event>)
    requires !v.found && SawFunding(Taker, true) in side && MakerClaimMade(role, side)
    ensures MakerSideDone(role, [SawClaim(Maker, v)] + side)
  {
    assert ([SawClaim(Maker, v)] + side)[1..] == side;
  }

  lemma ClaimFound(role: Party, v: ClaimView, rest: seq<Event>)
    requires v.found
    ensures MakerSideDone(role, [SawClaim(Maker, v)] + rest)
  {
  }

  /** The look at the taker's claim comes first. */
  lemma TakerLookFirst(r: Swap, v: ClaimView, side: seq<Event>)
    requires r.phase == AsyncMakerClaiming && MakerSideDone(r.role, side)
    ensures Does(r, [SawClaim(Taker, v)] + side)
  {
    var all := [SawClaim(Taker, v)] + side;
    assert all[1..] == side;
    LookConcat([SawClaim(Taker, v)], side, Maker);
    if r.role.Maker? {
      assert FirstLook([SawClaim(Taker, v)], Maker).None?;
      LookConcat([SawClaim(Taker, v)], side, Maker);
    }
    hide MakerClaimMade;
  }

  lemma FundingThenClaim(role: Party, claim: seq<Event>, look: seq<Event>)
    requires FirstLook(look, Maker).Some?
    requires if role.Maker? then claim == [SentClaim(Maker)] else PublishesProxy(claim)
    ensures
      var all := [SawFunding(Taker, true)] + (claim + look);
      SawFunding(Taker, true) in all && MakerClaimMade(role, all)
  {
    var t := SawFunding(Taker, true);
    assert ([t] + (claim + look))[0] == t;
    SinceConcat([t], claim + look, SentClaim(Maker));
    LookConcat([t], claim + look, Maker);
    LookConcat(claim, look, Maker);
    SinceConcat(claim, look, SentClaim(Maker));
    if role.Maker? {
      assert Since([SentClaim(Maker)], SentClaim(Maker)) == [];
      assert ([t] + (claim + look))[1] == SentClaim(Maker);
      assert [] + look == look;
    } else {
      LookConcat(AfterLook(claim, Maker), look, Maker);
    }
  }

  // ----- the same along a history

  lemma ProxyPublished(before: seq<Event>, v: ClaimView, after: seq<Event>)
    requires after == before + [SawClaim(Maker, v)] + if v.found then [] else [SentProxyClaim]
    ensures before <= after && PublishesProxy(after[|before|..])
  {
    var h := [SawClaim(Maker, v)] + if v.found then [] else [SentProxyClaim];
    assert after[|before|..] == h;
    assert !v.found ==> h[1] == SentProxyClaim;
  }

  lemma RefundHandled(r: Swap, before: seq<Event>, b: bool, after: seq<Event>)
    requires
      var own, look := FundingOf(r, r.role), SawRefund(RefundLeg(r), b);
      || (after == before + [look] && (own.None? || (own.value.asset == "QDAY" && b)))
      || after == before + [look] + [SentRefund]
      || after == before + [SentRefund] + [look]
    ensures before <= after && RefundDone(r, after[|before|..])
  {
    var h, look := after[|before|..], SawRefund(RefundLeg(r), b);
    if after == before + [look] {
      assert h == [look];
    } else if after == before + [look] + [SentRefund] {
      assert h == [look, SentRefund];
    } else {
      assert h == [SentRefund, look];
    }
  }

  lemma TakerFundingSeen(before: seq<Event>, after: seq<Event>, w: Swap)
    requires after == before + [SawFunding(Taker, true)] || after == before + [SawFunding(Taker, true)] + [Wrote(w)]
    ensures before <= after && TakerFundingDone(after[|before|..])
  {
    var h := after[|before|..];
    assert h == [SawFunding(Taker, true)] || h == [SawFunding(Taker, true), Wrote(w)];
  }

  lemma TakerFundingPublished(before: seq<Event>, w: Swap, b: bool, after: seq<Event>)
    requires after == before + [SawFunding(Taker, false)] + [SentTakerFunding] + [Wrote(w)] + [SawFunding(Taker, b)]
    ensures before <= after && TakerFundingDone(after[|before|..])
  {
    var rest := [Wrote(w), SawFunding(Taker, b)];
    var h := [SawFunding(Taker, false)] + ([SentTakerFunding] + rest);
    assert after[|before|..] == h;
    SinceConcat([SawFunding(Taker, false)], [SentTakerFunding] + rest, SentTakerFunding);
    assert ([SentTakerFunding] + rest)[1..] == rest;
    assert h[1] == SentTakerFunding && rest[1] == SawFunding(Taker, b);
  }

  lemma FundingsConfirmed(r: Swap, before: seq<Event>, after: seq<Event>)
    requires r.phase in {AsyncTakerFunded, AsyncMakerFunded}
    requires r.phase == AsyncTakerFunded ==> after == before + [SawFunding(Taker, true)]
    requires r.phase == AsyncMakerFunded ==> after == before + [SawFunding(Taker, true)] + [SawFunding(Maker, true)]
    ensures before <= after && Does(r, after[|before|..])
  {
    var h := after[|before|..];
    if r.phase == AsyncTakerFunded {
      assert h == [SawFunding(Taker, true)];
    } else {
      assert h == [SawFunding(Taker, true), SawFunding(Maker, true)];
    }
  }

  lemma MakerFundingRound(r: Swap, before: seq<Event>, seen: seq<Event>, funded: seq<Event>, after: seq<Event>)
    requires r.phase == AsyncMakerFunding
    requires seen == before + [SawFunding(Taker, true)] && seen <= funded <= after
    requires
      var side := funded[|seen|..];
      r.role.Maker? ==>
        TemplateDelivered in side && NoticeDelivered in side && (r.makerFunding.Some? || SentMakerFunding in side)
    requires r.role.Maker? || r.makerFunding.Some? ==> LooksAtFunding(after[|funded|..], Maker)
    ensures before <= after && Does(r, after[|before|..])
  {
    hide Does;
    MakerFundingsDone(r, funded[|seen|..], after[|funded|..]);
    AddedInSteps(seen, funded, after);
    assert after[|before|..] == [SawFunding(Taker, true)] + after[|seen|..];
  }

  lemma TakerClaimingRound(r: Swap, before: seq<Event>, seen: seq<Event>, claimed: seq<Event>, after: seq<Event>)
    requires r.phase == AsyncTakerClaiming
    requires seen == before + [SawFunding(Taker, true)] + [SawFunding(Maker, true)] && seen <= claimed <= after
    requires r.role.Taker? ==> TakerSideDone(claimed[|seen|..])
    requires FirstLook(after[|claimed|..], Taker).Some?
    ensures before <= after && Does(r, after[|before|..])
  {
    hide Does, TakerSideDone, FirstLook;
    TakerClaimingDone(r, claimed[|seen|..], after[|claimed|..]);
    AddedInSteps(seen, claimed, after);
    assert after[|before|..] == [SawFunding(Taker, true)] + [SawFunding(Maker, true)] + after[|seen|..];
  }

  lemma AwaitingRound(r: Swap, before: seq<Event>, after: seq<Event>)
    requires r.phase == AsyncTakerClaiming && AwaitsTemplate(r)
    requires after == before + [SawFunding(Taker, true)] + [SawFunding(Maker, true)]
    ensures before <= after && Does(r, after[|before|..])
  {
    assert after[|before|..] == [SawFunding(Taker, true), SawFunding(Maker, true)];
  }

  lemma TakerClaimedSide(before: seq<Event>, claimed: seq<Event>, after: seq<Event>)
    requires claimed == before + [SentClaim(Taker)] && claimed <= after && PublishesProxy(after[|claimed|..])
    ensures before <= after && TakerSideDone(after[|before|..])
  {
    var rest := after[|claimed|..];
    assert after[|before|..] == [SentClaim(Taker)] + rest;
    assert ([SentClaim(Taker)] + rest)[1..] == rest;
  }

  lemma MakerClaimRound(role: Party, before: seq<Event>, seen: seq<Event>, claimed: seq<Event>, after: seq<Event>)
    requires seen == before + [SawFunding(Taker, true)] && seen <= claimed <= after
    requires if role.Maker? then claimed[|seen|..] == [SentClaim(Maker)] else PublishesProxy(claimed[|seen|..])
    requires FirstLook(after[|claimed|..], Maker).Some?
    ensures before <= after && SawFunding(Taker, true) in after[|before|..] && MakerClaimMade(role, after[|before|..])
  {
    hide MakerClaimMade, PublishesProxy, FirstLook;
    FundingThenClaim(role, claimed[|seen|..], after[|claimed|..]);
    AddedInSteps(seen, claimed, after);
    assert after[|before|..] == [SawFunding(Taker, true)] + after[|seen|..];
  }

  lemma MakerSideRound(role: Party, before: seq<Event>, v: ClaimView, seen: seq<Event>, after: seq<Event>)
    requires seen == before + [SawClaim(Maker, v)] && seen <= after
    requires v.found || (SawFunding(Taker, true) in after[|seen|..] && MakerClaimMade(role, after[|seen|..]))
    ensures before <= after && MakerSideDone(role, after[|before|..])
  {
    hide MakerClaimMade, MakerSideDone;
    assert after[|before|..] == [SawClaim(Maker, v)] + after[|seen|..];
    if v.found {
      ClaimFound(role, v, after[|seen|..]);
    } else {
      ClaimedInVain(role, v, after[|seen|..]);
    }
  }

  lemma MakerClaimingRound(r: Swap, before: seq<Event>, v: ClaimView, seen: seq<Event>, after: seq<Event>)
    requires r.phase == AsyncMakerClaiming
    requires seen == before + [SawClaim(Taker, v)] && seen <= after && MakerSideDone(r.role, after[|seen|..])
    ensures before <= after && Does(r, after[|before|..])
  {
    hide Does, MakerSideDone;
    assert after[|before|..] == [SawClaim(Taker, v)] + after[|seen|..];
    TakerLookFirst(r, v, after[|seen|..]);
  }

  lemma LookNoted(before: seq<Event>, p: Party, v: ClaimView, after: seq<Event>)
    requires before + [SawClaim(p, v)] <= after
    ensures before <= after && FirstLook(after[|before|..], p) == Some(v)
  {
    assert after[|before|..][0] == SawClaim(p, v);
  }

  lemma ClaimLookedFor(r: Swap, before: seq<Event>, v: ClaimView, after: seq<Event>)
    requires r.phase == AsyncTakerClaimed && after == before + [SawClaim(Taker, v)]
    ensures before <= after && Does(r, after[|before|..])
  {
    LookNoted(before, Taker, v, after);
  }

  lemma CompletedRound(r: Swap, before: seq<Event>, after: seq<Event>)
    requires r.phase == Complete
    requires after == before + [SawClaim(Taker, ClaimView(true, true))] + [SawClaim(Maker, ClaimView(true, true))]
    ensures before <= after && Does(r, after[|before|..])
  {
    var h := after[|before|..];
    assert h == [SawClaim(Taker, ClaimView(true, true)), SawClaim(Maker, ClaimView(true, true))];
  }

  // ----- the events before the switch on the phase

  /** What the check for a due refund may add: looks, but neither at a funding's confirmations nor at the own
      claim, and writes. It hands nothing over. */
  predicate OnlyChecks(e: Event, role: Party) {
    !ReachesChain(e) && !e.SawFunding? && !LooksAt(e, role)
  }

  predicate ChecksOnly(h: seq<Event>, role: Party) {
    forall i :: 0 <= i < |h| ==> OnlyChecks(h[i], role)
  }

  lemma ChecksLook(h: seq<Event>, role: Party)
    requires ChecksOnly(h, role)
    ensures FirstLook(h, role).None?
    ensures SentClaim(Taker) !in h && SentClaim(Maker) !in h && SentTakerFunding !in h && SawFunding(Taker, false) !in h && SawFunding(Maker, true) !in h
  {
    NoLook(h, role);
  }

  /** From one point of a history to another the round only looked for a reason to turn to the refund path. */
  predicate ChecksSince(before: seq<Event>, after: seq<Event>, role: Party) {
    before <= after && ChecksOnly(after[|before|..], role)
  }

  lemma NothingChecked(h: seq<Event>, role: Party)
    ensures ChecksSince(h, h, role)
  {
  }

  lemma CheckedBy(before: seq<Event>, e: Event, more: seq<Event>, after: seq<Event>, role: Party)
    requires after == before + [e] + more && OnlyChecks(e, role) && (more == [] || (|more| == 1 && OnlyChecks(more[0], role)))
    ensures ChecksSince(before, after, role)
  {
    hide OnlyChecks;
    assert after[|before|..] == [e] + more;
  }

  lemma CheckedFurther(before: seq<Event>, mid: seq<Event>, after: seq<Event>, role: Party)
    requires ChecksSince(before, mid, role) && ChecksSince(mid, after, role)
    ensures ChecksSince(before, after, role) && before <= mid && before <= after
    ensures forall e :: e in mid[|before|..] ==> e in after[|before|..]
  {
    hide OnlyChecks;
    AddedInSteps(before, mid, after);
  }

  /** The checks before the switch take nothing away from what the phase has done; a maker's funding they
      recovered was recorded as such. */
  lemma ChecksFirst(r: Swap, now: Swap, checks: seq<Event>, h: seq<Event>)
    requires Does(now, h) && ChecksOnly(checks, r.role)
    requires now.phase == r.phase && now.role == r.role
    requires r.role.Taker? ==> now.makerClaimTemplate == r.makerClaimTemplate
    requires r.makerFunding.Some? ==> now.makerFunding.Some?
    requires now.makerFunding.Some? ==> r.makerFunding.Some? || SawRecovery(true) in checks
    requires r.phase in {Refunding, Refunded} ==> now == r
    ensures Does(r, checks + h)
  {
    ChecksLook(checks, r.role);
    SinceConcat(checks, h, SentTakerFunding);
    SinceConcat(checks, h, SentClaim(Taker));
    SinceConcat(checks, h, SentClaim(Maker));
    SinceConcat(checks, h, SawFunding(Maker, true));
    LookConcat(checks, h, Taker);
    LookConcat(checks, h, Maker);
    hide Since, FirstLook, AfterLook, ChecksOnly, PublishesProxy;
  }
}
