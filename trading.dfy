/**
 * The trade negotiation table: the process-wide map from a proposer to the
 * trade that proposer has on offer. A proposer offers one of their pets to a
 * named partner; the partner settles by picking one of their own pets, and
 * the two pets change owners; cancelling drops the proposer's entry.
 */
module Trading {
  import opened Wrappers
  import opened Records

  /** The bot only ever stores "waiting"; "confirmed" is declared but never written. */
  datatype TradeStatus = Waiting | Confirmed

  /** An open offer: the partner it is addressed to and the offered pet's position. */
  datatype Trade = Trade(partner: UserId, offer: nat, status: TradeStatus)

  /**
   * Exchanges the pet at `offer` in the proposer's list with the pet at
   * `idx` in the responder's: each is popped from its owner and appended to
   * the other's list.
   */
  function SwapPets(mine: seq<Pet>, offer: nat, theirs: seq<Pet>, idx: nat): (r: (seq<Pet>, seq<Pet>))
    requires offer < |mine| && idx < |theirs|
    ensures |r.0| == |mine| && |r.1| == |theirs|
    ensures r.0[|r.0| - 1] == theirs[idx] && r.1[|r.1| - 1] == mine[offer]
    ensures r.0[..|r.0| - 1] == RemoveAt(mine, offer) && r.1[..|r.1| - 1] == RemoveAt(theirs, idx)
    ensures multiset(r.0) + multiset{mine[offer]} == multiset(mine) + multiset{theirs[idx]}
    ensures multiset(r.1) + multiset{theirs[idx]} == multiset(theirs) + multiset{mine[offer]}
    ensures multiset(r.0) + multiset(r.1) == multiset(mine) + multiset(theirs)
  {
    var given := mine[offer];
    var received := theirs[idx];
    var mine' := RemoveAt(mine, offer) + [received];
    var theirs' := RemoveAt(theirs, idx) + [given];
    assert mine'[..|mine'| - 1] == RemoveAt(mine, offer);
    assert theirs'[..|theirs'| - 1] == RemoveAt(theirs, idx);
    (mine', theirs')
  }

  /** Swapping the two pets back restores both lists' contents. */
  lemma SwapBackRestoresContents(mine: seq<Pet>, offer: nat, theirs: seq<Pet>, idx: nat)
    requires offer < |mine| && idx < |theirs|
    ensures var r := SwapPets(mine, offer, theirs, idx);
            var back := SwapPets(r.0, |mine| - 1, r.1, |theirs| - 1);
            multiset(back.0) == multiset(mine) && multiset(back.1) == multiset(theirs)
  {
    var r := SwapPets(mine, offer, theirs, idx);
    var back := SwapPets(r.0, |mine| - 1, r.1, |theirs| - 1);
    assert r.0[|mine| - 1] == theirs[idx];
    assert r.1[|theirs| - 1] == mine[offer];
    assert multiset(back.0) + multiset{theirs[idx]} == multiset(r.0) + multiset{mine[offer]};
  }

  datatype RespondOutcome = NoOffer | NotYourTrade | IndexCrash | Swapped(given: Pet, received: Pet)

  class TradeTable {
    var trades: map<UserId, Trade>

    /** Every stored trade is still waiting. */
    ghost predicate Valid()
      reads this
    {
      forall id :: id in trades ==> trades[id].status == Waiting
    }

    constructor ()
      ensures Valid() && trades == map[]
    {
      trades := map[];
    }

    /**
     * Records an offer when the position names one of the proposer's pets,
     * replacing any earlier offer by the same proposer; a bad position
     * leaves the table as it was.
     */
    method Offer(proposerId: UserId, partnerId: UserId, petIndex: nat, proposer: Player) returns (ok: bool)
      requires Valid()
      modifies this
      ensures Valid()
      ensures ok <==> petIndex < |proposer.pets|
      ensures ok ==> trades == old(trades)[proposerId := Trade(partnerId, petIndex, Waiting)]
      ensures !ok ==> trades == old(trades)
    {
      if petIndex >= |proposer.pets| {
        return false;
      }
      trades := trades[proposerId := Trade(partnerId, petIndex, Waiting)];
      ok := true;
    }

    /**
     * Settles the proposer's open trade on behalf of `responderId`, giving
     * the pet at `petIndex` of the responder's list in exchange. It is
     * refused when the proposer has no open trade or the trade names someone
     * else. The stored position is not checked again: whatever pet sits there
     * now is the one that moves, and a position beyond either list raises
     * before anything is stored, so nothing changes. On success both records
     * come back swapped (the caller stores the proposer's first) and the
     * entry is gone.
     */
    method Respond(proposerId: UserId, responderId: UserId, petIndex: nat, proposer: Player, responder: Player)
      returns (r: RespondOutcome, proposer': Player, responder': Player)
      requires Valid()
      modifies this
      ensures Valid()
      ensures r == NoOffer <==> proposerId !in old(trades)
      ensures r == NotYourTrade <==> proposerId in old(trades) && old(trades)[proposerId].partner != responderId
      ensures r == IndexCrash <==>
        && proposerId in old(trades) && old(trades)[proposerId].partner == responderId
        && (old(trades)[proposerId].offer >= |proposer.pets| || petIndex >= |responder.pets|)
      ensures !r.Swapped? ==> trades == old(trades) && proposer' == proposer && responder' == responder
      ensures r.Swapped? ==>
        var offer := old(trades)[proposerId].offer;
        && offer < |proposer.pets| && petIndex < |responder.pets|
        && r.given == proposer.pets[offer] && r.received == responder.pets[petIndex]
        && (proposer'.pets, responder'.pets) == SwapPets(proposer.pets, offer, responder.pets, petIndex)
        && proposer' == proposer.(pets := proposer'.pets)
        && responder' == responder.(pets := responder'.pets)
        && trades == old(trades) - {proposerId}
    {
      if proposerId !in trades {
        return NoOffer, proposer, responder;
      }
      var trade := trades[proposerId];
      if trade.partner != responderId {
        return NotYourTrade, proposer, responder;
      }
      if trade.offer >= |proposer.pets| || petIndex >= |responder.pets| {
        return IndexCrash, proposer, responder;
      }
      var given := proposer.pets[trade.offer];
      var received := responder.pets[petIndex];
      var proposerPets := RemoveAt(proposer.pets, trade.offer);
      var responderPets := RemoveAt(responder.pets, petIndex);
      proposerPets := proposerPets + [received];
      responderPets := responderPets + [given];
      proposer' := proposer.(pets := proposerPets);
      responder' := responder.(pets := responderPets);
      trades := trades - {proposerId};
      r := Swapped(given, received);
    }

    /** Drops the issuer's open trade, if any. */
    method Cancel(id: UserId)
      requires Valid()
      modifies this
      ensures Valid()
      ensures trades == old(trades) - {id}
    {
      trades := trades - {id};
    }
  }
}
