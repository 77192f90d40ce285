/** What the broker's capital guards bound. On CRYPTO every open lot is held at its own entry price, so an accepted
    entry keeps the entry value of all open lots within the exposure cap, up to the rounding of one fill. On NSE
    the ladder's guard bounds the inventory's cost in the same way; the exposure guard does not. */
module BrokerExposure {
  import opened Common
  import opened Fifo
  import opened Fees
  import opened LotPolicy
  import opened Broker
  import opened BrokerCore
  import opened BrokerRisk
  import opened BrokerRuns
  import opened BrokerEvents
  import opened BrokerSafety
  import opened BrokerTerms

  /** Every cached lot carries its own entry price as its basis. */
  ghost predicate OwnBasis(open: seq<Lot>) { forall x :: x in open ==> x.costBasis == x.entryPrice }

  /** The guard's sum is then the entry value of the open lots. */
  lemma {:induction false} OwnExposure(open: seq<Lot>)
    requires OwnBasis(open)
    ensures Exposure(open) == EntryValue(open)
  {
    hide Worth;
    if open != [] {
      var n := |open| - 1;
      assert open == open[..n] + [open[n]] && open[n] in open;
      OwnExposure(open[..n]);
    }
  }

  lemma EntryValueAppend(open: seq<Lot>, lot: Lot)
    ensures EntryValue(open + [lot]) == EntryValue(open) + Worth(lot.entryPrice, lot.quantity)
  {
    assert (open + [lot])[..|open|] == open;
  }

  /** Over every CRYPTO run, whenever an entry is accepted, the entry value of all open lots with the new one is
      within the exposure cap of its policy, up to the rounding of that fill. */
  lemma CryptoExposureWithinCap(
    d: Desk, terms: Terms, balance: real, events: seq<Event>, sig: Signal, reference: real, at: int)
    requires d.market.CRYPTO? && DeskOk(d, terms) && ConfigOk(d, sig.config) && Clean(d, reference)
    requires Judge(d, Run(d, Opening(balance), events), sig, reference, at).Accept?
    ensures var b := Run(d, Opening(balance), events);
            var v := Judge(d, b, sig, reference, at);
            var cap := balance * sig.config.policy.maximumExposurePct / 100.0;
            EntryValue(b.open + [NewLot(d, b, sig, at, v)]) <= cap + terms.e4 * v.quantity + terms.e4
  {
    hide Run, Judge, NewLot, Clean, DeskOk, ConfigOk, EntryValue, Opening, Stops, Aims;
    RunCarries(d, terms, balance, events);
    RunKeepsStart(d, balance, events);
    CryptoEntry(d, terms, Run(d, Opening(balance), events), sig, reference, at);
  }

  lemma CryptoEntry(d: Desk, terms: Terms, b: Book, sig: Signal, reference: real, at: int)
    requires DeskOk(d, terms) && ConfigOk(d, sig.config) && Clean(d, reference) && OwnBasis(b.open)
    requires Judge(d, b, sig, reference, at).Accept?
    ensures var v := Judge(d, b, sig, reference, at);
            var cap := b.starting * sig.config.policy.maximumExposurePct / 100.0;
            EntryValue(b.open + [NewLot(d, b, sig, at, v)]) <= cap + terms.e4 * v.quantity + terms.e4
  {
    hide Judge, NewLot, Exposure, EntryValue, Worth, PortfolioRejection, EntryQuantity, AlreadyFilled, LotsOfKey,
         OwnBasis;
    EntryFacts(d, b, sig, reference, at);
    AcceptedChecks(d, b, sig, reference, at);
    var v := Judge(d, b, sig, reference, at);
    var lot := NewLot(d, b, sig, at, v);
    OwnExposure(b.open);
    EntryValueAppend(b.open, lot);
    StoredFill(d, terms, v.fill, v.quantity);
    assert d.rounding.four(v.fill.fees) >= 0.0;
    hide Clean, DeskOk, ConfigOk;
    var cap := b.starting * sig.config.policy.maximumExposurePct / 100.0;
    assert EntryValue(b.open) + Worth(v.fill.price, v.quantity) + v.fill.fees <= cap;
  }

  /** What is stored of a fill differs from it by at most the rounding. */
  lemma StoredFill(d: Desk, terms: Terms, fill: Fill, q: real)
    requires DeskOk(d, terms) && q >= 0.0
    ensures Worth(d.rounding.four(fill.price), q) <= Worth(fill.price, q) + terms.e4 * q
    ensures d.rounding.four(fill.fees) <= fill.fees + terms.e4
  {
    assert Abs(d.rounding.four(fill.price) - fill.price) <= terms.e4;
    assert Abs(d.rounding.four(fill.fees) - fill.fees) <= terms.e4;
    WorthApart(d.rounding.four(fill.price), fill.price, q, terms.e4);
    hide Worth;
  }

  /** On NSE an accepted ladder entry keeps the cost of the symbol's inventory within the ladder's capital, up to
      the rounding of that fill. */
  lemma LadderEntryWithinCapital(d: Desk, terms: Terms, b: Book, sig: Signal, reference: real, at: int)
    requires d.market.NSE? && DeskOk(d, terms) && ConfigOk(d, sig.config) && sig.config.ladder.Some?
    requires Judge(d, b, sig, reference, at).Accept?
    ensures var v := Judge(d, b, sig, reference, at);
            Cost(QueueOf(b.inventories, sig.symbol) + [SliceOf(NewLot(d, b, sig, at, v))])
            <= sig.config.ladder.value.capital + terms.e4 * v.quantity
  {
    hide Judge, NewLot, Worth, Cost;
    EntryFacts(d, b, sig, reference, at);
    var v := Judge(d, b, sig, reference, at);
    AcceptedWithin(d, b, sig, reference, at);
    StoredFill(d, terms, v.fill, v.quantity);
    SumsAppend(QueueOf(b.inventories, sig.symbol), SliceOf(NewLot(d, b, sig, at, v)));
  }

  lemma AcceptedWithin(d: Desk, b: Book, sig: Signal, reference: real, at: int)
    requires d.market.NSE? && sig.config.ladder.Some? && Judge(d, b, sig, reference, at).Accept?
    ensures var v := Judge(d, b, sig, reference, at);
            var cost := Cost(QueueOf(b.inventories, sig.symbol));
            cost + Worth(v.fill.price, v.quantity) <= sig.config.ladder.value.capital
  {
    hide EntryQuantity, PortfolioRejection, AlreadyFilled, EntryCost, EntryValue, Cost;
  }
}
