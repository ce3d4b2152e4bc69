/** Backing a campaign (both `back_campaign` implementations of
    `src/campaign.rs`): resolve the deposit address for the backer's script,
    pay into it, and record the payment. The node's three answers are
    parameters: the backer address the wallet selected, the P2S endpoint as
    a function of the request body, and the payment as `campaign.rs` calls
    it, a function of the deposit address and amount that yields the
    transaction or nothing. */
module Backing {
  import opened Wrappers
  import opened Decimal
  import opened Text
  import opened Campaigns
  import opened WalletRequests
  import opened Storage

  datatype BackingError = DepositAddressFailed(cause: P2sError) | PaymentFailed

  /** `Campaign::back_campaign`: a first payment turns a tracked campaign
      into a backed one holding exactly that payment. */
  function BackTracked(c: Campaign, amount: U64, backer: string,
                       p2sNode: string -> P2sReply, pay: (string, U64) -> Option<BackingTx>): (r: Result<BackedCampaign, BackingError>)
    requires HtmlSafe(backer) && HtmlSafe(c.address)
    ensures GetP2sAddress(c, backer, p2sNode).Failure? ==>
              r == Failure(DepositAddressFailed(GetP2sAddress(c, backer, p2sNode).error))
    ensures GetP2sAddress(c, backer, p2sNode).Success? ==>
              var deposit := GetP2sAddress(c, backer, p2sNode).value;
              && (pay(deposit, amount).None? ==> r == Failure(PaymentFailed))
              && (pay(deposit, amount).Some? ==>
                    r.Success? && r.value.campaign == c && r.value.backerAddress == backer
                    && r.value.p2sAddress == deposit && r.value.backerTxs == [pay(deposit, amount).value])
  {
    match GetP2sAddress(c, backer, p2sNode)
    case Failure(e) => Failure(DepositAddressFailed(e))
    case Success(deposit) =>
      match pay(deposit, amount)
      case None => Failure(PaymentFailed)
      case Some(tx) =>
        NewCampaignRoundTrip(c);
        var copy := NewCampaign(c.name, c.address, ToDecimal(c.deadline), ToDecimal(c.goal)).value;
        Success(BackedCampaign(copy, backer, deposit, [tx]))
  }

  /** `BackedCampaign::back_campaign`: another payment is appended to the
      history; the campaign is kept and the two addresses are replaced by
      this backing's. */
  function BackBacked(bc: BackedCampaign, amount: U64, backer: string,
                      p2sNode: string -> P2sReply, pay: (string, U64) -> Option<BackingTx>): (r: Result<BackedCampaign, BackingError>)
    requires HtmlSafe(backer) && HtmlSafe(bc.campaign.address)
    ensures GetP2sAddress(bc.campaign, backer, p2sNode).Failure? ==>
              r == Failure(DepositAddressFailed(GetP2sAddress(bc.campaign, backer, p2sNode).error))
    ensures GetP2sAddress(bc.campaign, backer, p2sNode).Success? ==>
              var deposit := GetP2sAddress(bc.campaign, backer, p2sNode).value;
              && (pay(deposit, amount).None? ==> r == Failure(PaymentFailed))
              && (pay(deposit, amount).Some? ==>
                    r.Success? && r.value.campaign == bc.campaign && r.value.backerAddress == backer
                    && r.value.p2sAddress == deposit
                    && |r.value.backerTxs| == |bc.backerTxs| + 1
                    && r.value.backerTxs[..|bc.backerTxs|] == bc.backerTxs
                    && r.value.backerTxs[|bc.backerTxs|] == pay(deposit, amount).value)
  {
    match GetP2sAddress(bc.campaign, backer, p2sNode)
    case Failure(e) => Failure(DepositAddressFailed(e))
    case Success(deposit) =>
      match pay(deposit, amount)
      case None => Failure(PaymentFailed)
      case Some(tx) =>
        var txs := bc.backerTxs + [tx];
        assert txs[..|bc.backerTxs|] == bc.backerTxs;
        Success(BackedCampaign(bc.campaign, backer, deposit, txs))
  }

  /** `back_campaign` on either kind of record. */
  function BackRecord(r: LocalCampaign, amount: U64, backer: string,
                      p2sNode: string -> P2sReply, pay: (string, U64) -> Option<BackingTx>): (res: Result<BackedCampaign, BackingError>)
    requires HtmlSafe(backer) && HtmlSafe(r.Terms().address)
    ensures res.Success? ==> res.value.campaign == r.Terms() && |res.value.backerTxs| > 0
  {
    match r
    case Tracked(c) => BackTracked(c, amount, backer, p2sNode, pay)
    case Backed(bc) => BackBacked(bc, amount, backer, p2sNode, pay)
  }

  /** The amounts of a payment history added up. */
  function TotalBacked(txs: seq<BackingTx>): nat
  {
    if txs == [] then 0 else TotalBacked(txs[..|txs| - 1]) + txs[|txs| - 1].backedAmount
  }

  /** Backing again adds exactly the new payment's amount to the total and
      loses none of the earlier ones. */
  lemma BackBackedAddsPayment(bc: BackedCampaign, amount: U64, backer: string,
                              p2sNode: string -> P2sReply, pay: (string, U64) -> Option<BackingTx>)
    requires HtmlSafe(backer) && HtmlSafe(bc.campaign.address)
    requires BackBacked(bc, amount, backer, p2sNode, pay).Success?
    ensures var after := BackBacked(bc, amount, backer, p2sNode, pay).value;
      && after.backerTxs == bc.backerTxs + [after.backerTxs[|bc.backerTxs|]]
      && TotalBacked(after.backerTxs) == TotalBacked(bc.backerTxs) + after.backerTxs[|bc.backerTxs|].backedAmount
  {
    var after := BackBacked(bc, amount, backer, p2sNode, pay).value;
    var n := |bc.backerTxs|;
    assert after.backerTxs == after.backerTxs[..n] + [after.backerTxs[n]];
    assert after.backerTxs[..|after.backerTxs| - 1] == bc.backerTxs;
  }

  /** Backing a tracked campaign and then backing the result again keeps
      both payments, first payment first. */
  lemma BackTwice(c: Campaign, amount1: U64, amount2: U64, backer1: string, backer2: string,
                  p2sNode: string -> P2sReply, pay: (string, U64) -> Option<BackingTx>)
    requires HtmlSafe(backer1) && HtmlSafe(backer2) && HtmlSafe(c.address)
    requires BackTracked(c, amount1, backer1, p2sNode, pay).Success?
    requires BackBacked(BackTracked(c, amount1, backer1, p2sNode, pay).value, amount2, backer2, p2sNode, pay).Success?
    ensures var first := BackTracked(c, amount1, backer1, p2sNode, pay).value;
      var second := BackBacked(first, amount2, backer2, p2sNode, pay).value;
      && second.campaign == c
      && second.backerTxs == [pay(first.p2sAddress, amount1).value, pay(second.p2sAddress, amount2).value]
  {
    var first := BackTracked(c, amount1, backer1, p2sNode, pay).value;
    var second := BackBacked(first, amount2, backer2, p2sNode, pay).value;
    assert second.backerTxs == second.backerTxs[..1] + [second.backerTxs[1]];
  }

  /** The backed record is filed where the record it came from was, so
      saving it replaces that file (and `delete` on either removes it). */
  lemma BackedRecordReplacesFile(r: LocalCampaign, amount: U64, backer: string,
                                 p2sNode: string -> P2sReply, pay: (string, U64) -> Option<BackingTx>)
    requires HtmlSafe(backer) && HtmlSafe(r.Terms().address)
    requires BackRecord(r, amount, backer, p2sNode, pay).Success?
    ensures LocalPath(Backed(BackRecord(r, amount, backer, p2sNode, pay).value)) == LocalPath(r)
    ensures LocalPath(r) == DeletePath(r.Terms().name)
  {
    var backed := BackRecord(r, amount, backer, p2sNode, pay).value;
    assert Backed(backed).Terms() == r.Terms();
  }

  /** `back_campaign` with its side effect: on success the backed record is
      saved locally over the record's file; on any failure nothing is
      written. */
  method BackCampaign(store: CampaignStore, r: LocalCampaign, amount: U64, backer: string,
                      p2sNode: string -> P2sReply, pay: (string, U64) -> Option<BackingTx>)
    returns (res: Result<BackedCampaign, BackingError>)
    requires HtmlSafe(backer) && HtmlSafe(r.Terms().address)
    modifies store
    ensures res == BackRecord(r, amount, backer, p2sNode, pay)
    ensures res.Success? ==> store.files == old(store.files)[LocalPath(r) := Backed(res.value)]
    ensures res.Failure? ==> store.files == old(store.files)
  {
    var terms := r.Terms();
    var deposit := GetP2sAddress(terms, backer, p2sNode);
    if deposit.Failure? {
      return Failure(DepositAddressFailed(deposit.error));
    }
    var tx := pay(deposit.value, amount);
    if tx.None? {
      return Failure(PaymentFailed);
    }
    var backed: BackedCampaign;
    match r {
      case Tracked(c) =>
        NewCampaignRoundTrip(c);
        var copy := NewCampaign(c.name, c.address, ToDecimal(c.deadline), ToDecimal(c.goal)).value;
        backed := BackedCampaign(copy, backer, deposit.value, [tx.value]);
      case Backed(bc) =>
        var txs := bc.backerTxs;
        txs := txs + [tx.value];
        backed := BackedCampaign(bc.campaign, backer, deposit.value, txs);
    }
    store.SaveLocally(Backed(backed));
    res := Success(backed);
  }
}
