/** The request bodies and result handling of `src/wallet_reqs.rs`: the
    deposit (P2S) address request and the wallet payment. The HTTP exchange
    itself is a parameter: a function from the request body to the node's
    answer. */
module WalletRequests {
  import opened Wrappers
  import opened Decimal
  import opened Text
  import opened Templates
  import opened Campaigns

  /** nanoERG in one ERG. */
  const NANOERGS_PER_ERG: nat := 1000000000

  const U32_LIMIT: nat := 0x1_0000_0000

  type U32 = n: nat | n < U32_LIMIT

  /** `amount * 1000000000` as `send_wallet_payment` writes it, on a `u32`,
      as an optimised build computes it: wrapped modulo 2^32 (a debug build
      panics instead). Only amounts up to 4 ERG come out right. */
  function WrappingNanoErg(amount: U32): (r: U32)
    ensures r == amount * NANOERGS_PER_ERG <==> amount <= 4
  {
    (amount * NANOERGS_PER_ERG) % U32_LIMIT
  }

  /** Five ERG are submitted as 705032704 nanoERG, about 0.7 ERG. */
  lemma WrappingNanoErgAtFive()
    ensures WrappingNanoErg(5) == 705032704 != 5 * NANOERGS_PER_ERG
  {
  }

  /** The largest whole-ERG amount whose nanoERG value fits in a `u64`. */
  const MAX_PAYABLE_ERG: nat := 18446744073

  datatype PaymentError = AmountOverflow | PaymentNodeUnreachable

  /** The conversion as intended: whole ERG to nanoERG on the `u64` amount
      that `campaign.rs` passes, with overflow reported instead of wrapped. */
  function NanoErg(amount: U64): (r: Result<U64, PaymentError>)
    ensures r.Success? <==> amount <= MAX_PAYABLE_ERG
    ensures r.Success? ==> r.value % NANOERGS_PER_ERG == 0 && r.value / NANOERGS_PER_ERG == amount
    ensures r.Failure? ==> r.error == AmountOverflow
  {
    var nano := amount * NANOERGS_PER_ERG;
    if nano < U64_LIMIT then Success(nano) else Failure(AmountOverflow)
  }

  // The literal text of `SEND_PAYMENT_TEMPLATE`, around its two slots.
  const PAYMENT_HEAD: string := "[{\"address\":\""
  const PAYMENT_MIDDLE: string := "\",\"value\":"
  const PAYMENT_TAIL: string := " }]"

  /** `SEND_PAYMENT_TEMPLATE`. */
  const SEND_PAYMENT_TEMPLATE: Template :=
    [Lit(PAYMENT_HEAD), Slot("address"), Lit(PAYMENT_MIDDLE), Slot("value"), Lit(PAYMENT_TAIL)]

  /** The payment request body: the deposit address quoted, the nanoERG
      value as a bare JSON number. */
  function PaymentBody(address: string, nanoErg: U64): (body: string)
    requires HtmlSafe(address)
    ensures body == PAYMENT_HEAD + (address + (PAYMENT_MIDDLE + (ToDecimal(nanoErg) + PAYMENT_TAIL)))
  {
    var values := map["address" := address, "value" := ToDecimal(nanoErg)];
    RenderTwoSlots(PAYMENT_HEAD, "address", PAYMENT_MIDDLE, "value", PAYMENT_TAIL, values);
    Render(SEND_PAYMENT_TEMPLATE, values)
  }

  /** Reads the address and the value back from a payment body; `None` for
      text that is not one. */
  function ReadPaymentBody(body: string): Option<(string, U64)>
  {
    if !(PAYMENT_HEAD <= body) then None
    else
      var (address, r) := SplitBefore(body[|PAYMENT_HEAD|..], '"');
      if !(PAYMENT_MIDDLE <= r) then None
      else
        var (value, tail) := SplitBefore(r[|PAYMENT_MIDDLE|..], ' ');
        if tail != PAYMENT_TAIL then None
        else match ParseU64(value)
        case Success(v) => Some((address, v))
        case Failure(_) => None
  }

  /** The body names exactly the address and the value it was built from:
      nothing else can be read out of it. */
  lemma ReadPaymentBodyRoundTrip(address: string, nanoErg: U64)
    requires HtmlSafe(address)
    ensures ReadPaymentBody(PaymentBody(address, nanoErg)) == Some((address, nanoErg))
  {
    var v := ToDecimal(nanoErg);
    var r := PAYMENT_MIDDLE + (v + PAYMENT_TAIL);
    DropPrefix(PAYMENT_HEAD, address + r);
    HtmlSafeHasNoQuote(address);
    assert PAYMENT_MIDDLE[0] == '"';
    SplitBeforeConcat(address, '"', r);
    DropPrefix(PAYMENT_MIDDLE, v + PAYMENT_TAIL);
    NonDigitNotInDigits(v, ' ');
    assert PAYMENT_TAIL[0] == ' ';
    SplitBeforeConcat(v, ' ', PAYMENT_TAIL);
    ParseToDecimal(nanoErg);
  }

  /** What the node's wallet payment endpoint does with a request body:
      the connection fails, or some response text comes back. */
  datatype PaymentReply = PaymentTransportError | PaymentResponse(text: string)

  /** `send_wallet_payment` as `wallet_reqs.rs` writes it, with the amount
      converted as intended: a transport error fails the payment; any
      response, whatever it says, counts as sent (it is only printed). */
  function SendWalletPayment(address: string, amount: U64, post: string -> PaymentReply): (r: Outcome<PaymentError>)
    requires HtmlSafe(address)
    ensures amount > MAX_PAYABLE_ERG ==> r == Fail(AmountOverflow)
    ensures amount <= MAX_PAYABLE_ERG ==>
      (r == Pass <==> post(PaymentBody(address, amount * NANOERGS_PER_ERG)).PaymentResponse?)
    ensures r.Fail? && amount <= MAX_PAYABLE_ERG ==> r.error == PaymentNodeUnreachable
  {
    match NanoErg(amount)
    case Failure(e) => Fail(e)
    case Success(nano) =>
      match post(PaymentBody(address, nano))
      case PaymentTransportError => Fail(PaymentNodeUnreachable)
      case PaymentResponse(_) => Pass
  }

  /** The text of the wallet's response does not affect the outcome: an
      error reported by the node counts as a payment sent. */
  lemma PaymentResponseTextIgnored(address: string, amount: U64, post1: string -> PaymentReply, post2: string -> PaymentReply)
    requires HtmlSafe(address) && amount <= MAX_PAYABLE_ERG
    requires post1(PaymentBody(address, amount * NANOERGS_PER_ERG)).PaymentResponse?
    requires post2(PaymentBody(address, amount * NANOERGS_PER_ERG)).PaymentResponse?
    ensures SendWalletPayment(address, amount, post1) == SendWalletPayment(address, amount, post2) == Pass
  {
  }

  /** What the node's P2S endpoint does with a script: the connection fails,
      or a response arrives that does or does not decode to an address. */
  datatype P2sReply = P2sTransportError | P2sResponse(address: Option<string>)

  datatype P2sError = P2sNodeUnreachable | P2sUndecodable

  /** `get_p2s_address`: the request body is the campaign's script for the
      backer; the result is the decoded address, never a default one. */
  function GetP2sAddress(c: Campaign, backer: string, node: string -> P2sReply): (r: Result<string, P2sError>)
    requires HtmlSafe(backer) && HtmlSafe(c.address)
    ensures node(BuildScript(c, backer)) == P2sTransportError ==> r == Failure(P2sNodeUnreachable)
    ensures node(BuildScript(c, backer)) == P2sResponse(None) ==> r == Failure(P2sUndecodable)
    ensures r.Success? ==> node(BuildScript(c, backer)) == P2sResponse(Some(r.value))
    ensures node(BuildScript(c, backer)).P2sResponse? && node(BuildScript(c, backer)).address.Some? ==>
              r == Success(node(BuildScript(c, backer)).address.value)
  {
    match node(BuildScript(c, backer))
    case P2sTransportError => Failure(P2sNodeUnreachable)
    case P2sResponse(None) => Failure(P2sUndecodable)
    case P2sResponse(Some(address)) => Success(address)
  }

  /** The deposit address depends only on the terms in the script: a
      campaign's name plays no part, and two campaigns with the same owner,
      deadline and goal get the same answer for the same backer. */
  lemma P2sAddressIgnoresName(c1: Campaign, c2: Campaign, backer: string, node: string -> P2sReply)
    requires HtmlSafe(backer) && HtmlSafe(c1.address)
    requires c1.address == c2.address && c1.deadline == c2.deadline && c1.goal == c2.goal
    ensures GetP2sAddress(c1, backer, node) == GetP2sAddress(c2, backer, node)
  {
  }
}
