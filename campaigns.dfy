/** The campaign records of `src/campaign.rs`, their construction from user
    text, and the crowdfunding script rendered for a backer. */
module Campaigns {
  import opened Wrappers
  import opened Decimal
  import opened Text
  import opened Templates

  /** A crowdfunding campaign: who owns it, by which block height it must
      succeed, and how many whole ERG it must raise. */
  datatype Campaign = Campaign(name: string, address: string, deadline: U64, goal: U64)

  /** One payment a backer made toward a campaign (`BackingTx::new` is this
      constructor). */
  datatype BackingTx = BackingTx(txId: string, backedAmount: U64)

  /** A campaign the user has paid into, with the addresses used and every
      payment so far, oldest first (`BackedCampaign::new` is this constructor). */
  datatype BackedCampaign = BackedCampaign(
    campaign: Campaign,
    backerAddress: string,
    p2sAddress: string,
    backerTxs: seq<BackingTx>)

  /** The two kinds of locally stored record that the source handles through
      one `CrowdfundingCampaign` trait object. */
  datatype LocalCampaign = Tracked(tracked: Campaign) | Backed(backed: BackedCampaign) {
    /** The campaign terms, for either kind of record. */
    function Terms(): Campaign {
      match this
      case Tracked(c) => c
      case Backed(bc) => bc.campaign
    }
  }

  datatype CampaignError = InvalidDeadline(deadlineError: ParseError) | InvalidGoal(goalError: ParseError)

  /** `Campaign::new`: the deadline is parsed first, then the goal; either
      failure aborts the construction. */
  function NewCampaign(name: string, address: string, deadline: string, goal: string): (r: Result<Campaign, CampaignError>)
    ensures r.Success? <==> ParseU64(deadline).Success? && ParseU64(goal).Success?
    ensures r.Success? ==> r.value.name == name && r.value.address == address
    ensures r.Success? ==> r.value.deadline == ParseU64(deadline).value && r.value.goal == ParseU64(goal).value
    ensures ParseU64(deadline).Failure? ==> r == Failure(InvalidDeadline(ParseU64(deadline).error))
    ensures ParseU64(deadline).Success? && ParseU64(goal).Failure? ==> r == Failure(InvalidGoal(ParseU64(goal).error))
  {
    match ParseU64(deadline)
    case Failure(e) => Failure(InvalidDeadline(e))
    case Success(d) =>
      match ParseU64(goal)
      case Failure(e) => Failure(InvalidGoal(e))
      case Success(g) =>
        Success(Campaign(name, address, d, g))
  }

  /** Printing a campaign's numbers and constructing it again from that text
      gives the same campaign, field by field. */
  lemma NewCampaignRoundTrip(c: Campaign)
    ensures NewCampaign(c.name, c.address, ToDecimal(c.deadline), ToDecimal(c.goal)) == Success(c)
  {
    ParseToDecimal(c.deadline);
    ParseToDecimal(c.goal);
  }

  // The literal text of the crowdfunding template, around its four slots.
  const SCRIPT_HEAD: string := "{\"source\": \"{ val backerPubKey = PK(\\\""
  const SCRIPT_AFTER_BACKER: string := "\\\") \\n val projectPubKey = PK(\\\""
  const SCRIPT_AFTER_OWNER: string := "\\\") \\n val deadline = "
  const SCRIPT_AFTER_DEADLINE: string := " \\n val minToRaise = "
  const SCRIPT_TAIL: string :=
    "L * 1000000000 \\n"
    + " val fundraisingFailure = HEIGHT >= deadline && backerPubKey \\n"
    + " val enoughRaised = {(outBox: Box) => outBox.value >= minToRaise && outBox.propositionBytes == projectPubKey.propBytes} \\n"
    + " val fundraisingSuccess = HEIGHT < deadline && projectPubKey && OUTPUTS.exists(enoughRaised) \\n"
    + " fundraisingFailure || fundraisingSuccess }\"}"

  /** `CROWDFUND_TEMPLATE`. */
  const CROWDFUND_TEMPLATE: Template := [
    Lit(SCRIPT_HEAD), Slot("backer"),
    Lit(SCRIPT_AFTER_BACKER), Slot("address"),
    Lit(SCRIPT_AFTER_OWNER), Slot("deadline"),
    Lit(SCRIPT_AFTER_DEADLINE), Slot("goal"),
    Lit(SCRIPT_TAIL)]

  /** The values `build_script` hands to the template. */
  function ScriptValues(c: Campaign, backer: string): map<string, string>
  {
    map["backer" := backer, "address" := c.address,
        "deadline" := ToDecimal(c.deadline), "goal" := ToDecimal(c.goal)]
  }

  /** `Campaign::build_script`: the template with the backer, the owner's
      address and the decimal deadline and goal in their slots. */
  function BuildScript(c: Campaign, backer: string): (script: string)
    requires HtmlSafe(backer) && HtmlSafe(c.address)
    ensures script == SCRIPT_HEAD + (backer + (SCRIPT_AFTER_BACKER + (c.address + (SCRIPT_AFTER_OWNER
                      + (ToDecimal(c.deadline) + (SCRIPT_AFTER_DEADLINE + (ToDecimal(c.goal) + SCRIPT_TAIL)))))))
  {
    var values := ScriptValues(c, backer);
    RenderFourSlots(SCRIPT_HEAD, "backer", SCRIPT_AFTER_BACKER, "address", SCRIPT_AFTER_OWNER,
                    "deadline", SCRIPT_AFTER_DEADLINE, "goal", SCRIPT_TAIL, values);
    Render(CROWDFUND_TEMPLATE, values)
  }

  /** What a rendered script commits to: the backer who can reclaim after
      the deadline, the owner who can claim before it, the deadline height
      and the goal. */
  datatype ScriptTerms = ScriptTerms(backer: string, owner: string, deadline: U64, goal: U64)

  /** Reads a field closed by an escaped quote `\"`: the text before the
      first quote, less the backslash that precedes it, and the rest of the
      input from that quote on. */
  function ReadEscapedField(s: string): Option<(string, string)>
  {
    var (head, rest) := SplitBefore(s, '"');
    if |head| > 0 && head[|head| - 1] == '\\' && rest != [] then Some((head[..|head| - 1], rest)) else None
  }

  lemma ReadEscapedFieldConcat(field: string, rest: string)
    requires '"' !in field
    requires |rest| > 0 && rest[0] == '"'
    ensures ReadEscapedField(field + ("\\" + rest)) == Some((field, rest))
  {
    var head := field + "\\";
    assert head + rest == field + ("\\" + rest);
    assert head[..|head| - 1] == field;
    SplitBeforeConcat(head, '"', rest);
  }

  lemma Regroup(a: string, b: string, x: string, y: string)
    requires a == b + x
    ensures a + y == b + (x + y)
  {
  }

  lemma DropPrefix(a: string, b: string)
    ensures a <= a + b && (a + b)[|a|..] == b
  {
  }

  /** Recovers the terms from the text of a rendered crowdfunding script;
      `None` for text that is not one. */
  function ReadScript(s: string): Option<ScriptTerms>
  {
    if !(SCRIPT_HEAD <= s) then None
    else match ReadEscapedField(s[|SCRIPT_HEAD|..])
    case None => None
    case Some((backer, rest)) =>
      match ReadAfterBacker(rest)
      case None => None
      case Some((owner, deadline, goal)) => Some(ScriptTerms(backer, owner, deadline, goal))
  }

  /** The owner, deadline and goal, read from the quote that closes the backer on. */
  function ReadAfterBacker(s: string): Option<(string, U64, U64)>
  {
    var q := SCRIPT_AFTER_BACKER[1..];
    if !(q <= s) then None
    else match ReadEscapedField(s[|q|..])
    case None => None
    case Some((owner, rest)) =>
      match ReadAfterOwner(rest)
      case None => None
      case Some((deadline, goal)) => Some((owner, deadline, goal))
  }

  /** The deadline and goal, read from the quote that closes the owner on. */
  function ReadAfterOwner(s: string): Option<(U64, U64)>
  {
    var q := SCRIPT_AFTER_OWNER[1..];
    if !(q <= s) then None
    else
      var (d, r) := SplitBefore(s[|q|..], ' ');
      if !(SCRIPT_AFTER_DEADLINE <= r) then None
      else
        var (g, tail) := SplitBefore(r[|SCRIPT_AFTER_DEADLINE|..], 'L');
        if tail != SCRIPT_TAIL then None
        else match (ParseU64(d), ParseU64(g))
        case (Success(dv), Success(gv)) => Some((dv, gv))
        case _ => None
  }

  /** The literal pieces that close the backer and the owner start with an
      escaped quote. */
  lemma EscapedQuoteClosers()
    ensures SCRIPT_AFTER_BACKER == "\\" + SCRIPT_AFTER_BACKER[1..] && SCRIPT_AFTER_BACKER[1] == '"'
    ensures SCRIPT_AFTER_OWNER == "\\" + SCRIPT_AFTER_OWNER[1..] && SCRIPT_AFTER_OWNER[1] == '"'
  {
  }

  lemma NonDigitNotInDigits(s: string, c: char)
    requires AllDigits(s) && !IsDigit(c)
    ensures c !in s
  {
  }

  lemma ReadAfterOwnerOf(deadline: U64, goal: U64)
    ensures ReadAfterOwner(SCRIPT_AFTER_OWNER[1..] + (ToDecimal(deadline) + (SCRIPT_AFTER_DEADLINE + (ToDecimal(goal) + SCRIPT_TAIL))))
         == Some((deadline, goal))
  {
    var d, g := ToDecimal(deadline), ToDecimal(goal);
    var r := SCRIPT_AFTER_DEADLINE + (g + SCRIPT_TAIL);
    DropPrefix(SCRIPT_AFTER_OWNER[1..], d + r);
    assert SCRIPT_AFTER_DEADLINE[0] == ' ';
    NonDigitNotInDigits(d, ' ');
    SplitBeforeConcat(d, ' ', r);
    DropPrefix(SCRIPT_AFTER_DEADLINE, g + SCRIPT_TAIL);
    assert SCRIPT_TAIL[0] == 'L';
    NonDigitNotInDigits(g, 'L');
    SplitBeforeConcat(g, 'L', SCRIPT_TAIL);
    ParseToDecimal(deadline);
    ParseToDecimal(goal);
  }

  lemma ReadAfterBackerOf(owner: string, deadline: U64, goal: U64)
    requires HtmlSafe(owner)
    ensures ReadAfterBacker(SCRIPT_AFTER_BACKER[1..] + (owner + (SCRIPT_AFTER_OWNER
              + (ToDecimal(deadline) + (SCRIPT_AFTER_DEADLINE + (ToDecimal(goal) + SCRIPT_TAIL))))))
         == Some((owner, deadline, goal))
  {
    var q2 := SCRIPT_AFTER_OWNER[1..];
    var rest := ToDecimal(deadline) + (SCRIPT_AFTER_DEADLINE + (ToDecimal(goal) + SCRIPT_TAIL));
    var r := q2 + rest;
    EscapedQuoteClosers();
    Regroup(SCRIPT_AFTER_OWNER, "\\", q2, rest);
    var q1 := SCRIPT_AFTER_BACKER[1..];
    var s := q1 + (owner + ("\\" + r));
    assert s == q1 + (owner + (SCRIPT_AFTER_OWNER + rest));
    DropPrefix(q1, owner + ("\\" + r));
    HtmlSafeHasNoQuote(owner);
    ReadEscapedFieldConcat(owner, r);
    assert ReadEscapedField(s[|q1|..]) == Some((owner, r));
    ReadAfterOwnerOf(deadline, goal);
    assert ReadAfterOwner(r) == Some((deadline, goal));
  }

  /** The script text determines every term substituted into it: reading it
      back yields exactly the backer, the owner address, the deadline and the
      goal it was built from. */
  lemma ReadBuildScript(c: Campaign, backer: string)
    requires HtmlSafe(backer) && HtmlSafe(c.address)
    ensures ReadScript(BuildScript(c, backer)) == Some(ScriptTerms(backer, c.address, c.deadline, c.goal))
  {
    var q1 := SCRIPT_AFTER_BACKER[1..];
    var rest := c.address + (SCRIPT_AFTER_OWNER
                  + (ToDecimal(c.deadline) + (SCRIPT_AFTER_DEADLINE + (ToDecimal(c.goal) + SCRIPT_TAIL))));
    var r := q1 + rest;
    EscapedQuoteClosers();
    Regroup(SCRIPT_AFTER_BACKER, "\\", q1, rest);
    DropPrefix(SCRIPT_HEAD, backer + ("\\" + r));
    HtmlSafeHasNoQuote(backer);
    ReadEscapedFieldConcat(backer, r);
    ReadAfterBackerOf(c.address, c.deadline, c.goal);
  }

  /** Two scripts are the same text only when they were built from the same
      backer, owner address, deadline and goal. */
  lemma ScriptDeterminesTerms(c1: Campaign, backer1: string, c2: Campaign, backer2: string)
    requires HtmlSafe(backer1) && HtmlSafe(c1.address)
    requires HtmlSafe(backer2) && HtmlSafe(c2.address)
    requires BuildScript(c1, backer1) == BuildScript(c2, backer2)
    ensures backer1 == backer2 && c1.address == c2.address
    ensures c1.deadline == c2.deadline && c1.goal == c2.goal
  {
    ReadBuildScript(c1, backer1);
    ReadBuildScript(c2, backer2);
  }

  /** `BackedCampaign::build_script` and `Campaign::build_script` behind the
      one trait: a backed record renders its inner campaign's script. */
  function RecordScript(r: LocalCampaign, backer: string): (script: string)
    requires HtmlSafe(backer) && HtmlSafe(r.Terms().address)
    ensures script == BuildScript(r.Terms(), backer)
  {
    match r
    case Tracked(c) => BuildScript(c, backer)
    case Backed(bc) => BuildScript(bc.campaign, backer)
  }
}
