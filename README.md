# Crowdfunding campaign lifecycle, modelled in Dafny

This project models the core of `ergo-crowdfunding-cli`, a command-line tool
that lets a user track crowdfunding campaigns on the Ergo blockchain and back
them from the wallet of a local node.

- A **campaign** (`Campaign`) has a name, an owner address, a deadline block
  height and a goal in whole ERG.
- A **backed campaign** (`BackedCampaign`) is a campaign the user has paid
  into. It records the backer address, the P2S deposit address and every
  backing transaction (`BackingTx`) in order.
- Backing renders the crowdfunding script for the backer and asks the node
  for that script's P2S address. It then pays into that address and saves
  the result locally.

Modules (one file each):

| file | module | models |
|---|---|---|
| `wrappers.dfy` | `Wrappers` | `Option`, `Result`, `Outcome` for the source's options, panics and `expect`s |
| `decimal.dfy` | `Decimal` | `u64`, Rust's `to_string` and `str::parse::<u64>` (a `+` sign, empty text, bad digits, overflow) |
| `text.dfy` | `Text` | cutting at a delimiter, Rust's `str::trim` (Unicode White_Space), the characters Handlebars escapes |
| `templates.dfy` | `Templates` | Handlebars substitution: literal text and `{{key}}` slots; a missing key renders empty |
| `campaigns.dfy` | `Campaigns` | the three records, `Campaign::new`, `CROWDFUND_TEMPLATE`, both `build_script`s, reading a script back |
| `wallet_requests.dfy` | `WalletRequests` | nanoERG conversion, the payment body, `send_wallet_payment`, `get_p2s_address` |
| `storage.dfy` | `Storage` | `clean_path_name`, path building on a `&mut String`, `save`/`save_locally`/`export`/`delete` on a file map, `get_local_campaigns` |
| `backing.dfy` | `Backing` | both `back_campaign` implementations, with the save they end in |
| `selection.dfy` | `Selection` | the numbered menu and the index check of `choose_local_campaign` |

`BackingTx::new` and `BackedCampaign::new` are the datatype constructors of
`Campaigns.BackingTx` and `Campaigns.BackedCampaign`. The `CrowdfundingCampaign`
trait object becomes the datatype `Campaigns.LocalCampaign`, with the variants
`Tracked` and `Backed`.

The node is never called. Its answers are parameters:

- the backer address that the wallet selected;
- the P2S endpoint, as a function from the request body to a reply;
- the payment, in the form `campaign.rs` calls it: a function from the
  deposit address and the amount to `Option<BackingTx>`.

At this revision `src/wallet_reqs.rs` defines `send_wallet_payment` with a
`u32` amount and no result, and does not define the `select_wallet_address`
that `src/campaign.rs:1` imports. The backing model
follows the interface that `src/campaign.rs` uses. The request-body logic of
`wallet_reqs.rs` is modelled on its own in `WalletRequests`.

The model follows the code as written, including these choices:

- A deadline or a goal of `0` is accepted.
- A `+` sign in front of a number is accepted.
- Substituted values are not validated.
- The payment response is printed, never parsed.
- Only whole ERG amounts exist.
- A failure in `Campaign::new`, `get_p2s_address`, the payment or opening a listed file aborts the operation, and nothing is saved. `delete` ignores a missing file, and the listing skips entries it cannot use.

## Model

| member | source | states |
|---|---|---|
| `Decimal.ToDecimal` | src/campaign.rs:90-91 | the decimal text of a number is non-empty digits with no leading zero and denotes exactly that number |
| `Decimal.ParseU64` | src/campaign.rs:54-55 | the parse fails with `Empty` iff the text is empty; it succeeds iff the text, after one optional `+`, is all digits with a value below 2^64, and returns that value; it reports `PosOverflow` iff the leading run of digits already passes `u64::MAX`, and otherwise `InvalidDigit` for any other character |
| `Decimal.OverflowWinsOverLaterBadDigit` | src/campaign.rs:54-55 | digits read left to right that pass `u64::MAX` give `PosOverflow`, whatever follows them |
| `Decimal.OverflowBeforeAnyTail` | src/campaign.rs:54-55 | the digits of any number of 2^64 or more, followed by anything, overflow |
| `Decimal.ParseToDecimal` | src/campaign.rs:135 | parsing what `to_string` printed gives back the same `u64` |
| `Decimal.ToDecimalInjective` | src/campaign.rs:90-91 | different `u64` values never print the same |
| `Decimal.ParseRejectsMinus` | src/campaign.rs:54-55 | an unsigned parse never accepts a leading minus sign |
| `Campaigns.NewCampaign` | src/campaign.rs:53-62 | construction succeeds iff both the deadline and the goal parse as `u64`; the deadline error is reported first; name and address are copied unchanged and the numbers are the parsed values |
| `Campaigns.NewCampaignRoundTrip` | src/campaign.rs:135 | rebuilding a campaign from its name, address and printed numbers gives the same campaign in every field |
| `Templates.RenderCons` | src/campaign.rs:87 | rendering is left to right: a leading segment's text comes first, followed by the rest of the template |
| `Templates.RenderFourSlots` | src/campaign.rs:87-92 | a template with four filled slots renders as its literal parts with the four values between them, in order |
| `Templates.RenderTwoSlots` | src/wallet_reqs.rs:42 | a template with two filled slots renders as its literal parts with the two values between them, in order |
| `Campaigns.BuildScript` | src/campaign.rs:85-95 | the script is the fixed template text with the backer, the owner address, the decimal deadline and the decimal goal in their four slots |
| `Campaigns.ReadBuildScript` | src/campaign.rs:7 | the four terms can be read back from the rendered script exactly as they went in |
| `Campaigns.ScriptDeterminesTerms` | src/campaign.rs:85-95 | two scripts are equal only if they have the same backer, owner, deadline and goal |
| `Campaigns.RecordScript` | src/campaign.rs:161-163 | a backed campaign's script is its inner campaign's script |
| `WalletRequests.WrappingNanoErg` | src/wallet_reqs.rs:36-37 | the `u32` product `amount * 1000000000` is correct iff `amount <= 4` |
| `WalletRequests.WrappingNanoErgAtFive` | src/wallet_reqs.rs:37 | 5 ERG is submitted as 705032704 nanoERG |
| `WalletRequests.NanoErg` | src/wallet_reqs.rs:37 | when there is no overflow, the value is a multiple of 10^9 whose quotient is the amount; overflow is reported exactly above 18446744073 ERG |
| `WalletRequests.PaymentBody` | src/wallet_reqs.rs:38-42 | the body is `[{"address":"` + address + `","value":` + decimal value + ` }]`, with the value unquoted |
| `WalletRequests.ReadPaymentBodyRoundTrip` | src/wallet_reqs.rs:8 | the address and the value can be read back from the body exactly |
| `WalletRequests.SendWalletPayment` | src/wallet_reqs.rs:36-62 | an overflowing amount fails; otherwise the payment passes iff the node receives the body for `amount * 10^9`, and a transport error is the only other failure |
| `WalletRequests.PaymentResponseTextIgnored` | src/wallet_reqs.rs:53-58 | any response counts as sent, whatever its text says |
| `WalletRequests.GetP2sAddress` | src/wallet_reqs.rs:16-33 | the request body is the campaign's script for the backer; the result is the decoded address; a transport error or an undecodable reply is an error, never a default address |
| `WalletRequests.P2sAddressIgnoresName` | src/wallet_reqs.rs:24 | the deposit address depends on the owner, deadline, goal and backer, never on the campaign name |
| `Text.Trim` | src/campaign.rs:102 | the trimmed text is never longer and neither starts nor ends with Unicode whitespace |
| `Text.TrimCutsOnlyWhitespace` | src/campaign.rs:244 | `trim` returns a slice of its input and cuts off only whitespace on either side |
| `Storage.Cleaned` | src/campaign.rs:280-282 | the cleaned path has no space or newline and is never longer |
| `Storage.CleanedAppend` | src/campaign.rs:281 | cleaning a concatenation is the concatenation of the cleaned parts |
| `Storage.CleanedOfClean` | src/campaign.rs:281 | a path without spaces or newlines is left unchanged |
| `Storage.CleanedIdempotent` | src/campaign.rs:281 | cleaning twice is the same as cleaning once |
| `Storage.CleanedKeepsCount` | src/campaign.rs:281 | every other character keeps its number of occurrences |
| `Storage.CleanPathName` | src/campaign.rs:280-282 | the in-place `retain` leaves the cleaned string in the caller's buffer |
| `Storage.PathBuffer.PushStr` | src/campaign.rs:99-100 | `push_str` appends to the caller's string |
| `Storage.SavePath` | src/campaign.rs:98-102 | the file `save` writes has no space or newline in its name, and the name neither starts nor ends with whitespace |
| `Storage.DeletePath` | src/campaign.rs:119-123 | `delete` removes `.storage/campaigns/` + cleaned name + `.campaign` |
| `Storage.SaveTrimIsNoOp` | src/campaign.rs:102 | for a folder that starts with a non-blank character, the trim in `save` changes nothing |
| `Storage.SavePathOf` | src/campaign.rs:98-102 | under a folder without spaces or newlines that starts with a non-blank character, `save` writes to the folder + cleaned name + `.campaign` |
| `Storage.LocalSaveAndDeleteAgree` | src/campaign.rs:119-125 | `save_locally` and `delete` use the same file, `.storage/campaigns/` + cleaned name + `.campaign` |
| `Storage.LocalPath` | src/campaign.rs:176-179 | a record's local file is named after its campaign's name, for both kinds of record |
| `Storage.ExportPath` | src/campaign.rs:113-116 | an export goes to `export/` + cleaned name + `.campaign` |
| `Storage.CampaignStore.Save` | src/campaign.rs:98-104 | the caller's path is extended and cleaned in place, and the record is written at the trimmed path |
| `Storage.CampaignStore.SaveLocally` | src/campaign.rs:107-110 | the record is written at its local path and no other file changes |
| `Storage.CampaignStore.Export` | src/campaign.rs:181-184 | only the inner campaign is exported, at the export path |
| `Storage.CampaignStore.Delete` | src/campaign.rs:118-125 | exactly the record's local file is removed; removing a missing file changes nothing |
| `Storage.EntryRecords` | src/campaign.rs:261-273 | an entry that cannot be opened is an error; a failed entry or an unparsable file adds nothing; a file that parses as a campaign adds it as tracked; otherwise one that parses as a backed campaign adds it as backed |
| `Storage.Listing` | src/campaign.rs:256-277 | the listing holds at most one record per entry, and its only error is an unopenable entry |
| `Storage.ListingOutcome` | src/campaign.rs:256-277 | the listing fails iff some entry cannot be opened; otherwise it has at most one record per entry |
| `Storage.CampaignParseTakesPrecedence` | src/campaign.rs:263-272 | a file that parses as a campaign is listed as tracked, even if it would also parse as backed |
| `Storage.GetLocalCampaigns` | src/campaign.rs:256-277 | an unreadable folder lists nothing; otherwise the loop computes the listing entry by entry, in order |
| `Backing.BackTracked` | src/campaign.rs:128-141 | a P2S failure or a failed payment is an error; on success the backed campaign equals the original campaign, has the fresh backer and deposit addresses, and has exactly the one payment |
| `Backing.BackBacked` | src/campaign.rs:192-206 | on success the history grows by one, the earlier payments are kept in order, the new payment is last, the campaign is unchanged and both addresses are replaced; failures are errors |
| `Backing.BackRecord` | src/campaign.rs:16 | backing either kind of record keeps its campaign and leaves a non-empty history |
| `Backing.BackBackedAddsPayment` | src/campaign.rs:197-200 | backing again appends one payment and raises the total backed by exactly its amount |
| `Backing.BackTwice` | src/campaign.rs:133-200 | backing a campaign and then backing it again yields exactly the two payments, in order |
| `Backing.BackedRecordReplacesFile` | src/campaign.rs:137 | the backed record's file is the original record's file, and it is also the file `delete` removes |
| `Backing.BackCampaign` | src/campaign.rs:128-206 | on success the backed record replaces the record's local file; on any failure no file changes |
| `Selection.ChoiceText` | src/campaign.rs:148-159 | a menu line is the number, `. ` and the campaign's name; a backed record's line, and only such a line, goes on with the note that the user backed it |
| `Selection.ChoiceMenu` | src/campaign.rs:231-235 | the menu lists the records in order, numbered from 1 |
| `Selection.SelectIndex` | src/campaign.rs:245-249 | index `n` is accepted iff `1 <= n <= len`, and then element `n-1` is returned |
| `Selection.ChooseLocalCampaign` | src/campaign.rs:225-253 | no records means no choice; otherwise a record is chosen iff the trimmed line parses to an index in range, and it is that record |
| `Selection.MenuNumberChooses` | src/campaign.rs:231-249 | typing the number shown beside a record, then Enter, chooses that record |
| `Selection.OutOfRangeReprompts` | src/campaign.rs:245-248 | zero and numbers past the end lead to another prompt |

## Left out

- HTTP transport, headers, the API key and the node URL. The node's answers are parameters; `src/api_key.rs` is not part of this model.
- JSON encoding and decoding through serde, and the JSON shape of the P2S reply. A file holds the record value itself, and parsing is an abstract result per directory entry.
- `Campaign::from_file`. It only reads and decodes a file.
- Failures of `File::create`, failures while writing, and the atomicity of a write.
- Handlebars HTML escaping. `BuildScript`, `PaymentBody` and every member that uses them require that the substituted address strings contain none of the characters Handlebars escapes: `<`, `>`, `"`, `&`, `'`, the backtick and `=`. Such strings are inserted verbatim.
- A template render failure in `send_wallet_payment`, which skips the request silently. A fixed template filled with such strings renders without failure.
- `print_info` and every `println!`. Of `print_choice_text`, only the text of the menu line is modelled (`Selection.ChoiceText`).
- The stdin loop, the recursion on bad input and `process::exit` in `choose_local_campaign`. One round of the prompt is modelled, and its outcome says whether it exits, prompts again or chooses.
- Selection.ChooseLocalCampaign: the range check reads the length of a fresh `get_local_campaigns()` listing. The model assumes that this listing has the same length as the menu's. With a concurrent writer, `remove` could then index past the end.
- Selection.ChoiceMenu: the menu counter is a `u32` in the source. Wrap-around past 2^32 records is not modelled.
- Selection.ChooseLocalCampaign: the source parses the line as a `usize`. The model parses it as a `u64`, which is the same on a 64-bit target.
- SendWalletPayment: uses the corrected `u64` conversion (`NanoErg`) rather than the wrapping `u32` product; the as-written product is `WrappingNanoErg`, listed under Findings.
- `select_wallet_address`: `src/campaign.rs:1` imports it, but `src/wallet_reqs.rs` does not define it, so the backer address is an input.
- Storage.GetLocalCampaigns: a directory entry has one "can be opened" flag. The source opens the file a second time before it tries the backed-campaign parse.
- `src/main.rs`: command-line parsing and dispatch.
- Fractional amounts and floating point. The source handles whole ERG only.

## Findings

| source | as written | input that shows it | evidently intended | confidence | as-written member | corrected member |
|---|---|---|---|---|---|---|
| src/wallet_reqs.rs:36-37 | `amount * 1000000000` is computed in `u32`. A debug build panics from 5 ERG up, and a release build wraps modulo 2^32 | `amount = 5` gives 705032704 nanoERG (about 0.7 ERG) instead of 5000000000 | convert whole ERG to nanoERG exactly, on the `u64` amount that `campaign.rs` passes, and report overflow | high (not executed) | `WalletRequests.WrappingNanoErg` | `WalletRequests.NanoErg` |

`WalletRequests.WrappingNanoErgAtFive` shows the wrong value for 5 ERG.
`WalletRequests.SendWalletPayment` uses the corrected conversion.
