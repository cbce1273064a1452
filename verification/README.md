# Albion guild bot: the silver ledger

The bot keeps a ledger of silver per Discord user, as a JSON map from a user id
to `{silver, name}`. Four slash commands read or change it:

- `split` settles a guild run. The guild tax is taken off the income, then the
  repair cost. The rest is shared equally by the leader and the members named by
  mention in a free-text field. The leader is also refunded the repair cost, and
  the bot's own account pays for all of it.
- `balance add|remove` is an administrator's adjustment of one user's balance.
- `give` moves silver from the calling user to another user.
- `account` shows one user's balance, registering the user on first use.

This project models that core of `index.js` in Dafny:

- the name extraction `extractNameFromNickname`, built on JavaScript's `trim`
  (module `Names`);
- the mention scan with the regular expression `<@!?(\d+)>` and the guild-cache
  filter (module `Mentions`);
- the ledger with lazy registration and credits (module `Accounts`);
- the settlement arithmetic and the ledger effect of `split` (module `Settlement`);
- the `balance`, `give` and `account` commands (module `Commands`).

Each command runs on the ledger as loaded from the data file. It either
rejects, and nothing is saved, or commits: it saves the new ledger and shows
the values it draws (`Outcome` in `accounts.dfy`).

`Accounts.Total` is the sum of all balances. The model proves that:

- `split` and `give` keep the total unchanged;
- `account` keeps the total unchanged;
- `balance` changes the total by exactly the amount it adds or removes.

Guild members are given as inputs:

- the `cache` map, from a member's id to the nickname shown (nickname, or else
  user name), stands for the guild's member cache;
- the nicknames of the leader, the sender, the receiver and the target stand for
  what the bot fetches from Discord.

## Model

| member | source | states |
|---|---|---|
| Names.Trim | index.js:91-93 | the result is a slice of the input; only white space (ECMAScript WhiteSpace and LineTerminator) lies before and after it; it neither starts nor ends with white space |
| Names.TrimUnique | index.js:91-93 | any cut with those properties equals `Trim`, so the trimmed string is determined |
| Names.TrimKeepsFirst | index.js:91-93 | a string that does not start with white space trims to a non-empty string with the same first character |
| Seqs.IndexOf | index.js:89 | `indexOf`: -1 exactly when the element is absent, otherwise a position that holds it with no earlier occurrence |
| Names.ExtractName | index.js:87-94 | no name exactly for the empty nickname; when the first '(' is past position 0, the trimmed text before it, with no '(' in it; when there is no '(' or it leads, the trimmed whole nickname |
| Names.ExtractNamePresent | index.js:87-94 | a non-empty nickname that does not start with white space always yields a usable (non-null, non-empty) name |
| Names.ExtractNameDecorated | index.js:87-94 | "Ashlynn (Healer)" yields "Ashlynn" |
| Names.ExtractNamePlain | index.js:87-94 | "Ashlynn" yields "Ashlynn" |
| Names.ExtractNameBlankPrefix | index.js:87-94 | "  (Healer)" yields the empty name, which every command treats as unusable |
| Names.DisplayName | index.js:256-258 | the name on the balance card is the extracted name when usable, else the user name, and so is never empty for a non-empty user name |
| Names.Present | index.js:182 | JavaScript truthiness of an extracted name: usable exactly when it is neither `null` nor the empty string (the `!name` tests at index.js:182, 258, 299 and 308; definition; no contract) |
| Mentions.DigitRun | index.js:128 | greedy `\d+`: every character up to the result is an ASCII digit, and the one at the result is not |
| Mentions.MatchAt | index.js:128 | a match found at a position ends inside the string, past the `<@` and at least one digit, and its group is a non-empty digit string |
| Mentions.MatchAtSound | index.js:128 | the text a match spans is exactly a mention token `<@id>` or `<@!id>` carrying its group |
| Mentions.MatchAtComplete | index.js:128 | every mention token `<@id>` or `<@!id>` with a digit id that occurs at a position is matched there, with that id and that end |
| Mentions.TokenLayout | index.js:128 | where the `<@`, the optional `!`, the digit group and the closing `>` of a token occurring at a position lie in the text |
| Mentions.Tokens | index.js:128-130 | every group the global expression yields is a non-empty digit string |
| Mentions.OccursAtStart | index.js:128 | a token occurring in the text starts with `<` |
| Mentions.NoTokenInsideMatch | index.js:128-130 | no `<` lies inside a match after its first character, so matches and later tokens never overlap |
| Mentions.TokensSound | index.js:128-130 | every group the global expression yields from a position on is the id of a `<@id>` or `<@!id>` token at or after that position |
| Mentions.TokensComplete | index.js:128-130 | every `<@id>` or `<@!id>` token with a digit id at or after a position yields its id, because `exec` resuming at `lastIndex` skips no token |
| Mentions.TokensMentioned | index.js:127-132 | the groups of the whole scan are exactly the ids the text mentions |
| Mentions.Exec | index.js:130 | `exec` from `lastIndex`: no match exactly when no position from `lastIndex` on matches, and then no groups remain; otherwise the leftmost match at or after `lastIndex`, whose group comes next, with the remaining groups resuming after its end |
| Mentions.AddId | index.js:131 | the guarded push: the list afterwards holds exactly the old ids, plus `id` unless it is the leader's |
| Mentions.Collect | index.js:130-131 | the fold of the guarded push over the matches: the result holds exactly the old ids and the non-leader matches |
| Mentions.MentionIds | index.js:127-132 | the ids the scan collects from the text: no duplicates, never the leader, exactly the non-leader groups |
| Mentions.CollectContents | index.js:131 | the collected ids hold no duplicates, never the leader, and exactly the matched groups other than the leader |
| Mentions.CollectOrderStep | index.js:131 | collecting one more match keeps the collected ids in first-occurrence order |
| Mentions.CollectOrder | index.js:131 | the collected ids keep the order of their first occurrence in the text |
| Mentions.ScanMentions | index.js:127-132 | the scan loop returns the collected ids: duplicate-free, leader-free, exactly the non-leader groups, which are exactly the non-leader ids mentioned by a `<@id>` or `<@!id>` token in the text, in first-occurrence order |
| Mentions.Resolve | index.js:133 | the cache filter keeps exactly the ids that are cached, never adds, and keeps ids distinct |
| Accounts.Register | index.js:186-190 | lazy registration: the id gets an account under the new name, no balance changes, no other account changes |
| Accounts.Credit | index.js:143 | the id's balance changes by exactly `delta`; its name, the set of accounts and every other balance stay |
| Accounts.Silver | index.js:265 | a user's balance, 0 for an account that does not exist yet (definition; no contract) |
| Accounts.TotalUpdate | index.js:143 | replacing one account changes the sum of balances by the change in that account's balance |
| Accounts.TotalRegister | index.js:186-190 | registration never changes the sum of balances |
| Accounts.TotalCredit | index.js:143 | a credit of `delta` changes the sum of balances by exactly `delta` |
| Settlement.SplitShares | index.js:134-138 | the tax is the floor of income times rate; tax, distributable and repair add up to the income; the head count is members plus one; each member's share is the floor of distributable over the head count; the leader gets that plus the repair cost |
| Settlement.PayoutBounds | index.js:134-152 | what the bot pays out is the income less the tax less a rounding remainder in `0..members` |
| Settlement.Payout | index.js:152 | the bot's debit, the leader's share plus every member's (definition; what it amounts to is stated by `PayoutBounds` and `DistributeTotal`) |
| Settlement.SplitSharesExample | index.js:134-138 | 1,000,000 income, 50,000 repair, 5% tax, three members: tax 50,000, 900,000 to share among 4, 225,000 each, 275,000 to the leader |
| Settlement.PayOneMore | index.js:144-149 | one more pass of the member loop extends the paid-members invariant by that member |
| Settlement.PayOne | index.js:145-148 | one pass of the member loop: register or rename the member from the cache, then credit the share (definition; stated by `PayOneMore`) |
| Settlement.PayAll | index.js:144-149 | the member loop as a fold over the members in order (definition; stated by `PayAllPaid` and `PayAllTotal`, and equal to `PayMembers`' loop) |
| Settlement.PayAllPaid | index.js:144-149 | paying distinct members credits each exactly once, names each with its cached nickname, and touches no one else |
| Settlement.PayAllTotal | index.js:144-149 | paying the members raises the sum of balances by members times the share |
| Settlement.PayMembers | index.js:144-149 | the member loop leaves every member paid and named and every other account alone, and raises the total by the members' shares |
| Settlement.CollectMembers | index.js:127-133 | the paid members are exactly the ids mentioned by a token in the text that are not the leader and are cached, distinct |
| Settlement.DistributeTotal | index.js:141-152 | the leader's credit, the members' credits and the bot's debit cancel, so the total is unchanged |
| Settlement.SettleBalances | index.js:141-152 | after the four stages, the accounts are the old ones plus leader, members and bot, and each balance moved by leader share, member share and minus the payout as it applies |
| Settlement.SettleNames | index.js:141-152 | after the four stages, the leader and the members carry their current nicknames, a bot that is neither keeps its name or gets its user name, and other accounts are untouched |
| Settlement.SettleSteps | index.js:141-152 | the four stages together meet the full settlement relation |
| Settlement.Distribute | index.js:141-152 | the ledger after a settlement meets the settlement relation (balances, names, untouched accounts) and the total is unchanged |
| Settlement.Split | index.js:121-153 | `split` always commits; its members are the resolved mention ids, exactly the mentioned, non-leader, cached ids, its figures are `SplitShares` for that head count, its ledger meets the settlement relation and keeps the total |
| Commands.Balance | index.js:248-278 | non-positive amounts reject first, then unknown actions; otherwise the target is registered or renamed, its balance moves by exactly the amount, the card shows before and after, and the total moves by the same amount |
| Commands.AddThenRemove | index.js:267-274 | removing what was just added restores the target's account, so the ledger is as registration alone leaves it |
| Commands.Give | index.js:285-323 | rejections in the bot's order (self-transfer, sender's name, receiver's name, then balance or amount); it commits exactly when all pass, moves the amount from sender to receiver without overdraft, touches no other account and keeps the total |
| Commands.Query | index.js:177-192 | rejects, with the malformed-name reason, exactly when the extracted name is unusable, and commits exactly when it is usable; a commit registers or renames the user under the raw nickname without changing any balance, and shows the extracted name and the balance |

## Left out

- Discord I/O is not modelled. This covers the replies, embeds and ephemeral flags, the channel-category check (index.js:107-114) and the `ManageGuild` permission checks (index.js:117-120, 244-247). These gate a command before it touches the ledger.
- Fetching a member from the guild (`members.cache.get(...) || members.fetch(...)`) is not modelled. The nickname it yields is an input, and so is the cached map id -> shown nickname. In the bot a failed `members.fetch` (for example for a user who is not in the guild) throws before `saveData`, so the command saves nothing (index.js:179, 255, 293-294). The model assumes every member resolves, so `account`, `balance` and `give` can commit where the bot would abort.
- Reading and writing the data file (`loadData`, `saveData`) are not modelled. A command receives the loaded ledger; `Committed` carries what is saved, and `Rejected` means nothing is saved.
- Canvas drawing (`drawBalanceChangeCard` and the account and transfer cards) is not modelled. Each command returns the values the card draws instead.
- The leader's name in the `split` embed (index.js:154) is display-only and is not modelled.
- SplitShares: the tax rate is the exact rational `num/den` percent. The bot computes `Math.floor(income * (tax / 100))` in binary floating point, which can land one below the exact floor: 100 silver at 29% gives 28 in the bot and 29 here. Integers above 2^53 lose precision in the bot and are exact here.
- Concurrent commands that load and save the same file and can lose each other's updates are not modelled. Each command is one atomic step.
- Strings are sequences of Unicode scalar values, not UTF-16 code units. `trim`, `indexOf('(')` and the ASCII-only mention pattern give the same results on either.
- Options that register-commands.js declares required (`action`, `user`, `amount`, the `split` fields) are always present in the model, so their `null` cases are not modelled.
- register-commands.js itself (the command registration with Discord) is not part of this model.
