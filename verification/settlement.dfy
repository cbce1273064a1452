/**
 * The `split` command: after tax and the repair cost are taken off the income,
 * the rest is shared equally by the leader and the members; the leader is also
 * refunded the repair cost, and the bot's own account pays for everything.
 */
module Settlement {
  import opened Seqs
  import opened Mentions
  import opened Accounts

  /** A tax rate of `num / den` percent (exact, where the bot uses a float). */
  datatype TaxRate = TaxRate(num: int, den: nat)

  /** The settlement figures the command shows. */
  datatype Shares = Shares(
    taxAmount: int,
    distributable: int,
    totalPeople: int,
    perMember: int,
    leaderShare: int)

  /** The settlement shown to the user: who was paid and the figures. */
  datatype Settled = Settled(members: seq<string>, shares: Shares)

  /** `q * b <= a < (q + 1) * b` for the floor `q` of `a / b`. */
  lemma FloorDivBounds(a: int, b: int)
    requires b > 0
    ensures (a / b) * b <= a < (a / b + 1) * b
  {
    assert a == (a / b) * b + a % b;
  }

  /**
   * The settlement arithmetic for `memberCount` paid members: tax rounded down,
   * the distributable rest shared by everyone, rounded down, and the leader's
   * share topped up by the repair cost.
   */
  function SplitShares(income: int, repair: int, rate: TaxRate, memberCount: nat): (s: Shares)
    requires rate.den > 0
    ensures s.taxAmount * (100 * rate.den) <= income * rate.num < (s.taxAmount + 1) * (100 * rate.den)
    ensures s.taxAmount + s.distributable + repair == income
    ensures s.totalPeople == memberCount + 1
    ensures s.perMember * s.totalPeople <= s.distributable < (s.perMember + 1) * s.totalPeople
    ensures s.leaderShare == s.perMember + repair
  {
    var taxAmount := (income * rate.num) / (100 * rate.den);
    var totalPeople := memberCount + 1;
    var distributable := income - repair - taxAmount;
    var perMember := distributable / totalPeople;
    FloorDivBounds(income * rate.num, 100 * rate.den);
    FloorDivBounds(distributable, totalPeople);
    Shares(taxAmount, distributable, totalPeople, perMember, leaderShare := perMember + repair)
  }

  /** What the bot pays out in total: the leader's share and every member's. */
  function Payout(s: Shares, memberCount: nat): int {
    s.leaderShare + memberCount * s.perMember
  }

  /**
   * The payout is the income less the tax less a rounding remainder that is
   * smaller than the number of people sharing.
   */
  lemma PayoutBounds(income: int, repair: int, rate: TaxRate, memberCount: nat)
    requires rate.den > 0
    ensures var s := SplitShares(income, repair, rate, memberCount);
      var rest := income - s.taxAmount - Payout(s, memberCount);
      0 <= rest < memberCount + 1
  {
    var s := SplitShares(income, repair, rate, memberCount);
    MulSucc(memberCount, s.perMember);
  }

  /** Worked example: income 1,000,000, repair 50,000, 5% tax, three members. */
  lemma SplitSharesExample()
    ensures SplitShares(1000000, 50000, TaxRate(5, 1), 3) == Shares(50000, 900000, 4, 225000, 275000)
  {
  }

  /**
   * `d` is `data` after the members `paid` were each registered under their
   * cached nickname and credited `perMember`.
   */
  ghost predicate PaidMembers(d: Ledger, data: Ledger, paid: seq<string>, cache: map<string, string>, perMember: int) {
    && (forall x :: x in d <==> x in data || x in paid)
    && (forall x :: Silver(d, x) == Silver(data, x) + (if x in paid then perMember else 0))
    && (forall x :: x in paid ==> x in d && x in cache && d[x].name == cache[x])
    && (forall x :: x in data && x !in paid ==> d[x] == data[x])
  }

  /** Paying one more member keeps `PaidMembers`. */
  lemma PayOneMore(
    d: Ledger, data: Ledger, paid: seq<string>, cache: map<string, string>, perMember: int, id: string)
    requires PaidMembers(d, data, paid, cache, perMember)
    requires id !in paid && id in cache
    ensures PaidMembers(Credit(Register(d, id, cache[id]), id, perMember), data, paid + [id], cache, perMember)
  {
  }

  /** One more member adds one more share. */
  lemma MulSucc(n: nat, k: int)
    ensures (n + 1) * k == n * k + k
  {
  }

  /** One pass of the member loop: register (or rename) `id` and credit it `perMember`. */
  function PayOne(d: Ledger, id: string, cache: map<string, string>, perMember: int): Ledger
    requires id in cache
  {
    Credit(Register(d, id, cache[id]), id, perMember)
  }

  /** The members `ms`, paid in order. */
  function PayAll(d: Ledger, ms: seq<string>, cache: map<string, string>, perMember: int): Ledger
    requires forall x :: x in ms ==> x in cache
    decreases |ms|
  {
    if ms == [] then d
    else PayOne(PayAll(d, ms[..|ms| - 1], cache, perMember), ms[|ms| - 1], cache, perMember)
  }

  /**
   * Paying distinct members credits each exactly once, renames each, and
   * leaves every other account alone.
   */
  lemma {:induction false} PayAllPaid(data: Ledger, ms: seq<string>, cache: map<string, string>, perMember: int)
    requires NoDup(ms)
    requires forall x :: x in ms ==> x in cache
    ensures PaidMembers(PayAll(data, ms, cache, perMember), data, ms, cache, perMember)
    decreases |ms|
  {
    if ms != [] {
      var p, id := ms[..|ms| - 1], ms[|ms| - 1];
      assert ms == p + [id];
      var d := PayAll(data, p, cache, perMember);
      assert PayAll(data, ms, cache, perMember) == PayOne(d, id, cache, perMember);
      PayAllPaid(data, p, cache, perMember);
      PayOneMore(d, data, p, cache, perMember, id);
    }
  }

  /** Paying the members raises the total by the sum paid. */
  lemma {:induction false} PayAllTotal(data: Ledger, ms: seq<string>, cache: map<string, string>, perMember: int)
    requires forall x :: x in ms ==> x in cache
    ensures Total(PayAll(data, ms, cache, perMember)) == Total(data) + |ms| * perMember
    decreases |ms|
  {
    if ms != [] {
      var p, id := ms[..|ms| - 1], ms[|ms| - 1];
      var d := PayAll(data, p, cache, perMember);
      assert PayAll(data, ms, cache, perMember) == PayOne(d, id, cache, perMember);
      PayAllTotal(data, p, cache, perMember);
      TotalRegister(d, id, cache[id]);
      TotalCredit(Register(d, id, cache[id]), id, perMember);
      var n := |p|;
      assert |ms| == n + 1;
      MulSucc(n, perMember);
    }
  }

  /**
   * The loop over the paid members: register (or rename) each one with the
   * nickname the guild cache shows and credit it `perMember`.
   */
  method PayMembers(data: Ledger, members: seq<string>, cache: map<string, string>, perMember: int)
    returns (d: Ledger)
    requires NoDup(members)
    requires forall x :: x in members ==> x in cache
    ensures PaidMembers(d, data, members, cache, perMember)
    ensures Total(d) == Total(data) + |members| * perMember
  {
    d := data;
    for i := 0 to |members|
      invariant d == PayAll(data, members[..i], cache, perMember)
    {
      var id := members[i];
      assert members[..i + 1][..i] == members[..i];
      d := Register(d, id, cache[id]);
      d := Credit(d, id, perMember);
    }
    assert members[..|members|] == members;
    PayAllPaid(data, members, cache, perMember);
    PayAllTotal(data, members, cache, perMember);
  }

  /**
   * The ledger effect of a settlement: `d` is `data` after the leader got
   * `leaderShare`, each of the distinct members `ms` got `perMember`, and the
   * bot paid the total; the leader and the members carry their current
   * nicknames, the bot keeps its name (or gets `botName` when new), and no
   * other account changes.
   */
  ghost predicate SettledLedger(
    d: Ledger, data: Ledger, leader: string, leaderNickname: string, ms: seq<string>,
    cache: map<string, string>, s: Shares, bot: string, botName: string)
  {
    && SettledBalances(d, data, leader, ms, s, bot)
    && SettledNames(d, data, leader, leaderNickname, ms, cache, bot, botName)
  }

  /** Who holds an account after a settlement, and how much silver each one has. */
  ghost predicate SettledBalances(d: Ledger, data: Ledger, leader: string, ms: seq<string>, s: Shares, bot: string) {
    && (forall x :: x in d <==> x in data || x == leader || x in ms || x == bot)
    && (forall x :: Silver(d, x) == Silver(data, x)
          + (if x == leader then s.leaderShare else 0)
          + (if x in ms then s.perMember else 0)
          - (if x == bot then Payout(s, |ms|) else 0))
  }

  /** The names a settlement leaves, and the accounts it does not touch. */
  ghost predicate SettledNames(
    d: Ledger, data: Ledger, leader: string, leaderNickname: string, ms: seq<string>,
    cache: map<string, string>, bot: string, botName: string)
  {
    && leader in d && d[leader].name == leaderNickname
    && (forall x :: x in ms ==> x in d && x in cache && d[x].name == cache[x])
    && (bot != leader && bot !in ms ==> bot in d && d[bot].name == (if bot in data then data[bot].name else botName))
    && (forall x :: x in data && x != leader && x !in ms && x != bot ==> x in d && d[x] == data[x])
  }

  /**
   * The members a settlement pays: the mentioned ids, without duplicates and
   * without the leader, that resolve to a cached guild member.
   */
  method CollectMembers(memberStr: string, leader: string, cache: map<string, string>)
    returns (members: seq<string>)
    ensures members == Resolve(MentionIds(memberStr, leader), cache)
    ensures NoDup(members) && leader !in members
    ensures forall x :: x in members <==> x in Tokens(memberStr, 0) && x != leader && x in cache
    ensures forall x :: x in members <==> Mentioned(memberStr, x) && x != leader && x in cache
  {
    var memberIds := ScanMentions(memberStr, leader);
    members := Resolve(memberIds, cache);
  }

  /**
   * The ledger half of the `split` command: credit the leader, then each
   * member (registering and renaming each), then debit the bot's account by
   * the total payout, creating it when it is missing.
   */
  method Distribute(
    data: Ledger, leader: string, leaderNickname: string, members: seq<string>,
    cache: map<string, string>, shares: Shares, bot: string, botName: string)
    returns (d: Ledger)
    requires NoDup(members) && leader !in members
    requires forall x :: x in members ==> x in cache
    ensures SettledLedger(d, data, leader, leaderNickname, members, cache, shares, bot, botName)
    ensures Total(d) == Total(data)
  {
    // the leader
    var d0 := Register(data, leader, leaderNickname);
    var d1 := Credit(d0, leader, shares.leaderShare);
    // every member
    var d2 := PayMembers(d1, members, cache, shares.perMember);
    // the bot pays for all of it
    var d3 := if bot in d2 then d2 else d2[bot := Account(0, botName)];
    d := Credit(d3, bot, -Payout(shares, |members|));
    DistributeTotal(data, d0, d1, d2, d3, d, leader, leaderNickname, |members|, shares, bot, botName);
    SettleSteps(data, d0, d1, d2, d3, d, leader, leaderNickname, members, cache, shares, bot, botName);
  }

  /**
   * The `split` command: collect the mentioned members, compute the shares
   * and distribute them. It always commits, and the total silver in the
   * ledger does not change. `cache` maps the ids of the guild's cached members
   * to their shown nicknames; `leaderNickname` and `botName` are the names
   * used when those accounts have to be created.
   */
  method Split(
    data: Ledger, income: int, repair: int, rate: TaxRate,
    leader: string, leaderNickname: string, memberStr: string,
    cache: map<string, string>, bot: string, botName: string)
    returns (out: Outcome<Settled>)
    requires rate.den > 0
    ensures out.Committed?
    ensures out.view.members == Resolve(MentionIds(memberStr, leader), cache)
    ensures out.view.shares == SplitShares(income, repair, rate, |out.view.members|)
    ensures NoDup(out.view.members) && leader !in out.view.members
    ensures forall x :: x in out.view.members <==> Mentioned(memberStr, x) && x != leader && x in cache
    ensures SettledLedger(out.data, data, leader, leaderNickname, out.view.members, cache, out.view.shares, bot, botName)
    ensures Total(out.data) == Total(data)
  {
    var members := CollectMembers(memberStr, leader, cache);
    var shares := SplitShares(income, repair, rate, |members|);
    var d := Distribute(data, leader, leaderNickname, members, cache, shares, bot, botName);
    out := Committed(d, Settled(members, shares));
  }

  /** The bot pays exactly what the leader and the members received. */
  lemma DistributeTotal(
    data: Ledger, d0: Ledger, d1: Ledger, d2: Ledger, d3: Ledger, d4: Ledger,
    leader: string, leaderNickname: string, n: nat, s: Shares, bot: string, botName: string)
    requires d0 == Register(data, leader, leaderNickname)
    requires d1 == Credit(d0, leader, s.leaderShare)
    requires Total(d2) == Total(d1) + n * s.perMember
    requires d3 == if bot in d2 then d2 else d2[bot := Account(0, botName)]
    requires d4 == Credit(d3, bot, -Payout(s, n))
    ensures Total(d4) == Total(data)
  {
    TotalRegister(data, leader, leaderNickname);
    TotalCredit(d0, leader, s.leaderShare);
    TotalUpdate(d2, bot, Account(0, botName));
    TotalCredit(d3, bot, -Payout(s, n));
  }

  /** The four stages of `Distribute` compose to `SettledLedger`. */
  lemma SettleSteps(
    data: Ledger, d0: Ledger, d1: Ledger, d2: Ledger, d3: Ledger, d4: Ledger,
    leader: string, leaderNickname: string, ms: seq<string>,
    cache: map<string, string>, s: Shares, bot: string, botName: string)
    requires leader !in ms
    requires d0 == Register(data, leader, leaderNickname)
    requires d1 == Credit(d0, leader, s.leaderShare)
    requires PaidMembers(d2, d1, ms, cache, s.perMember)
    requires d3 == if bot in d2 then d2 else d2[bot := Account(0, botName)]
    requires d4 == Credit(d3, bot, -Payout(s, |ms|))
    ensures SettledLedger(d4, data, leader, leaderNickname, ms, cache, s, bot, botName)
  {
    SettleBalances(data, d0, d1, d2, d3, d4, leader, leaderNickname, ms, cache, s, bot, botName);
    SettleNames(data, d0, d1, d2, d3, d4, leader, leaderNickname, ms, cache, s, bot, botName);
  }

  /** The account set and every balance after the four stages of `Distribute`. */
  lemma SettleBalances(
    data: Ledger, d0: Ledger, d1: Ledger, d2: Ledger, d3: Ledger, d4: Ledger,
    leader: string, leaderNickname: string, ms: seq<string>,
    cache: map<string, string>, s: Shares, bot: string, botName: string)
    requires leader !in ms
    requires d0 == Register(data, leader, leaderNickname)
    requires d1 == Credit(d0, leader, s.leaderShare)
    requires PaidMembers(d2, d1, ms, cache, s.perMember)
    requires d3 == if bot in d2 then d2 else d2[bot := Account(0, botName)]
    requires d4 == Credit(d3, bot, -Payout(s, |ms|))
    ensures SettledBalances(d4, data, leader, ms, s, bot)
  {
  }

  /** The names after the four stages of `Distribute`, and the accounts they leave alone. */
  lemma SettleNames(
    data: Ledger, d0: Ledger, d1: Ledger, d2: Ledger, d3: Ledger, d4: Ledger,
    leader: string, leaderNickname: string, ms: seq<string>,
    cache: map<string, string>, s: Shares, bot: string, botName: string)
    requires leader !in ms
    requires d0 == Register(data, leader, leaderNickname)
    requires d1 == Credit(d0, leader, s.leaderShare)
    requires PaidMembers(d2, d1, ms, cache, s.perMember)
    requires d3 == if bot in d2 then d2 else d2[bot := Account(0, botName)]
    requires d4 == Credit(d3, bot, -Payout(s, |ms|))
    ensures SettledNames(d4, data, leader, leaderNickname, ms, cache, bot, botName)
  {
  }
}
