/**
 * The `balance`, `give` and `account` commands on a loaded ledger. Each one
 * either rejects (nothing is saved, whatever it had already changed in its
 * in-memory copy) or commits the new ledger together with the values it draws.
 */
module Commands {
  import opened Wrappers
  import opened Names
  import opened Accounts

  /** A balance card: the name drawn, and the balance before and after. */
  datatype Change = Change(name: string, before: int, after: int)

  /** The transfer card: both names and both new balances. */
  datatype Transfer = Transfer(fromName: string, fromSilver: int, toName: string, toSilver: int, amount: int)

  /** The account card: the name drawn and the balance. */
  datatype Statement = Statement(name: string, silver: int)

  /**
   * `balance add|remove @user amount` (an administrator's adjustment): the
   * target is registered or renamed, then `amount` is added or removed with no
   * floor at zero. A non-positive amount, or an action other than "add" or
   * "remove", is rejected.
   */
  method Balance(data: Ledger, action: string, target: string, nickname: string, username: string, amount: int)
    returns (out: Outcome<Change>)
    ensures amount <= 0 ==> out == Rejected(InvalidAmount)
    ensures amount > 0 && action != "add" && action != "remove" ==> out == Rejected(UnknownAction)
    ensures out.Committed? <==> amount > 0 && (action == "add" || action == "remove")
    ensures out.Committed? ==>
      var delta := if action == "add" then amount else -amount;
      && out.view == Change(DisplayName(nickname, username), Silver(data, target), Silver(data, target) + delta)
      && out.data == Credit(Register(data, target, nickname), target, delta)
      && Total(out.data) == Total(data) + delta
  {
    if amount <= 0 {
      return Rejected(InvalidAmount);
    }
    var name := DisplayName(nickname, username);
    var d := Register(data, target, nickname);
    TotalRegister(data, target, nickname);
    var before := d[target].silver;
    var after;
    if action == "add" {
      after := before + amount;
      TotalCredit(d, target, amount);
      d := Credit(d, target, amount);
    } else if action == "remove" {
      after := before - amount;
      TotalCredit(d, target, -amount);
      d := Credit(d, target, -amount);
    } else {
      return Rejected(UnknownAction);
    }
    out := Committed(d, Change(name, before, after));
  }

  /**
   * Removing what was just added restores the account's balance, and leaves
   * the ledger as the registration alone left it.
   */
  lemma AddThenRemove(data: Ledger, target: string, nickname: string, amount: int)
    ensures var added := Credit(Register(data, target, nickname), target, amount);
      Credit(Register(added, target, nickname), target, -amount) == Register(data, target, nickname)
  {
    var r := Register(data, target, nickname);
    var added := Credit(r, target, amount);
    assert Register(added, target, nickname) == added;
    assert Credit(added, target, -amount)[target] == r[target];
  }

  /**
   * `give @user amount` from the calling user. The checks run in the bot's
   * order: a transfer to oneself; the sender's name; the receiver's name; the
   * sender's balance and the amount. Each failure rejects; otherwise the
   * amount moves from the sender to the receiver.
   */
  method Give(data: Ledger, from: string, fromNickname: string, to: string, toNickname: string, amount: int)
    returns (out: Outcome<Transfer>)
    ensures from == to ==> out == Rejected(SelfTransfer)
    ensures from != to && !Present(ExtractName(fromNickname)) ==> out == Rejected(SenderNameMalformed)
    ensures from != to && Present(ExtractName(fromNickname)) && !Present(ExtractName(toNickname)) ==>
      out == Rejected(ReceiverNameMalformed)
    ensures (from != to && Present(ExtractName(fromNickname)) && Present(ExtractName(toNickname)) &&
      (Silver(data, from) < amount || amount <= 0)) ==> out == Rejected(InsufficientOrInvalid)
    ensures out.Committed? <==>
      from != to && Present(ExtractName(fromNickname)) && Present(ExtractName(toNickname))
      && 0 < amount <= Silver(data, from)
    ensures out.Committed? ==>
      && out.data == Credit(Credit(Register(Register(data, from, fromNickname), to, toNickname), from, -amount), to, amount)
      && Silver(out.data, from) == Silver(data, from) - amount >= 0
      && Silver(out.data, to) == Silver(data, to) + amount
      && (forall x :: x != from && x != to ==> Silver(out.data, x) == Silver(data, x))
      && (forall x :: x in data && x != from && x != to ==> x in out.data && out.data[x] == data[x])
      && Total(out.data) == Total(data)
      && out.view == Transfer(ExtractName(fromNickname).value, Silver(out.data, from),
                              ExtractName(toNickname).value, Silver(out.data, to), amount)
  {
    if from == to {
      return Rejected(SelfTransfer);
    }
    var fromName := ExtractName(fromNickname);
    var toName := ExtractName(toNickname);
    if !Present(fromName) {
      return Rejected(SenderNameMalformed);
    }
    var d := Register(data, from, fromNickname);
    TotalRegister(data, from, fromNickname);
    if !Present(toName) {
      return Rejected(ReceiverNameMalformed);
    }
    TotalRegister(d, to, toNickname);
    d := Register(d, to, toNickname);
    if d[from].silver < amount || amount <= 0 {
      return Rejected(InsufficientOrInvalid);
    }
    TotalCredit(d, from, -amount);
    d := Credit(d, from, -amount);
    TotalCredit(d, to, amount);
    d := Credit(d, to, amount);
    out := Committed(d, Transfer(fromName.value, d[from].silver, toName.value, d[to].silver, amount));
  }

  /**
   * `account [@user]`: look a user up, registering them on first use. The
   * stored name is the raw nickname; the drawn name is the extracted one, and
   * an unusable extracted name rejects. No balance changes.
   */
  method Query(data: Ledger, user: string, nickname: string) returns (out: Outcome<Statement>)
    ensures out == Rejected(NameMalformed) <==> !Present(ExtractName(nickname))
    ensures out.Committed? <==> Present(ExtractName(nickname))
    ensures out.Committed? ==>
      && out.data == Register(data, user, nickname)
      && out.data[user] == Account(Silver(data, user), nickname)
      && out.view == Statement(ExtractName(nickname).value, Silver(data, user))
      && Total(out.data) == Total(data)
  {
    var name := ExtractName(nickname);
    if !Present(name) {
      return Rejected(NameMalformed);
    }
    var d := Register(data, user, nickname);
    TotalRegister(data, user, nickname);
    out := Committed(d, Statement(name.value, d[user].silver));
  }
}
