/**
 * The silver ledger: user id -> { silver, name }, as the bot keeps it in its
 * data file, and the two-way outcome of every command: rejected (nothing is
 * saved) or committed (the new ledger is saved).
 */
module Accounts {

  datatype Account = Account(silver: int, name: string)

  type Ledger = map<string, Account>

  /** A user's balance; an account that does not exist yet starts at 0. */
  function Silver(l: Ledger, id: string): int {
    if id in l then l[id].silver else 0
  }

  /**
   * Lazy registration: create `{silver: 0, name: nickname}` when the account is
   * missing, otherwise overwrite only its name.
   */
  function Register(l: Ledger, id: string, nickname: string): (r: Ledger)
    ensures r.Keys == l.Keys + {id}
    ensures r[id].name == nickname
    ensures forall x :: Silver(r, x) == Silver(l, x)
    ensures forall x :: x in l && x != id ==> r[x] == l[x]
  {
    if id !in l then l[id := Account(0, nickname)]
    else l[id := l[id].(name := nickname)]
  }

  /** `data[id].silver += delta` on an existing account. */
  function Credit(l: Ledger, id: string, delta: int): (r: Ledger)
    requires id in l
    ensures r.Keys == l.Keys
    ensures r[id].name == l[id].name
    ensures Silver(r, id) == Silver(l, id) + delta
    ensures forall x :: x != id ==> Silver(r, x) == Silver(l, x)
    ensures forall x :: x in l && x != id ==> r[x] == l[x]
  {
    l[id := l[id].(silver := l[id].silver + delta)]
  }

  /** Some account id of a non-empty set of ids. */
  ghost function Pick(ks: set<string>): (k: string)
    requires ks != {}
    ensures k in ks
  {
    var k :| k in ks; k
  }

  /** Sum of the balances of the ids in `ks`. */
  ghost function SumOver(l: Ledger, ks: set<string>): int
    decreases |ks|
  {
    if ks == {} then 0
    else
      var k := Pick(ks);
      Silver(l, k) + SumOver(l, ks - {k})
  }

  /** Sum of all balances: the total silver in circulation. */
  ghost function Total(l: Ledger): int {
    SumOver(l, l.Keys)
  }

  /** Any id may be taken out of the sum first. */
  lemma {:induction false} SumOverRemove(l: Ledger, ks: set<string>, k: string)
    requires k in ks
    ensures SumOver(l, ks) == Silver(l, k) + SumOver(l, ks - {k})
    decreases |ks|
  {
    var j := Pick(ks);
    if j != k {
      SumOverRemove(l, ks - {j}, k);
      SumOverRemove(l, ks - {k}, j);
      assert ks - {j} - {k} == ks - {k} - {j};
    }
  }

  /** The sum over `ks` sees only the balances of the ids in `ks`. */
  lemma {:induction false} SumOverSame(l: Ledger, m: Ledger, ks: set<string>)
    requires forall x :: x in ks ==> Silver(l, x) == Silver(m, x)
    ensures SumOver(l, ks) == SumOver(m, ks)
    decreases |ks|
  {
    if ks != {} {
      SumOverSame(l, m, ks - {Pick(ks)});
    }
  }

  /** Replacing one account changes the total by the change in its balance. */
  lemma TotalUpdate(l: Ledger, k: string, a: Account)
    ensures Total(l[k := a]) == Total(l) - Silver(l, k) + a.silver
  {
    var m := l[k := a];
    SumOverRemove(m, m.Keys, k);
    var rest := l.Keys - {k};
    assert m.Keys - {k} == rest;
    SumOverSame(m, l, rest);
    if k in l {
      SumOverRemove(l, l.Keys, k);
    } else {
      assert l.Keys == rest;
    }
  }

  /** Registration never changes the total. */
  lemma TotalRegister(l: Ledger, id: string, nickname: string)
    ensures Total(Register(l, id, nickname)) == Total(l)
  {
    TotalUpdate(l, id, Account(Silver(l, id), nickname));
  }

  /** A credit of `delta` changes the total by exactly `delta`. */
  lemma TotalCredit(l: Ledger, id: string, delta: int)
    requires id in l
    ensures Total(Credit(l, id, delta)) == Total(l) + delta
  {
    TotalUpdate(l, id, l[id].(silver := l[id].silver + delta));
  }

  /** Why a command was turned down; nothing is saved in any of these cases. */
  datatype Reason =
    | InvalidAmount          // `balance`: amount missing or not above 0
    | UnknownAction          // `balance`: action other than add/remove
    | SelfTransfer           // `give`: sender and receiver are the same user
    | SenderNameMalformed    // `give`: sender's name unusable
    | ReceiverNameMalformed  // `give`: receiver's name unusable
    | InsufficientOrInvalid  // `give`: balance below the amount, or amount not above 0
    | NameMalformed          // `account`: name unusable

  /** A command either saves a new ledger and shows `view`, or is rejected. */
  datatype Outcome<V> = Rejected(reason: Reason) | Committed(data: Ledger, view: V)
}
