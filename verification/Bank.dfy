/** The replicated bank of mp1/account.py: what the delivered transactions do to the
    balances, and why every node ends up with the same ones. */
module Bank {
  import opened IsisQueue
  import opened IsisSystem
  import opened IsisOrder

  type Balances = map<string, int>

  /** A defaultdict(int): an account that is not there yet holds nothing. */
  function Held(b: Balances, account: string): int {
    if account in b then b[account] else 0
  }

  /** One transaction; reading an account creates it, and a transfer the source
      cannot cover does nothing else. */
  function Apply(b: Balances, tx: Tx): Balances {
    match tx
    case Deposit(account, amount) => b[account := Held(b, account) + amount]
    case Transfer(source, target, amount) =>
      var b1 := b[source := Held(b, source)];
      if b1[source] < amount then b1
      else
        var b2 := b1[source := b1[source] - amount];
        b2[target := Held(b2, target) + amount]
  }

  function Ledger(d: seq<Item>): Balances {
    if d == [] then map[] else Apply(Ledger(d[..|d| - 1]), d[|d| - 1].tx)
  }

  class AccountCtl {
    var balance: Balances

    constructor ()
      ensures balance == map[]
    {
      balance := map[];
    }

    /** self.balance[account]: a missing account is entered with nothing. */
    method Read(account: string) returns (held: int)
      modifies this
      ensures balance == old(balance)[account := Held(old(balance), account)] && held == Held(old(balance), account)
    {
      if account !in balance {
        balance := balance[account := 0];
      }
      held := balance[account];
    }

    method UpdateBalance(tx: Tx)
      modifies this
      ensures balance == Apply(old(balance), tx)
    {
      match tx
      case Deposit(account, amount) =>
        var held := Read(account);
        balance := balance[account := held + amount];
      case Transfer(source, target, amount) =>
        var held := Read(source);
        if held >= amount {
          balance := balance[source := held - amount];
          var there := Read(target);
          balance := balance[target := there + amount];
        }
    }
  }

  // ------------------------------------------------------------------- totals

  ghost function Total(b: Balances): int {
    if b == map[] then 0
    else
      var a :| a in b;
      b[a] + Total(b - {a})
  }

  lemma {:induction false} TotalWithout(b: Balances, a: string)
    requires a in b
    ensures Total(b) == b[a] + Total(b - {a})
    decreases |b|
  {
    var c :| c in b && Total(b) == b[c] + Total(b - {c});
    if c != a {
      TotalWithout(b - {c}, a);
      TotalWithout(b - {a}, c);
      assert b - {c} - {a} == b - {a} - {c};
    }
  }

  lemma TotalUpdate(b: Balances, a: string, x: int)
    ensures Total(b[a := x]) == Total(b) - Held(b, a) + x
  {
    TotalWithout(b[a := x], a);
    assert b[a := x] - {a} == b - {a};
    if a in b {
      TotalWithout(b, a);
    } else {
      assert b - {a} == b;
    }
  }

  /** What a transaction brings in from outside. */
  function Paid(tx: Tx): int {
    if tx.Deposit? then tx.amount else 0
  }

  function Deposits(d: seq<Item>): int {
    if d == [] then 0 else Deposits(d[..|d| - 1]) + Paid(d[|d| - 1].tx)
  }

  /** A transfer moves money, a deposit adds it: nothing else happens to the total. */
  lemma ApplyTotal(b: Balances, tx: Tx)
    ensures Total(Apply(b, tx)) == Total(b) + Paid(tx)
  {
    match tx
    case Deposit(account, amount) => TotalUpdate(b, account, Held(b, account) + amount);
    case Transfer(source, target, amount) =>
      TotalUpdate(b, source, Held(b, source));
      var b1 := b[source := Held(b, source)];
      if b1[source] >= amount {
        TotalUpdate(b1, source, b1[source] - amount);
        var b2 := b1[source := b1[source] - amount];
        TotalUpdate(b2, target, Held(b2, target) + amount);
      }
  }

  // --------------------------------------------------------------- per account

  /** A deposit adds its amount to its account and enters it; nothing else changes. */
  lemma DepositAdds(b: Balances, account: string, amount: int, a: string)
    ensures var b' := Apply(b, Deposit(account, amount));
            && Held(b', a) == Held(b, a) + (if a == account then amount else 0)
            && b'.Keys == b.Keys + {account}
  {
  }

  /** A covered transfer takes exactly its amount from the source and adds it to the
      target, which may be the source; one the source cannot cover moves nothing.  The
      source is entered in any case, the target only if it receives. */
  lemma TransferMoves(b: Balances, source: string, target: string, amount: int, a: string)
    ensures var b', covered := Apply(b, Transfer(source, target, amount)), Held(b, source) >= amount;
            && Held(b', a) == Held(b, a) + (if covered && a == target then amount else 0)
                                         - (if covered && a == source then amount else 0)
            && b'.Keys == b.Keys + {source} + (if covered then {target} else {})
  {
  }

  /** What account a received by deposit. */
  function Deposited(d: seq<Item>, a: string): int
    decreases |d|, 0
  {
    if d == [] then 0
    else
      var tx := d[|d| - 1].tx;
      Deposited(d[..|d| - 1], a) + (if tx.Deposit? && tx.account == a then tx.amount else 0)
  }

  /** The last of the transactions is a transfer that its source can pay. */
  predicate Covered(d: seq<Item>)
    decreases |d|, 0
  {
    d != [] &&
    var tx := d[|d| - 1].tx;
    tx.Transfer? && Worth(d[..|d| - 1], tx.source) >= tx.amount
  }

  /** What account a received by covered transfers. */
  function Incoming(d: seq<Item>, a: string): int
    decreases |d|, 1
  {
    if d == [] then 0
    else
      var tx := d[|d| - 1].tx;
      Incoming(d[..|d| - 1], a) + (if Covered(d) && tx.target == a then tx.amount else 0)
  }

  /** What account a paid by covered transfers. */
  function Outgoing(d: seq<Item>, a: string): int
    decreases |d|, 1
  {
    if d == [] then 0
    else
      var tx := d[|d| - 1].tx;
      Outgoing(d[..|d| - 1], a) + (if Covered(d) && tx.source == a then tx.amount else 0)
  }

  function Worth(d: seq<Item>, a: string): int
    decreases |d|, 2
  {
    Deposited(d, a) + Incoming(d, a) - Outgoing(d, a)
  }

  lemma WorthGrows(d: seq<Item>, a: string)
    requires d != []
    ensures var p, tx := d[..|d| - 1], d[|d| - 1].tx;
            Worth(d, a) == Worth(p, a) + (if tx.Deposit? && tx.account == a then tx.amount else 0)
                                       + (if Covered(d) && tx.target == a then tx.amount else 0)
                                       - (if Covered(d) && tx.source == a then tx.amount else 0)
  {
    var p := d[..|d| - 1];
    assert Worth(p, a) == Deposited(p, a) + Incoming(p, a) - Outgoing(p, a);
  }

  /** An account of the ledger holds its deposits and incoming covered transfers less
      the outgoing ones. */
  lemma {:induction false} LedgerIsWorth(d: seq<Item>, a: string)
    ensures Held(Ledger(d), a) == Worth(d, a)
  {
    if d != [] {
      var p, tx := d[..|d| - 1], d[|d| - 1].tx;
      LedgerIsWorth(p, a);
      WorthGrows(d, a);
      match tx
      case Deposit(account, amount) => DepositAdds(Ledger(p), account, amount, a);
      case Transfer(source, target, amount) =>
        LedgerIsWorth(p, source);
        TransferMoves(Ledger(p), source, target, amount, a);
    }
  }

  ghost predicate NonNegative(b: Balances) {
    forall a :: a in b ==> b[a] >= 0
  }

  /** The total is the sum of all deposits, and with no negative amount no balance
      is ever negative. */
  lemma {:induction false} LedgerSound(d: seq<Item>)
    ensures Total(Ledger(d)) == Deposits(d)
    ensures (forall x :: x in d ==> x.tx.amount >= 0) ==> NonNegative(Ledger(d))
  {
    if d != [] {
      var p := d[..|d| - 1];
      LedgerSound(p);
      ApplyTotal(Ledger(p), d[|d| - 1].tx);
      assert forall x :: x in p ==> x in d;
      assert d[|d| - 1] in d;
    }
  }

  // --------------------------------------------------------------- replication

  function BalancesAt(r: Run, k: nat, v: nat): Balances
    requires k < |r.states| && v < |r.states[k].nodes|
  {
    Ledger(r.states[k].nodes[v].delivered)
  }

  /** Two nodes that have delivered the same number of messages, at whatever
      moments, hold the same balances. */
  lemma Replicated(r: Run, n: nat, v: nat, j: nat, w: nat, k: nat)
    requires IsRun(r, n) && n <= 10 && FreshIds(r) && v < n && w < n
    requires j <= |r.actions| && k <= |r.actions|
    ensures |r.states[j].nodes| == |r.states[k].nodes| == n
    ensures |r.states[j].nodes[v].delivered| == |r.states[k].nodes[w].delivered| ==>
              BalancesAt(r, j, v) == BalancesAt(r, k, w)
  {
    TotalOrder(r, n, v, j, w, k);
    var a, b := r.states[j].nodes[v].delivered, r.states[k].nodes[w].delivered;
    if |a| == |b| {
      assert a == b;
    }
  }

  /** At every moment of every run an account of a node holds what the messages the node
      has delivered deposited there and transferred to it, less what they transferred away. */
  lemma BalanceIsWorth(r: Run, n: nat, v: nat, k: nat, a: string)
    requires IsRun(r, n) && n <= 10 && FreshIds(r) && v < n && k <= |r.actions|
    ensures |r.states[k].nodes| == n
    ensures Held(BalancesAt(r, k, v), a) == Worth(r.states[k].nodes[v].delivered, a)
  {
    DeliveryIntegrity(r, n, v, k);
    LedgerIsWorth(r.states[k].nodes[v].delivered, a);
  }

  ghost predicate AmountsOk(r: Run) {
    forall k :: 0 <= k < |r.actions| && r.actions[k].Send? ==> r.actions[k].tx.amount >= 0
  }

  /** In a run that only sends non-negative amounts no balance of any node is ever
      negative, and the balances sum to the deposits it delivered. */
  lemma NeverOverdrawn(r: Run, n: nat, v: nat, k: nat)
    requires IsRun(r, n) && n <= 10 && FreshIds(r) && AmountsOk(r) && v < n && k <= |r.actions|
    ensures |r.states[k].nodes| == n
    ensures NonNegative(BalancesAt(r, k, v)) && Total(BalancesAt(r, k, v)) == Deposits(r.states[k].nodes[v].delivered)
  {
    DeliveryIntegrity(r, n, v, k);
    var d := r.states[k].nodes[v].delivered;
    forall x | x in d ensures x.tx.amount >= 0 {
      var i :| 0 <= i < |d| && d[i] == x;
      assert SentBefore(r, k, x.id, x.tx);
    }
    LedgerSound(d);
  }
}
