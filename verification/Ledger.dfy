/** The append-only chip ledger: balances are derived from its entries and never stored. */
module Ledger {
  import opened Common

  const WELCOME := 100_000

  datatype Reason = Seed | BuyIn | AddOn | CashOut | TournamentBuyIn | TournamentPrize | CosmeticPurchase

  /** One entry; `ref` is the table, tournament or item it refers to. */
  datatype Entry = Entry(id: nat, userId: PlayerId, amount: int, reason: Reason, ref: nat)

  datatype LedgerError = ZeroAmount | InsufficientChips | SeedMustCredit | AmountNotPositive

  datatype Outcome = Appended(log: seq<Entry>) | Refused(error: LedgerError)

  /** The entries of one user, in order. */
  function History(log: seq<Entry>, user: PlayerId): seq<Entry> {
    if log == [] then []
    else
      var last := log[|log| - 1];
      History(log[..|log| - 1], user) + if last.userId == user then [last] else []
  }

  function SumAmounts(log: seq<Entry>): int {
    if log == [] then 0 else SumAmounts(log[..|log| - 1]) + log[|log| - 1].amount
  }

  function Balance(log: seq<Entry>, user: PlayerId): int {
    SumAmounts(History(log, user))
  }

  function AppendTo(log: seq<Entry>, user: PlayerId, amount: int, reason: Reason, ref: nat): Outcome {
    if amount == 0 then Refused(ZeroAmount)
    else if amount < 0 && Balance(log, user) + amount < 0 then Refused(InsufficientChips)
    else if reason.Seed? && amount < 0 then Refused(SeedMustCredit)
    else Appended(log + [Entry(|log| + 1, user, amount, reason, ref)])
  }

  // ---------------------------------------------------------------- what every append keeps

  /** Ids count up from one, without gaps. */
  predicate Numbered(log: seq<Entry>) {
    forall i :: 0 <= i < |log| ==> log[i].id == i + 1
  }

  /** No user's balance was below zero at any moment of the ledger's history. */
  ghost predicate NeverOverdrawn(log: seq<Entry>) {
    forall k: nat, u: PlayerId :: k <= |log| ==> Balance(log[..k], u) >= 0
  }

  /** No user was seeded twice, and every seed is the same amount. */
  predicate SeededOnce(log: seq<Entry>) {
    && (forall i :: 0 <= i < |log| && log[i].reason.Seed? ==> log[i].amount == WELCOME)
    && forall i, j :: 0 <= i < j < |log| && log[i].reason.Seed? && log[j].reason.Seed? ==> log[i].userId != log[j].userId
  }

  /** What every append keeps, whatever its reason. */
  ghost predicate SoundLog(log: seq<Entry>) {
    Numbered(log) && NeverOverdrawn(log)
  }

  ghost predicate GoodLog(log: seq<Entry>) {
    SoundLog(log) && SeededOnce(log)
  }

  lemma BalanceExtends(log: seq<Entry>, e: Entry, u: PlayerId)
    ensures Balance(log + [e], u) == Balance(log, u) + if e.userId == u then e.amount else 0
    ensures SumAmounts(log + [e]) == SumAmounts(log) + e.amount
  {
    assert (log + [e])[..|log|] == log;
    var h := History(log, u);
    assert (h + [e])[..|h|] == h;
    assert h + [] == h;
  }

  /** An append is accepted exactly when it changes something, no seed debits, and nobody becomes overdrawn. */
  lemma AcceptedIff(log: seq<Entry>, user: PlayerId, amount: int, reason: Reason, ref: nat)
    requires NeverOverdrawn(log)
    ensures var e := Entry(|log| + 1, user, amount, reason, ref);
      (AppendTo(log, user, amount, reason, ref) == Appended(log + [e]))
      <==> (amount != 0 && !(reason.Seed? && amount < 0) && NeverOverdrawn(log + [e]))
  {
    hide Balance;
    var e := Entry(|log| + 1, user, amount, reason, ref);
    var next := log + [e];
    assert next[..|next|] == next && log[..|log|] == log;
    BalanceExtends(log, e, user);
    assert Balance(log, user) >= 0;
    if Balance(next, user) >= 0 {
      forall k: nat, u: PlayerId | k <= |next|
        ensures Balance(next[..k], u) >= 0
      {
        if k <= |log| {
          assert next[..k] == log[..k];
        } else {
          assert next[..k] == next;
          BalanceExtends(log, e, u);
          assert Balance(log[..|log|], u) >= 0;
        }
      }
    } else {
      assert !NeverOverdrawn(next) by {
        assert Balance(next[..|next|], user) < 0;
      }
    }
  }

  /** Why an entry is refused: it changes nothing, or it overdraws its user, or else it is a seed that debits. */
  lemma RefusedWith(log: seq<Entry>, user: PlayerId, amount: int, reason: Reason, ref: nat)
    ensures var r := AppendTo(log, user, amount, reason, ref);
      && (r == Refused(ZeroAmount) <==> amount == 0)
      && (r == Refused(InsufficientChips) <==> amount < 0 && Balance(log, user) < 0 - amount)
      && (r == Refused(SeedMustCredit) <==> amount < 0 <= Balance(log, user) + amount && reason.Seed?)
      && r != Refused(AmountNotPositive)
  {
    hide Balance;
  }

  lemma SeededOnceKept(log: seq<Entry>, e: Entry)
    requires SeededOnce(log)
    requires e.reason.Seed? ==> e.amount == WELCOME && History(log, e.userId) == []
    ensures SeededOnce(log + [e])
  {
    if e.reason.Seed? {
      NoHistory(log, e.userId);
    }
  }

  lemma {:induction false} NoHistory(log: seq<Entry>, user: PlayerId)
    ensures History(log, user) == [] <==> forall i :: 0 <= i < |log| ==> log[i].userId != user
  {
    if log != [] {
      var front := log[..|log| - 1];
      NoHistory(front, user);
      assert forall i :: 0 <= i < |front| ==> front[i] == log[i];
    }
  }

  /** One append of any kind: the log stays sound, one balance moves by the amount and no other. */
  lemma AppendKeeps(log: seq<Entry>, user: PlayerId, amount: int, reason: Reason, ref: nat)
    requires SoundLog(log) && AppendTo(log, user, amount, reason, ref).Appended?
    ensures var next := AppendTo(log, user, amount, reason, ref).log;
      && SoundLog(next) && SumAmounts(next) == SumAmounts(log) + amount
      && SeedTotal(next) == SeedTotal(log) + (if reason.Seed? then amount else 0)
      && OutsideTotal(next) == OutsideTotal(log) + (if Outside(reason) then amount else 0)
      && forall u :: Balance(next, u) == Balance(log, u) + if u == user then amount else 0
  {
    hide Balance, NeverOverdrawn;
    var e := Entry(|log| + 1, user, amount, reason, ref);
    AcceptedIff(log, user, amount, reason, ref);
    assert (log + [e])[..|log|] == log;
    forall u
      ensures Balance(log + [e], u) == Balance(log, u) + if u == user then amount else 0
    {
      BalanceExtends(log, e, u);
    }
    BalanceExtends(log, e, user);
  }

  /** Seeds made as `EnsureAccount` makes them also keep users seeded once. */
  lemma AppendKeepsGood(log: seq<Entry>, user: PlayerId, amount: int, reason: Reason, ref: nat)
    requires GoodLog(log) && AppendTo(log, user, amount, reason, ref).Appended?
    requires reason.Seed? ==> amount == WELCOME && History(log, user) == []
    ensures var next := AppendTo(log, user, amount, reason, ref).log;
      && GoodLog(next) && SumAmounts(next) == SumAmounts(log) + amount
      && SeedTotal(next) == SeedTotal(log) + (if reason.Seed? then amount else 0)
      && OutsideTotal(next) == OutsideTotal(log) + (if Outside(reason) then amount else 0)
      && forall u :: Balance(next, u) == Balance(log, u) + if u == user then amount else 0
  {
    hide Balance, SoundLog, SeededOnce;
    AppendKeeps(log, user, amount, reason, ref);
    SeededOnceKept(log, Entry(|log| + 1, user, amount, reason, ref));
  }

  // ---------------------------------------------------------------- seeding

  /** Chips created: what the seeds add up to. */
  function SeedTotal(log: seq<Entry>): int {
    if log == [] then 0
    else
      var last := log[|log| - 1];
      SeedTotal(log[..|log| - 1]) + if last.reason.Seed? then last.amount else 0
  }

  /** Entries of tournaments and the cosmetics shop, which share the ledger with the tables. */
  predicate Outside(r: Reason) {
    r.TournamentBuyIn? || r.TournamentPrize? || r.CosmeticPurchase?
  }

  /** What such entries brought to the players' balances, less what they took. */
  function OutsideTotal(log: seq<Entry>): int {
    if log == [] then 0
    else
      var last := log[|log| - 1];
      OutsideTotal(log[..|log| - 1]) + if Outside(last.reason) then last.amount else 0
  }

  /** The users a log has seeded. */
  function SeededUsers(log: seq<Entry>): set<PlayerId> {
    set i | 0 <= i < |log| && log[i].reason.Seed? :: log[i].userId
  }

  /** Chips are created only by seeding, 100,000 for each seeded user. */
  lemma {:induction false} SeedsAreWelcomes(log: seq<Entry>)
    requires SeededOnce(log)
    ensures SeedTotal(log) == 100_000 * |SeededUsers(log)|
  {
    if log != [] {
      var front, last := log[..|log| - 1], log[|log| - 1];
      SeedsAreWelcomes(front);
      if last.reason.Seed? {
        assert SeededUsers(log) == SeededUsers(front) + {last.userId};
        assert last.userId !in SeededUsers(front);
      } else {
        assert SeededUsers(log) == SeededUsers(front);
      }
    }
  }

  /** `ensureAccount`: a user with no entries yet gets the welcome chips. */
  function Ensured(log: seq<Entry>, user: PlayerId): seq<Entry> {
    if History(log, user) == [] then log + [Entry(|log| + 1, user, WELCOME, Seed, 0)] else log
  }

  /** Ensuring an account never fails, seeds a new user once, and a second time changes nothing. */
  lemma EnsureKeeps(log: seq<Entry>, user: PlayerId)
    requires GoodLog(log)
    ensures var next := Ensured(log, user);
      && GoodLog(next) && SumAmounts(next) - SumAmounts(log) == SeedTotal(next) - SeedTotal(log)
      && OutsideTotal(next) == OutsideTotal(log)
      && Ensured(next, user) == next
      && forall u :: Balance(next, u) == Balance(log, u) + if u == user && History(log, user) == [] then WELCOME else 0
  {
    if History(log, user) == [] {
      AppendKeepsGood(log, user, WELCOME, Seed, 0);
      assert (log + [Entry(|log| + 1, user, WELCOME, Seed, 0)])[..|log|] == log;
    }
  }

  // ---------------------------------------------------------------- balances add up to the log

  function SumBalances(log: seq<Entry>, users: seq<PlayerId>): int {
    if users == [] then 0 else Balance(log, users[0]) + SumBalances(log, users[1..])
  }

  predicate AllUsers(log: seq<Entry>, users: seq<PlayerId>) {
    && (forall i, j :: 0 <= i < j < |users| ==> users[i] != users[j])
    && forall i :: 0 <= i < |log| ==> log[i].userId in users
  }

  lemma {:induction false} SumBalancesExtends(log: seq<Entry>, e: Entry, users: seq<PlayerId>)
    requires forall i, j :: 0 <= i < j < |users| ==> users[i] != users[j]
    ensures SumBalances(log + [e], users) == SumBalances(log, users) + if e.userId in users then e.amount else 0
  {
    hide Balance;
    if users != [] {
      BalanceExtends(log, e, users[0]);
      SumBalancesExtends(log, e, users[1..]);
      assert users == [users[0]] + users[1..];
    }
  }

  lemma {:induction false} NoEntries(users: seq<PlayerId>)
    ensures SumBalances([], users) == 0
  {
    if users != [] {
      NoEntries(users[1..]);
    }
  }

  /** All balances together are the sum of all entries. */
  lemma {:induction false} BalancesAreEntries(log: seq<Entry>, users: seq<PlayerId>)
    requires AllUsers(log, users)
    ensures SumBalances(log, users) == SumAmounts(log)
  {
    if log == [] {
      NoEntries(users);
    } else {
      var front, last := log[..|log| - 1], log[|log| - 1];
      assert log == front + [last];
      assert last.userId in users;
      BalancesAreEntries(front, users);
      SumBalancesExtends(front, last, users);
    }
  }

  // ---------------------------------------------------------------- the ledger

  class ChipLedger {
    var entries: seq<Entry>
    var nextId: nat

    ghost predicate Valid()
      reads this
    {
      SoundLog(entries) && nextId == |entries| + 1
    }

    constructor ()
      ensures Valid() && entries == []
    {
      entries := [];
      nextId := 1;
    }

    /** `append`: refused, or one entry with the next id. */
    method Append(user: PlayerId, amount: int, reason: Reason, ref: nat) returns (error: Option<LedgerError>)
      requires Valid()
      modifies this
      ensures Valid()
      ensures match AppendTo(old(entries), user, amount, reason, ref)
              case Appended(log) => error == None && entries == log
              case Refused(e) => error == Some(e) && entries == old(entries)
    {
      if amount == 0 {
        return Some(ZeroAmount);
      }
      if amount < 0 && Balance(entries, user) + amount < 0 {
        return Some(InsufficientChips);
      }
      if reason.Seed? && amount < 0 {
        return Some(SeedMustCredit);
      }
      AppendKeeps(entries, user, amount, reason, ref);
      var entry := Entry(nextId, user, amount, reason, ref);
      nextId := nextId + 1;
      entries := entries + [entry];
      return None;
    }

    /** The entries after one more, if it was accepted. */
    static function Extended(log: seq<Entry>, accepted: bool, user: PlayerId, amount: int, reason: Reason, ref: nat): seq<Entry> {
      if accepted then log + [Entry(|log| + 1, user, amount, reason, ref)] else log
    }

    /** `buyIn` and `addOn` debit, refused when the user lacks the chips; a negative amount is a credit. */
    method Debit(user: PlayerId, amount: int, reason: Reason, ref: nat) returns (error: Option<LedgerError>)
      requires Valid() && !reason.Seed?
      modifies this
      ensures Valid() && (error.None? <==> amount != 0 && amount <= Balance(old(entries), user))
      ensures entries == Extended(old(entries), error.None?, user, 0 - amount, reason, ref)
    {
      NotOverdrawn(entries, user);
      error := Append(user, 0 - amount, reason, ref);
    }

    static lemma NotOverdrawn(log: seq<Entry>, user: PlayerId)
      requires SoundLog(log)
      ensures Balance(log, user) >= 0
    {
      assert log[..|log|] == log;
    }

    /** `cashOut` credits, and cannot be refused a positive amount; a negative one is a debit. */
    method CashOut(user: PlayerId, amount: int, ref: nat) returns (error: Option<LedgerError>)
      requires Valid()
      modifies this
      ensures Valid() && (error.None? <==> amount != 0 && Balance(old(entries), user) + amount >= 0)
      ensures amount > 0 ==> error.None?
      ensures entries == Extended(old(entries), error.None?, user, amount, Reason.CashOut, ref)
    {
      NotOverdrawn(entries, user);
      error := Append(user, amount, Reason.CashOut, ref);
    }

    /** `cosmeticPurchase` checks the sign itself before it debits. */
    method CosmeticPurchase(user: PlayerId, amount: int, sku: nat) returns (error: Option<LedgerError>)
      requires Valid()
      modifies this
      ensures Valid() && (error.None? <==> 0 < amount <= Balance(old(entries), user))
      ensures amount <= 0 ==> error == Some(AmountNotPositive)
      ensures entries == Extended(old(entries), error.None?, user, 0 - amount, Reason.CosmeticPurchase, sku)
    {
      if amount <= 0 {
        return Some(AmountNotPositive);
      }
      error := Append(user, 0 - amount, Reason.CosmeticPurchase, sku);
    }

    method EnsureAccount(user: PlayerId)
      requires Valid()
      modifies this
      ensures Valid() && entries == Ensured(old(entries), user)
    {
      if History(entries, user) == [] {
        var error := Append(user, WELCOME, Seed, 0);
      }
    }
  }
}
