/**
 * The credit ledger: one integer balance, initialised from the
 * "user_credits" slot, changed only by the guarded `deductCredits`, and
 * written back to the slot as a decimal string after every change.
 */
module CreditContext {
  import opened Wrappers
  import opened JsText
  import opened Storage

  const DEFAULT_CREDITS: int := 1000

  /**
   * The balance the provider starts with, given what `getItem` returned:
   * the default when nothing (or the empty string) is stored, otherwise
   * the base-10 parse of the stored text; `None` is NaN.
   */
  function InitialCredits(saved: Option<string>): (r: Option<int>)
    ensures saved.None? || saved == Some("") ==> r == Some(DEFAULT_CREDITS)
    ensures saved.Some? && saved.value != "" ==> r == ParseInt(saved.value)
  {
    if saved.Some? && saved.value != "" then ParseInt(saved.value) else Some(DEFAULT_CREDITS)
  }

  /** Re-initialising from the slot the ledger wrote yields the same balance. */
  lemma InitialCreditsRoundTrip(balance: int)
    ensures InitialCredits(Some(IntToString(balance))) == Some(balance)
  {
    ParseIntToString(balance);
  }

  /** The outcome of one `deductCredits` call: whether it went through and the balance after it. */
  datatype Deduction = Deduction(accepted: bool, balance: int)

  /**
   * `deductCredits(amount)` on a balance: it goes through exactly when the
   * balance covers the amount and then takes the amount off; otherwise
   * nothing changes. A non-negative balance stays non-negative, and a
   * negative amount (the purchase flow) always goes through on it and adds
   * its magnitude.
   */
  function Deduct(balance: int, amount: int): (d: Deduction)
    ensures d.accepted <==> amount <= balance
    ensures d.accepted ==> d.balance == balance - amount
    ensures !d.accepted ==> d.balance == balance
    ensures balance >= 0 ==> d.balance >= 0
    ensures balance >= 0 && amount < 0 ==> d.accepted && d.balance == balance + (-amount)
  {
    if balance >= amount then Deduction(true, balance - amount) else Deduction(false, balance)
  }

  /** `CreditProvider`: the `credits` state and the slot its effect writes. */
  class CreditProvider {
    var credits: int
    const store: LocalStorage

    /** The write-through effect has run: the slot holds the balance in decimal. */
    ghost predicate Valid()
      reads this, store
      ensures Valid() ==> InitialCredits(store.userCredits) == Some(credits)
    {
      InitialCreditsRoundTrip(credits);
      store.userCredits == Some(IntToString(credits))
    }

    /**
     * Mounting the provider: the lazy `useState` initialiser, then the
     * effect's first run. Left out: a stored value `parseInt` reads as NaN.
     */
    constructor (store: LocalStorage)
      requires InitialCredits(store.userCredits).Some?
      modifies store
      ensures this.store == store
      ensures Some(credits) == InitialCredits(old(store.userCredits))
      ensures Valid()
      ensures store.creations == old(store.creations)
    {
      credits := InitialCredits(store.userCredits).value;
      this.store := store;
      new;
      PersistCredits();
    }

    /** The `useEffect` on `[credits]`: `localStorage.setItem('user_credits', credits.toString())`. */
    method PersistCredits()
      modifies store
      ensures Valid()
      ensures store.creations == old(store.creations)
    {
      store.userCredits := Some(IntToString(credits));
    }

    /**
     * `deductCredits(amount)`: returns whether it went through (a refusal is
     * what raises the "Not enough credits" notice); the balance and the slot
     * follow `Deduct`.
     */
    method DeductCredits(amount: int) returns (ok: bool)
      requires Valid()
      modifies this, store
      ensures ok == Deduct(old(credits), amount).accepted
      ensures credits == Deduct(old(credits), amount).balance
      ensures Valid()
      ensures store.creations == old(store.creations)
    {
      if credits >= amount {
        credits := credits - amount;
        PersistCredits();
        ok := true;
      } else {
        ok := false;
      }
    }
  }

  /** A fresh store starts at 1000; 500 goes through, then 600 is refused and the balance stays 500. */
  method FreshStoreScenario()
  {
    var store := new LocalStorage(None, None);
    var ledger := new CreditProvider(store);
    assert ledger.credits == 1000;
    var first := ledger.DeductCredits(500);
    assert first && ledger.credits == 500;
    var second := ledger.DeductCredits(600);
    assert !second && ledger.credits == 500;
    assert store.userCredits == Some(IntToString(500));
  }
}
