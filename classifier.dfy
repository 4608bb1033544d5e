/** The account classifier (index.js lines 36-48): the decoded token-account
    records of the wallet are split into the accounts to close (every account
    whose mint is not the protected LIKE token) and, among those, the
    accounts whose balance must be burned first (a positive amount). */
module Classifier {
  import opened Seqs

  /** A Solana public key, identified by its base-58 text. Two keys are equal
      exactly when their 32 bytes are, and base-58 is a bijection on those. */
  datatype Pubkey = Pubkey(base58: string)

  /** SPL token amounts are unsigned 64-bit integers. */
  type u64 = x: int | 0 <= x < 0x1_0000_0000_0000_0000

  /** A decoded token account: its own address, its mint and its balance. */
  datatype Rec = Rec(pubkey: Pubkey, mint: Pubkey, amount: u64)

  /** The mint whose accounts the script never touches. */
  const LIKE_TOKEN: Pubkey := Pubkey("3bRTivrVsitbmCTGtqwp7hxXPsybkjn4XLNtPsHqa3zR")

  predicate Unprotected(r: Rec)
  {
    r.mint != LIKE_TOKEN
  }

  predicate HasBalance(r: Rec)
  {
    r.amount > 0
  }

  /** `accounts`: the records whose mint is not LIKE_TOKEN, in input order. */
  function Eligible(records: seq<Rec>): (accounts: seq<Rec>)
    ensures forall r :: r in accounts <==> r in records && r.mint != LIKE_TOKEN
  {
    FilterSpec(Unprotected, records);
    Filter(Unprotected, records)
  }

  /** `tokensToBurn`: the accounts with a positive balance, in input order. */
  function ToBurn(accounts: seq<Rec>): (tokensToBurn: seq<Rec>)
    ensures forall r :: r in tokensToBurn <==> r in accounts && r.amount > 0
  {
    FilterSpec(HasBalance, accounts);
    Filter(HasBalance, accounts)
  }

  /** Neither filter duplicates or drops a kept record: each survives as
      often as it occurs in its input. */
  lemma ClassifyCounts(records: seq<Rec>)
    ensures forall r :: multiset(Eligible(records))[r] == if r.mint == LIKE_TOKEN then 0 else multiset(records)[r]
    ensures forall r ::
      multiset(ToBurn(Eligible(records)))[r] == if r.mint != LIKE_TOKEN && r.amount > 0 then multiset(records)[r] else 0
  {
    FilterSpec(Unprotected, records);
    FilterSpec(HasBalance, Eligible(records));
  }

  /** Both filters keep input order: classifying a concatenation classifies
      each part and concatenates the results. */
  lemma ClassifyAppend(a: seq<Rec>, b: seq<Rec>)
    ensures Eligible(a + b) == Eligible(a) + Eligible(b)
    ensures ToBurn(Eligible(a + b)) == ToBurn(Eligible(a)) + ToBurn(Eligible(b))
  {
    FilterAppend(Unprotected, a, b);
    FilterAppend(HasBalance, Eligible(a), Eligible(b));
  }

  /** A single record is kept by each filter exactly when it passes that filter. */
  lemma ClassifyOne(r: Rec)
    ensures Eligible([r]) == if r.mint != LIKE_TOKEN then [r] else []
    ensures ToBurn(Eligible([r])) == if r.mint != LIKE_TOKEN && r.amount > 0 then [r] else []
  {
    FilterOne(Unprotected, r);
    FilterOne(HasBalance, r);
    assert Filter(HasBalance, []) == [];
  }

  /** The three classes of a record: protected records are in neither list,
      eligible empty accounts are closed but not burned, and eligible funded
      accounts are in both. */
  lemma ClassifyRecord(records: seq<Rec>, r: Rec)
    requires r in records
    ensures r.mint == LIKE_TOKEN ==> r !in Eligible(records) && r !in ToBurn(Eligible(records))
    ensures r.mint != LIKE_TOKEN && r.amount == 0 ==> r in Eligible(records) && r !in ToBurn(Eligible(records))
    ensures r.mint != LIKE_TOKEN && r.amount > 0 ==> r in Eligible(records) && r in ToBurn(Eligible(records))
  {
  }
}
