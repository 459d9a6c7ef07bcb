/**
 * Values of the economy-bot ledger: the player profile, the key a profile is
 * stored under, the die helper, and the field updates each ledger operation
 * applies to a profile once its guard has passed. The store-wide money total
 * and the conservation and solvency lemmas about it also live here.
 */
module Player {

  datatype Option<T> = None | Some(value: T)

  /** One player's record in one guild. `timer` is a cooldown marker that no
      operation reads; it is null (None) when the profile is created. */
  datatype Profile = Profile(id: string, wallet: int, bank: int, timer: Option<int>)

  const StartingWallet: int := 500
  const StartingBank: int := 500

  /** The faces of the die used by the dice game. */
  const Dice: seq<int> := [1, 2, 3, 4, 5, 6]

  /** The table of profiles, keyed by `Key(id, guild)`. */
  type Store = map<string, Profile>

  /** The store key of a player's profile in a guild: `${id}_${guild}`. */
  function Key(id: string, guild: string): (k: string) {
    id + "_" + guild
  }

  /** Two different players of the same guild never share a key, so the two
      writes of a transfer land on different records. */
  lemma {:induction false} KeysDistinct(sender: string, receiver: string, guild: string)
    requires sender != receiver
    ensures Key(sender, guild) != Key(receiver, guild)
  {
    var ks, kr := Key(sender, guild), Key(receiver, guild);
    assert ks[..|sender|] == sender;
    assert kr[..|receiver|] == receiver;
    assert |ks| == |kr| ==> |sender| == |receiver|;
  }

  /** Every position of an identifier without '_' precedes the separator. */
  lemma SeparatorFirst(id: string, guild: string)
    requires '_' !in id
    ensures Key(id, guild)[|id|] == '_'
    ensures forall i :: 0 <= i < |id| ==> Key(id, guild)[i] != '_'
  {
    var k := Key(id, guild);
    forall i | 0 <= i < |id| ensures k[i] != '_' {
      assert k[i] == id[i];
    }
  }

  /** For identifiers without '_' (Discord snowflakes are digit strings) the
      key determines both the player and the guild. */
  lemma {:induction false} KeyInjective(a: string, g: string, b: string, h: string)
    requires '_' !in a && '_' !in b
    ensures Key(a, g) == Key(b, h) <==> a == b && g == h
  {
    if Key(a, g) == Key(b, h) {
      var k := Key(a, g);
      SeparatorFirst(a, g);
      SeparatorFirst(b, h);
      assert |a| == |b|;
      assert a == k[..|a|];
      assert b == k[..|b|];
      assert g == k[|a| + 1..];
      assert h == k[|b| + 1..];
    }
  }

  /** Without the restriction to identifiers free of '_', two different
      (player, guild) pairs can share a key. */
  lemma KeyCollision()
    ensures Key("a_b", "c") == Key("a", "b_c")
  {
  }

  /** randomFromArray: the element at index floor(random * |arr|), where
      `random` is a draw of Math.random in [0, 1). */
  function RandomFromArray<T>(arr: seq<T>, random: real): (x: T)
    requires |arr| > 0 && 0.0 <= random < 1.0
    ensures x in arr
  {
    var n := |arr| as real;
    var i := (random * n).Floor;
    assert 0.0 <= random * n < n;
    assert 0 <= i < |arr|;
    arr[i]
  }

  /** The profile createPlayerProfile writes: 500 in wallet and bank, no
      timer. */
  function NewProfile(id: string): (p: Profile)
    ensures p.id == id && p.timer == None
    ensures p.wallet == StartingWallet && p.bank == StartingBank
  {
    Profile(id, StartingWallet, StartingBank, None)
  }

  /** The money a profile holds in wallet and bank together. */
  function Worth(p: Profile): (w: int) {
    p.wallet + p.bank
  }

  /** Moving `amount` from bank to wallet, once `bank >= amount` is known. */
  function Withdrawn(p: Profile, amount: int): (q: Profile)
    requires amount <= p.bank
    ensures q.bank == p.bank - amount && q.bank >= 0
    ensures Worth(q) == Worth(p)
    ensures q.id == p.id && q.timer == p.timer
  {
    var after := p.(wallet := p.wallet + amount);
    after.(bank := after.bank - amount)
  }

  /** Moving `amount` from wallet to bank, once `wallet >= amount` is known. */
  function Deposited(p: Profile, amount: int): (q: Profile)
    requires amount <= p.wallet
    ensures q.wallet == p.wallet - amount && q.wallet >= 0
    ensures Worth(q) == Worth(p)
    ensures q.id == p.id && q.timer == p.timer
  {
    var after := p.(wallet := p.wallet - amount);
    after.(bank := after.bank + amount)
  }

  /** The receiver's side of a transfer. */
  function Credited(p: Profile, amount: int): (q: Profile)
    ensures q.wallet == p.wallet + amount
    ensures Worth(q) == Worth(p) + amount
    ensures q.bank == p.bank && q.id == p.id && q.timer == p.timer
  {
    p.(wallet := p.wallet + amount)
  }

  /** The sender's side of a transfer, once `wallet >= amount` is known. */
  function Debited(p: Profile, amount: int): (q: Profile)
    requires amount <= p.wallet
    ensures q.wallet >= 0
    ensures Worth(q) == Worth(p) - amount
    ensures q.bank == p.bank && q.id == p.id && q.timer == p.timer
  {
    p.(wallet := p.wallet - amount)
  }

  /** A transfer moves money between two wallets and creates none. */
  lemma TransferConservesWallets(sender: Profile, receiver: Profile, amount: int)
    requires amount <= sender.wallet
    ensures Debited(sender, amount).wallet + Credited(receiver, amount).wallet
         == sender.wallet + receiver.wallet
    ensures Credited(receiver, amount).bank == receiver.bank
  {
  }

  /** The number the player plays with: the chosen one when it is a die
      face, otherwise a face drawn with `random`. */
  function Choice(num: int, random: real): (c: int)
    requires 0.0 <= random < 1.0
    ensures c in Dice
    ensures num in Dice ==> c == num
  {
    if num in Dice then num else RandomFromArray(Dice, random)
  }

  /** The face the die lands on for the draw `random`. */
  function Roll(random: real): (face: int)
    requires 0.0 <= random < 1.0
    ensures 1 <= face <= 6
  {
    RandomFromArray(Dice, random)
  }

  /** The wallet after a dice game, once `wallet >= amount` is known: a win
      adds the stake, a loss takes it away. */
  function Settled(p: Profile, amount: int, win: bool): (q: Profile)
    requires amount <= p.wallet
    ensures !win ==> q.wallet >= 0
    ensures Worth(q) == if win then Worth(p) + amount else Worth(p) - amount
    ensures q.bank == p.bank && q.id == p.id && q.timer == p.timer
  {
    if win then p.(wallet := p.wallet + amount) else p.(wallet := p.wallet - amount)
  }

  // ----- The store as a whole -----

  /** Some key of a non-empty store. */
  ghost function Pick(m: Store): (k: string)
    requires m != map[]
    ensures k in m
  {
    var k :| k in m; k
  }

  /** All money held in the store, wallets and banks of every profile. */
  ghost function Total(m: Store): int
    decreases |m|
  {
    if m == map[] then 0
    else
      var k := Pick(m);
      assert |m - {k}| < |m| by { assert (m - {k}).Keys == m.Keys - {k}; }
      Worth(m[k]) + Total(m - {k})
  }

  /** The total can be split at any key, not just the one Total picks. */
  lemma {:induction false} TotalRemove(m: Store, k: string)
    requires k in m
    ensures Total(m) == Worth(m[k]) + Total(m - {k})
    decreases |m|
  {
    var j := Pick(m);
    if j != k {
      assert (m - {j}).Keys == m.Keys - {j};
      assert (m - {k}).Keys == m.Keys - {k};
      TotalRemove(m - {j}, k);
      TotalRemove(m - {k}, j);
      assert m - {j} - {k} == m - {k} - {j};
    }
  }

  /** Replacing the profile at a key changes the total by the change in that
      profile's worth; adding a new key adds the new profile's worth. */
  lemma TotalUpdate(m: Store, k: string, v: Profile)
    ensures Total(m[k := v]) == (if k in m then Total(m) - Worth(m[k]) else Total(m)) + Worth(v)
  {
    TotalRemove(m[k := v], k);
    if k in m {
      TotalRemove(m, k);
      assert m[k := v] - {k} == m - {k};
    } else {
      assert m[k := v] - {k} == m;
    }
  }

  /** Every balance in the store is non-negative. */
  ghost predicate Solvent(m: Store) {
    forall k :: k in m ==> m[k].wallet >= 0 && m[k].bank >= 0
  }

  /** A withdrawal of a non-negative amount keeps both balances
      non-negative. */
  lemma WithdrawnSolvency(p: Profile, amount: int)
    requires amount <= p.bank && p.wallet >= 0 && amount >= 0
    ensures Withdrawn(p, amount).wallet >= 0 && Withdrawn(p, amount).bank >= 0
  {
  }

  /** The code does not refuse a negative amount: withdrawing -1000 from a
      fresh profile passes the bank check and leaves the wallet at -500. */
  lemma NegativeWithdrawal()
    ensures Withdrawn(NewProfile("u1"), -1000).wallet == -500
  {
  }

  /** A deposit of a non-negative amount keeps both balances non-negative. */
  lemma DepositedSolvency(p: Profile, amount: int)
    requires amount <= p.wallet && p.bank >= 0 && amount >= 0
    ensures Deposited(p, amount).wallet >= 0 && Deposited(p, amount).bank >= 0
  {
  }

  /** Likewise depositing -1000 into a fresh profile passes the wallet check
      and leaves the bank at -500. */
  lemma NegativeDeposit()
    ensures Deposited(NewProfile("u1"), -1000).bank == -500
  {
  }
}
