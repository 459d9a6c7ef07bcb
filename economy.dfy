/**
 * The economy-bot ledger: a table of player profiles held in the bot's
 * key-value store, and the operations the bot's commands run on it. Create
 * writes a record without reading it and get only reads; withdraw, deposit,
 * transfer and the dice game load a record, check a guard, change the
 * record's fields and write it back. The returned `Reply` stands for the
 * message the bot shows.
 */
module Economy {
  import opened Player

  /** What an operation reports back to the command that called it. */
  datatype Reply =
    | Ok                   // withdrawal, deposit or transfer done
    | InsufficientBank     // bank balance below the amount
    | InsufficientWallet   // wallet balance below the amount
    | SelfTransfer         // sender and receiver are the same player
    | NoReceiver           // the receiver has no profile in this guild
    | Won(outcome: int)    // dice game won; the face the die landed on
    | Lost(outcome: int)   // dice game lost; the face the die landed on

  /** The profile table in the bot's store, with the ledger operations. */
  class Ledger {
    var store: Store

    constructor ()
      ensures store == map[]
    {
      store := map[];
    }

    /** createPlayerProfile: writes a fresh profile with the starting
        balances and no timer, replacing any profile already at the key. */
    method CreatePlayerProfile(id: string, guild: string)
      modifies this
      ensures store == old(store)[Key(id, guild) := NewProfile(id)]
      ensures Key(id, guild) !in old(store) ==>
                Total(store) == Total(old(store)) + StartingWallet + StartingBank
      ensures Key(id, guild) in old(store) ==>
                Total(store) == Total(old(store)) - Worth(old(store)[Key(id, guild)])
                                + StartingWallet + StartingBank
      ensures old(Solvent(store)) ==> Solvent(store)
    {
      var userProfile := Profile(id, StartingWallet, StartingBank, None);
      ghost var before := store;
      store := store[Key(id, guild) := userProfile];
      TotalUpdate(before, Key(id, guild), userProfile);
    }

    /** getPlayerProfile: the profile at the key, or None when there is
        none; the store is only read. */
    method GetPlayerProfile(id: string, guild: string) returns (p: Option<Profile>)
      ensures p.Some? <==> Key(id, guild) in store
      ensures p.Some? ==> p.value == store[Key(id, guild)]
    {
      var k := Key(id, guild);
      p := if k in store then Some(store[k]) else None;
    }

    /** withdrawPlayerMoney: moves `amount` from bank to wallet, or refuses
        when the bank holds less than `amount`. */
    method WithdrawPlayerMoney(amount: int, id: string, guild: string) returns (r: Reply)
      requires Key(id, guild) in store
      modifies this
      ensures r == Ok || r == InsufficientBank
      ensures r == InsufficientBank <==> old(store)[Key(id, guild)].bank < amount
      ensures r == InsufficientBank ==> store == old(store)
      ensures r == Ok ==>
                store == old(store)[Key(id, guild) := Withdrawn(old(store)[Key(id, guild)], amount)]
      ensures Total(store) == Total(old(store))
      ensures old(Solvent(store)) && amount >= 0 ==> Solvent(store)
    {
      var k := Key(id, guild);
      var userProfile := store[k];
      if userProfile.bank < amount {
        return InsufficientBank;
      }
      userProfile := userProfile.(wallet := userProfile.wallet + amount);
      userProfile := userProfile.(bank := userProfile.bank - amount);
      ghost var before := store;
      store := store[k := userProfile];
      r := Ok;
      TotalUpdate(before, k, userProfile);
      if Solvent(before) && amount >= 0 {
        WithdrawnSolvency(before[k], amount);
      }
    }

    /** depositPlayerMoney: moves `amount` from wallet to bank, or refuses
        when the wallet holds less than `amount`. */
    method DepositPlayerMoney(amount: int, id: string, guild: string) returns (r: Reply)
      requires Key(id, guild) in store
      modifies this
      ensures r == Ok || r == InsufficientWallet
      ensures r == InsufficientWallet <==> old(store)[Key(id, guild)].wallet < amount
      ensures r == InsufficientWallet ==> store == old(store)
      ensures r == Ok ==>
                store == old(store)[Key(id, guild) := Deposited(old(store)[Key(id, guild)], amount)]
      ensures Total(store) == Total(old(store))
      ensures old(Solvent(store)) && amount >= 0 ==> Solvent(store)
    {
      var k := Key(id, guild);
      var userProfile := store[k];
      if userProfile.wallet < amount {
        return InsufficientWallet;
      }
      userProfile := userProfile.(wallet := userProfile.wallet - amount);
      userProfile := userProfile.(bank := userProfile.bank + amount);
      ghost var before := store;
      store := store[k := userProfile];
      r := Ok;
      TotalUpdate(before, k, userProfile);
      if Solvent(before) && amount >= 0 {
        DepositedSolvency(before[k], amount);
      }
    }

    /** sharePlayerMoney: moves `amount` from the sender's wallet to the
        receiver's wallet in the same guild. The refusals are tried in this
        order: same player, sender's wallet too low, receiver has no
        profile. The receiver's record is written first, then the sender's. */
    method SharePlayerMoney(amount: int, sender: string, receiver: string, guild: string)
      returns (r: Reply)
      requires Key(sender, guild) in store
      modifies this
      ensures r in {Ok, SelfTransfer, InsufficientWallet, NoReceiver}
      ensures r == SelfTransfer <==> sender == receiver
      ensures r == InsufficientWallet <==>
                sender != receiver && old(store)[Key(sender, guild)].wallet < amount
      ensures r == NoReceiver <==>
                sender != receiver && old(store)[Key(sender, guild)].wallet >= amount
                && Key(receiver, guild) !in old(store)
      ensures r != Ok ==> store == old(store)
      ensures r == Ok ==>
                && Key(sender, guild) != Key(receiver, guild)
                && store == old(store)
                   [Key(receiver, guild) := Credited(old(store)[Key(receiver, guild)], amount)]
                   [Key(sender, guild) := Debited(old(store)[Key(sender, guild)], amount)]
      ensures r == Ok ==>
                store[Key(sender, guild)].wallet + store[Key(receiver, guild)].wallet
                == old(store)[Key(sender, guild)].wallet + old(store)[Key(receiver, guild)].wallet
      ensures Total(store) == Total(old(store))
      ensures old(Solvent(store)) && amount >= 0 ==> Solvent(store)
    {
      var ks, kr := Key(sender, guild), Key(receiver, guild);
      var senderProfile := store[ks];
      var receiverProfile := if kr in store then Some(store[kr]) else None;

      if sender == receiver {
        return SelfTransfer;
      }
      if senderProfile.wallet < amount {
        return InsufficientWallet;
      }
      if receiverProfile.None? {
        return NoReceiver;
      }
      KeysDistinct(sender, receiver, guild);
      ghost var before := store;

      var credited := receiverProfile.value;
      credited := credited.(wallet := credited.wallet + amount);
      store := store[kr := credited];
      TotalUpdate(before, kr, credited);

      ghost var middle := store;
      senderProfile := senderProfile.(wallet := senderProfile.wallet - amount);
      store := store[ks := senderProfile];
      TotalUpdate(middle, ks, senderProfile);
      TransferConservesWallets(before[ks], before[kr], amount);
      r := Ok;
    }

    /** rollDiceGame: a stake of `amount` on the face `num`. Refused when the
        wallet holds less than the stake; otherwise a `num` that is no die
        face is replaced by a face drawn with `replaceDraw`, the die is rolled
        with `rollDraw`, and the wallet gains the stake on a match and loses
        it otherwise. The two draws stand for the calls to Math.random. */
    method RollDiceGame(num: int, amount: int, id: string, guild: string,
                        replaceDraw: real, rollDraw: real) returns (r: Reply)
      requires Key(id, guild) in store
      requires 0.0 <= replaceDraw < 1.0 && 0.0 <= rollDraw < 1.0
      modifies this
      ensures r == InsufficientWallet <==> old(store)[Key(id, guild)].wallet < amount
      ensures r == InsufficientWallet ==> store == old(store)
      ensures r != InsufficientWallet ==>
                && r == (if Roll(rollDraw) == Choice(num, replaceDraw)
                         then Won(Roll(rollDraw)) else Lost(Roll(rollDraw)))
                && store == old(store)[Key(id, guild) :=
                                         Settled(old(store)[Key(id, guild)], amount, r.Won?)]
      ensures r.Won? || r.Lost? ==> 1 <= r.outcome <= 6
      ensures Total(store) == Total(old(store)) + (if r.Won? then amount
                                                   else if r.Lost? then -amount else 0)
      ensures old(Solvent(store)) && amount >= 0 ==> Solvent(store)
    {
      var k := Key(id, guild);
      var playerProfile := store[k];

      if playerProfile.wallet < amount {
        return InsufficientWallet;
      }

      var choice := num;
      if choice !in Dice {
        choice := RandomFromArray(Dice, replaceDraw);
      }

      var winNum := RandomFromArray(Dice, rollDraw);
      var win := false;
      if winNum == choice {
        win := true;
        playerProfile := playerProfile.(wallet := playerProfile.wallet + amount);
      }
      if winNum != choice {
        win := false;
        playerProfile := playerProfile.(wallet := playerProfile.wallet - amount);
      }

      ghost var before := store;
      store := store[k := playerProfile];
      TotalUpdate(before, k, playerProfile);
      r := if win then Won(winNum) else Lost(winNum);
    }
  }

  /** Creating a profile and then reading it returns exactly the profile
      written. */
  method CreateThenGet(ledger: Ledger, id: string, guild: string) returns (p: Option<Profile>)
    modifies ledger
    ensures p == Some(NewProfile(id))
    ensures ledger.store == old(ledger.store)[Key(id, guild) := NewProfile(id)]
  {
    ledger.CreatePlayerProfile(id, guild);
    p := ledger.GetPlayerProfile(id, guild);
  }

  /** A new profile reads back with 500 in wallet and bank; withdrawing 600
      from it is refused and leaves it as it was. */
  method ScenarioCreateAndWithdraw() returns (created: Option<Profile>, reply: Reply, after: Option<Profile>)
    ensures created == Some(Profile("u1", 500, 500, None))
    ensures reply == InsufficientBank
    ensures after == created
  {
    var ledger := new Ledger();
    ledger.CreatePlayerProfile("u1", "g1");
    created := ledger.GetPlayerProfile("u1", "g1");
    reply := ledger.WithdrawPlayerMoney(600, "u1", "g1");
    after := ledger.GetPlayerProfile("u1", "g1");
  }

  /** Sending 200 from a 500 wallet leaves 300 with the sender and adds 200
      to the receiver; sending to oneself is refused. */
  method ScenarioTransfer() returns (reply: Reply, sender: Option<Profile>, receiver: Option<Profile>, self: Reply)
    ensures reply == Ok
    ensures sender == Some(Profile("u1", 300, 500, None))
    ensures receiver == Some(Profile("u2", 700, 500, None))
    ensures self == SelfTransfer
  {
    var ledger := new Ledger();
    ledger.CreatePlayerProfile("u1", "g1");
    ledger.CreatePlayerProfile("u2", "g1");
    reply := ledger.SharePlayerMoney(200, "u1", "u2", "g1");
    sender := ledger.GetPlayerProfile("u1", "g1");
    receiver := ledger.GetPlayerProfile("u2", "g1");
    self := ledger.SharePlayerMoney(100, "u1", "u1", "g1");
  }

  /** Staking 100 on 3: the draw 0.4 rolls a 3 and the wallet grows to 600;
      on a fresh profile the draw 0.7 rolls a 5 and it shrinks to 400. */
  method ScenarioWager() returns (win: Reply, winner: Option<Profile>, loss: Reply, loser: Option<Profile>)
    ensures win == Won(3) && winner == Some(Profile("u1", 600, 500, None))
    ensures loss == Lost(5) && loser == Some(Profile("u2", 400, 500, None))
  {
    var ledger := new Ledger();
    ledger.CreatePlayerProfile("u1", "g1");
    ledger.CreatePlayerProfile("u2", "g1");
    KeysDistinct("u1", "u2", "g1");
    assert Roll(0.4) == 3 && Roll(0.7) == 5;
    win := ledger.RollDiceGame(3, 100, "u1", "g1", 0.0, 0.4);
    winner := ledger.GetPlayerProfile("u1", "g1");
    loss := ledger.RollDiceGame(3, 100, "u2", "g1", 0.0, 0.7);
    loser := ledger.GetPlayerProfile("u2", "g1");
  }
}
