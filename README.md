# Economy-bot ledger

A Dafny model of the ledger behind the economy-bot template of Robo.js
(`templates/economy-bot/src/utils.ts`). The bot keeps one player profile per
(player, guild) pair in its Flashcore key-value store, under the key
`${id}_${guild}`. A profile holds the player's id, a wallet balance, a bank
balance and an unused cooldown `timer`. Six operations run on that table:
create a profile, read it, withdraw (bank to wallet), deposit (wallet to
bank), send money from one player's wallet to another's, and stake money on
a die roll. Create writes a record without reading or checking anything,
and get only reads. Withdraw, deposit, transfer and the dice game each load
a record, check a guard, change fields of the loaded record and write it
back.

The model has two modules:

- `Player` (`player.dfy`): the `Profile` value, the key function, the
  `randomFromArray` helper, the field updates each operation applies once
  its guard passes (`Withdrawn`, `Deposited`, `Credited`, `Debited`,
  `Settled`), the die helpers (`Choice`, `Roll`), and the total money in a
  store (`Total`) with the lemmas that say how a single write changes it.
- `Economy` (`economy.dfy`): the class `Ledger`, whose field `store` is the
  profile table, with one method per operation written in the same
  order as the source. Get states what it returns and changes nothing.
  Create states the exact new store and how it changes `Total`, for a new
  key and for an overwritten one. Withdraw, deposit, transfer and the dice
  game state the reply they return, the exact new store as a function of
  the old one, how they change `Total`, and that they keep every balance
  non-negative when the amount is non-negative. Four client methods replay
  create-then-get, a refused withdrawal, a transfer with a refused
  self-transfer, and a won and a lost wager.

What the proofs establish:

- Withdraw and deposit conserve `wallet + bank` of the profile, and the
  balance they draw from never goes below zero.
- A transfer conserves the sum of the two wallets, leaves both banks alone,
  and writes two different keys (`KeysDistinct`), so neither write is lost.
- Withdraw, deposit and transfer leave the money in the whole store
  unchanged; a dice game changes it by exactly the stake; creating a
  profile adds 1000, less the worth of any profile it overwrites.
- Refusals (insufficient funds, self-transfer, missing receiver) leave the
  store unchanged, and the transfer refusals are tried in the source's
  order.
- `randomFromArray` always returns an element of its array, so the die
  face and the replacement choice are in 1..6.
- The key `${id}_${guild}` is injective when ids contain no `_` (Discord
  snowflakes are digit strings), and is not injective without that
  restriction (`KeyCollision`).
- Amounts are never validated by the ledger. `NegativeWithdrawal` and
  `NegativeDeposit` show that a negative amount passes the guards and drives
  a balance below zero; the non-negativity results therefore assume a
  non-negative amount. Whether callers validate amounts is not part of this
  model.

## Model

| member | source | states |
|---|---|---|
| Player.KeysDistinct | templates/economy-bot/src/utils.ts:84-117 | different sender and receiver in one guild have different keys, so the transfer's two writes hit different records |
| Player.KeyInjective | templates/economy-bot/src/utils.ts:34 | for ids without `_`, two keys are equal exactly when both the ids and the guilds are equal |
| Player.KeyCollision | templates/economy-bot/src/utils.ts:34 | without that restriction two different (id, guild) pairs can share a key |
| Player.RandomFromArray | templates/economy-bot/src/utils.ts:10 | for a non-empty array and a Math.random draw in [0, 1) the result is an element of the array |
| Player.Withdrawn | templates/economy-bot/src/utils.ts:55-57 | after the bank check, the bank falls by the amount and stays non-negative, wallet + bank is unchanged, id and timer are kept |
| Player.Deposited | templates/economy-bot/src/utils.ts:70-72 | after the wallet check, the wallet falls by the amount and stays non-negative, wallet + bank is unchanged, id and timer are kept |
| Player.NewProfile | templates/economy-bot/src/utils.ts:28-33 | the created record carries the given id, wallet 500, bank 500 and a null timer |
| Player.Credited | templates/economy-bot/src/utils.ts:112 | the receiver's wallet gains exactly the amount, so its wallet + bank grows by the amount; bank, id and timer are kept |
| Player.Debited | templates/economy-bot/src/utils.ts:97-116 | after the wallet check, the sender's wallet stays non-negative and loses exactly the amount; bank, id and timer are kept |
| Player.TransferConservesWallets | templates/economy-bot/src/utils.ts:112-116 | debiting the sender and crediting the receiver keeps the sum of the two wallets and the receiver's bank |
| Player.Choice | templates/economy-bot/src/utils.ts:133-143 | the number played is a die face, and is the player's own number whenever that is a die face |
| Player.Roll | templates/economy-bot/src/utils.ts:146 | the face the die lands on is in 1..6 |
| Player.Settled | templates/economy-bot/src/utils.ts:136-159 | after the wallet check, a win adds the stake and a loss removes it without going below zero; the bank is kept |
| Player.WithdrawnSolvency | templates/economy-bot/src/utils.ts:55-57 | a withdrawal of a non-negative amount from a solvent profile leaves both balances non-negative |
| Player.NegativeWithdrawal | templates/economy-bot/src/utils.ts:55-57 | a withdrawal of -1000 from a new profile passes the check and leaves the wallet at -500 |
| Player.DepositedSolvency | templates/economy-bot/src/utils.ts:70-72 | a deposit of a non-negative amount into a solvent profile leaves both balances non-negative |
| Player.NegativeDeposit | templates/economy-bot/src/utils.ts:70-72 | a deposit of -1000 into a new profile passes the check and leaves the bank at -500 |
| Economy.Ledger.CreatePlayerProfile | templates/economy-bot/src/utils.ts:27-35 | the key holds id, wallet 500, bank 500, no timer, any old profile there replaced; every other key unchanged; the store's money grows by 1000 less the worth of the overwritten profile, if any |
| Economy.Ledger.GetPlayerProfile | templates/economy-bot/src/utils.ts:42-45 | returns the stored profile exactly when the key is present and None otherwise, without changing the store |
| Economy.Ledger.WithdrawPlayerMoney | templates/economy-bot/src/utils.ts:53-60 | refuses exactly when bank < amount and then changes nothing; otherwise only that key changes, to the withdrawn profile; the store's money is unchanged |
| Economy.Ledger.DepositPlayerMoney | templates/economy-bot/src/utils.ts:68-75 | refuses exactly when wallet < amount and then changes nothing; otherwise only that key changes, to the deposited profile; the store's money is unchanged |
| Economy.Ledger.SharePlayerMoney | templates/economy-bot/src/utils.ts:84-121 | self-transfer, then sender wallet < amount, then missing receiver are refused in that order without change; otherwise receiver credited and sender debited on two distinct keys, nothing else changes, the two wallets' sum and the store's money are unchanged |
| Economy.Ledger.RollDiceGame | templates/economy-bot/src/utils.ts:130-169 | refuses exactly when wallet < stake and then changes nothing; otherwise a win exactly when the roll equals the (possibly replaced) choice, the wallet gains or loses the stake, the reported face is in 1..6 and the store's money moves by the stake |
| Economy.CreateThenGet | templates/economy-bot/src/utils.ts:27-45 | reading a just-created profile returns exactly the profile written |
| Economy.ScenarioCreateAndWithdraw | templates/economy-bot/src/utils.ts:27-60 | a new profile reads 500/500; withdrawing 600 is refused and the profile is unchanged |
| Economy.ScenarioTransfer | templates/economy-bot/src/utils.ts:84-121 | sending 200 leaves the sender 300 and the receiver 700; sending to oneself is refused |
| Economy.ScenarioWager | templates/economy-bot/src/utils.ts:130-169 | a stake of 100 on 3 wins when the die shows 3 (wallet 600) and loses when it shows 5 (wallet 400) |

## Left out

- Flashcore's persistence and its asynchronous `get`/`set` are an in-memory map; the backend is not part of this model.
- `JSON.stringify`/`JSON.parse` are the identity: profiles are stored as values.
- `Math.random` is a parameter: each draw is a real in [0, 1), and the probability of each face is not modelled.
- A missing profile for withdraw, deposit, the dice game and the transfer's sender makes the source throw while parsing; the model requires the key to be present instead.
- Interleaving of concurrent commands (the awaits between a read and its write) is not modelled; every operation runs to completion on its own.
- JavaScript number semantics (floating point, a non-integer die choice or amount) are not modelled: amounts and choices are integers.
- Message text and Discord mention formatting are replaced by the `Reply` constructors.
- The second wallet check of sharePlayerMoney (utils.ts:107-109) repeats the one at 97-99 on the same unchanged record and can never fire, so the model has no branch for it.
- Ids are strings; the `Snowflake | number` id type is not distinguished.
- The code has no atomic read-modify-write, does not refuse to recreate an existing profile, has no compensation when the receiver's write fails, and has no delete; the model follows the code: create overwrites (utils.ts:34) and the transfer writes its two records with two plain `set`s (utils.ts:113, 117).
- `packages/robo/src/index.ts` only re-exports framework modules and holds no logic.
