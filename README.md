# RippleLens position ledger and address label, in Dafny

This project models the logic of the RippleLens demo dashboard's client-side session store and one label computation.

- **The session store** (`app/app/store/gameStore.ts`, module `GameStore`). A Zustand store keeps:
  - a list of simulated long/short positions;
  - three realized-PnL accumulators: user, lenders and protocol;
  - append-only lend and borrow records;
  - a few plain fields: user e-mail, score, Flare connection flag and Flare address.

  It is modelled as the class `GameStore.Store`. Each action is a method that replaces the fields the action names, and its `modifies` clause names only those fields. Closing a position does four things:
  - it finds the first position with the id;
  - it computes the directional PnL, `(close − entry)·size` for a long and `(entry − close)·size` for a short;
  - it splits a profit 80/15/5 between user, lenders and protocol, while a loss or a zero goes to the user alone;
  - it filters out every position with that id.

  The settlement arithmetic is the pure function `Settle`, i.e. `Split ∘ DirectionalPnl`. The method `ClosePosition` computes step by step on local totals, as the source does, and is proved equal to `Settle`. The store invariant `Valid()` is proved to hold across every action: both pools are non-negative, and the lenders' total is exactly three times the protocol's. No other contract relies on `Valid()`; it is a property the store keeps, stated and preserved for its own sake.
- **The wallet address label** (`app/app/ripplens/flare/page.tsx`, module `FlarePage`). `ShortAddress` turns an address longer than 10 characters into its first 6 characters, `...` and its last 4. It returns a shorter address unchanged, and a missing or empty address becomes `''`.

Modelling choices:
- JavaScript numbers are Dafny `real`s, so the 80/15/5 shares sum to the PnL exactly.
- Ids are strings and timestamps are integers.
- The generated id (`crypto.randomUUID()`) and the clock (`Date.now()`) are method parameters.
- `Wrappers.Option` stands for `T | null`.

What the code does at its edges:
- Opening a position validates nothing: a non-positive size, a repeated id or a second open position are all accepted (`app/app/store/gameStore.ts:71-77`).
- Closing an unknown id returns the state unchanged (`app/app/store/gameStore.ts:81-82`).
- `find` settles the first match, but `filter` removes every position with that id (`app/app/store/gameStore.ts:81`, `106-108`). `DuplicateIdSession` shows a second same-id position vanishing unsettled.

## Model

| member | source | states |
|---|---|---|
| `GameStore.DirectionalPnl` | app/app/store/gameStore.ts:84-88 | the PnL is `(close − entry)·size` for a long and `(entry − close)·size` for a short, i.e. the price move times the size times the direction's sign. It is 0 when closed at the entry price |
| `GameStore.Settle` | app/app/store/gameStore.ts:84-103 | `Split ∘ DirectionalPnl`: the settlement's PnL is the directional PnL, the three deltas sum to it exactly, the pool deltas are never negative, and a loss or zero goes wholly to the user |
| `GameStore.Split` | app/app/store/gameStore.ts:90-103 | the three deltas sum to the PnL exactly. A profit gives 0.8·pnl, 0.15·pnl and 0.05·pnl to user, lenders and protocol. A loss or a zero gives all of it to the user and nothing to the others. The pool deltas are never negative, and the lenders' delta is three times the protocol's |
| `GameStore.PnlLongShortOpposite` | app/app/store/gameStore.ts:84-88 | a long and a short with the same size and entry realize opposite PnL at every close price. Both realize 0 when closed at the entry price |
| `GameStore.PnlSign` | app/app/store/gameStore.ts:84-88 | for a positive size, a long is profitable iff the price rose, and a short iff the price fell |
| `GameStore.SettleExamples` | app/app/store/gameStore.ts:84-103 | long 10 @ 1.00 closed at 1.10 settles (1.0; 0.8, 0.15, 0.05). Short 5 @ 2.00 closed at 1.50 settles (2.5; 2.0, 0.375, 0.125). A loss of 10 goes wholly to the user |
| `GameStore.Find` | app/app/store/gameStore.ts:81-82 | there is no result iff no position has the id. A result has that id and is in the list |
| `GameStore.FindFirst` | app/app/store/gameStore.ts:81 | the result is the position of lowest index with that id |
| `GameStore.RemoveId` | app/app/store/gameStore.ts:106-108 | a position is in the result iff it was in the list and has a different id. The list never grows |
| `GameStore.RemoveIdAppend` | app/app/store/gameStore.ts:106-108 | filtering a concatenation is the concatenation of the filtered parts |
| `GameStore.RemoveIdKeepsOrder` | app/app/store/gameStore.ts:106-108 | two kept positions stay in their original relative order |
| `GameStore.RemoveIdCount` | app/app/store/gameStore.ts:106-108 | every position with another id is kept with its multiplicity. None with the id remains |
| `GameStore.RemoveIdAbsent` | app/app/store/gameStore.ts:106-108 | with no position of that id, the list is returned unchanged |
| `GameStore.RemoveIdShrinks` | app/app/store/gameStore.ts:81-108 | when `find` succeeds, the filter drops at least one position |
| `GameStore.Store.constructor` | app/app/store/gameStore.ts:47-69 | the initial state: no e-mail, score 0, not connected, no address, no positions, all accumulators 0, no lends or borrows. The invariant holds |
| `GameStore.Store.SetUserEmail` | app/app/store/gameStore.ts:48 | sets the e-mail and changes no other field |
| `GameStore.Store.SetScore` | app/app/store/gameStore.ts:51 | sets the score and changes no other field |
| `GameStore.Store.SetFlareConnected` | app/app/store/gameStore.ts:58 | sets the connection flag and changes no other field |
| `GameStore.Store.SetFlareAddress` | app/app/store/gameStore.ts:59 | sets the address and changes no other field |
| `GameStore.Store.AddPosition` | app/app/store/gameStore.ts:71-77 | the list grows by exactly one. Earlier positions are unchanged and in order. The last one carries the given id, side, size and entry price, with `openedAt = now`. No other field changes |
| `GameStore.Store.ClosePosition` | app/app/store/gameStore.ts:79-113 | an unknown id changes nothing. Otherwise the first match is settled with `Settle`: each accumulator grows by its delta, and no position with the id remains (the list is `RemoveId` of the old one). Lends, borrows and the plain fields are untouched. The lender and protocol totals never decrease. The invariant is kept |
| `GameStore.Store.AddLend` | app/app/store/gameStore.ts:115-121 | appends exactly one record with the amount, id and time to the lends and changes no other field |
| `GameStore.Store.AddBorrow` | app/app/store/gameStore.ts:123-129 | appends exactly one record with the amount, id and time to the borrows and changes no other field |
| `GameStore.LongProfitSession` | app/app/store/gameStore.ts:71-113 | on a fresh store, opening long 10 @ 1.00 and closing at 1.10 leaves 0.8, 0.15 and 0.05 in the pools and no position open |
| `GameStore.ProfitThenLossSession` | app/app/store/gameStore.ts:79-113 | a short profit of 2.5, then a long loss of 10, then an unknown-id close leave user −8, lenders 0.375 and protocol 0.125 |
| `GameStore.DuplicateIdSession` | app/app/store/gameStore.ts:81-108 | with two positions under one id, closing settles only the first (user 0.8) and removes both |
| `FlarePage.ShortAddress` | app/app/ripplens/flare/page.tsx:45-48 | a missing address gives `''`. An address of length ≤ 10 is returned unchanged. A longer one gives a 13-character label: its first 6 characters, `...`, then its last 4. The label is never longer than max(13, length) |
| `FlarePage.ShortAddressIdempotent` | app/app/ripplens/flare/page.tsx:45-48 | shortening a label again returns the same label |
| `FlarePage.ShortAddressSameLabel` | app/app/ripplens/flare/page.tsx:45-47 | two long addresses get the same label iff they agree on their first 6 and last 4 characters |

## Left out

- IEEE-754 rounding: the shares are exact reals, so the model does not reproduce the floating-point drift of `pnl * 0.8` and the other two. The exact sum of the shares and `Valid()`'s 3:1 ratio of lenders to protocol are properties of the real-number model; with JavaScript doubles `0.15 * pnl` and `3 * (0.05 * pnl)` can differ.
- `FlarePage.ShortAddress`: JavaScript's `length` and `slice` count UTF-16 code units, but the model counts Dafny characters (Unicode scalar values). Addresses are hex strings, where the two agree.
- Id and timestamp generation (`crypto.randomUUID`, `Date.now`) are foreign calls, so the model takes them as parameters.
- Zustand's subscription and re-render machinery around `set` is library code. The model only keeps its "replace the named fields" semantics.
- Wallet connection (`app/app/lib/wallets.ts`), the `localStorage` restore effect and `handleConnect` in `app/app/ripplens/flare/page.tsx` are browser and MetaMask I/O.
- The price endpoint (`app/app/api/fxrp-price/route.ts`) is an RPC contract read plus a float conversion with a fallback value. It is network I/O and floating point.
- The chat route (`app/app/api/chat/route.ts`) only forwards a prompt to an external language-model SDK.
- Chain, wagmi, hardhat and Next.js configuration and the deploy script are static configuration.
- The page and component markup is rendering only.
- Not modelled, because the store and the page contain none of them: a volatility classifier, a price history or polling loop, a gate deciding whether a trade may be opened, size or single-position validation, and error results for unknown ids.
