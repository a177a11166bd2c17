# Cash Money Name Service front end, modelled in Dafny

The page `cashmoney/src/App.js` is a React component that registers `.cashmoney`
domains on a name-service contract on Polygon Mumbai. The user types a domain and up to
six optional records. Minting pays a price that depends on the name's length. The page
then sends `register` and the record setters one after another, awaiting each one. It
lists the minted domains and lets an owner edit the record of one of them.

This project models that page against an abstract chain. The chain is an oracle, the
`Chain.Gateway` value. It says whether a wallet is injected, what each write gives back
(a thrown error or a mined receipt with a status), what each read gives back, and how
the wallet answers a network switch. The modules are:

- `Pricing`: the length-based price as exact wei constants.
- `Chain`: calls, outcomes, reads and the gateway. It also defines `Issue`: send a plan
  of calls in order and stop at the first thrown error.
- `Registration`: what `mintDomain` and `updateDomain` send, as functions of the form and
  the gateway (`MintSequence`, `UpdateSequence`). This includes the fixed setter order
  and the avatar quirk.
- `Sync`: the list that `fetchMints` rebuilds (`Rebuild`, `Refreshed`) and
  JavaScript's `indexOf`.
- `Network`: the wallet requests that `switchNetwork` makes.
- `Display`: the case-insensitive owner check and the shortened wallet address.
- `Frontend`: the component itself. Class `App` has the component's state variables as
  fields. Its methods change them step by step. A ghost `trace` records every
  observable effect in order: calls sent, alerts raised, `loading` toggles and wallet
  requests. The loops that walk the setters and read the names are the state-free
  methods `ApplyFields` and `ReadMints`. Each of these is proved equal to its
  specification function.

Where the code and the behaviour one would expect from its comments differ, the model
follows the code:

- After `wallet_addEthereumChain`, the network switch is not tried again.
- `updateDomain` calls `fetchMints` right away. Only `mintDomain` delays it.
- Setter receipts are awaited, but their status is never inspected. Only `register`'s
  status is checked.
- The empty-name guard is `!domain`. A name of spaces is not empty, and a name of one or
  two spaces raises the length alert.
- `mintDomain` has no wallet check: `new Web3Provider(undefined)` throws inside the
  `try`. The attempt therefore ends as `Aborted`, with nothing sent and no alert.
  `updateDomain` checks `if (ethereum)`, so without a wallet it still raises and lowers
  `loading`.
- The setters for the favourite NFT, Discord, Twitter and favourite song are passed
  `avatar`, not their own field. The model keeps this behaviour (`Registration.Argument`).

## Model

| member | source | states |
|---|---|---|
| Pricing.Price | cashmoney/src/App.js:149-151 | the price is one of the three tiers 0.5, 0.3 and 0.1 MATIC, in wei |
| Pricing.PriceTiers | cashmoney/src/App.js:149-151 | a valid name of 3 characters costs 0.5 MATIC, of 4 costs 0.3, of 5 or more costs 0.1 |
| Pricing.PriceMonotone | cashmoney/src/App.js:149-151 | the price depends only on length and does not increase with it; a later tier is strictly cheaper |
| Display.LowerChar | cashmoney/src/App.js:436 | `toLowerCase` on one character maps A-Z to a-z and leaves every other character alone |
| Display.Lower | cashmoney/src/App.js:436 | `toLowerCase` on a string keeps its length and lower-cases each character in place |
| Display.LowerIdempotent | cashmoney/src/App.js:436 | lower-casing twice is the same as lower-casing once |
| Display.SameOwner | cashmoney/src/App.js:436 | identical strings are the same owner, and the same owner means equal lengths |
| Display.SameOwnerIff | cashmoney/src/App.js:436 | the owner check holds exactly when the lengths are equal and the characters agree pairwise after lower-casing |
| Display.SameOwnerIgnoresCase | cashmoney/src/App.js:436 | an address matches its own lower-case spelling, and the check is symmetric |
| Display.ShortAddress | cashmoney/src/App.js:473 | the label starts with the first 6 characters (fewer if the account is shorter), ends with the last 4, and has "..." between them |
| Display.WalletLabel | cashmoney/src/App.js:473 | the header reads "Not connected" exactly when no account is connected; otherwise it is "Wallet: " followed by the shortened address |
| Display.ShortAddressElidesMiddle | cashmoney/src/App.js:473 | for 10 or more characters, the label is the first 6 characters, "...", then the last 4; putting the middle back gives the address |
| Display.EthereumAddressLabel | cashmoney/src/App.js:473 | a 42-character address shows as "Wallet: " followed by 13 characters |
| Display.ShortAccountRepeats | cashmoney/src/App.js:473 | below 4 characters both slices clamp, so the account shows twice around the dots |
| Chain.Issue | cashmoney/src/App.js:162-232 | the calls sent are a prefix of the plan; all of it when nothing threw; exactly the last call sent threw when the sequence stopped |
| Chain.IssueCompletedIff | cashmoney/src/App.js:171-211 | a plan goes through exactly when none of its calls throws |
| Chain.IssueAppend | cashmoney/src/App.js:171-211 | sending a + b is sending a and then, only if all of a went through, sending b |
| Chain.IssueExtend | cashmoney/src/App.js:171-211 | once a plan has stopped on a thrown error, adding more calls to the plan sends nothing more |
| Registration.Rank | cashmoney/src/App.js:171-211 | each field has one position in the fixed setter order |
| Registration.IssueSettersStep | cashmoney/src/App.js:171-211 | each field either adds nothing, or adds its setter, which goes through or ends the whole setter sequence |
| Registration.Argument | cashmoney/src/App.js:171-211 | every setter except `setRecord` is passed `avatar`, so a setter carries its own field only for power and avatar, or when that field happens to equal the avatar |
| Registration.SetterPlan | cashmoney/src/App.js:171-211 | each setter after a successful register is for a non-empty field, names the domain and carries that field's argument |
| Registration.SetterPlanCount | cashmoney/src/App.js:171-211 | after a successful register, one setter is planned per non-empty optional field |
| Registration.SetterPlanArguments | cashmoney/src/App.js:171-211 | every setter is for a non-empty field and names the domain; `setRecord` carries the power and every other setter carries `avatar` |
| Registration.SetterPlanOrdered | cashmoney/src/App.js:171-211 | setters follow the order power, avatar, NFT, Discord, Twitter, song, so no field is set twice |
| Registration.SetterPlanComplete | cashmoney/src/App.js:171-211 | no non-empty optional field is skipped |
| Registration.MintSequence | cashmoney/src/App.js:140-232 | whatever the chain answers, the calls sent are a prefix of register followed by the setter plan |
| Registration.MintValidation | cashmoney/src/App.js:143-148 | a name shorter than 3 sends nothing; an empty name ends silently, and a name of 1 or 2 characters ends with the length alert |
| Registration.MintRegistersOnce | cashmoney/src/App.js:162-211 | register is the first call, pays the price of the name and is sent once; every later call is a setter for the same domain |
| Registration.MintSettersNeedStatusOne | cashmoney/src/App.js:162-228 | no setter is sent unless register is mined with status 1; another status ends as Failed with register as the only call; a thrown register ends as Aborted |
| Registration.MintCompletedIff | cashmoney/src/App.js:162-225 | an attempt completes exactly when the name is valid, the wallet is present, register is mined with status 1 and no setter throws; it then sent 1 + (number of filled fields) calls |
| Registration.MintAbortStopsAtFailure | cashmoney/src/App.js:162-232 | an aborted attempt that sent something stops right after the call that threw; every earlier call was mined and nothing later is sent |
| Registration.MintPowerOnlyScenario | cashmoney/src/App.js:149-178 | a 3-letter name with only the power filled in, on a chain that mines everything, sends register at 0.5 MATIC and then setRecord |
| Registration.UpdateSequence | cashmoney/src/App.js:281-309 | an update sends at most the one `setRecord(domain, superPwr)`; with an empty power or domain it ends as `Guarded` |
| Registration.UpdateSendsOneRecord | cashmoney/src/App.js:282-294 | nothing is sent when the power or the domain is empty; otherwise, with a wallet, exactly one setRecord is sent; the update completes exactly when that call does not throw |
| Sync.IndexOf | cashmoney/src/App.js:257 | `indexOf` gives the first position of the element, or -1 exactly when the element is absent |
| Sync.Snapshot | cashmoney/src/App.js:252-263 | a name's entry exists exactly when its record, avatar and owner reads all succeed; it carries the name and the three values read, and its id is the name's first occurrence |
| Sync.Collect | cashmoney/src/App.js:252-264 | a successful collection of the first k names has k entries |
| Sync.CollectFailureSticks | cashmoney/src/App.js:252-264 | once a read among the first names fails, the whole rebuild fails |
| Sync.CollectSucceedsIff | cashmoney/src/App.js:252-264 | collecting succeeds exactly when every name's snapshot succeeds |
| Sync.CollectAt | cashmoney/src/App.js:252-264 | entry i of a successful collection is the snapshot of name i |
| Sync.CollectShape | cashmoney/src/App.js:252-264 | a successful collection has one snapshot per name, in enumeration order |
| Sync.RebuildShape | cashmoney/src/App.js:238-271 | a list is published exactly when the wallet is present and every read succeeds; it has one entry per name, in order, with the name's record, avatar and owner, and id = indexOf(name), which is at most the entry's position |
| Sync.RebuildDistinctIds | cashmoney/src/App.js:257 | when the names are distinct, every id is the entry's own position |
| Sync.Rebuild | cashmoney/src/App.js:238-271 | a list is published only with a wallet and a successful `getAllNames`, and it has one entry per enumerated name; an empty registry publishes an empty list, not a failure |
| Sync.Refreshed | cashmoney/src/App.js:238-271 | after `fetchMints` the list is either unchanged or holds one entry per enumerated name; without a wallet it is unchanged |
| Network.SwitchRequests | cashmoney/src/App.js:96-136 | with a wallet, the switch is requested first and once; the Mumbai chain is added exactly when the switch fails with 4902; nothing else is requested and the switch is not retried; without a wallet nothing is requested |
| Frontend.ApplyFields | cashmoney/src/App.js:171-211 | walking the six fields in order sends exactly the calls `Issue` sends for the setter plan, and reports whether all of them went through |
| Frontend.Mint | cashmoney/src/App.js:140-232 | the step-by-step minting walk produces exactly `MintSequence` |
| Frontend.ReadMints | cashmoney/src/App.js:238-271 | the loop over the names produces exactly `Rebuild` |
| Frontend.App.constructor | cashmoney/src/App.js:21-35 | every state variable starts empty: '' strings, no mints, not editing, not loading |
| Frontend.App.Editable | cashmoney/src/App.js:436 | a domain owned by the connected account, spelled the same, gets an edit button; one that gets it has an owner of the same length as the account |
| Frontend.App.WalletStatus | cashmoney/src/App.js:473 | the header shows "Not connected" exactly when no account is connected |
| Frontend.App.MintDomain | cashmoney/src/App.js:140-232 | the trace grows by the calls of `MintSequence` and then its alert; only a completed attempt clears the seven inputs and schedules a resync; otherwise form and flag are unchanged |
| Frontend.App.UpdateDomain | cashmoney/src/App.js:281-309 | with an empty power or domain nothing changes; otherwise loading is raised, the call is made, and loading is lowered whatever the outcome; only success refreshes the list and clears the form |
| Frontend.App.FetchMints | cashmoney/src/App.js:238-271 | the list becomes the rebuilt one, or stays as it was when any read fails |
| Frontend.App.ResetForm | cashmoney/src/App.js:219-225 | all seven inputs become '' |
| Frontend.App.EditRecord | cashmoney/src/App.js:454-458 | edit mode is entered with the domain set to the chosen name; nothing else changes |
| Frontend.App.SwitchNetwork | cashmoney/src/App.js:96-136 | the wallet requests of `SwitchRequests` are made in order, or the missing-wallet alert is raised |

## Left out

- Rendering: JSX, CSS, toasts, `console.log`, the `ToastContainer` settings and the gates
  that decide which form is shown. `App.Editable` and `App.WalletStatus` give only the
  two string rules the list and the header use.
- ethers `Web3Provider`, `Signer` and `Contract`, and the MetaMask `request` calls. The
  `Chain.Gateway` oracle stands in for them.
- `ethers.utils.parseEther`: the three prices are fixed wei constants.
- The two-second `setTimeout` before the resync after a mint. It is modelled only as the
  `resyncScheduled` flag. The resync itself is `FetchMints`.
- `fetchMints` is not awaited in `updateDomain`. The model finishes it before the form is
  reset.
- The `Promise.all` concurrency in `fetchMints`. The reads are made in sequence, and any
  failure abandons the whole list, which is the same all-or-nothing result.
- `connectWallet`, `checkIfWalletIsConnected`, the `chainChanged` reload, the `useEffect`
  triggers and the `networks` chain-id map (`./utils/networks` is not part of this
  model). `currentAccount` and `network` are fields that no modelled operation changes.
- URLs: the RPC and explorer URLs of the add-chain request, the download link in the
  missing-wallet alert, and environment variables such as the contract address.
- Display.LowerChar: lower-cases ASCII letters only. Addresses are hexadecimal, and
  `toLowerCase` on other Unicode letters is not modelled.
- String lengths count characters, not UTF-16 code units. They differ only for names
  outside the Basic Multilingual Plane.
- Chain.Issue: a call's outcome depends only on the call. Within one operation no call
  repeats, so any pattern of outcomes can still be expressed.
