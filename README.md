# Epic game web client — a Dafny model

This project models the client-side logic of a single-page web app for an on-chain NFT game. A user connects a browser wallet, mints a character NFT from the contract's roster, and then attacks a shared boss. The model covers four parts:

- **The record normaliser** (`transformCharacterData`). It turns the contract's wire record into the in-memory one. Big-integer fields become numbers. A `defense` key selects the playable shape. The optional critical-hit fields pass through unchanged.
- **The session** (`App`). It holds two state fields, `currentAccount` and `characterNFT`. Three actions write them: the silent account check on mount, the prompted wallet connect, and the owned-character lookup. `renderContent` picks exactly one of three screens from the two fields.
- **The arena**. It holds the boss record and a presentational `attackState` flag (`""`, `"attacking"`, `"hit"`). It has the attack action and the `AttackComplete` handler, which overwrites only `hp` on the boss and on the player's record.
- **The character selection**. The roster is the element-wise normalisation of the contract's list. A mint button submits its own index. The `CharacterNFTMinted` handler reports the roster entry at the event's index.

The wallet (`window.ethereum`) and the contract (`ethers`) appear only as inputs. `Chain.Reply` is what an awaited call returned, or that it threw. `Chain.TxOutcome` is how a submitted transaction ended. `App.Wallet` says whether a provider exists and what its account request gave. Each handler runs as one atomic step.

Modules: `Wrappers` (Option), `Chain` (the inputs), `Constants` (src/constants.ts), `App` (src/App.tsx), `Arena` (src/Components/Arena/index.tsx), `SelectCharacter` (src/Components/SelectCharacter/index.tsx).

Modelling choices:

- **Optional keys.** A JavaScript optional key is a `Slot`: `Missing`, `Undefined` or `Present(v)`. The `in` test at src/constants.ts:35 tells `Missing` from `Undefined`; reading the key does not.
- **Number conversion.** `BigNumber.toNumber()` is partial. It succeeds exactly when the magnitude is at most 2^53 - 1. Every caller treats a failed conversion as a throw and leaves its state unchanged.
- **Truthiness.** An account is "set" when it is present and not the empty string. A character record is truthy whenever it is present.
- **Child components.** `Arena` and `SelectCharacter` hold a reference to the `App` component. They write the player's record through its setter, which is the source's `setCharacterNFT` prop.
- **Session traces.** `App.Step`/`App.Run` replay a session as a sequence of events. Each event is gated by the screen that owns its handler. On top of them the model proves that a connected account never changes and that a character is never held without an account.

The model keeps three behaviours of the code that are easy to miss:

- **Failed connect.** Only a missing provider raises an alert. A rejected prompt is caught and logged, and the state is left unchanged.
- **Empty account list.** `connectWalletAction` has no length check. An empty account list therefore sets `currentAccount` to `undefined`.
- **AttackComplete before the boss is loaded.** If the event arrives before `getBigBoss` resolves, the spread of `null` leaves a boss record holding only `hp` (`Arena.BossState.HpOnly`).

## Model

| member | source | states |
|---|---|---|
| Constants.ToNumber | src/constants.ts:39-44 | Conversion of a big integer succeeds exactly in the safe integer range, and then keeps the value |
| Constants.ConvertDefense | src/constants.ts:41 | `?.defense?.toNumber()`: undefined stays undefined, a present value converts, an out-of-range value throws |
| Constants.TransformCharacterData | src/constants.ts:32-55 | Fails exactly when hp, maxHp, attackDamage or a present defense is out of range. Otherwise name and imageURI are copied and the numbers keep their values in both branches. The playable shape appears iff the `defense` key is present. defense and the critical-hit fields are the values as read, absent or undefined staying undefined, never 0 |
| Constants.TransformToContractData | src/constants.ts:21-55 | Round trip: normalising the wire form of any in-range record gives that record back |
| Constants.ContractDataOfTransform | src/constants.ts:32-55 | Round trip the other way: a normalised record is in range, and its wire form reads exactly like the input it came from |
| Constants.TransformDependsOnlyOnReading | src/constants.ts:35-53 | Purity: inputs the normaliser reads alike give equal results. The branch depends only on the presence of `defense`, and without it the critical-hit fields are ignored |
| Constants.WithHp | src/Components/Arena/index.tsx:59-65 | `{...prev, hp}` sets hp and leaves every other field and the record's shape unchanged |
| App.RenderContent | src/App.tsx:140-169 | The if/else-if chain never falls through. No account gives the connect screen, an account without a character gives the selection, an account with a character gives the arena |
| App.SilentCheck | src/App.tsx:35-64 | No provider, a throw or an empty account list leaves the state unchanged. Otherwise the account becomes `accounts[0]`. The character is never touched |
| App.PromptedConnect | src/App.tsx:69-93 | No provider or a throw leaves the state unchanged. Otherwise the account becomes `accounts[0]`, or undefined for an empty list since there is no length check. The character is never touched |
| App.NftLookup | src/App.tsx:98-120 | The account is unchanged. The character becomes the normalised record when the call returns a non-empty name and the record converts, and changes in no other case |
| App.AccountEffect | src/App.tsx:129-137 | The account is never changed. With an account set, a returned non-empty name that converts becomes the character. In every other case (no account, a throw, an empty name, or a record that fails to convert) the whole state is left as it was |
| App.Step | src/App.tsx:125-169 | After mount, only the connect button (shown only on the connect screen) changes the account, and the character changes only while an account is set |
| App.ConnectedAccountIsStable | src/App.tsx:53-93 | Once an account is set, no sequence of events changes it: the only writes are lines 56 and 89 |
| App.RunKeepsCharacterNeedsAccount | src/App.tsx:111-169 | Every sequence of events keeps "a character is held only with an account set" |
| App.LaunchInvariants | src/App.tsx:125-169 | In every session (mount check, then any events), the arena and the selection appear only with an account set, and an account found on mount is kept |
| App.AppComponent.constructor | src/App.tsx:27-30 | Both state fields start null |
| App.AppComponent.CheckIfWalletIsConnected | src/App.tsx:35-64 | The new state is `SilentCheck` of the old state |
| App.AppComponent.ConnectWalletAction | src/App.tsx:69-93 | Alerts iff there is no provider, and then leaves the state unchanged; the new state is `PromptedConnect` of the old state |
| App.AppComponent.FetchNFTMetadata | src/App.tsx:98-120 | The new state is `NftLookup` of the old state |
| App.AppComponent.OnCurrentAccountChanged | src/App.tsx:129-137 | Looks the character up exactly when an account is set; the new state is `AccountEffect` of the old state |
| App.AppComponent.SetCharacterNFT | src/App.tsx:28-30 | Sets the character and leaves the account unchanged |
| Arena.WithBossHp | src/Components/Arena/index.tsx:59-61 | A loaded boss keeps every field but hp, which takes the new value. A boss not yet fetched, or one holding only hp, becomes a record holding only the new hp |
| Arena.AttackEffects | src/Components/Arena/index.tsx:34-48 | Without a handle nothing happens. Otherwise `attackBoss()` is submitted exactly once, with no retry: the log has three entries on a rejected submission and four otherwise, and the flag is set to "attacking" before the submission. "hit" is written iff the transaction confirmed, only as the last step and only after waiting. Any throw ends with "" |
| Arena.ArenaComponent.constructor | src/Components/Arena/index.tsx:24-85 | No boss, flag "", handle present iff a provider exists |
| Arena.ArenaComponent.FetchBoss | src/Components/Arena/index.tsx:28-32 | The boss becomes the normalised `getBigBoss()` record; any throw leaves it unchanged; the flag is untouched |
| Arena.ArenaComponent.RunAttackAction | src/Components/Arena/index.tsx:34-48 | Performs exactly `AttackEffects`. The flag ends "hit" on confirmation and "" on error, and is unchanged without a handle. The boss and the player's record are untouched |
| Arena.ArenaComponent.OnAttackComplete | src/Components/Arena/index.tsx:50-66 | If both values convert, boss and player hp take the new values and every other field is kept. Otherwise nothing changes. The attack flag and the account are never written |
| Arena.SessionHpStepKeepsAllButHp | src/Components/Arena/index.tsx:63-65 | The session's step for a new player hp keeps the account and moves only hp of the held record |
| SelectCharacter.NormaliseRoster | src/Components/SelectCharacter/index.tsx:35-38 | Succeeds iff every entry converts. The result then has the same length and order, each entry the normalisation of the contract's entry |
| SelectCharacter.MintedCharacter | src/Components/SelectCharacter/index.tsx:64 | The roster entry at the index, or undefined for any index outside the roster, negative included |
| SelectCharacter.MintedCharacterAsWritten | src/Components/SelectCharacter/index.tsx:62-67 | As written, the listener's lookup always yields undefined (see Findings) |
| SelectCharacter.StaleRosterCounterexample | src/Components/SelectCharacter/index.tsx:92-105 | With a three-entry roster and index 1, the intended lookup gives entry 1 and the code as written gives nothing |
| SelectCharacter.RenderCharacters | src/Components/SelectCharacter/index.tsx:120-133 | One button per roster entry, in order, the button of entry i submitting index i |
| SelectCharacter.SelectCharacterComponent.constructor | src/Components/SelectCharacter/index.tsx:19-90 | Empty roster, handle present iff a provider exists |
| SelectCharacter.SelectCharacterComponent.GetCharacters | src/Components/SelectCharacter/index.tsx:22-47 | On success the roster is the element-wise normalisation (same length and order). A throw from a missing handle, the call or one conversion leaves the roster unchanged |
| SelectCharacter.SelectCharacterComponent.OnCharacterMint | src/Components/SelectCharacter/index.tsx:49-69 | With a handle and convertible ids, the parent's character becomes `characters[characterIndex]`. `sender` and the tokenId's value do not affect the choice. Otherwise nothing changes; the account never does |
| SelectCharacter.SelectCharacterComponent.MintCharacterNFTAction | src/Components/SelectCharacter/index.tsx:107-118 | Submits `mintCharacterNFT(characterId)` iff there is a handle. Nothing changes whatever the transaction does |
| SelectCharacter.MintOpensArenaIffIndexInRoster | src/Components/SelectCharacter/index.tsx:62-67 | On the selection screen, reporting the roster entry at an index opens the arena iff the index is inside the roster |

## Findings

| source | as written | input that shows it | evidently intended | confidence | as-written member | corrected member |
|---|---|---|---|---|---|---|
| src/Components/SelectCharacter/index.tsx:64 | `onCharacterMint` is registered once by the effect keyed only on `gameContract` (lines 92-105), in the render before `getCharacters` resolves, so `characters[...]` reads the initial empty roster and sets `characterNFT` to undefined | a fetched roster of three characters, then `CharacterNFTMinted` with `characterIndex` 1 | `characterNFT` becomes roster entry 1 and the arena opens | high, not executed | SelectCharacter.MintedCharacterAsWritten | SelectCharacter.SelectCharacterComponent.OnCharacterMint |

## Left out

- **Library and browser calls are not modelled.** This covers `ethers` (`Web3Provider`, `getSigner`, `Contract`), `window.ethereum.request`, the ABI file and `CONTRACT_ADDRESS`. Each call is an input: a returned value or a throw. A contract handle is the boolean `gameContract`, true when a provider existed on mount.
- **Asynchrony is not modelled.** Each handler is one atomic step. The model leaves out `await` interleavings, confirmation timing and the order in which events are delivered. This includes an `AttackComplete` event arriving between "attacking" and "hit".
- **Listener registration is not modelled.** The model has no `.on`/`.off` and no effect cleanup. A handler is a method the caller may invoke. In the session trace, the handler's screen gates it.
- **React hook closures are not modelled.** The class method `OnCharacterMint` reads the current roster; the stale-closure behaviour is captured separately as `MintedCharacterAsWritten` (see Findings).
- **The exact conversion bound is an assumption.** It lives in the big-number library, which is not part of this model; the model uses Number.MAX_SAFE_INTEGER.
- Arena.ArenaComponent.OnAttackComplete: requires the player's record to be set. The component's prop is typed non-null, and `App` renders the arena only with a character. Spreading a null player record is therefore not modelled.
- **Type casts have no runtime effect and are not modelled.** `App` and `SelectCharacter` cast the normaliser's result to the playable type. The model keeps the union of the two shapes.
- **The mount check runs once.** `checkIfWalletIsConnected` appears in the session trace only as the first step (`App.Launch`), as it runs once on mount.
- **Presentation is not modelled.** This covers JSX markup, CSS classes, the footer links and their constants, `console.log` output and the alert text.
- **src/react-app-env.d.ts is not modelled.** It holds only global type declarations and has no logic.
- **Account changes and timeouts are absent from the code.** The code handles no `accountsChanged` event and sets no confirmation timeout; neither is modelled.
