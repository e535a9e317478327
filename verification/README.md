# MasterPass minting front-end, modelled in Dafny

MasterPass is a small web front-end for an Algorand demo. A user connects a
wallet, then mints a single NFT ticket or creates a fungible token (an ASA)
through the Algorand SDK's `assetCreate` call. This project models the logic
the three core components own:

- **Tokenmint** (`tokenmint.dfy`, module `TokenMint`). The validators on the
  four form fields are `isNonEmpty`, `isNonNegInt`, `decimalsValid`,
  `totalValid` and `namesValid`. The exact derivation
  `onChainTotal = totalSupply × 10^decimals` is checked against the uint64
  bound 2^64 − 1 and yields `rangeError`. `formValid` combines them. The
  `TokenMintModal` class holds the form state, and its `HandleCreate`
  method models `handleCreate`.
- **NFTmint** (`nftmint.dfy`, module `NftMint`). `isValidUrl` is modelled,
  along with the setter that stores trimmed input. The `NftMintModal` class
  and its `HandleMint` method model `handleMint`, which sends a fixed
  single-unit request bound to the URL's SHA-512/256 digest.
- **Home** (`home.dfy`, module `Home`). `shortAddr` keeps JavaScript `slice`
  semantics. `HomeState` holds the four modal flags and their toggles and
  setters. Also modelled: which action buttons appear with and without an
  active address.

Two support modules:

- `Text` (`text.dfy`): the JavaScript string operations the components use.
  These are `trim` (ECMAScript whitespace and line terminators), the anchored
  pattern `^[0-9]+$`, `startsWith`, `slice`, and the exact value of a digit
  string.
- `Interfaces` (`interfaces.dfy`): the collaborators, as values.
  - The wallet: optional signer, optional address.
  - Snackbar notices: a variant plus a message.
  - The `assetCreate` request.
  - How the awaited call ends: it resolves with optional txIds, or it rejects.

Each submit handler is a class method. Its `ensures` clauses tie the new
state to a pure function, `CreateSubmission` or `MintSubmission`. That
function returns the notices appended, the request handed to the ledger
client (if any), and whether the call succeeded. The guard, request and
outcome properties are proved about those functions:

- no call when a guard fails;
- the wallet guard comes first;
- the exact request contents;
- the form is kept on failure.

The modal flag that `setModalState` changes belongs to the page's
`HomeState`. Each modal holds a reference to it, so the proofs show that a
handler closes only its own modal.

### Behaviour worth knowing

- `("1", "19")` derives 10^19 = 10000000000000000000, which is at most
  18446744073709551615 = 2^64 − 1, so there is no range error
  (Tokenmint.tsx:42-49, `TokenMint.DeriveNineteenDecimals`). `("2", "19")`
  is the first such total over the bound.
- A successful token submission never resets the four fields, despite the
  "reset and close" comment: only `setModalState(false)` follows
  (Tokenmint.tsx:88-89; `TokenMint.TokenMintModal.HandleCreate` keeps
  `Fields()`). NFTmint does clear its URL.
- Resubmission is gated only by the `btn-disabled` class on the submit
  buttons (Tokenmint.tsx:189, NFTmint.tsx:112). The handlers never read
  `loading`, so the model does not reject a second submission.
- A total supply of `"0"` passes `formValid`, so the Create Token button is
  enabled. The handler's `!onChainTotal` test still rejects it with a
  warning (`TokenMint.ZeroSupplyEnabledButNeverSent`).

## Model

| member | source | states |
|---|---|---|
| `Text.IsWhitespace` | web3POC/projects/web3POC/src/components/Tokenmint.tsx:26 | holds exactly for the ECMAScript WhiteSpace and LineTerminator code points that `trim` removes: tab, line feed, vertical tab, form feed, carriage return, space, U+00A0, U+1680, U+2000 to U+200A, U+2028, U+2029, U+202F, U+205F, U+3000 and U+FEFF |
| `Text.Trim` | web3POC/projects/web3POC/src/components/Tokenmint.tsx:26 | `trim` returns the middle of the input left once the leading and trailing whitespace are dropped: everything dropped is whitespace, the result has none at either end, and it is never longer |
| `Text.TrimEndOfSuffix` | web3POC/projects/web3POC/src/components/Tokenmint.tsx:26 | trimming the end of a suffix of a string keeps a contiguous slice of that string and drops only whitespace after it |
| `Text.TrimEndKeepsFront` | web3POC/projects/web3POC/src/components/Tokenmint.tsx:26 | trimming the end of a string that does not start with whitespace leaves it trimmed at both ends |
| `Text.TrimStart` | web3POC/projects/web3POC/src/components/NFTmint.tsx:95 | the result is a suffix of the input, everything dropped is whitespace, and the result does not start with whitespace |
| `Text.TrimEnd` | web3POC/projects/web3POC/src/components/NFTmint.tsx:95 | the result is a prefix of the input, everything dropped is whitespace, and the result does not end with whitespace |
| `Text.TrimIdempotent` | web3POC/projects/web3POC/src/components/NFTmint.tsx:95 | trimming an already trimmed value changes nothing |
| `Text.TrimEmptyIffBlank` | web3POC/projects/web3POC/src/components/Tokenmint.tsx:26 | the trimmed string is non-empty exactly when some character is not whitespace |
| `Text.MatchesDigitRun` | web3POC/projects/web3POC/src/components/Tokenmint.tsx:27 | matching `^[0-9]+$` character by character succeeds exactly for a non-empty string of ASCII digits |
| `Text.DigitsValue` | web3POC/projects/web3POC/src/components/Tokenmint.tsx:40-41 | the value `BigInt` gives a digit string is below 10^(its length) |
| `Text.DigitsValueAppend` | web3POC/projects/web3POC/src/components/Tokenmint.tsx:40-41 | value(s + t) = value(s) × 10^len(t) + value(t) |
| `Text.LeadingZeroIgnored` | web3POC/projects/web3POC/src/components/Tokenmint.tsx:30 | a leading zero does not change a digit string's value |
| `Text.RelativeIndex` | web3POC/projects/web3POC/src/Home.tsx:28 | `slice` keeps an index in [0, length], counts a negative index in [−length, 0) back from the end, and clamps anything above length to length and anything below −length to 0 |
| `Text.Slice` | web3POC/projects/web3POC/src/Home.tsx:28 | `slice(start, end)` with 0 ≤ start ≤ end ≤ length is `s[start..end]`; a start in [0, length] with an end at or past the length gives `s[start..]`, so `slice(0, 6)` of a shorter string is the whole string; a negative start in [−length, 0) with such an end gives the last −start characters, and a start below −length gives the whole string, so `slice(-6)` of a shorter string is the whole string; an end not after the start, or a start past the end of the string, gives `""`; never longer than the input |
| `Text.StartsWith` | web3POC/projects/web3POC/src/components/NFTmint.tsx:27 | `startsWith` holds iff the prefix fits and agrees with the string character by character |
| `Interfaces.Truthy` | web3POC/projects/web3POC/src/Home.tsx:65 | JavaScript truthiness of an optional string: false for an absent value and for `""`, true otherwise |
| `Interfaces.Connected` | web3POC/projects/web3POC/src/components/Tokenmint.tsx:60 | the wallet guard: a signer is present and the active address is truthy, the negation of `!transactionSigner \|\| !activeAddress` |
| `Interfaces.FirstTxId` | web3POC/projects/web3POC/src/components/Tokenmint.tsx:83 | `txIds?.[0]` is present exactly when the list exists and is non-empty, and is then its first element |
| `Interfaces.SubmittedMessage` | web3POC/projects/web3POC/src/components/Tokenmint.tsx:84 | the success text starts with the fixed text; it is longer exactly when the txId is truthy, and it then ends with that txId |
| `TokenMint.IsNonEmpty` | web3POC/projects/web3POC/src/components/Tokenmint.tsx:26 | `isNonEmpty(s)` holds iff `s` has a non-whitespace character |
| `TokenMint.IsNonNegInt` | web3POC/projects/web3POC/src/components/Tokenmint.tsx:27 | `isNonNegInt(s)` holds iff `s` is non-empty and all ASCII digits |
| `TokenMint.DecimalsValid` | web3POC/projects/web3POC/src/components/Tokenmint.tsx:30 | `decimalsValid` holds iff the string is a non-empty run of ASCII digits whose value is at most 19 |
| `TokenMint.TotalValid` | web3POC/projects/web3POC/src/components/Tokenmint.tsx:31 | `totalValid` holds iff the supply is a non-empty run of ASCII digits |
| `TokenMint.NamesValid` | web3POC/projects/web3POC/src/components/Tokenmint.tsx:32 | `namesValid` holds iff both the asset name and the unit name have a non-whitespace character |
| `TokenMint.ParseBigInt` | web3POC/projects/web3POC/src/components/Tokenmint.tsx:40-41 | `BigInt(s)` succeeds exactly on digit strings, with a value below 10^len(s) |
| `TokenMint.ParseBigIntLeadingZero` | web3POC/projects/web3POC/src/components/Tokenmint.tsx:40-41 | a leading zero never changes the parse, and a digit string parses to its decimal value |
| `TokenMint.Derive` | web3POC/projects/web3POC/src/components/Tokenmint.tsx:34-53 | a total exists iff both numeric fields are valid, and it is then exactly value(total) × 10^value(decimals) with decimals ≤ 19; `rangeError` is set iff that total exceeds 2^64 − 1; the catch branch's message never appears |
| `TokenMint.FormValid` | web3POC/projects/web3POC/src/components/Tokenmint.tsx:55 | a valid form has a connected wallet, non-blank names, and a derived total within the uint64 bound; conversely those facts make it valid |
| `TokenMint.CreateSubmission` | web3POC/projects/web3POC/src/components/Tokenmint.tsx:57-96 | without a wallet: exactly one connect warning and no call, whatever the form holds; otherwise a call is made iff the form is valid and the total is non-zero, and a blocked submit gives one warning; the request carries the active address and signer, 0 < total ≤ 2^64 − 1 equal to the scaled supply, decimals ≤ 19, the untouched names, no URL or hash, and `defaultFrozen = false`; a call gives an info notice then the outcome notice (success on resolution, error on rejection); a blocked submit with a wallet gives exactly the fix-the-form warning; success iff the call resolved |
| `Interfaces.OutcomeNotice` | web3POC/projects/web3POC/src/components/Tokenmint.tsx:83-92 | a resolved call gives a success notice that starts with the submitted text, is longer exactly when the first txId is truthy, and then ends with that txId; a rejected call gives an error notice with the failure text |
| `TokenMint.SubmitEnabled` | web3POC/projects/web3POC/src/components/Tokenmint.tsx:189 | the button is enabled exactly when a wallet is connected, both names are non-blank, a total is derived within 2^64 − 1, and no call is in flight |
| `TokenMint.ZeroSupplyEnabledButNeverSent` | web3POC/projects/web3POC/src/components/Tokenmint.tsx:55-67 | a zero supply is never sent, even though it can leave the button enabled |
| `TokenMint.NonNegIntExamples` | web3POC/projects/web3POC/src/components/Tokenmint.tsx:27 | `"007"` is accepted; `""`, `"-1"`, `"1.5"` and `" 1"` are rejected |
| `TokenMint.NonEmptyExamples` | web3POC/projects/web3POC/src/components/Tokenmint.tsx:26 | blank strings are empty to `isNonEmpty`; a padded name is not |
| `TokenMint.DecimalsExamples` | web3POC/projects/web3POC/src/components/Tokenmint.tsx:30 | `"19"`, `"019"` and `"0"` are valid decimals; `"20"`, `"-1"` and `""` are not |
| `TokenMint.DeriveIgnoresLeadingZeros` | web3POC/projects/web3POC/src/components/Tokenmint.tsx:39-49 | a leading zero on either numeric field leaves the derivation unchanged |
| `TokenMint.DeriveZeroDecimals` | web3POC/projects/web3POC/src/components/Tokenmint.tsx:39-49 | with decimals `"0"` the total is the supply itself; 2^64 − 1 passes and 2^64 is rejected |
| `TokenMint.DeriveDefaultForm` | web3POC/projects/web3POC/src/components/Tokenmint.tsx:19-49 | the defaults `("1000000", "0")` derive 1000000 with no error |
| `TokenMint.DeriveNineteenDecimals` | web3POC/projects/web3POC/src/components/Tokenmint.tsx:42-49 | `("1", "19")` derives 10^19 with no error; `("2", "19")` is rejected as too large |
| `TokenMint.DeriveRejectsTwentyDecimals` | web3POC/projects/web3POC/src/components/Tokenmint.tsx:30-39 | `("1", "20")` derives no total and no range error |
| `TokenMint.TokenMintModal.constructor` | web3POC/projects/web3POC/src/components/Tokenmint.tsx:17-21 | the form starts with the defaults, not loading, with no notices and no calls |
| `TokenMint.TokenMintModal.SetAssetName` | web3POC/projects/web3POC/src/components/Tokenmint.tsx:115 | the asset name is stored as typed |
| `TokenMint.TokenMintModal.SetUnitName` | web3POC/projects/web3POC/src/components/Tokenmint.tsx:130 | the unit name is stored as typed |
| `TokenMint.TokenMintModal.SetTotalSupply` | web3POC/projects/web3POC/src/components/Tokenmint.tsx:146 | the supply is stored trimmed, keeping the trimmed-fields invariant |
| `TokenMint.TokenMintModal.SetDecimals` | web3POC/projects/web3POC/src/components/Tokenmint.tsx:166 | the decimals are stored trimmed, keeping the trimmed-fields invariant |
| `TokenMint.TokenMintModal.Close` | web3POC/projects/web3POC/src/components/Tokenmint.tsx:183 | Close shuts the token modal and no other |
| `TokenMint.TokenMintModal.HandleCreate` | web3POC/projects/web3POC/src/components/Tokenmint.tsx:57-96 | the fields are unchanged in every case, so the numeric fields stay trimmed; the notices and calls appended are those of `CreateSubmission`; only the token modal closes, and only on success; `loading` ends false after a call and is untouched by an early return |
| `TokenMint.TokenMintModal.Send` | web3POC/projects/web3POC/src/components/Tokenmint.tsx:69-95 | exactly one call is recorded, then the info notice and the outcome notice; the modal closes iff the call resolved; `loading` ends false |
| `NftMint.IsValidUrl` | web3POC/projects/web3POC/src/components/NFTmint.tsx:24-28 | a URL is valid iff its first 7 characters are `ipfs://` or its first 8 are `https://`; a valid URL is non-empty |
| `NftMint.ValidUrlExtends` | web3POC/projects/web3POC/src/components/NFTmint.tsx:26-27 | only the scheme is checked: anything may follow a valid URL |
| `NftMint.UrlExamples` | web3POC/projects/web3POC/src/components/NFTmint.tsx:24-28 | a bare `ipfs://` is valid; `""`, `ftp://x`, `http://x` and a space before the scheme are not |
| `NftMint.MintSubmission` | web3POC/projects/web3POC/src/components/NFTmint.tsx:30-75 | without a wallet: one connect warning and no call, whatever the URL; with a wallet and an invalid URL: one URL warning and no call; otherwise one request with total 1, decimals 0, name `MasterPass Ticket`, unit `MTK`, the URL unchanged, its digest as metadata hash, and `defaultFrozen = false`; that call gives an info notice then the outcome notice (success on resolution, error on rejection); success iff the call resolved |
| `NftMint.TicketRequest` | web3POC/projects/web3POC/src/components/NFTmint.tsx:50-60 | the ticket request is one indivisible unit named `MasterPass Ticket` / `MTK` from the given sender and signer, carrying the URL and the given digest, not frozen |
| `NftMint.SubmitEnabled` | web3POC/projects/web3POC/src/components/NFTmint.tsx:112 | the button is enabled exactly when the URL starts with `ipfs://` or `https://` and no call is in flight; the wallet plays no part |
| `NftMint.EnabledSubmitSends` | web3POC/projects/web3POC/src/components/NFTmint.tsx:33-60 | with a wallet connected, submitting from an enabled button makes exactly one call |
| `NftMint.MetadataHashDependsOnUrlOnly` | web3POC/projects/web3POC/src/components/NFTmint.tsx:47-48 | the metadata hash is the digest of the URL, whoever mints and however the call ends |
| `NftMint.NftMintModal.constructor` | web3POC/projects/web3POC/src/components/NFTmint.tsx:15-16 | the URL starts empty, not loading, with no notices and no calls |
| `NftMint.NftMintModal.OnUrlChange` | web3POC/projects/web3POC/src/components/NFTmint.tsx:95 | every edit stores the trimmed input, so the stored URL never has whitespace at either end |
| `NftMint.NftMintModal.Close` | web3POC/projects/web3POC/src/components/NFTmint.tsx:109 | Close shuts the NFT modal and no other |
| `NftMint.NftMintModal.HandleMint` | web3POC/projects/web3POC/src/components/NFTmint.tsx:30-75 | the notices and calls appended are those of `MintSubmission`; on success the URL becomes `""` and only the NFT modal closes; on failure or a guard the URL and flags are kept; the stored URL stays trimmed; `loading` ends false after a call |
| `NftMint.NftMintModal.Send` | web3POC/projects/web3POC/src/components/NFTmint.tsx:43-74 | exactly one call is recorded, then the info notice and the outcome notice; the URL clears and the modal closes iff the call resolved; `loading` ends false |
| `Home.ShortAddr` | web3POC/projects/web3POC/src/Home.tsx:28 | absent or empty gives `""`; otherwise the first min(6, n) characters, `…`, then the last min(6, n) characters |
| `Home.ShortAddrOfLongAddress` | web3POC/projects/web3POC/src/Home.tsx:28 | an address of 12 or more characters gives 13 characters: its first six, `…`, and its last six |
| `Home.WithFlag` | web3POC/projects/web3POC/src/Home.tsx:15-18 | setting one modal flag leaves the other three unchanged |
| `Home.Toggle` | web3POC/projects/web3POC/src/Home.tsx:23-26 | a toggle negates its own flag and leaves the other three unchanged |
| `Home.ToggleTwice` | web3POC/projects/web3POC/src/Home.tsx:23-26 | the same toggle twice restores the flags |
| `Home.TogglesCommute` | web3POC/projects/web3POC/src/Home.tsx:23-26 | toggles of different modals are independent: order does not matter |
| `Home.HomeState.constructor` | web3POC/projects/web3POC/src/Home.tsx:15-18 | every modal starts closed |
| `Home.HomeState.ToggleWalletModal` | web3POC/projects/web3POC/src/Home.tsx:23 | negates the wallet flag only |
| `Home.HomeState.ToggleTransactModal` | web3POC/projects/web3POC/src/Home.tsx:24 | negates the payment flag only |
| `Home.HomeState.ToggleMintModal` | web3POC/projects/web3POC/src/Home.tsx:25 | negates the NFT flag only |
| `Home.HomeState.ToggleTokenModal` | web3POC/projects/web3POC/src/Home.tsx:26 | negates the token flag only |
| `Home.HomeState.SetOpenMintModal` | web3POC/projects/web3POC/src/Home.tsx:92 | the NFT modal's `setModalState` sets the NFT flag only |
| `Home.HomeState.SetOpenTokenModal` | web3POC/projects/web3POC/src/Home.tsx:93 | the token modal's `setModalState` sets the token flag only |
| `Home.Actions` | web3POC/projects/web3POC/src/Home.tsx:58-82 | Connect Wallet is always offered, first; payment, NFT and token are offered iff `activeAddress` is truthy; no two buttons open the same modal |

## Left out

- The Algorand SDK (`AlgorandClient.fromConfig`, `algorand.send.assetCreate`) and `getAlgodConfigFromViteEnvironment` are network and configuration calls. The model records each request and takes how the call ends as a parameter (`CallOutcome`).
- SHA-512/256 from `js-sha512` is a foreign library. It is a function parameter returning a 32-byte `Digest`; its internals are not modelled.
- `useWallet` is an external hook. The wallet is an input value; `useSnackbar` is modelled only as the `notices` log each modal keeps.
- `console.error` in the failure branches is diagnostics only and is not modelled.
- Async execution and React re-rendering are not modelled. `loading` is true only while the call is awaited; the handler contracts state only the state after the call, so that interval is not stated.
- The in-flight lock is a `btn-disabled` CSS class (see `SubmitEnabled`). The handlers never check `loading`, so the model does not reject a second submission.
- Only the ledger call is treated as able to throw inside the `try` blocks. Throws from the snackbar or the hash function are not modelled.
- `TokenMint.ParseBigInt` treats every non-digit string as a parse failure, although `BigInt` also accepts signs, surrounding whitespace and `0x` prefixes. It is only reached after both fields have passed `^[0-9]+$`, so this never matters.
- `Number(...)` at Tokenmint.tsx lines 30 and 77 is modelled by the exact integer value. For a digit string, comparing the rounded double with 19 gives the same answer, and decimals ≤ 19 convert exactly.
- JavaScript strings are UTF-16 code units, but Dafny `char`s are Unicode scalar values. `slice` and `trim` differ only on characters outside the Basic Multilingual Plane; Algorand addresses are ASCII.
- JSX, CSS, the field hints and the "Wallet connected" line are rendering only. `shortAddr` and the shown buttons are modelled; the rest of the markup is not.
- `ConnectWallet` and `Transact` are used by the page but are not part of this model. Neither is the wallet modal's `closeModal` wiring beyond `ToggleWalletModal`.
