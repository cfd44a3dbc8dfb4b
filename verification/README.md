# MassPay core in Dafny

A model of the sequential, deterministic core of the SBC mass-pay application: a
user pastes (or imports from CSV) one `address,amount` line per recipient, the page
validates the text and turns it into an ordered list of payments, and the library
turns that list into one sponsored ERC-4337 user operation whose calls are a single
EIP-2612 `permit` for the total followed by one ERC-20 `transferFrom(owner, to, value)`
per recipient. The library also prices such an operation.

Modules:

- `Wrappers`: `Option` (JavaScript `undefined` and `??`) and `Result` (a value or
  the message of a thrown error).
- `Strings`: JavaScript `split`/`join` on one character, `trim` and `startsWith`, with
  the round-trip lemmas between `split` and `join`.
- `Constants`: the SBC token (18 decimals, EIP-712 name "Stable Coin") and the Base
  chain id.
- `MassPay` (`src/lib/masspay.ts`): scaling, call-list construction, permit signing
  with its `"0xError"` sentinel, submission, gas price, gas cost and estimation.
- `MassPayPage` (pure parts of `src/app/page.tsx`): `isValid`, the payment list
  built by `handleSubmit` and what submission does to the input, the preview's row
  elision and the CSV import.

Everything the code obtains from outside is a parameter: `parseFloat` is
`parse: string -> Number` (NaN is `Number.NaN`), viem's `isAddress` is
`isAddress: string -> bool`, `fromReadableAmount` is `Session.toUnits`, the permit
nonce read is `Session.nonce` (None when it fails), `signTypedData` is `Session.sign`
(None when the user refuses or signing fails), `Date.now()` is `Session.nowMs`, the
smart-account address is `Session.smartAccount`, `sendTransaction` is `send`,
`prepareUserOperation` is `prepareUserOp` and the block's base fee is `baseFee`.
Calls are the decoded datatype `CallData` (`Permit` | `TransferFrom`), not ABI bytes.

All payments go into one user operation with one permit in front. Lines with more
than two comma-separated fields are accepted, and the extra fields are ignored.
`estimateGasForMassPay` falls back to 0 only for an empty call list; errors are
rethrown, not turned into 0.

## Model

| member | source | states |
|---|---|---|
| Strings.Split | src/app/page.tsx:84 | splitting never yields an empty list, and "" gives exactly one empty line |
| Strings.SplitPiecesPlain | src/app/page.tsx:90 | no piece of a split contains the separator |
| Strings.TrimStart | src/app/page.tsx:98 | removes exactly the leading run of ECMAScript whitespace, keeping the rest as a suffix |
| Strings.TrimEnd | src/app/page.tsx:98 | removes exactly the trailing run of ECMAScript whitespace, keeping the rest as a prefix |
| Wrappers.MapAll | src/app/page.tsx:156-162 | defined iff the function succeeds on every element; then one result per element, in order |
| Strings.SplitAppend | src/app/page.tsx:84 | splitting `a + "\n" + b` is splitting `a` followed by splitting `b` |
| Strings.JoinSplit | src/app/page.tsx:435-437 | joining the pieces of a split with the same separator restores the text |
| Strings.SplitJoin | src/app/page.tsx:435-437 | splitting joined parts restores the parts when there is at least one and none contains the separator |
| MassPay.DomainVersion | src/lib/masspay.ts:267-270 | the version is "2" exactly when the token name is "USD Coin", and "1" exactly otherwise |
| MassPay.SbcDomain | src/lib/masspay.ts:221-226 | SBC permits are signed under domain ("Stable Coin", "1", 8453, SBC contract) |
| MassPay.GetPermitSignature | src/lib/masspay.ts:212-265 | a failed nonce read or a refused signature yields "0xError"; otherwise the result is the wallet's signature of Permit(owner, spender, value, nonce, deadline) under the token's domain |
| MassPay.Deadline | src/lib/masspay.ts:51-52 | the deadline minus 1800 is the current time in whole seconds, rounded down |
| MassPay.ScaleAll | src/lib/masspay.ts:67-74 | scaling succeeds iff every amount scales; then one scaled payment per payment, in order, same recipient; otherwise the error is that of the first amount that fails |
| MassPay.TransferCalls | src/lib/masspay.ts:77-88 | one call per payment, in order, from the owner to the SBC contract, encoding transferFrom(owner, to, units) |
| MassPay.TransferCallsMoveTotal | src/lib/masspay.ts:90 | the transfer calls move in total exactly the sum of the scaled amounts |
| MassPay.PrepareMassPay | src/lib/masspay.ts:32-137 | fails exactly when an amount cannot be scaled; a non-empty call list has one call more than there are payments, every call from the owner to SBC, a permit first with owner, smart-account spender, 30-minute deadline and a value equal to everything the list transfers, then transferFrom for each payment in order scaled with 18 decimals; the permit's signature is the wallet's signature of Permit(owner, smart account, that value, the read nonce, that deadline); a failure carries the scaling error |
| MassPay.PermitFailureEmptiesCalls | src/lib/masspay.ts:102-108 | once scaling succeeds, the call list is empty exactly when the nonce read fails or the wallet returns no signature or the sentinel itself |
| MassPay.ExecuteGaslessMassPay | src/lib/masspay.ts:140-163 | an empty call list returns "Error preparing mass pay"; a thrown error returns its message; otherwise the list is sent as prepared and the hash or send error is returned |
| MassPay.Min | src/lib/masspay.ts:208-210 | the result is at most both arguments and equal to one of them |
| MassPay.GasPrice | src/lib/masspay.ts:186-189 | the gas price is the smaller of the fee cap and priority fee plus base fee (a missing base fee counts as 0) |
| MassPay.MarkupIsTenth | src/lib/masspay.ts:198-199 | multiplying by 110 and dividing by 100 adds exactly a tenth, rounded down |
| MassPay.GasCost | src/lib/masspay.ts:191-199 | the cost is gas used times gas price plus a tenth of it rounded down, and never below gas used times gas price |
| MassPay.GasCostMonotone | src/lib/masspay.ts:186-199 | raising any gas field, fee or the base fee never lowers the cost |
| MassPay.EstimateGasForMassPay | src/lib/masspay.ts:165-206 | an empty call list estimates 0; preparation errors are rethrown; otherwise the estimate is exactly GasCost of the prepared operation (gas used times gas price plus the 10% markup) |
| MassPay.SigningFailureShortCircuits | src/lib/masspay.ts:143-173 | when the permit is not signed, execution returns the error text whatever sending would do, and the estimate is 0 whatever the operation would cost |
| MassPayPage.ScanFields | src/app/page.tsx:89-103 | the loop over the destructured lines returns true exactly when every line's fields pass the checks |
| MassPayPage.IsValid | src/app/page.tsx:83-104 | accepts exactly when every line has a non-empty address field and a non-empty amount field parsing to a positive number, with the trimmed address passing the address check |
| MassPayPage.EmptyInputRejected | src/app/page.tsx:84-92 | "" splits into the single line "" and is rejected |
| MassPayPage.ValidityComposes | src/app/page.tsx:89-101 | two blocks joined by a newline are accepted exactly when both are: no partial acceptance |
| MassPayPage.ExtraFieldsIgnored | src/app/page.tsx:90-100 | appending further comma-separated fields changes neither the first two fields, nor validity, nor the payment built |
| MassPayPage.LinesToTxs | src/app/page.tsx:156-162 | defined iff every line yields a payment (a line without a comma throws); then exactly one payment per line, in line order, each the one its line yields (trimmed address, parsed trimmed amount) |
| MassPayPage.ValidInputSubmits | src/app/page.tsx:156-162 | accepted text always yields one payment per line, each to an address passing the check and, with trim-insensitive parsing, of a positive amount |
| MassPayPage.HandleSubmit | src/app/page.tsx:145-199 | the state is either kept or reset; it is kept when the execution result starts with "Error" and reset for any other result or a thrown error |
| MassPayPage.SigningFailureKeepsInput | src/app/page.tsx:164-174 | when the permit is not signed, submission keeps the input text and rows |
| MassPayPage.PreviewShort | src/app/page.tsx:324-345 | up to six lines: every line shown as a row, in order, no ellipsis |
| MassPayPage.PreviewLong | src/app/page.tsx:324-345 | seven or more lines: rows 0-2, one ellipsis at position 3, then the last three lines |
| MassPayPage.OnImport | src/app/page.tsx:425-440 | imported rows are appended to the kept rows and the text becomes exactly those rows' text |
| MassPayPage.EmptyImportRejected | src/app/page.tsx:435-439 | importing no rows gives text that is rejected |
| MassPayPage.CsvRoundTrip | src/app/page.tsx:435-439 | reading imported text back gives one line per row with that row's address and amount, and one payment per row in order |

## Left out

- MassPayPage.ValidInputSubmits: positivity of the submitted amounts is stated only for a `parse` that gives the same number for an amount and its trimmed form, because `parseFloat` is abstract here; `isValid` parses the untrimmed field and `handleSubmit` the trimmed one.

- Wallet, RPC, bundler and paymaster calls (`createWalletClient`, `toSimpleSmartAccount`, `createSmartAccountClient`, `sendTransaction`, `prepareUserOperation`, `getBlock`, `readContract`, `signTypedData`): their results are parameters; failures of the account set-up calls and of `getBlock` are not modelled.
- ABI encoding, `parseSignature` and EIP-712 hashing: calls are decoded values, the permit carries the signature text, and encoding or signature-parsing failures (for example a negative value) are not modelled.
- `parseFloat`, `isAddress` and `fromReadableAmount` (`ethers.parseUnits`) are abstract; `parseFloat`'s Infinity result is not distinguished from a finite number.
- Floating-point display: `getTotalAmtToSend` with `toFixed(6)`, balances and `formatUnits` gas display.
- The page's `estimateGas` wrapper that turns a thrown estimate into a toast and 0, the toasts themselves, dialogs and all rendering.
- The global `CurrentConfig` singleton: owner and wallet are passed explicitly.
- The CSV file upload and column mapping (`CsvImporter`); imported records arrive as optional strings, and `String()` of non-string cell values is not modelled.
- The `lines.length === 0` test in `isValid`: `split` never returns an empty list (`Strings.Split`), so the branch cannot run and the method omits it.
- `process.env` sponsorship policy ids and the `console` logging.
