# Vanity address search — a Dafny model

The tool draws random 12-word BIP39 mnemonics, derives addresses from each
along a small grid of BIP-0044 style derivation paths, and stops when an
address contains a pattern the user chose. This project models the search
loop of one worker (`find_address`):

- the match rule: pattern, position (`start`, `anywhere`, `end`), case
  policy, and the fixed address prefix of the scheme (`address_match.dfy`);
- the scheme table that maps (blockchain, address type) to the address
  prefix and to the path text `purpose'/coin_type'/`, with its two error
  outcomes (`schemes.dfy`);
- the derivation path text `m/purpose'/coin_type'/account'/change/index`,
  its decimal numbers, and a parser that reads it back into its five
  BIP-0044 levels (`derivation_path.dfy`, `schemes.dfy`);
- the grid scan over account 0, change 0 and address indices 0 to 49, with
  the shared attempt counter, its progress line every million attempts, and
  the return at the first match; then the rounds over successive mnemonics
  (`search.dfy`);
- the declared width of the shared counter (`counter_width.dfy`).

Key derivation and address encoding are a function parameter `Deriver`:
(mnemonic, passphrase, scheme, address index) to address. The mnemonics a
worker draws are a parameter too. The derivation itself always takes
account 0 and the external chain, so the address depends only on the
address index. The path text is formed from the loop variables. With one
account and one change the two agree.

Some behaviours of the code that a user might not expect, all modelled as
written:

- An unsupported scheme is not rejected before the search starts. It is
  detected inside `find_address`, once the first mnemonic and seed exist.
  Bitcoin with an address type other than bip44, bip49 or bip84 raises a
  `ValueError`. Any blockchain other than bitcoin and ethereum leaves the
  scheme variables unbound. Their first use, the path text on line 59, then
  fails. Both are error outcomes that count no attempt (`RoundsFailed`).
- Ethereum always uses the BIP-44 purpose and the `0x` prefix, whatever the
  address type.
- The empty pattern does not always match. Under `start` it matches exactly
  the addresses that begin with the scheme prefix. Under an unknown
  position it matches nothing.
- There is no cancellation flag. A match ends only the worker that found it.
- The shared attempt counter is a 32-bit C int that wraps without error
  (see "## Findings"). Only `counter_width.dfy` models that width;
  `Search.AttemptCounter` counts without bound.

## Model

| member | source | states |
|---|---|---|
| `AddressMatch.Matches` | VanityGenerator.py:80-91 | the match rule of both case branches; a match needs a known position (start, anywhere or end) and a substring no longer than the address |
| `AddressMatch.Lower` | VanityGenerator.py:86-91 | `str.lower()` keeps the length, changes only the case of letters, and leaves no upper-case ASCII letter |
| `AddressMatch.Contains` | VanityGenerator.py:83 | Python's `substring in address` holds exactly when the substring occurs at some offset of the address |
| `AddressMatch.AnywhereIsOccurrence` | VanityGenerator.py:80-91 | under `anywhere`, a match is exactly an occurrence of the (case-folded) substring anywhere in the whole address, prefix included |
| `AddressMatch.EmptyMatchesAnywhere` | VanityGenerator.py:83 | the empty substring matches every address under `anywhere` |
| `AddressMatch.StartIsPrefix` | VanityGenerator.py:80-91 | under `start`, a match is exactly the (case-folded) address beginning with the scheme prefix followed by the (case-folded) substring |
| `AddressMatch.EmptyMatchesStartIffPrefix` | VanityGenerator.py:82 | under `start`, the empty substring matches exactly the addresses that begin with the scheme prefix |
| `AddressMatch.EndIsSuffix` | VanityGenerator.py:80-91 | under `end`, a match is exactly the (case-folded) address ending with the (case-folded) substring |
| `AddressMatch.UnknownPositionNeverMatches` | VanityGenerator.py:80-91 | a position other than start, anywhere and end never matches |
| `AddressMatch.CaseInsensitiveIgnoresCase` | VanityGenerator.py:86-91 | without case sensitivity, changing the case of any letters of the address or the substring leaves the verdict unchanged |
| `AddressMatch.StartFoldsPrefix` | VanityGenerator.py:88 | for a lower-case scheme prefix, the case-insensitive `start` test equals comparing the lower-cased address with the lower-cased prefix + substring, although the prefix itself is not lower-cased |
| `AddressMatch.SensitiveMatchImpliesInsensitive` | VanityGenerator.py:80-91 | for a lower-case scheme prefix, every case-sensitive match is also a case-insensitive match, in every position |
| `DerivationPath.Decimal` | VanityGenerator.py:59 | the decimal text of a number is non-empty, made only of digits, and begins with `0` only for zero (no leading zeros) |
| `DerivationPath.DecimalRoundTrip` | VanityGenerator.py:59 | reading the decimal text of n back gives n |
| `DerivationPath.ParseFormat` | VanityGenerator.py:59 | a path text in the BIP-0044 layout reads back to exactly the levels (index and hardening) it was written from |
| `DerivationPath.FormatInjective` | VanityGenerator.py:59 | different level lists give different path texts |
| `Schemes.SelectScheme` | VanityGenerator.py:30-51 | a scheme is selected exactly for ethereum, or for bitcoin with bip44, bip49 or bip84; bitcoin with another type gives the unsupported-type error, any other blockchain the unbound-scheme error; a bitcoin type `bipNN` selects purpose NN |
| `Schemes.SelectedSchemeWellFormed` | VanityGenerator.py:30-51 | every selected scheme's path text is its purpose and its SLIP-0044 coin type, both hardened, and its address prefix is already lower case |
| `Schemes.SchemeTable` | VanityGenerator.py:30-51 | the table: bip44 `1`/`44'/0'/`, bip49 `3`/`49'/0'/`, bip84 `bc1q`/`84'/0'/`, ethereum `0x`/`44'/60'/` for any address type |
| `Schemes.SourcePath` | VanityGenerator.py:59 | for a well-formed scheme, the reported path text is the BIP-0044 path purpose', coin_type', account', change, address_index |
| `Schemes.SourcePathReadsBack` | VanityGenerator.py:59 | the reported path text parses back to exactly those five levels |
| `Schemes.SourcePathsDistinct` | VanityGenerator.py:55-59 | distinct grid cells are reported under distinct path texts |
| `Search.FirstMatch` | VanityGenerator.py:57-97 | the index returned is the first index from the start point whose address matches; with no index returned, no address of the grid matches |
| `Search.ProgressReports` | VanityGenerator.py:75-77 | progress is logged at exactly the positive multiples of 1,000,000 up to the count, in ascending order, count / 1,000,000 lines in all |
| `Search.AttemptCounter.constructor` | VanityGenerator.py:125 | the counter starts at 0 with no progress logged |
| `Search.AttemptCounter.Increment` | VanityGenerator.py:73-77 | the count rises by exactly one, and a progress line is added exactly when the new count is a multiple of 1,000,000 |
| `Search.ScanGrid` | VanityGenerator.py:55-97 | one mnemonic's grid visits path texts for indices 0, 1, … in order, counts each address once before testing it, and returns at the first match with its mnemonic, address and path; the count grows by the matching index + 1, or by 50 without a match |
| `Search.Rounds` | VanityGenerator.py:23-97 | a bounded run counts at most 50 addresses per mnemonic, exactly 50 per mnemonic when it ends without a match, and none when it fails, which happens only for a scheme that cannot be selected |
| `Search.FindAddress` | VanityGenerator.py:23-97 | a bounded run ends with the outcome of `Rounds` (characterised by `RoundsFound`, `RoundsExhausted` and `RoundsFailed`), and the counter grows by exactly the number of addresses `Rounds` says were evaluated |
| `Search.RoundsFound` | VanityGenerator.py:23-97 | a reported match is the first matching cell in mnemonic and index order; k full grids and i + 1 further addresses were counted |
| `Search.RoundsExhausted` | VanityGenerator.py:23-97 | for a selectable scheme, a run ends without a match exactly when no address of any grid matches, and then every grid was counted in full |
| `Search.RoundsFailed` | VanityGenerator.py:30-59 | a run fails exactly when there is a mnemonic and the scheme cannot be selected; it fails before counting any attempt |
| `Search.EmptyPatternStopsAtFirstAddress` | VanityGenerator.py:89-97 | the empty pattern under `anywhere` stops at the very first address, after one attempt |
| `Search.RoundsAfterMiss` | VanityGenerator.py:23-97 | a mnemonic whose grid has no match adds 50 attempts and the run continues with the next mnemonic |
| `CounterWidth.StoreCInt` | VanityGenerator.py:125 | a value stored into the C int counter lies in the 32-bit range, agrees with the assigned value modulo 2^32, and is unchanged when already in range |
| `CounterWidth.SharedIncrement` | VanityGenerator.py:74 | as written, one increment of the shared C int stays in the 32-bit range, adds one below 2^31 - 1, and goes from 2^31 - 1 to -2^31 |
| `CounterWidth.SharedCountAfter` | VanityGenerator.py:74 | as written, the shared count after n attempts is in the 32-bit range and equals n up to 2^31 - 1 |
| `CounterWidth.SharedCountIsWrapped` | VanityGenerator.py:74 | as written, the shared count after n attempts is n wrapped into the 32-bit range |
| `CounterWidth.ExactUpToLimit` | VanityGenerator.py:74 | as written, the shared count is exact up to 2^31 - 1 attempts |
| `CounterWidth.CountWrapsNegative` | VanityGenerator.py:74 | as written, at the 2^31st attempt (and every 2^32 attempts after) the shared count drops from 2^31 - 1 to -2^31 |
| `CounterWidth.WrappedProgressLine` | VanityGenerator.py:74-77 | as written, after 2^31 + 483648 attempts, which is no multiple of a million, the shared count is -2147000000, a multiple of a million, so a progress line with a negative count is logged |

## Left out

- Mnemonic generation, seed stretching, HD key derivation and address encoding (lines 25-29, 33, 37, 41, 49, 62-70): calls into `bip_utils` and a random source. They are the `Deriver` parameter and the given mnemonics.
- The processes, the shared `Value` and `Lock`, and the `join` (lines 122-149): concurrency. The model is one worker. That a match in one worker does not stop the others is therefore not modelled.
- The endless `while True` (line 23): `Search.FindAddress` runs over a given finite list of mnemonics and ends with `Exhausted` when it runs out, where the program would draw another mnemonic.
- Command-line parsing (lines 99-113), including `type=bool` turning any non-empty text into true: input glue.
- Logging and printing: progress lines are the ghost sequence `progress` of the counter; the found report is the returned `SearchResult`.
- Search.AttemptCounter: its `value` is an unbounded count, not the 32-bit C int of line 125. The wrap-around is modelled only in `CounterWidth`. `Search` does not model its effect on progress lines: after the wrap they fall at other totals and show negative counts (`CounterWidth.WrappedProgressLine`).
- Non-ASCII case mapping: `AddressMatch.Lower` lowers ASCII letters only. Addresses are ASCII; a pattern with other letters may be lowered differently by Python.

## Findings

| source | as written | input that shows it | evidently intended | confidence | as-written member | corrected member |
|---|---|---|---|---|---|---|
| VanityGenerator.py:74 | `attempt_count.value += 1` stores into `Value('i', 0)` (line 125), a 32-bit C int that ctypes wraps without error | the 2,147,483,648th attempt over all workers: the count goes from 2147483647 to -2147483648, and later progress lines fall at other totals and show negative counts (`CounterWidth.WrappedProgressLine`) | a count that rises by exactly one per attempt, without bound | medium, not executed | `CounterWidth.CountWrapsNegative` | `Search.AttemptCounter.Increment` |
