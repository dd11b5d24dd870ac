# Azure blob-storage provider: account resolution and default drives

This project models the core of `AzureProvider`, a PowerShell `CmdletProvider` that exposes
Azure blob storage as drives in the shell. Three pieces are modelled and verified:

- **Account resolution** (`GetAccountFromHostAndPort`). The provider applies the fixed
  pattern `(?<account>\w+).blob.core.windows.net(?::\d+)?` to a `host:port` string. It returns
  the `account` group of the match, or `null` when nothing matches. Module `AccountPattern`
  states what the .NET engine reports for this one pattern:
  - the match starts at the leftmost index where the pattern can match;
  - from that start, `\w+` is greedy: it takes the longest word run after which the 22
    characters `.blob.core.windows.net` still fit;
  - the four dots are not escaped, so each one matches any UTF-16 code unit except a line
    feed (see "## Left out" for characters outside the Basic Multilingual Plane).

  The engine's scan is modelled as functions:
  - `RunEnd` is the greedy step of `\w+`;
  - `Backtrack` gives characters back until the suffix fits;
  - `Scan` tries the start indices from left to right.

  Each function is proved against a declarative description of the reported match
  (`MatchAt`, `Reported`). The `\w` class is a parameter `word: char -> bool`.
- **Drive wrapping** (`NewDrive`). A drive that is already an `AzureDriveInfo` is returned
  unchanged. Any other drive is wrapped in a new `AzureDriveInfo`.
- **Default drives** (`InitializeDefaultDrives`). The method appends to the shared
  `AddingDrives` collection in place: first the root drive, then one drive per configured
  alias, in order. It returns that same collection. The collection is a class with a
  `seq<Drive>` field.

Drives are values. `OtherDrive` is a `PSDriveInfo` of another type. `AzureDrive` records
which `AzureDriveInfo` constructor built it, because those constructors are not part of this
model. The provider's `ProviderInfo` object is an opaque handle.

The model follows what the code does, including where the code's own comments or its evident
intent say otherwise:
- **Drive validation.** The remarks on `NewDrive` (AzureProvider.cs:85-89) ask implementers
  to verify the drive's root and to report failures and return `null`. The code
  (AzureProvider.cs:91-96) does neither: `NewDrive` has no validation of any kind.
- **Accumulating registry.** `InitializeDefaultDrives` (AzureProvider.cs:124-134) appends to
  the shared `AddingDrives` collection and never clears it. A second call adds the defaults a
  second time (`InitializeDefaultDrivesTwice`).
- **Wildcard suffix.** The pattern reads like the host suffix `.blob.core.windows.net`, but
  its dots (AzureProvider.cs:28) are wildcards (see Findings).

## Model

| member | source | states |
|---|---|---|
| `AccountPattern.RunEnd` | clrplus/Powershell.Azure/Provider/AzureProvider.cs:28 | the greedy `\w+` from index i: every character it covers is a word character, and the character after it is not |
| `AccountPattern.Backtrack` | clrplus/Powershell.Azure/Provider/AzureProvider.cs:28 | giving characters back finds the largest end at which the 22-character suffix fits; None exactly when the suffix fits after no end in range |
| `AccountPattern.MatchFrom` | clrplus/Powershell.Azure/Provider/AzureProvider.cs:28 | an attempt at start i succeeds exactly when some match starts at i, and then returns the longest account group from i |
| `AccountPattern.Scan` | clrplus/Powershell.Azure/Provider/AzureProvider.cs:144 | the first start index from i on where a match exists, with its greedy end; None exactly when no match starts at or after i |
| `AccountPattern.FirstMatch` | clrplus/Powershell.Azure/Provider/AzureProvider.cs:144 | `Regex.Match` finds nothing exactly when the pattern matches nowhere; otherwise it gives the leftmost-then-greedy match |
| `AccountPattern.Account` | clrplus/Powershell.Azure/Provider/AzureProvider.cs:143-147 | the account group is absent exactly when no index starts a match; otherwise it is the substring of the reported match |
| `AccountPattern.ReportedUnique` | clrplus/Powershell.Azure/Provider/AzureProvider.cs:144 | leftmost-then-greedy picks at most one match, so the result is determined |
| `AccountPattern.AccountOfReported` | clrplus/Powershell.Azure/Provider/AzureProvider.cs:144-147 | whenever (i, e) is the leftmost-then-greedy match, the account is exactly s[i..e] |
| `AccountPattern.AccountShape` | clrplus/Powershell.Azure/Provider/AzureProvider.cs:147 | a returned account is non-empty, made only of word characters, a contiguous substring of the input, and immediately followed by the 22-character suffix |
| `AccountPattern.ShortInputHasNoAccount` | clrplus/Powershell.Azure/Provider/AzureProvider.cs:28 | an input shorter than 23 characters never yields an account |
| `AccountPattern.AccountOfCanonicalAuthority` | clrplus/Powershell.Azure/Provider/AzureProvider.cs:28 | for a word w followed by `.blob.core.windows.net` and then any text, the account is exactly w, so a port never changes the result |
| `AccountPattern.WildcardSeparators` | clrplus/Powershell.Azure/Provider/AzureProvider.cs:28 | the dots are wildcards: `acctXblobXcoreXwindowsXnet` holds no literal suffix, yet yields `acct` |
| `AccountPattern.EscapedSuffixIsLiteral` | clrplus/Powershell.Azure/Provider/AzureProvider.cs:28 | with escaped dots, the suffix matches at e exactly when the literal text `.blob.core.windows.net` is at e |
| `AccountPattern.EscapedNeedsLiteralSuffix` | clrplus/Powershell.Azure/Provider/AzureProvider.cs:28 | with escaped dots, an input without the literal suffix yields no account |
| `AzureProvider.GetAccountFromHostAndPort` | clrplus/Powershell.Azure/Provider/AzureProvider.cs:143-148 | null exactly when no index of the input starts a match of the pattern as written; otherwise the account group of the leftmost-then-greedy match |
| `AzureProvider.AccountFromAuthority` | clrplus/Powershell.Azure/Provider/AzureProvider.cs:143-147 | `w.blob.core.windows.net` and `w.blob.core.windows.net:port` both give exactly w |
| `AzureProvider.NoAccountForOtherHosts` | clrplus/Powershell.Azure/Provider/AzureProvider.cs:143-146 | `notblobstorage.example.com` gives null |
| `AzureProvider.NewDrive` | clrplus/Powershell.Azure/Provider/AzureProvider.cs:91-96 | the result is always an Azure drive; an Azure drive comes back unchanged, and any other drive is wrapped by `new AzureDriveInfo(drive)` |
| `AzureProvider.NewDriveIdempotent` | clrplus/Powershell.Azure/Provider/AzureProvider.cs:92-93 | applying NewDrive twice equals applying it once |
| `AzureProvider.AliasDrives` | clrplus/Powershell.Azure/Provider/AzureProvider.cs:129-131 | one alias drive per alias, in alias order |
| `AzureProvider.DefaultDrives` | clrplus/Powershell.Azure/Provider/AzureProvider.cs:125-131 | 1 + number of aliases drives: first the root drive, named after the provider scheme with root `""` and description `Azure namespace`, then drive k+1 for alias k |
| `AzureProvider.DefaultDrivesForTwoAliases` | clrplus/Powershell.Azure/Provider/AzureProvider.cs:125-131 | scheme `Azure` with aliases `a1`, `a2` gives exactly the root, `a1` and `a2` drives, in that order |
| `AzureProvider.DriveCollection.Add` | clrplus/Powershell.Azure/Provider/AzureProvider.cs:127 | Add appends one drive at the end of the collection |
| `AzureProvider.AzureProvider.InitializeDefaultDrives` | clrplus/Powershell.Azure/Provider/AzureProvider.cs:124-134 | the shared collection becomes its old contents followed by the default drives, so existing entries keep their positions; the aliases are unchanged, and the collection returned is the shared one itself |
| `AzureProvider.InitializeDefaultDrivesTwice` | clrplus/Powershell.Azure/Provider/AzureProvider.cs:124-134 | the collection is never cleared: two calls append the default drives twice |

## Left out

- The static constructor (AzureProvider.cs:29-37) is left out. It extracts a format file to a temporary path and runs `Update-FormatData` through the host, swallowing every exception. This is file I/O and a host call.
- `Start` (AzureProvider.cs:54-56) is left out. It only wraps the host's `ProviderInfo` in an `AzureProviderInfo`.
- The internals of `AzureDriveInfo`, `AzureProviderInfo`, `UniversalProvider` and `UniversalProviderInfo` are not part of this model. Their constructors are recorded, not executed. The value of `AzureDriveInfo.ProviderScheme` is a constructor argument of the provider object.
- The `null` credential passed to the root drive's constructor is not recorded.
- .NET's Unicode classification for `\w` is a parameter `word`. Lemmas that need '.' not to be a word character say so in their `requires`.
- The optional `(?::\d+)?` group is not modelled. It can always match the empty string, so it changes neither whether there is a match nor what the account group holds. `\d` is therefore never needed.
- Strings here are sequences of Unicode scalar values, while C# strings are sequences of UTF-16 code units. The model agrees with .NET on text inside the Basic Multilingual Plane. A character above U+FFFF is one `char` here but two code units (a surrogate pair) in .NET. At a separator position the model's `.` accepts such a character, while .NET's `.` consumes only the high surrogate, and the next literal letter then fails on the low surrogate. So `acct` + U+1F600 + `blob.core.windows.net` gives `acct` here and `null` in .NET. Lone surrogates cannot be written in the model at all.
- A `null` argument is left out: `Regex.Match(null)` would throw, and a `null` drive would reach `AzureDriveInfo`'s constructor. Strings and drives here are never null.
- Object identity of drives is left out. `NewDrive` returning "the same object" is modelled as returning an equal value. The returned collection's identity is modelled: it is the same object as `AddingDrives`.
- The `CmdletProvider` attribute, the provider capabilities, regex match timeouts and concurrent provider loading are left out.

## Findings

| source | as written | input that shows it | evidently intended | confidence | as-written member | corrected member |
|---|---|---|---|---|---|---|
| clrplus/Powershell.Azure/Provider/AzureProvider.cs:28 | the dots in `\w+.blob.core.windows.net` are not escaped, so each matches any UTF-16 code unit but a line feed | `acctXblobXcoreXwindowsXnet` yields `acct`, although it is not a blob-storage host | `\.` escaped, so that only the literal `.blob.core.windows.net` is accepted | not executed; likely, the pattern is a host-name template | `AccountPattern.WildcardSeparators` | `AccountPattern.EscapedNeedsLiteralSuffix` |

`GetAccountFromHostAndPort` keeps the pattern as written, because that is what the provider
does. The escaped pattern is `AccountPattern.Escaped`. On it, every lemma stated for an
arbitrary `Pattern` holds too: canonical authorities still give their account, since a dot
fits an escaped separator and is not a word character.
