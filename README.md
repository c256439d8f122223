# Content Guardian Shield — wallet connection and form handlers in Dafny

This project models the logic of the Content Guardian Shield web front-end:

- the **wallet connection manager** (`WalletProvider`): its state (`account`,
  `chainId`, `walletType`, `isConnecting`, the WalletConnect session), the two
  `localStorage` keys `connectedWallet` and `walletType`, `connectWallet` with
  its MetaMask and WalletConnect branches, `disconnectWallet`, the
  `accountsChanged` / `chainChanged` / `disconnect` handlers of both backends,
  the reconnect-on-mount effect, and the helpers `shortenAddress` and the
  `parseInt(hex, 16)` chain-id decoding;
- the **content registration** form (`handleTextSubmit`, `handleFileSubmit`,
  `handleFileChange`, the shared title field, the `isUploading` flag);
- the **content verification** form (`handleTextVerify`, `handleFileVerify`,
  `handleFileChange`, the text area's result clearing, and the result record
  built from a random bit).

Layout:

| file | module | contents |
|---|---|---|
| `options.dfy` | `Options` | `Option` (JavaScript `null`/`undefined`) |
| `ui.dfy` | `Ui` | toasts, variants, selected files |
| `js_string.dfy` | `JsString` | `String.prototype.trim` and `substring` |
| `hex_chain_id.dfy` | `HexChainId` | hex chain-id decoding, its inverse, round trip |
| `address_format.dfy` | `AddressFormat` | `shortenAddress` |
| `wallet_machine.dfy` | `WalletMachine` | the connection manager as a pure state machine, its invariant and lemmas |
| `wallet_context.dfy` | `WalletContext` | class `WalletProvider`, proved to follow `WalletMachine` |
| `content_registration.dfy` | `ContentRegistration` | validation functions and class `RegistrationForm` |
| `verification.dfy` | `Verification` | result record, verdict toast and class `VerificationForm` |

How the environment enters the model:

- Everything a connection attempt observes is one `Environment` parameter:
  - whether `window.ethereum` exists;
  - how the MetaMask round trip ends (accounts and hex chain id, or a thrown error with its message);
  - how the WalletConnect handshake ends (accounts and network id, or a thrown error).
  A thrown WalletConnect error also records whether the session object had already been created.
- Notifications are appended to a `toasts` log of notices; each module's `ToastOf` gives a notice's title, description and variant.
- `window.location.reload()` increments `reloads`.
- The relay session's `disconnect()` increments `closedSessions`.
- `localStorage` is a map from keys to strings. A key is `connectedWallet`, `walletType`, or another name.
- `Math.random() > 0.5` is the `verified` parameter of the completion step.
- `new Date().toISOString()` is an opaque `now` string.
- A `setTimeout` callback is a queued entry of `timers`. Its firing is the completion method, which takes the oldest entry.
- `console.error` and the connect-animation flag are not modelled.

Behaviour of the code worth knowing:

- **Start-up reconnect.** It needs both stored values to be *non-empty* strings (JavaScript truthiness), not only present.
- **WalletConnect session on failure.** The session object is stored before `enable()`. A failed relay handshake can therefore still leave a session, with its handlers attached.
- **An account can be held with no wallet kind.** `AccountWithoutKindReachable` exhibits such a run: a failed relay handshake that left its session, then that session's `accountsChanged`. The invariant that does hold is `WalletMachine.Valid`: a recorded kind comes with an account, a chain id and storage that mirrors both.
- **Repeated disconnect.** Every call emits "Wallet Disconnected", including a repeated one.
- **WalletConnect `accountsChanged`.** It has no equality check: an unchanged account is announced again.

## Model

| member | source | states |
|---|---|---|
| `JsString.Trim` | src/components/ContentRegistrationSection.tsx:21 | the result has no white space at either end, and is empty exactly when `s` is blank |
| `JsString.TrimStart` | src/components/ContentRegistrationSection.tsx:21 | the result is a suffix of `s` that does not start with white space |
| `JsString.TrimStartDropsBlank` | src/components/ContentRegistrationSection.tsx:21 | every character `TrimStart` drops is white space |
| `JsString.TrimEnd` | src/components/ContentRegistrationSection.tsx:21 | the result is a prefix of `s` that does not end with white space |
| `JsString.TrimEndDropsBlank` | src/components/ContentRegistrationSection.tsx:21 | every character `TrimEnd` drops is white space |
| `JsString.TrimEmptyOnlyIfBlank` | src/components/VerificationSection.tsx:26 | trimming leaves the empty string exactly when every character is white space |
| `JsString.Substring` | src/contexts/WalletContext.tsx:254 | in-range indices give the slice; swapped indices give the slice between them; a negative start or an end past the length is clamped to 0 or to the length |
| `AddressFormat.ShortenAddress` | src/contexts/WalletContext.tsx:252-255 | `""` stays `""`; otherwise the result is the first min(6,len) characters, then `...`, then the last min(4,len) characters |
| `AddressFormat.ShortenedLongAddress` | src/contexts/WalletContext.tsx:252-255 | an address of 10 or more characters becomes exactly 13 characters, keeping its first 6 and last 4 |
| `HexChainId.HexValue` | src/contexts/WalletContext.tsx:142 | the value of k hex digits is below 16^k |
| `HexChainId.ParseChainId` | src/contexts/WalletContext.tsx:142 | `parseInt(s, 16)` on an optionally `0x`-prefixed digit string; the value is bounded by the digit count |
| `HexChainId.ToHex` | src/contexts/WalletContext.tsx:139 | the encoding is a non-empty hex digit string with no upper-case letter and no leading zero |
| `HexChainId.HexValueOfToHex` | src/contexts/WalletContext.tsx:142 | decoding the digits of `n` yields `n` |
| `HexChainId.ParseEncode` | src/contexts/WalletContext.tsx:139-142 | every chain id survives `"0x"` encoding and decoding |
| `HexChainId.LeadingZero` | src/contexts/WalletContext.tsx:68 | a leading zero digit does not change the decoded value |
| `Ui.FirstFile` | src/components/ContentRegistrationSection.tsx:85 | the first selected file, or none exactly when nothing was selected |
| `WalletMachine.ToastOf` | src/contexts/WalletContext.tsx:124-128 | the toast text of each manager notice; exactly the two failure notices are destructive (lines 153-157) |
| `WalletMachine.KindOfTag` | src/contexts/WalletContext.tsx:207-211 | a tag selects a backend exactly when it is that backend's stored tag |
| `WalletMachine.Connect` | src/contexts/WalletContext.tsx:203-215 | ends with `isConnecting` false. On success: account = first account, decoded chain id, the chosen kind, both storage keys written, one "Wallet Connected". On failure: account, chain, kind and storage unchanged, one failure notice. A WalletConnect attempt holds a session after success, and after a failure if one was held or created; other tags leave the session alone. An unknown tag has no visible effect |
| `WalletMachine.ConnectMetaMask` | src/contexts/WalletContext.tsx:122-159 | no injected provider: one "MetaMask not found" and `isConnecting` lowered, nothing else changed. Approval: first account, decoded chain id, kind MetaMask, both keys written, one "Wallet Connected". Thrown error: one failure with its message, nothing else changed. The relay session is untouched |
| `WalletMachine.ConnectWalletConnect` | src/contexts/WalletContext.tsx:161-201 | approval: a session is held, first account, the network id, kind WalletConnect, both keys written, one "Wallet Connected". Thrown error: a session is held exactly when one was held or had been created before the error; account, chain, kind and storage unchanged; one failure with its message |
| `WalletMachine.Disconnect` | src/contexts/WalletContext.tsx:217-233 | account, chain and kind cleared; exactly the two keys removed from storage; session closed only when kind is WalletConnect and a session is held; one "Wallet Disconnected" |
| `WalletMachine.MetaMaskAccountsChanged` | src/contexts/WalletContext.tsx:54-65 | empty list: full disconnect. A new first account: adopted, persisted, announced, nothing else changed. The same account: no change |
| `WalletMachine.WalletConnectAccountsChanged` | src/contexts/WalletContext.tsx:92-103 | empty list: full disconnect. Otherwise the first account is always adopted, persisted and announced |
| `WalletMachine.ChainChanged` | src/contexts/WalletContext.tsx:67-71 | only `chainId` changes and exactly one reload is counted, for either backend (also lines 105-108) |
| `WalletMachine.ReconnectTag` | src/contexts/WalletContext.tsx:42-49 | start-up reconnects exactly when both stored values are non-empty, and uses the stored wallet type |
| `WalletMachine.Reconnect` | src/contexts/WalletContext.tsx:42-49 | no reconnect tag: nothing changes. Otherwise `isConnecting` ends false; a success records the kind the stored tag names and rewrites only the stored account; a failure leaves storage and kind alone |
| `WalletMachine.StartUp` | src/contexts/WalletContext.tsx:42-49 | start-up has no reloads, no closed sessions and no handshake in progress; without a reconnect tag the state is the initial one; it shows exactly one notification when a known tag is stored beside a non-empty account, and none otherwise |
| `WalletMachine.Step` | src/contexts/WalletContext.tsx:52-120 | a MetaMask event is ignored unless the kind is MetaMask, and a relay event unless a session is held; a heard chain change counts one reload; every heard disconnect clears account and kind and emits one "Wallet Disconnected" |
| `WalletMachine.KeyName` | src/contexts/WalletContext.tsx:43-44 | the two manager keys are stored as `connectedWallet` and `walletType`; any other key under its own name |
| `WalletMachine.KeyNamesDistinct` | src/contexts/WalletContext.tsx:226-227 | two model keys with the same storage name are the same key, so storage entries are not duplicated |
| `WalletMachine.StartUpValid` | src/contexts/WalletContext.tsx:42-49 | the state after start-up satisfies the manager invariant |
| `WalletMachine.ConnectValid` | src/contexts/WalletContext.tsx:203-215 | a connection attempt, whatever its outcome, preserves the invariant |
| `WalletMachine.StepValid` | src/contexts/WalletContext.tsx:52-233 | every transition, including unheard backend events, preserves the invariant |
| `WalletMachine.RunValid` | src/contexts/WalletContext.tsx:52-233 | every sequence of events preserves the invariant |
| `WalletMachine.DisconnectIdempotent` | src/contexts/WalletContext.tsx:217-233 | a second disconnect leaves the same state apart from one more notification |
| `WalletMachine.EmptyAccountsDisconnect` | src/contexts/WalletContext.tsx:55-57 | an empty account list heard from either backend ends with no account and no kind |
| `WalletMachine.AccountWithoutKindReachable` | src/contexts/WalletContext.tsx:172-175 | a relay handshake failing after the session is stored, then `accountsChanged`, gives an account with no wallet kind |
| `WalletMachine.StartUpReconnects` | src/contexts/WalletContext.tsx:46-47 | with both keys stored and an approving handshake, start-up connects to the reported account with the stored kind |
| `WalletMachine.FailedReconnectKeepsStorage` | src/contexts/WalletContext.tsx:42-49 | a failed automatic reconnect leaves the stored keys as they were, and stays disconnected |
| `WalletContext.WalletProvider.constructor` | src/contexts/WalletContext.tsx:33-39 | all connection fields empty, the flag down, storage as persisted |
| `WalletContext.WalletProvider.AutoReconnect` | src/contexts/WalletContext.tsx:42-49 | calls `ConnectWallet` exactly when both stored values are non-empty; the new state is the start-up transition |
| `WalletContext.WalletProvider.ConnectMetaMask` | src/contexts/WalletContext.tsx:122-159 | the new state is the MetaMask branch: missing provider, success, or caught error |
| `WalletContext.WalletProvider.ConnectWalletConnect` | src/contexts/WalletContext.tsx:161-201 | the new state is `WalletMachine.ConnectWalletConnect` of the old one, so the session is held after approval and also after a failure that came once the session was created |
| `WalletContext.WalletProvider.ConnectWallet` | src/contexts/WalletContext.tsx:203-215 | raises then lowers `isConnecting` around the selected branch; the new state is `WalletMachine.Connect` |
| `WalletContext.WalletProvider.DisconnectWallet` | src/contexts/WalletContext.tsx:217-233 | the new state is `WalletMachine.Disconnect` |
| `WalletContext.WalletProvider.OnMetaMaskAccountsChanged` | src/contexts/WalletContext.tsx:54-65 | while MetaMask is active, the new state is `WalletMachine.MetaMaskAccountsChanged` |
| `WalletContext.WalletProvider.OnMetaMaskChainChanged` | src/contexts/WalletContext.tsx:67-71 | while MetaMask is active, the decoded chain id is set and one reload counted |
| `WalletContext.WalletProvider.OnMetaMaskDisconnect` | src/contexts/WalletContext.tsx:73-75 | while MetaMask is active, a full disconnect |
| `WalletContext.WalletProvider.OnWalletConnectAccountsChanged` | src/contexts/WalletContext.tsx:92-103 | while a session is held, the new state is `WalletMachine.WalletConnectAccountsChanged` |
| `WalletContext.WalletProvider.OnWalletConnectChainChanged` | src/contexts/WalletContext.tsx:105-108 | while a session is held, the network id is set and one reload counted |
| `WalletContext.WalletProvider.OnWalletConnectDisconnect` | src/contexts/WalletContext.tsx:110-112 | while a session is held, a full disconnect |
| `ContentRegistration.ToastOf` | src/components/ContentRegistrationSection.tsx:22-26 | the toast text of each form notice; every rejection is destructive, a registration is not (lines 44-47) |
| `ContentRegistration.CheckText` | src/components/ContentRegistrationSection.tsx:21-37 | "Title Required" iff the title is blank; "Text Required" iff the title is not blank and the text is; passes iff neither is blank |
| `ContentRegistration.CheckFile` | src/components/ContentRegistrationSection.tsx:54-70 | "Title Required" iff the title is blank; "File Required" iff the title is not blank and no file is chosen; passes otherwise |
| `ContentRegistration.BlankTitleRejectsBoth` | src/components/ContentRegistrationSection.tsx:15 | the one shared title field rejects both forms alike when blank |
| `ContentRegistration.RegistrationForm.constructor` | src/components/ContentRegistrationSection.tsx:13-16 | not uploading, empty fields, nothing pending |
| `ContentRegistration.RegistrationForm.SetTitle` | src/components/ContentRegistrationSection.tsx:131 | the shared title takes the typed value (both tabs' inputs write it, line 174) |
| `ContentRegistration.RegistrationForm.SetText` | src/components/ContentRegistrationSection.tsx:142 | the text takes the typed value |
| `ContentRegistration.RegistrationForm.HandleTextSubmit` | src/components/ContentRegistrationSection.tsx:18-49 | a rejection emits its one toast and leaves `isUploading` and the timers alone; only a passing submission raises `isUploading` and arms a timer |
| `ContentRegistration.RegistrationForm.HandleFileSubmit` | src/components/ContentRegistrationSection.tsx:51-82 | the same for the file form; the timer captures the file's name |
| `ContentRegistration.RegistrationForm.HandleFileChange` | src/components/ContentRegistrationSection.tsx:84-88 | `file` is replaced only when a first file is supplied |
| `ContentRegistration.RegistrationForm.CompleteRegistration` | src/components/ContentRegistrationSection.tsx:42-48 | `isUploading` drops and exactly one success toast is emitted for the oldest timer (also lines 75-81) |
| `Verification.ResultRecord` | src/components/VerificationSection.tsx:45-50 | `verified` is the bit; owner (the fixed address) and timestamp are present exactly when verified; similarity 98/45 for text, 95/32 for files (lines 84-89) |
| `Verification.VerdictFromSimilarity` | src/components/VerificationSection.tsx:84-89 | similarity above 50 exactly when verified |
| `Verification.ToastOf` | src/components/VerificationSection.tsx:52-58 | a verdict's title is "Content Verified" exactly when verified; every notice but a positive verdict is destructive |
| `Verification.VerificationForm.constructor` | src/components/VerificationSection.tsx:13-21 | not verifying, no result, empty fields |
| `Verification.VerificationForm.EditText` | src/components/VerificationSection.tsx:150-153 | typing always clears the result |
| `Verification.VerificationForm.HandleTextVerify` | src/components/VerificationSection.tsx:23-37 | blank text: one toast, with `isVerifying`, the result and the timers untouched. Otherwise `isVerifying` raised, result cleared, a timer armed |
| `Verification.VerificationForm.HandleFileVerify` | src/components/VerificationSection.tsx:62-76 | the same with a missing file |
| `Verification.VerificationForm.HandleFileChange` | src/components/VerificationSection.tsx:101-106 | a chosen file replaces `file` and clears the result; no file changes nothing |
| `Verification.VerificationForm.CompleteVerification` | src/components/VerificationSection.tsx:39-59 | `isVerifying` drops, the result is the record for the bit, one verdict toast is emitted; a stored result stays self-consistent |

## Left out

- The ethers `Web3Provider` and the WalletConnect provider library, with its RPC endpoint table, are foreign code. Their observable outcomes are the `Environment` parameter.
- The `provider` object is not modelled. It is set before each handshake and never cleared. The MetaMask handlers are taken to be attached exactly while the wallet kind is MetaMask: a provider is always held then.
- React effect mechanics are not modelled:
  - re-subscription when dependencies change;
  - `removeListener` being given fresh empty callbacks, so the relay handlers are never detached;
  - stale closures in the relay handlers.
  The relay handlers run the current `disconnectWallet`. A closed or replaced relay session is taken to emit no further events.
- Overlapping `connectWallet` calls are not modelled. Each call is one atomic transition, so the intermediate `isConnecting = true` is visible only inside `ConnectWallet`'s body.
- `WalletMachine.Connect` requires well-formed handshake replies: at least one account, and a hex chain id `parseInt` reads completely. `accounts[0]` on an empty list and `parseInt` on malformed hex are not modelled.
- `WalletContext.WalletProvider.OnMetaMaskChainChanged` requires a well-formed hex chain id, for the same reason.
- A reload is a counter. The state reset a reload causes would be a fresh `StartUp`, which the model does not chain automatically.
- `console.error`, the `WalletConnectAnimation` modal flag and the timers' 2-second delay are not modelled.
- `HexChainId.ParseChainId`: `parseInt` returns a floating-point `Number`, which loses precision above 2^53; the model decodes to an exact `nat`. Real chain ids are far below that bound.
- `JsString.Substring`: JavaScript strings index UTF-16 code units, Dafny strings index characters. The two agree on the ASCII addresses it is applied to.
- `HowItWorks`, `Navbar`, the pages and all markup are not modelled. They contain no logic.
