# Avail application-key generator: a verified model of its front-end logic

The front-end lets a user connect a browser wallet, pick an account and a
network, and register an *application key* (a named app id) on the Avail
chain. It also lists and searches the keys already registered. The model
covers the logic between the user and the chain:

- the display helpers that shorten addresses and trim names (`Utils`);
- the registry view, which maps fetched entries to records, sorts them
  ascending by id and filters them by name or id (`SearchAppIds`);
- the wallet session, a state machine over the discovered accounts, the
  selected account and the chain API handle, with the metadata record it
  hands to an extension (`WalletContext`);
- the create-key form: its guards, its `isSubmitting`/`newAppId` state, the
  status callback and the error messages (`CreateAppId`);
- the older single-page flow: its append-only log, account choice,
  metadata-once bookkeeping, event classification and search messages
  (`HomePage`).

Every call into the wallet extension or the chain SDK is a parameter of
the operation that makes it: the value the call resolves to, or the
exception it throws (`JsValues.Outcome`). A call whose argument matters,
such as `web3FromSource(source)`, is a function parameter, so that each
contract can say which argument was used. The JavaScript built-ins the
logic depends on are modelled in `JsString` and `JsArray`:

- `substring` clamps and swaps its bounds;
- `slice` counts negative indices from the end;
- `includes` and `join` behave as in JavaScript, and `toLowerCase` as it
  does on ASCII letters;
- `Number.prototype.toString` writes integers in decimal;
- `filter` and `find` keep their order and short-circuit rules.

Each component with state is a class. Its fields are the React state
variables, and its methods are the event handlers. A method's `modifies`
clause names the setters the handler calls. Its `ensures` clauses give
the new state for every outcome of the calls it awaits. The
`Completion` result tells whether the handler's promise settled normally
(`Resolved`) or with an exception that escaped every `try` (`Rejected`).

`fetchData` sorts its records in place with `Array.prototype.sort`. The
model does this with an in-place insertion sort on an array
(`SearchAppIds.SortInPlace`). That sort is proved equal to a functional
stable sort, `SortById`, and `SortById` is proved sorted, a permutation
and stable. ECMAScript (since ES2019) requires `Array.prototype.sort` to
be stable, so every conforming engine returns this one result.

## Model

| member | source | states |
|---|---|---|
| Utils.ShortenAddress | lib/utils.ts:8-10 | For a count between 0 and the length: the first `chars` characters, `"..."`, then the last `chars`, with length `2*chars+3`. For a count above the length: the address, `"..."`, the address. For a count of 0 or less: just `"..."`. |
| Utils.ShortenAddressFrame | lib/utils.ts:9 | For any count, the result is a prefix of the address, then `"..."`, then a suffix of the address. |
| Utils.ShortenAddressDefault | lib/utils.ts:8 | For an address of at least six characters, the default count keeps six characters at each end and the result has 15 characters. |
| Utils.TrimString | lib/utils.ts:12-14 | A string no longer than `length` is returned unchanged. For `0 <= length < |str|` the result is the first `length` characters plus `"..."`, of length `length+3`. A negative length cuts that many characters from the end. |
| Utils.TrimStringIdempotent | lib/utils.ts:12-14 | For a length of 0 or more, trimming twice is the same as trimming once. |
| Utils.TrimStringNegativeNotIdempotent | lib/utils.ts:13 | For a negative length, trimming again keeps shortening: `"abcd"` with -1 gives `"abc..."`, and trimming that with -1 gives `"abc....."`. |
| JsString.Clamp | lib/utils.ts:9 | The `substring` bound clamped into `[0, n]`. |
| JsString.Substring | lib/utils.ts:9 | Both bounds are clamped into `[0, length]`. Ordered bounds give the slice between the clamped bounds, so `substring(0, length + 5)` is the whole string. Swapped bounds give the same slice the other way round. The result is never longer than the string. |
| JsString.SubstringFrom | lib/utils.ts:9 | A negative start gives the whole string. A start past the end gives `""`. Otherwise it is the suffix from the start. |
| JsString.SubstringSymmetric | lib/utils.ts:9 | `substring(i, j) == substring(j, i)`. |
| JsString.Slice | lib/utils.ts:13 | For every pair of indices: each index is read by `SliceIndex`, where a negative index counts back from the end, one below `-length` counts as 0 and one past the length counts as the length. The result is the text between the two readings when the first is smaller, and `""` otherwise. So `slice(0, -k)` drops the last `k` characters, `"abcdef".slice(-3, 5)` is `"de"` and `"abc".slice(5, 7)` is `""`. |
| JsString.Includes | components/SearchAppIds.tsx:48-49 | Defined as the left-to-right scan `s.includes(t)` makes. It has no contract of its own and is characterised by `IncludesIffOccurs`. |
| JsString.IncludesIffOccurs | components/SearchAppIds.tsx:48-49 | `includes` holds exactly when `t` occurs at some position of `s`. |
| JsString.IncludesAt | components/SearchAppIds.tsx:48-49 | An occurrence at a known position makes `includes` true. |
| JsString.IncludesEmpty | components/SearchAppIds.tsx:45-48 | Every string includes the empty term. |
| JsString.LowerChar | components/SearchAppIds.tsx:45 | Lower-casing one character maps each capital A-Z to the small letter at the same place in the alphabet. Every other character is unchanged, and the result is never a capital. |
| JsString.ToLowerCase | components/SearchAppIds.tsx:45-48 | Same length, lower-cased character by character. |
| JsString.ToLowerCaseIdempotent | components/SearchAppIds.tsx:45-48 | Lower-casing a lower-cased string changes nothing. |
| JsString.Join | components/CreateAppId.tsx:46 | No parts give `""`. One part gives that part. Otherwise the result starts with the first part. |
| JsString.JoinAppend | components/CreateAppId.tsx:46 | Joining two non-empty lists of parts is joining each, with one separator between them. So a separator sits between every two neighbouring parts and nowhere else. |
| JsString.JoinLength | components/CreateAppId.tsx:46 | A join is as long as its parts together plus one separator per gap between parts. |
| JsString.NatToString | components/SearchAppIds.tsx:49 | Decimal digits, never empty, and no leading zero except for 0 itself. |
| JsString.NumberToString | components/SearchAppIds.tsx:49 | `id.toString()`: a non-negative number prints as its decimal digits (`NatToString`). A negative one prints as `-` followed by the digits of its absolute value, so the text starts with `-` exactly when the number is negative. |
| JsString.ParseNatToString | components/SearchAppIds.tsx:49 | Reading the digits back gives the number, so no information is lost. |
| JsString.NumberToStringInjective | components/SearchAppIds.tsx:49 | Different ids give different strings. |
| JsArray.Filter | components/SearchAppIds.tsx:44-51 | `filter`: no longer than the input, and every kept element is in the input and passes the test. |
| JsArray.FilterIsSubsequence | components/SearchAppIds.tsx:44-51 | The kept elements are a subsequence of the input, in the same order. |
| JsArray.FilterMultiplicity | components/SearchAppIds.tsx:44-51 | Each element is kept exactly as many times as it occurs, if it passes the test, and otherwise not at all. |
| JsArray.FilterComplete | components/SearchAppIds.tsx:44-51 | Every element of the input that passes the test is kept. |
| JsArray.FilterAllPass | components/SearchAppIds.tsx:44-51 | When every element passes the test, the filter returns the input. |
| JsArray.FilterAppend | src/pages/index.tsx:67-69 | Filtering a concatenation is the concatenation of the two filters. |
| JsArray.FindIndex | src/pages/index.tsx:96-98 | `find`: the first index whose element passes the test, or none when no element passes. |
| JsArray.FindIndexFound | src/pages/index.tsx:143-157 | `find` yields an element exactly when some element passes. |
| JsArray.FindIndexFirst | src/pages/index.tsx:153-157 | `find` yields the first element that passes. |
| SearchAppIds.ToRecords | components/SearchAppIds.tsx:21-32 | One record per fetched entry, in order: the name is the key's name, plus the entry's owner and id. |
| SearchAppIds.InsertById | components/SearchAppIds.tsx:33 | Inserting a record adds exactly that record to the multiset. |
| SearchAppIds.SortById | components/SearchAppIds.tsx:33 | The sort keeps the length, and its result is a permutation of the input: the multiset of records is the same. |
| SearchAppIds.InsertByIdSorted | components/SearchAppIds.tsx:33 | Inserting into a sorted list gives a sorted list. |
| SearchAppIds.SortByIdSorted | components/SearchAppIds.tsx:33 | The sorted records are in ascending order of id, for every input. That the result is a permutation of the input is `SortById`'s own contract. |
| SearchAppIds.InsertByIdStable | components/SearchAppIds.tsx:33 | Inserting into a sorted list puts the record after the records with the same id, which keep their order. |
| SearchAppIds.SortByIdStable | components/SearchAppIds.tsx:33 | Records with equal ids keep their input order, as a stable `Array.prototype.sort` keeps them. |
| SearchAppIds.PassExtendsSortedPrefix | components/SearchAppIds.tsx:33 | One insertion pass turns the sorted first `i` records into the sorted first `i + 1`. |
| SearchAppIds.ShiftInsert | components/SearchAppIds.tsx:33 | One in-place insertion pass. The record at `i` moves left past every larger id before it, and those records shift one place right. Everything else is unchanged. |
| SearchAppIds.SortInPlace | components/SearchAppIds.tsx:33 | Sorting the array in place leaves it equal to `SortById` of its old contents. |
| SearchAppIds.Matches | components/SearchAppIds.tsx:45-50 | Defined as the filter's test: the lower-cased name or the decimal id includes the lower-cased term. It is characterised by `FilteredData` and `FilteredDataOrderAndCompleteness`. |
| SearchAppIds.FilteredData | components/SearchAppIds.tsx:44-51 | Every shown record is a record of `appData` that matches the term, by lower-cased name or by decimal id. |
| SearchAppIds.FilteredDataOrderAndCompleteness | components/SearchAppIds.tsx:44-51 | The shown records keep the order of `appData`, and every record that matches is shown. |
| SearchAppIds.FilteredDataSorted | components/SearchAppIds.tsx:33-51 | Filtering a list sorted by id gives a list sorted by id. |
| SearchAppIds.FilteredDataEmptyTerm | components/SearchAppIds.tsx:44-51 | An empty term shows every record. |
| SearchAppIds.TwoRecordScenarioSorted | components/SearchAppIds.tsx:21-33 | Entries fetched as beta(2), alpha(1) are stored as alpha, beta. |
| SearchAppIds.TwoRecordScenarioFiltered | components/SearchAppIds.tsx:44-51 | Over alpha(1) and beta(2), the term `"1"` shows only alpha. |
| SearchAppIds.SearchView.constructor | components/SearchAppIds.tsx:12-13 | The view starts with no records and an empty term. |
| SearchAppIds.SearchView.Shown | components/SearchAppIds.tsx:44-51 | The table shows records of `appData` that match the current term. |
| SearchAppIds.SearchView.SetFilterTerm | components/SearchAppIds.tsx:61 | Typing in the box sets the term. |
| SearchAppIds.SearchView.FetchData | components/SearchAppIds.tsx:15-42 | Without `api` nothing changes. A failed `isReady` rejects and changes nothing. A failed query is caught and changes nothing. Otherwise `appData` becomes the sorted records, ascending by id, a permutation of the fetched entries. |
| WalletContext.WithProvenance | context/WalletContext.tsx:54-57 | Same length and order as the injected list. Each account keeps its address and meta, and its `source` is its `meta.source`. |
| WalletContext.GetInjectorMetadata | context/WalletContext.tsx:30-43 | The metadata takes chain, spec version and genesis hash from the api. The decimals, symbol and address format fall back to 18, `"AVAIL"` and 42 whenever the registry value is missing or falsy, so none of the three is ever falsy. |
| WalletContext.SS58ZeroBecomes42 | context/WalletContext.tsx:37 | An address format of 0 becomes 42. |
| WalletContext.WalletProvider.constructor | context/WalletContext.tsx:26-28 | The session starts with no accounts, no selection and no api. |
| WalletContext.WalletProvider.ConnectWallet | context/WalletContext.tsx:45-60 | With zero extensions: an error toast, and the accounts are unchanged. Otherwise the accounts are replaced wholesale by `WithProvenance` of the injected list. A throwing call rejects and changes nothing. The selection and the api are never touched. |
| WalletContext.WalletProvider.SelectNetwork | context/WalletContext.tsx:62-68 | It disconnects exactly when the current api is present and connected. On success the api becomes the new handle. If `disconnect` throws, the api is unchanged. If `initialize` throws after a disconnect, the api keeps the old handle, which now reads as not connected, so a later call does not disconnect it again. If `initialize` throws with no disconnect, the api is unchanged. |
| WalletContext.WalletProvider.SelectAccount | context/WalletContext.tsx:70-82 | The selection becomes the account, with no membership or connection check, and the accounts and api are unchanged. Metadata is provided exactly when the api is present and the injector has a metadata capability. "Connected." is shown unless a call threw. |
| WalletContext.WalletProvider.DisconnectWallet | context/WalletContext.tsx:84-88 | The accounts are emptied, the selection cleared and the api left as it was. The toast says "Disconnected.". |
| CreateAppId.PreSubmitError | components/CreateAppId.tsx:21-29 | The connect message when the api or the account is missing. The name message when only the name is empty. Submission proceeds exactly when all three are present. |
| CreateAppId.DispatchErrorMessage | components/CreateAppId.tsx:41-49 | `"Transaction failed: "` followed by the error's type, or for a module error by its docs joined with single spaces. So a module error with no docs shows exactly `"Transaction failed: "`, and one with a single doc shows that doc. When the `findMetaError` lookup throws, the message throws that same exception and there is no text. |
| CreateAppId.DispatchErrorMessageJoinsDocs | components/CreateAppId.tsx:44-49 | Module docs `Name`, `already`, `taken.` read as `"Transaction failed: Name already taken."`. |
| CreateAppId.SubmissionErrorMessage | components/CreateAppId.tsx:68-75 | The balance message exactly when the error's message contains `"Inability to pay some fees"`, and the generic message otherwise. There is no message at all when the error has no `message`, because `includes` then throws inside the `catch`. |
| CreateAppId.IsKeyCreated | components/CreateAppId.tsx:54-57 | Defined as the test for a `dataAvailability` / `ApplicationKeyCreated` event. It has no contract of its own and is used by `LastKeyCreated`, `SuccessToasts` and `OnStatus`. |
| CreateAppId.WalkedEvents | components/CreateAppId.tsx:53-62 | The events the `forEach` gets through. This is all of them exactly when every creation event's payload can be read. Otherwise it is the prefix that ends right before the first creation event whose `toHuman()` throws. |
| CreateAppId.LastKeyCreated | components/CreateAppId.tsx:53-62 | Defined as the value `newAppId` holds after the walk over events whose creation payloads can be read. It is characterised by `LastKeyCreatedNone` and `LastKeyCreatedAt`. |
| CreateAppId.CreatedRecord | components/CreateAppId.tsx:58-59 | The record takes its id and owner from the event, and its name from the event's `key`. |
| CreateAppId.LastKeyCreatedNone | components/CreateAppId.tsx:53-62 | With no creation event among the events, `newAppId` keeps its value. |
| CreateAppId.LastKeyCreatedAt | components/CreateAppId.tsx:53-62 | With creation events, `newAppId` ends as the record of the last one, built from its payload. |
| CreateAppId.SuccessToasts | components/CreateAppId.tsx:53-62 | One "created successfully" toast per creation event. |
| CreateAppId.WalkStep | components/CreateAppId.tsx:53-62 | Each readable event of the walk puts its record and its toast on top, if it is a creation event. |
| CreateAppId.CreateAppIdForm.constructor | components/CreateAppId.tsx:15-17 | The form starts with an empty name, no key and nothing submitting. |
| CreateAppId.CreateAppIdForm.SetAppName | components/CreateAppId.tsx:85 | The input sets the name. |
| CreateAppId.CreateAppIdForm.SubmitEnabled | components/CreateAppId.tsx:87-91 | The form is enabled exactly when an account is selected and nothing is submitting. How the handlers move it between enabled and disabled is stated by `HandleCreateAppId` and `OnStatus`. |
| CreateAppId.CreateAppIdForm.HandleCreateAppId | components/CreateAppId.tsx:19-78 | A failed guard shows its message and changes nothing; the connect guard comes first. Otherwise `isSubmitting` becomes true and `newAppId` null. An injector throw rejects with `isSubmitting` still true. A caught error shows its message and clears `isSubmitting`. An error without a message rejects with `isSubmitting` still true. Once the guards pass, the form stays disabled exactly while the request is in flight, meaning it was sent and not yet answered. It also stays disabled when the handler rejects after an injector throw or an error without a message. So a second submission cannot start. It is enabled again only after a caught error with a message. |
| CreateAppId.CreateAppIdForm.OnStatus | components/CreateAppId.tsx:39-67 | A status that is neither in a block nor finalized changes nothing. A dispatch error shows its message, clears `isSubmitting` and unsubscribes. If `findMetaError` throws instead, the callback throws (`Rejected`): there is no toast, no unsubscribe, and `isSubmitting` and `newAppId` are unchanged. Without a dispatch error, the walked events (`WalkedEvents`) set `newAppId` to the last creation record, with one toast per creation event. If every payload can be read, `isSubmitting` is then cleared, even when there is no creation event, and the callback unsubscribes. If a creation payload's `toHuman()` throws, the callback throws there: the earlier records and toasts stay, `isSubmitting` is unchanged and there is no unsubscribe. The callback unsubscribes exactly when it completes on an in-block or finalized status, and then the form is enabled exactly when an account is selected. |
| JsValues.Truthy | src/pages/index.tsx:76-83 | Defined as JavaScript truthiness of an optional string: present and not empty. It is used by `ErrorText` and `SendTx`. |
| HomePage.ErrorText | src/pages/index.tsx:75-77 | The error's `message` when it is truthy, and otherwise the thrown value itself. |
| HomePage.FromExtension | src/pages/index.tsx:67-69 | Only accounts whose `meta.source` is the extension are kept. |
| HomePage.FromExtensionOrderAndCompleteness | src/pages/index.tsx:67-69 | The kept accounts are in their original order, and every account of the extension is kept. |
| HomePage.Addresses | src/pages/index.tsx:74 | The addresses of the accounts, in order. |
| HomePage.ChooseSigner | src/pages/index.tsx:96-98 | The first account whose address is the selected one. When no account has it, the first account. |
| HomePage.NeedsMetadata | src/pages/index.tsx:110 | Defined as "the extension is not marked in `extensionsInitialized`". It is characterised by `MarkInitialized`. |
| HomePage.MarkInitialized | src/pages/index.tsx:109-118 | Marking the injector's name settles the extension exactly when the two names agree, or when the extension was settled already. Every other key keeps its value. |
| HomePage.LegacyInjectorMetadata | src/pages/index.tsx:37-54 | The same fallbacks for decimals, but `"AVL"` for the symbol. The address format is kept whenever it is a number, 0 included, and is 0 when missing. |
| HomePage.MetadataBuildersDiffer | src/pages/index.tsx:37-54 | This page's builder and the wallet session's agree on chain, version, hash and decimals. Their symbols agree exactly when the registry has a non-empty one. Their address formats agree exactly when the registry has a non-zero one. |
| HomePage.EventName | src/pages/index.tsx:143-145 | Defined as `${section}_${method}`. |
| HomePage.IsFailedEvent | src/pages/index.tsx:143-145 | Defined as "the event name includes `Failed`". It is characterised by `EventClassesByPart`. |
| HomePage.IsSuccessEvent | src/pages/index.tsx:153-157 | Defined as "the event name includes `ApplicationKeyCreated`". It is characterised by `EventClassesByPart`. |
| HomePage.IncludesAcrossSeparator | src/pages/index.tsx:143-145 | A word without `_` occurs in `section_method` exactly when it occurs in the section or in the method. |
| HomePage.OccurrenceInPart | src/pages/index.tsx:143-145 | An occurrence of such a word in `section_method` lies wholly in the section or wholly in the method. |
| HomePage.EventClassesByPart | src/pages/index.tsx:143-157 | An event is a failure when its section or its method mentions "Failed". It is a success when either mentions "ApplicationKeyCreated". |
| HomePage.InBlockLogs | src/pages/index.tsx:138-167 | An in-block status always logs the block line first. The success line needs a readable payload. |
| HomePage.InBlockLogsLength | src/pages/index.tsx:143-167 | There is one failure line exactly when some event is a failure. There is one success line exactly when some event is a success and `toHuman()` does not throw on the first success event's payload. |
| HomePage.InBlockLogsFailedLine | src/pages/index.tsx:143-151 | When some event is a failure, the second line is the failure line with the explorer link. |
| HomePage.InBlockLogsSuccessLine | src/pages/index.tsx:153-167 | When the first success event's payload can be read, the last line carries it. |
| HomePage.InBlockLogsBothClasses | src/pages/index.tsx:143-167 | A block with both a failed extrinsic and a created key logs both lines, because the two checks are independent. |
| HomePage.AccountButtonLabel | src/pages/index.tsx:303-306 | The label is `shortenAddress(address, 10)`, with 23 characters for an address of at least ten. |
| HomePage.CreateButtonEnabled | src/pages/index.tsx:333 | The button is enabled exactly when the name has 1 to 20 characters. |
| HomePage.SearchButtonEnabled | src/pages/index.tsx:365 | The button is enabled exactly when the search name is not empty. |
| HomePage.SearchResult | src/pages/index.tsx:190-205 | A found key gives `"App found - AppId: "`, its id, `", Owner: "` and its owner. A missing key gives the not-found line. An exception gives the refresh line. |
| HomePage.SearchResultsDistinct | src/pages/index.tsx:194-204 | The three result lines are pairwise different. |
| HomePage.Home.constructor | src/pages/index.tsx:8-24 | The page starts with every state field empty. |
| HomePage.Home.AddLogs | src/pages/index.tsx:177-179 | Exactly one entry is appended, and earlier entries are unchanged. |
| HomePage.Home.ChooseAccount | src/pages/index.tsx:302 | An account button sets the account. |
| HomePage.Home.SetAppName | src/pages/index.tsx:320 | The input sets the name. |
| HomePage.Home.SetAppToSearch | src/pages/index.tsx:352 | The input sets the search name. |
| HomePage.Home.SetAccountAndExtension | src/pages/index.tsx:56-78 | The extension is set first. The accounts become the extension's addresses in order. When there are none, "No account found, please refresh the page" is logged and the accounts are unchanged. Exceptions are logged. |
| HomePage.Home.SendTx | src/pages/index.tsx:80-175 | "Extension not initialized" is checked before "Selected address not found", and either stops the send. No extension accounts logs "No account found". The signer comes from `ChooseSigner`. The log only grows. |
| HomePage.Home.Submit | src/pages/index.tsx:101-129 | An existing connected api is reused; otherwise `initialize` runs and its handle is kept. Metadata is provided once per extension, and then the injector's name is marked and no other key changes. If building the transaction throws, the error is logged and nothing is sent. Otherwise the send is logged before the request goes out. |
| HomePage.Home.Submitted | src/pages/index.tsx:101-129 | Defined as the state and log the submission step leaves. A connected api is reused, or the handle from `initialize` is kept. Metadata is provided once per extension and marked under the injector's name. Then the lines of `SendLines` are logged and the request is `SentRequest`. A call that throws before that is logged instead. `SendTx` states that it ends in this state once a signer and its injector are found. |
| HomePage.Home.Send | src/pages/index.tsx:121-174 | The request and the new log lines are exactly `SentRequest` and `SendLines` of the build and submission outcomes. |
| HomePage.SentRequest | src/pages/index.tsx:122-131 | A request is sent exactly when building the transaction returns. It carries the name, the signer's address, app id 0 and the injector. |
| HomePage.SendLines | src/pages/index.tsx:121-174 | The "Sending tx" line is logged exactly when building the transaction returns. A build that throws logs its error alone. A submission that throws adds its error after the sending line. |
| HomePage.Home.OnTxStatus | src/pages/index.tsx:130-170 | An error status adds one error line. An in-block status adds `InBlockLogs`. It then unsubscribes, unless `toHuman()` throws on the first success payload. In that case the callback throws (`Rejected`) after the block and failure lines are logged, and it does not unsubscribe. |
| HomePage.Home.SearchAppId | src/pages/index.tsx:181-206 | A connected api is reused; otherwise one is opened and kept. The result line comes from the lookup. A failed `initialize` shows the refresh line. |

## Left out

- Calls into the wallet extension and the chain SDK are not modelled: `web3Enable`, `web3Accounts`, `web3FromSource`, `initialize`, `disconnect`, `createApplicationKey`, `signAndSend`, the storage queries, `findMetaError` and `toHuman`. Their results and exceptions are parameters of the operations that make them. In the status callbacks, `findMetaError`'s result or exception is `DispatchError.moduleDocs`, and the payload's `toHuman()` result or exception is `ChainEvent.data`. Inside the `try` of `fetchData` and `searchAppId`, a throwing `toHuman()` is caught like a throwing query, so it is part of that query's `Threw` outcome.
- Asynchrony is not modelled. Each handler runs to completion, its setters take effect at once, and callbacks are separate methods called with one status. React batching, re-renders, stale closures and `useEffect` timing are outside the model. For example, `sendTx` spreads `extensionsInitialized` as its closure captured it.
- `unsub()` is reduced to a returned flag.
- A stored api handle changes its `isConnected` only where this code disconnects it (`selectNetwork`). A connection that drops on its own is not modelled, so `Home.Submit` and `Home.SearchAppId` (src/pages/index.tsx:103,185) read the `isConnected` the handle had when it was stored.
- Toasts are returned as values, and `console.*` output is dropped.
- `useWallet` throwing outside a provider is not modelled, because it is framework wiring.
- `typeof window` guards are not modelled. The model assumes it runs in the browser.
- `findExtension` and `foundExtensions` are not modelled, because they read `window.injectedWeb3`. The same goes for the page's presentation-only parts: the "Detect extensions" and "Chose account from" buttons, the log table and its colours.
- The presentation components are not modelled: the account selector, site header and footer, data table and card, copy tooltip and wallet icon. The same goes for `cn` in lib/utils.ts.
- `Number(appKey.id)` is not modelled for non-numeric ids. Ids are integers, so NaN ids and what `a.id - b.id` does with them are outside the model.
- `NumberToString` writes integers only. Exponent notation for very large numbers is not modelled.
- `ToLowerCase` changes only ASCII capitals. Unicode case mapping is not modelled.
- Strings are sequences of characters, not UTF-16 code units. Lengths (`trimString`, the 1-20 character rule) count characters.
- The browser's `maxLength` cap on the inputs is not modelled. Only the button enable rules are.
- The metadata record's `types` and `userExtensions` fields are constants of the SDK and are not modelled.
- A thrown `null` or `undefined` is not modelled. For those, reading `err.message` would itself throw. A thrown value here either has a `message` property or has none.
- JSON rendering of event data and `toHuman()` formatting are inputs: `EventData.json` and `AppKeyInfo`.
- HomePage.InBlockLogs: its own contract states only the first line. The rest of its shape is stated by `InBlockLogsLength`, `InBlockLogsFailedLine` and `InBlockLogsSuccessLine`.

## Behaviour worth noting

Five behaviours of the code that a reader might not expect. The model follows the code in each:

- `selectAccount` (context/WalletContext.tsx:70-82) does not check that the account is one of `accounts`, nor that a wallet is connected. It always sets the selection.
- When `initialize` throws in `selectNetwork` (context/WalletContext.tsx:62-68), `setApi` is never reached. So `api` keeps the old handle, even after it was disconnected, and it is not cleared.
- The create form's status callback (components/CreateAppId.tsx:52-63) has no outcome for "in a block without a creation event". It just clears `isSubmitting`.
- `connectWallet` with no extension (context/WalletContext.tsx:48-51) shows an error toast and returns normally. It does not throw.
- In the create form's status callback (components/CreateAppId.tsx:44-51,58), a `findMetaError` or `toHuman()` that throws leaves the callback before `setIsSubmitting(false)` and `unsub()`. The form then stays on "Submitting..." and the subscription stays open.
