/** The single-page flow of src/pages/index.tsx: an append-only log, the
    choice of extension and account, sending the key-creation transaction
    (with its metadata-once bookkeeping and the classification of the
    events it emits) and the search for a key by name. */
module HomePage {
  import opened JsValues
  import opened JsString
  import opened JsArray
  import opened Types
  import Utils
  import WalletContext

  const ExtensionMissing := "Extension not initialized"
  const AddressMissing := "Selected address not found"
  const NoAccount := "No account found"
  const NoAccountRefresh := "No account found, please refresh the page"
  const ErrorOccurred := "An error has occured, open console (F12) to view logs"
  const NotFound := "App not found, probably not existing"
  const SearchFailed := "An error has occured, " + "please try again after refreshing the page"
  const FoundPrefix := "App found - AppId: "
  const OwnerLabel := ", Owner: "
  const ExplorerQuery := "https://explorer.avail.tools/#/explorer/query/"
  const IncludedPrefix := "Transaction included in block: "
  const FailedPrefix := "Transaction failed, please check your funds and chose a unique name, more details here: "
  const SuccessPrefix := "Transaction success. Your info is "

  datatype Severity = Info | Error

  /** One line of the page's log. */
  datatype LogEntry = LogEntry(message: string, severity: Severity)

  /** What the `catch` blocks log: `err.message` when it is truthy, the
      thrown value itself otherwise. */
  function ErrorText(err: Thrown): (r: string)
    ensures Truthy(err.message) ==> r == err.message.value
    ensures !Truthy(err.message) ==> r == err.rendered
  {
    if Truthy(err.message) then err.message.value else err.rendered
  }

  /** The accounts an extension supplied: `accounts.filter(x =>
      x.meta.source === extension)`. */
  function FromExtension(accounts: seq<InjectedAccount>, extension: string): (r: seq<InjectedAccount>)
    ensures forall x :: x in r ==> x in accounts && x.meta.source == extension
  {
    Filter(accounts, SourceIs(extension))
  }

  function SourceIs(extension: string): InjectedAccount -> bool
  {
    (x: InjectedAccount) => x.meta.source == extension
  }

  /** The filter keeps the accounts in their order, and every account of
      the extension is kept. */
  lemma FromExtensionOrderAndCompleteness(accounts: seq<InjectedAccount>, extension: string)
    ensures IsSubsequence(FromExtension(accounts, extension), accounts)
    ensures forall x :: x in accounts && x.meta.source == extension ==> x in FromExtension(accounts, extension)
  {
    FilterIsSubsequence(accounts, SourceIs(extension));
    forall x | x in accounts && x.meta.source == extension
      ensures x in FromExtension(accounts, extension)
    {
      FilterComplete(accounts, SourceIs(extension), x);
    }
  }

  /** `accounts.map(x => x.address)`. */
  function Addresses(accounts: seq<InjectedAccount>): (r: seq<string>)
    ensures |r| == |accounts|
    ensures forall i :: 0 <= i < |r| ==> r[i] == accounts[i].address
  {
    seq(|accounts|, i requires 0 <= i < |accounts| => accounts[i].address)
  }

  function AddressIs(address: string): InjectedAccount -> bool
  {
    (x: InjectedAccount) => x.address == address
  }

  /** `filtered.find(x => x.address === selected) || filtered[0]`: the
      first account with the selected address, and the first account of
      all when none has it. */
  function ChooseSigner(filtered: seq<InjectedAccount>, selected: string): (r: InjectedAccount)
    requires |filtered| > 0
    ensures r in filtered
    ensures (exists i :: 0 <= i < |filtered| && filtered[i].address == selected) ==>
              exists k :: 0 <= k < |filtered| && r == filtered[k] && r.address == selected &&
                forall j :: 0 <= j < k ==> filtered[j].address != selected
    ensures (forall i :: 0 <= i < |filtered| ==> filtered[i].address != selected) ==> r == filtered[0]
  {
    match FindIndex(filtered, AddressIs(selected))
    case Some(k) => filtered[k]
    case None => filtered[0]
  }

  /** `!extensionsInitialized[extension]`: a missing key reads as
      `undefined`, which is falsy too. */
  predicate NeedsMetadata(initialized: map<string, bool>, extension: string)
  {
    !(extension in initialized && initialized[extension])
  }

  /** The map is marked under the injector's name but read under the
      extension's name: marking settles the extension exactly when the two
      names agree (or it was settled already), and leaves every other key
      as it was. */
  lemma MarkInitialized(initialized: map<string, bool>, injectorName: string, extension: string)
    ensures var marked := initialized[injectorName := true];
            (NeedsMetadata(marked, extension) <==> NeedsMetadata(initialized, extension) && injectorName != extension) &&
            (forall k :: k in initialized && k != injectorName ==> k in marked && marked[k] == initialized[k])
  {
  }

  /** This page's own metadata builder: the same fields as the wallet
      session's, but the symbol falls back to "AVL" and the address format
      is kept whenever it is a number, 0 included, and is 0 when missing. */
  function LegacyInjectorMetadata(api: Api): (m: InjectorMetadata)
    ensures m.chain == api.runtimeChain && m.specVersion == api.specVersion
    ensures m.genesisHash == api.genesisHash
    ensures m.chainType == "substrate" && m.icon == "substrate"
    ensures |api.registry.chainDecimals| > 0 && api.registry.chainDecimals[0] != 0 ==>
              m.tokenDecimals == api.registry.chainDecimals[0]
    ensures !(|api.registry.chainDecimals| > 0 && api.registry.chainDecimals[0] != 0) ==> m.tokenDecimals == 18
    ensures |api.registry.chainTokens| > 0 && api.registry.chainTokens[0] != "" ==>
              m.tokenSymbol == api.registry.chainTokens[0]
    ensures !(|api.registry.chainTokens| > 0 && api.registry.chainTokens[0] != "") ==> m.tokenSymbol == "AVL"
    ensures api.registry.chainSS58.Some? ==> m.ss58Format == api.registry.chainSS58.value
    ensures api.registry.chainSS58.None? ==> m.ss58Format == 0
  {
    var reg := api.registry;
    InjectorMetadata(
      chain := api.runtimeChain,
      specVersion := api.specVersion,
      tokenDecimals := if |reg.chainDecimals| > 0 && reg.chainDecimals[0] != 0 then reg.chainDecimals[0] else 18,
      tokenSymbol := if |reg.chainTokens| > 0 && reg.chainTokens[0] != "" then reg.chainTokens[0] else "AVL",
      genesisHash := api.genesisHash,
      ss58Format := if reg.chainSS58.Some? then reg.chainSS58.value else 0,
      chainType := "substrate",
      icon := "substrate")
  }

  /** The two builders agree except on the symbol's fallback and on the
      address format: a missing or zero format is 0 here and 42 in the
      wallet session. */
  lemma MetadataBuildersDiffer(api: Api)
    ensures var legacy, current := LegacyInjectorMetadata(api), WalletContext.GetInjectorMetadata(api);
            legacy.chain == current.chain && legacy.specVersion == current.specVersion &&
            legacy.genesisHash == current.genesisHash && legacy.tokenDecimals == current.tokenDecimals &&
            (legacy.tokenSymbol == current.tokenSymbol <==>
               |api.registry.chainTokens| > 0 && api.registry.chainTokens[0] != "") &&
            (legacy.ss58Format == current.ss58Format <==>
               api.registry.chainSS58.Some? && api.registry.chainSS58.value != 0)
  {
  }

  /** `${section}_${method}`. */
  function EventName(ev: ChainEvent): string
  {
    ev.section + "_" + ev.methodName
  }

  predicate IsFailedEvent(ev: ChainEvent)
  {
    Includes(EventName(ev), "Failed")
  }

  predicate IsSuccessEvent(ev: ChainEvent)
  {
    Includes(EventName(ev), "ApplicationKeyCreated")
  }

  /** A word without `_` occurs in `a + "_" + b` exactly when it occurs in
      `a` or in `b`: the joined name never makes a match across the
      separator. */
  lemma {:induction false} IncludesAcrossSeparator(a: string, b: string, t: string)
    requires '_' !in t
    ensures Includes(a + "_" + b, t) <==> Includes(a, t) || Includes(b, t)
  {
    var s := a + "_" + b;
    IncludesIffOccurs(s, t);
    IncludesIffOccurs(a, t);
    IncludesIffOccurs(b, t);
    if Includes(s, t) {
      var i :| OccursAt(s, t, i);
      OccurrenceInPart(a, b, t, i);
    }
    if Includes(a, t) {
      var i :| OccursAt(a, t, i);
      OccurrenceFromLeft(a, b, t, i);
    }
    if Includes(b, t) {
      var i :| OccursAt(b, t, i);
      OccurrenceFromRight(a, b, t, i);
    }
  }

  /** An occurrence of a word without `_` in the joined name lies wholly
      in one of the two parts. */
  lemma OccurrenceInPart(a: string, b: string, t: string, i: int)
    requires '_' !in t && OccursAt(a + "_" + b, t, i)
    ensures OccursAt(a, t, i) || OccursAt(b, t, i - |a| - 1)
  {
    var s := a + "_" + b;
    if i + |t| <= |a| {
      assert s[i..i + |t|] == a[i..i + |t|];
    } else if i > |a| {
      assert s[i..i + |t|] == b[i - |a| - 1..i - |a| - 1 + |t|];
    } else {
      OccurrenceCovers(s, t, i, |a|);
    }
  }

  /** An occurrence in the pallet part is one in the joined name. */
  lemma OccurrenceFromLeft(a: string, b: string, t: string, i: int)
    requires OccursAt(a, t, i)
    ensures OccursAt(a + "_" + b, t, i)
  {
    var s := a + "_" + b;
    assert s[i..i + |t|] == a[i..i + |t|];
  }

  /** An occurrence in the method part is one in the joined name, shifted
      past the pallet and the separator. */
  lemma OccurrenceFromRight(a: string, b: string, t: string, i: int)
    requires OccursAt(b, t, i)
    ensures OccursAt(a + "_" + b, t, |a| + 1 + i)
  {
    var s := a + "_" + b;
    assert s[|a| + 1..] == b;
    assert s[|a| + 1 + i..|a| + 1 + i + |t|] == s[|a| + 1..][i..i + |t|];
  }

  /** Each position an occurrence covers holds the matching character. */
  lemma OccurrenceCovers(s: string, t: string, i: int, k: int)
    requires OccursAt(s, t, i) && i <= k < i + |t|
    ensures t[k - i] == s[k]
  {
    assert s[i..i + |t|][k - i] == s[k];
  }

  /** So an event is a failure when its pallet or its name mentions
      "Failed", and a success when either mentions "ApplicationKeyCreated". */
  lemma EventClassesByPart(ev: ChainEvent)
    ensures IsFailedEvent(ev) <==> Includes(ev.section, "Failed") || Includes(ev.methodName, "Failed")
    ensures IsSuccessEvent(ev) <==>
              Includes(ev.section, "ApplicationKeyCreated") || Includes(ev.methodName, "ApplicationKeyCreated")
  {
    IncludesAcrossSeparator(ev.section, ev.methodName, "Failed");
    IncludesAcrossSeparator(ev.section, ev.methodName, "ApplicationKeyCreated");
  }

  function IncludedText(hash: string): string
  {
    IncludedPrefix + hash
  }

  function FailedText(hash: string): string
  {
    FailedPrefix + ExplorerQuery + hash
  }

  function SuccessText(json: string): string
  {
    SuccessPrefix + json
  }

  /** The log lines of an in-block status: the block, then one failure line
      if any event is a failure, then one success line, with the payload of
      the first success event, if any event is a success. The two checks
      are made independently of each other. When `toHuman()` throws on
      that payload there is no success line: the exception leaves the
      callback (`SuccessUnreadable`). */
  function InBlockLogs(hash: string, events: seq<ChainEvent>): (r: seq<LogEntry>)
    ensures |r| >= 1 && r[0] == LogEntry(IncludedText(hash), Info)
  {
    var failed := FindIndex(events, IsFailedEvent);
    var success := FindIndex(events, IsSuccessEvent);
    [LogEntry(IncludedText(hash), Info)]
      + (if failed.Some? then [LogEntry(FailedText(hash), Error)] else [])
      + (if success.Some? && events[success.value].data.Returned?
         then [LogEntry(SuccessText(events[success.value].data.value.json), Info)] else [])
  }

  /** The first success event's payload is one `toHuman()` throws on. */
  predicate SuccessUnreadable(events: seq<ChainEvent>)
  {
    var success := FindIndex(events, IsSuccessEvent);
    success.Some? && events[success.value].data.Threw?
  }

  /** Some event is a failure. */
  predicate AnyFailed(events: seq<ChainEvent>)
  {
    exists i :: 0 <= i < |events| && IsFailedEvent(events[i])
  }

  /** Some event is a success. */
  predicate AnySuccess(events: seq<ChainEvent>)
  {
    exists i :: 0 <= i < |events| && IsSuccessEvent(events[i])
  }

  /** There is one failure line exactly when some event is a failure, and
      one success line exactly when some event is a success. */
  lemma InBlockLogsLength(hash: string, events: seq<ChainEvent>)
    ensures |InBlockLogs(hash, events)| ==
            1 + (if AnyFailed(events) then 1 else 0) + (if AnySuccess(events) && !SuccessUnreadable(events) then 1 else 0)
  {
    FindIndexFound(events, IsFailedEvent);
    FindIndexFound(events, IsSuccessEvent);
  }

  /** The failure line comes right after the block line. */
  lemma InBlockLogsFailedLine(hash: string, events: seq<ChainEvent>)
    requires AnyFailed(events)
    ensures |InBlockLogs(hash, events)| >= 2
    ensures InBlockLogs(hash, events)[1] == LogEntry(FailedText(hash), Error)
  {
    FindIndexFound(events, IsFailedEvent);
  }

  /** The success line is the last line and carries the payload of the
      first success event. */
  lemma InBlockLogsSuccessLine(hash: string, events: seq<ChainEvent>, k: nat)
    requires k < |events| && IsSuccessEvent(events[k])
    requires forall j :: 0 <= j < k ==> !IsSuccessEvent(events[j])
    requires events[k].data.Returned?
    ensures InBlockLogs(hash, events)[|InBlockLogs(hash, events)| - 1] ==
            LogEntry(SuccessText(events[k].data.value.json), Info)
  {
    FindIndexFirst(events, IsSuccessEvent, k);
  }

  /** A block holding both a failed extrinsic and a created key logs both
      lines. */
  lemma InBlockLogsBothClasses(hash: string, payload: EventData)
    ensures var events := [ChainEvent("system", "ExtrinsicFailed", Returned(payload)),
                           ChainEvent("dataAvailability", "ApplicationKeyCreated", Returned(payload))];
            InBlockLogs(hash, events) == [LogEntry(IncludedText(hash), Info),
                                          LogEntry(FailedText(hash), Error),
                                          LogEntry(SuccessText(payload.json), Info)]
  {
    var failedEvent := ChainEvent("system", "ExtrinsicFailed", Returned(payload));
    var createdEvent := ChainEvent("dataAvailability", "ApplicationKeyCreated", Returned(payload));
    assert EventName(failedEvent)[16..22] == "Failed";
    IncludesAt(EventName(failedEvent), "Failed", 16);
    assert EventName(createdEvent)[17..38] == "ApplicationKeyCreated";
    IncludesAt(EventName(createdEvent), "ApplicationKeyCreated", 17);
    assert IsFailedEvent([failedEvent, createdEvent][0]);
    assert IsSuccessEvent([failedEvent, createdEvent][1]);
  }

  /** The label of an account button: ten characters from each end. */
  function AccountButtonLabel(address: string): (r: string)
    ensures r == Utils.ShortenAddress(address, 10)
    ensures |address| >= 10 ==> |r| == 23
  {
    Substring(address, 0, 10) + "..." + Substring(address, |address| - 10, |address|)
  }

  /** The send button is enabled for a name of 1 to 20 characters. */
  function CreateButtonEnabled(appName: string): (r: bool)
    ensures r <==> 1 <= |appName| <= 20
  {
    !(|appName| < 1 || |appName| > 20)
  }

  /** The search button is enabled for a non-empty name. */
  function SearchButtonEnabled(appToSearch: string): (r: bool)
    ensures r <==> appToSearch != ""
  {
    !(|appToSearch| < 1)
  }

  /** `data.toHuman()` of a stored application key: its id and owner as
      the SDK renders them. */
  datatype AppKeyInfo = AppKeyInfo(id: string, owner: string)

  function FoundText(info: AppKeyInfo): string
  {
    FoundPrefix + info.id + OwnerLabel + info.owner
  }

  /** The result line of a search, from what the key lookup produced: a
      record (found), nothing (a falsy value or a falsy `toHuman()`), or
      an exception. */
  function SearchResult(lookup: Outcome<Option<AppKeyInfo>>): (r: string)
    ensures lookup.Returned? && lookup.value.Some? ==>
              r == FoundPrefix + lookup.value.value.id + OwnerLabel + lookup.value.value.owner
    ensures lookup.Returned? && lookup.value.None? ==> r == NotFound
    ensures lookup.Threw? ==> r == SearchFailed
  {
    match lookup
    case Threw(_) => SearchFailed
    case Returned(None) => NotFound
    case Returned(Some(info)) => FoundText(info)
  }

  /** The three outcomes of a search can be told apart by their line. */
  lemma SearchResultsDistinct(info: AppKeyInfo, err: Thrown)
    ensures SearchResult(Returned(Some(info))) != SearchResult(Returned(None))
    ensures SearchResult(Returned(Some(info))) != SearchResult(Threw(err))
    ensures SearchResult(Returned(None)) != SearchResult(Threw(err))
  {
    var found := SearchResult(Returned(Some(info)));
    assert found[4] == 'f' && NotFound[4] == 'n';
    assert found[1] == 'p' && SearchFailed[1] == 'n';
  }

  /** The page's state. The detected-extension list is filled from
      `window.injectedWeb3` and is not modelled. */
  class Home {
    var extensionsInitialized: map<string, bool>
    var extension: Option<string>
    var accounts: Option<seq<string>>
    var account: Option<string>
    var appName: string
    var availApi: Option<Api>
    var logs: seq<LogEntry>
    var appToSearch: string
    var searchRes: Option<string>

    constructor ()
      ensures extensionsInitialized == map[] && extension == None && accounts == None
      ensures account == None && appName == "" && availApi == None && logs == []
      ensures appToSearch == "" && searchRes == None
    {
      extensionsInitialized := map[];
      extension := None;
      accounts := None;
      account := None;
      appName := "";
      availApi := None;
      logs := [];
      appToSearch := "";
      searchRes := None;
    }

    /** `addLogs`: one entry at the end, earlier entries as they were. */
    method AddLogs(message: string, severity: Severity)
      modifies this`logs
      ensures logs == old(logs) + [LogEntry(message, severity)]
      ensures |logs| == |old(logs)| + 1 && logs[..|old(logs)|] == old(logs)
    {
      logs := logs + [LogEntry(message, severity)];
    }

    /** An account button's click. */
    method ChooseAccount(address: string)
      modifies this`account
      ensures account == Some(address)
    {
      account := Some(address);
    }

    /** The name input's `onChange`. */
    method SetAppName(name: string)
      modifies this`appName
      ensures appName == name
    {
      appName := name;
    }

    /** The search input's `onChange`. */
    method SetAppToSearch(name: string)
      modifies this`appToSearch
      ensures appToSearch == name
    {
      appToSearch := name;
    }

    /** `setAccountAndExtension(chosen)`: once the extension utilities are
        loaded, the extension is recorded at once; the account list becomes
        the addresses of the extension's accounts, in order, unless it has
        none, which is logged as an error. Any exception is logged. */
    method SetAccountAndExtension(chosen: string, loaded: Outcome<()>, injected: Outcome<seq<InjectedAccount>>)
      modifies this`extension, this`accounts, this`logs
      ensures loaded.Threw? ==>
                extension == old(extension) && accounts == old(accounts) &&
                logs == old(logs) + [LogEntry(ErrorText(loaded.error), Error)]
      ensures loaded.Returned? ==> extension == Some(chosen)
      ensures loaded.Returned? && injected.Threw? ==>
                accounts == old(accounts) && logs == old(logs) + [LogEntry(ErrorText(injected.error), Error)]
      ensures loaded.Returned? && injected.Returned? && FromExtension(injected.value, chosen) == [] ==>
                accounts == old(accounts) && logs == old(logs) + [LogEntry(NoAccountRefresh, Error)]
      ensures loaded.Returned? && injected.Returned? && FromExtension(injected.value, chosen) != [] ==>
                accounts == Some(Addresses(FromExtension(injected.value, chosen))) && logs == old(logs)
    {
      if loaded.Threw? {
        AddLogs(ErrorText(loaded.error), Error);
        return;
      }
      extension := Some(chosen);
      if injected.Threw? {
        AddLogs(ErrorText(injected.error), Error);
        return;
      }
      var filtered := FromExtension(injected.value, chosen);
      if |filtered| == 0 {
        AddLogs(NoAccountRefresh, Error);
        return;
      }
      accounts := Some(Addresses(filtered));
    }

    /** `sendTx(name)`. The extension is checked before the address; then
        the extension's accounts are listed and the signer chosen, and its
        injector is looked up; the rest is `Submit`. Every exception on the
        way is logged as an error and ends the handler. */
    method SendTx(name: string, loaded: Outcome<()>, injected: Outcome<seq<InjectedAccount>>,
                  web3FromSource: string -> Outcome<Injector>, initialize: Outcome<Api>,
                  provide: Outcome<()>, build: Outcome<()>, submission: Outcome<()>)
      returns (request: Option<SignRequest>, provided: Option<InjectorMetadata>)
      modifies this`logs, this`availApi, this`extensionsInitialized
      ensures old(logs) <= logs
      ensures var untouched := request == None && provided == None && availApi == old(availApi) &&
                               extensionsInitialized == old(extensionsInitialized);
              (!Truthy(extension) ==> untouched && logs == old(logs) + [LogEntry(ExtensionMissing, Error)]) &&
              (Truthy(extension) && !Truthy(account) ==>
                 untouched && logs == old(logs) + [LogEntry(AddressMissing, Error)]) &&
              (Truthy(extension) && Truthy(account) && loaded.Threw? ==>
                 untouched && logs == old(logs) + [LogEntry(ErrorText(loaded.error), Error)]) &&
              (Truthy(extension) && Truthy(account) && loaded.Returned? && injected.Threw? ==>
                 untouched && logs == old(logs) + [LogEntry(ErrorText(injected.error), Error)]) &&
              (Truthy(extension) && Truthy(account) && loaded.Returned? && injected.Returned? &&
               FromExtension(injected.value, extension.value) == [] ==>
                 untouched && logs == old(logs) + [LogEntry(NoAccount, Error)])
      ensures Truthy(extension) && Truthy(account) && loaded.Returned? && injected.Returned? &&
              FromExtension(injected.value, extension.value) != [] ==>
                var signer := ChooseSigner(FromExtension(injected.value, extension.value), account.value);
                var injector := web3FromSource(signer.meta.source);
                (injector.Threw? ==>
                   request == None && provided == None && availApi == old(availApi) &&
                   extensionsInitialized == old(extensionsInitialized) &&
                   logs == old(logs) + [LogEntry(ErrorText(injector.error), Error)]) &&
                (injector.Returned? ==>
                   Submitted(name, extension.value, signer, injector.value, initialize, provide, build, submission,
                             old(logs), old(availApi), old(extensionsInitialized), request, provided))
    {
      request, provided := None, None;
      if !Truthy(extension) {
        AddLogs(ExtensionMissing, Error);
        return;
      }
      if !Truthy(account) {
        AddLogs(AddressMissing, Error);
        return;
      }
      if loaded.Threw? {
        AddLogs(ErrorText(loaded.error), Error);
        return;
      }
      if injected.Threw? {
        AddLogs(ErrorText(injected.error), Error);
        return;
      }
      var filtered := FromExtension(injected.value, extension.value);
      if |filtered| == 0 {
        AddLogs(NoAccount, Error);
        return;
      }
      var signer := ChooseSigner(filtered, account.value);
      var injector := web3FromSource(signer.meta.source);
      if injector.Threw? {
        AddLogs(ErrorText(injector.error), Error);
        return;
      }
      request, provided := Submit(name, extension.value, signer, injector.value, initialize, provide, build, submission);
    }

    /** What `sendTx` does once it holds the signer and its injector, as a
        relation between the state before (`logs0`, `api0`,
        `initialized0`) and after: an API handle is opened unless a
        connected one is kept (`initialize` is the outcome of the SDK's
        `initialize()`); metadata is provided (`provide`) once per
        extension when the injector can take it, and the injector's name is
        then marked; the transaction is built (`build`: building
        `createApplicationKey(appName)` may throw, and then nothing is sent
        and no sending line is logged); the sending is logged, and the
        request signed and sent (`submission` is how awaiting `signAndSend`
        ends). */
    ghost predicate Submitted(name: string, extensionName: string, signer: InjectedAccount, injector: Injector,
                              initialize: Outcome<Api>, provide: Outcome<()>, build: Outcome<()>,
                              submission: Outcome<()>,
                              logs0: seq<LogEntry>, api0: Option<Api>, initialized0: map<string, bool>,
                              request: Option<SignRequest>, provided: Option<InjectorMetadata>)
      reads this
    {
      var connected := api0.Some? && api0.value.isConnected;
      (!connected && initialize.Threw? ==>
         request == None && provided == None && availApi == api0 && extensionsInitialized == initialized0 &&
         logs == logs0 + [LogEntry(ErrorText(initialize.error), Error)]) &&
      (connected || initialize.Returned? ==>
         var api := if connected then api0.value else initialize.value;
         availApi == Some(api) &&
         (provided.Some? <==> injector.hasMetadata && NeedsMetadata(initialized0, extensionName)) &&
         (provided.Some? ==> provided.value == LegacyInjectorMetadata(api)) &&
         (provided.Some? && provide.Threw? ==>
            request == None && extensionsInitialized == initialized0 &&
            logs == logs0 + [LogEntry(ErrorText(provide.error), Error)]) &&
         (!(provided.Some? && provide.Threw?) ==>
            extensionsInitialized == (if provided.Some? then initialized0[injector.name := true] else initialized0) &&
            request == SentRequest(name, signer, injector, build) &&
            logs == logs0 + SendLines(name, signer, build, submission)))
    }

    /** The last step of `sendTx`: the transaction is built (which may
        throw), the sending is logged, and the request is signed and sent. */
    method Send(name: string, signer: InjectedAccount, injector: Injector, build: Outcome<()>,
                submission: Outcome<()>)
      returns (request: Option<SignRequest>)
      modifies this`logs
      ensures request == SentRequest(name, signer, injector, build)
      ensures logs == old(logs) + SendLines(name, signer, build, submission)
    {
      request := None;
      if build.Threw? {
        AddLogs(ErrorText(build.error), Error);
        return;
      }
      AddLogs(SendingText(signer.address, name), Info);
      request := Some(SignRequest(name, signer.address, 0, injector));
      if submission.Threw? {
        AddLogs(ErrorText(submission.error), Error);
      }
    }

    method Submit(name: string, extensionName: string, signer: InjectedAccount, injector: Injector,
                  initialize: Outcome<Api>, provide: Outcome<()>, build: Outcome<()>, submission: Outcome<()>)
      returns (request: Option<SignRequest>, provided: Option<InjectorMetadata>)
      modifies this`logs, this`availApi, this`extensionsInitialized
      ensures old(logs) <= logs
      ensures Submitted(name, extensionName, signer, injector, initialize, provide, build, submission,
                        old(logs), old(availApi), old(extensionsInitialized), request, provided)
    {
      request, provided := None, None;
      var api: Api;
      if availApi.Some? && availApi.value.isConnected {
        api := availApi.value;
      } else {
        if initialize.Threw? {
          AddLogs(ErrorText(initialize.error), Error);
          return;
        }
        api := initialize.value;
        availApi := Some(api);
      }
      if injector.hasMetadata && NeedsMetadata(extensionsInitialized, extensionName) {
        provided := Some(LegacyInjectorMetadata(api));
        if provide.Threw? {
          AddLogs(ErrorText(provide.error), Error);
          return;
        }
        extensionsInitialized := extensionsInitialized[injector.name := true];
      }
      request := Send(name, signer, injector, build, submission);
    }

    /** The `signAndSend` status callback: an error status adds an error
        line; an in-block status adds its lines and ends the subscription,
        unless `toHuman()` throws on the success payload: the exception
        then leaves the callback (`Rejected`) before `unsub()`. */
    method OnTxStatus(isError: bool, inBlock: Option<string>, events: seq<ChainEvent>)
      returns (unsubscribed: bool, completion: Completion)
      modifies this`logs
      ensures logs == old(logs) + (if isError then [LogEntry(ErrorOccurred, Error)] else []) +
                                  (if inBlock.Some? then InBlockLogs(inBlock.value, events) else [])
      ensures unsubscribed <==> inBlock.Some? && !SuccessUnreadable(events)
      ensures completion == Rejected <==> inBlock.Some? && SuccessUnreadable(events)
    {
      if isError {
        AddLogs(ErrorOccurred, Error);
      }
      unsubscribed, completion := false, Resolved;
      if inBlock.Some? {
        logs := logs + InBlockLogs(inBlock.value, events);
        if SuccessUnreadable(events) {
          completion := Rejected;
        } else {
          unsubscribed := true;
        }
      }
    }

    /** `searchAppId(name)`: a connected handle is reused, otherwise one is
        opened and kept; the result line then comes from the key lookup.
        A failure to open the handle shows the error line too. */
    method SearchAppId(name: string, initialize: Outcome<Api>, lookup: string -> Outcome<Option<AppKeyInfo>>)
      modifies this`availApi, this`searchRes
      ensures var connected := old(availApi).Some? && old(availApi).value.isConnected;
              (connected ==> availApi == old(availApi) && searchRes == Some(SearchResult(lookup(name)))) &&
              (!connected && initialize.Threw? ==> availApi == old(availApi) && searchRes == Some(SearchFailed)) &&
              (!connected && initialize.Returned? ==>
                 availApi == Some(initialize.value) && searchRes == Some(SearchResult(lookup(name))))
    {
      if !(availApi.Some? && availApi.value.isConnected) {
        if initialize.Threw? {
          searchRes := Some(SearchFailed);
          return;
        }
        availApi := Some(initialize.value);
      }
      searchRes := Some(SearchResult(lookup(name)));
    }
  }

  /** The request `sendTx` signs and sends: none when building the
      transaction throws. */
  function SentRequest(name: string, signer: InjectedAccount, injector: Injector, build: Outcome<()>)
    : (r: Option<SignRequest>)
    ensures r.Some? <==> build.Returned?
    ensures r.Some? ==> r.value.keyName == name && r.value.signer == signer.address &&
                        r.value.appId == 0 && r.value.injector == injector
  {
    if build.Threw? then None else Some(SignRequest(name, signer.address, 0, injector))
  }

  /** The lines the sending step logs: the build error alone, or the
      sending line, followed by the submission error when there is one. */
  function SendLines(name: string, signer: InjectedAccount, build: Outcome<()>, submission: Outcome<()>)
    : (r: seq<LogEntry>)
    ensures build.Threw? ==> r == [LogEntry(ErrorText(build.error), Error)]
    ensures build.Returned? ==> |r| >= 1 && r[0] == LogEntry(SendingText(signer.address, name), Info)
    ensures build.Returned? && submission.Threw? ==> r == [r[0], LogEntry(ErrorText(submission.error), Error)]
    ensures build.Returned? && submission.Returned? ==> r == [r[0]]
    ensures LogEntry(SendingText(signer.address, name), Info) in r <==> build.Returned?
  {
    if build.Threw? then [LogEntry(ErrorText(build.error), Error)]
    else [LogEntry(SendingText(signer.address, name), Info)] +
         (if submission.Threw? then [LogEntry(ErrorText(submission.error), Error)] else [])
  }

  function SendingText(address: string, name: string): string
  {
    "Sending tx with account " + address + ". Create app id with name " + name
  }
}
