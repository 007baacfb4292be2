/** The wallet session of context/WalletContext.tsx: the discovered
    accounts, the selected account and the chain API handle, and the four
    operations that overwrite them. Every call into the wallet extension or
    the chain SDK is a parameter: the value it resolves to, or the
    exception it throws. */
module WalletContext {
  import opened JsValues
  import opened Types

  /** An injected account with its extension's name copied out of `meta`
      into a top-level `source` field. */
  datatype AccountWithProvenance = AccountWithProvenance(address: string, meta: AccountMeta, source: string)

  /** The mapping step of `connectWallet`: every injected account, in order,
      with its provenance attached. */
  function WithProvenance(injected: seq<InjectedAccount>): (r: seq<AccountWithProvenance>)
    ensures |r| == |injected|
    ensures forall i :: 0 <= i < |r| ==>
              r[i].address == injected[i].address && r[i].meta == injected[i].meta &&
              r[i].source == injected[i].meta.source
  {
    seq(|injected|, i requires 0 <= i < |injected| =>
      AccountWithProvenance(injected[i].address, injected[i].meta, injected[i].meta.source))
  }

  /** `getInjectorMetadata(api)`: the chain description handed to an
      extension. Token decimals, token symbol and address format fall back
      to 18, "AVAIL" and 42 whenever the registry's value is missing or
      falsy, so none of the three is ever falsy. */
  function GetInjectorMetadata(api: Api): (m: InjectorMetadata)
    ensures m.chain == api.runtimeChain && m.specVersion == api.specVersion
    ensures m.genesisHash == api.genesisHash
    ensures m.chainType == "substrate" && m.icon == "substrate"
    ensures m.tokenDecimals != 0 && m.tokenSymbol != "" && m.ss58Format != 0
    ensures |api.registry.chainDecimals| > 0 && api.registry.chainDecimals[0] != 0 ==>
              m.tokenDecimals == api.registry.chainDecimals[0]
    ensures !(|api.registry.chainDecimals| > 0 && api.registry.chainDecimals[0] != 0) ==> m.tokenDecimals == 18
    ensures |api.registry.chainTokens| > 0 && api.registry.chainTokens[0] != "" ==>
              m.tokenSymbol == api.registry.chainTokens[0]
    ensures !(|api.registry.chainTokens| > 0 && api.registry.chainTokens[0] != "") ==> m.tokenSymbol == "AVAIL"
    ensures api.registry.chainSS58.Some? && api.registry.chainSS58.value != 0 ==>
              m.ss58Format == api.registry.chainSS58.value
    ensures !(api.registry.chainSS58.Some? && api.registry.chainSS58.value != 0) ==> m.ss58Format == 42
  {
    var reg := api.registry;
    InjectorMetadata(
      chain := api.runtimeChain,
      specVersion := api.specVersion,
      tokenDecimals := if |reg.chainDecimals| > 0 && reg.chainDecimals[0] != 0 then reg.chainDecimals[0] else 18,
      tokenSymbol := if |reg.chainTokens| > 0 && reg.chainTokens[0] != "" then reg.chainTokens[0] else "AVAIL",
      genesisHash := api.genesisHash,
      ss58Format := if reg.chainSS58.Some? && reg.chainSS58.value != 0 then reg.chainSS58.value else 42,
      chainType := "substrate",
      icon := "substrate")
  }

  /** An address format of 0 is falsy, so it is replaced by 42. */
  lemma SS58ZeroBecomes42(api: Api)
    requires api.registry.chainSS58 == Some(0)
    ensures GetInjectorMetadata(api).ss58Format == 42
  {
  }

  /** The session state shared by every component through `useWallet`. */
  class WalletProvider {
    var accounts: seq<AccountWithProvenance>
    var selectedAccount: Option<AccountWithProvenance>
    var api: Option<Api>

    /** The initial state: no accounts, no selection, no API handle. */
    constructor ()
      ensures accounts == [] && selectedAccount == None && api == None
    {
      accounts := [];
      selectedAccount := None;
      api := None;
    }

    /** `connectWallet`: `web3Enable` reports how many extensions answered
        (or throws); with none, an error toast and nothing else; otherwise
        `web3Accounts` (which may throw) replaces the account list
        wholesale. The selection and the API handle are not touched. */
    method ConnectWallet(extensionCount: Outcome<nat>, injected: Outcome<seq<InjectedAccount>>)
      returns (toast: Option<Toast>, completion: Completion)
      modifies this`accounts
      ensures selectedAccount == old(selectedAccount) && api == old(api)
      ensures extensionCount.Threw? ==>
                accounts == old(accounts) && toast == None && completion == Rejected
      ensures extensionCount == Returned(0) ==>
                accounts == old(accounts) && toast == Some(ErrorToast("No extensions installed.")) &&
                completion == Resolved
      ensures extensionCount.Returned? && extensionCount.value > 0 && injected.Threw? ==>
                accounts == old(accounts) && toast == None && completion == Rejected
      ensures extensionCount.Returned? && extensionCount.value > 0 && injected.Returned? ==>
                accounts == WithProvenance(injected.value) && toast == None && completion == Resolved
    {
      toast := None;
      if extensionCount.Threw? {
        completion := Rejected;
        return;
      }
      if extensionCount.value == 0 {
        toast := Some(ErrorToast("No extensions installed."));
        completion := Resolved;
        return;
      }
      if injected.Threw? {
        completion := Rejected;
        return;
      }
      accounts := WithProvenance(injected.value);
      completion := Resolved;
    }

    /** `selectNetwork(network)`: a handle that is present and connected is
        disconnected first (the SDK's `disconnect`, which may throw); then
        `initialize(network)` is awaited and its handle stored. When either
        call throws, `api` is not reassigned, so after a failed `initialize`
        it still holds the old handle, which now reads as not connected. */
    method SelectNetwork(network: string, disconnect: Outcome<()>, initialize: string -> Outcome<Api>)
      returns (disconnected: bool, completion: Completion)
      modifies this`api
      ensures accounts == old(accounts) && selectedAccount == old(selectedAccount)
      ensures disconnected <==> old(api).Some? && old(api).value.isConnected
      ensures disconnected && disconnect.Threw? ==> api == old(api) && completion == Rejected
      ensures disconnected && disconnect.Returned? && initialize(network).Threw? ==>
                api == Some(old(api).value.(isConnected := false)) && completion == Rejected
      ensures !disconnected && initialize(network).Threw? ==> api == old(api) && completion == Rejected
      ensures !(disconnected && disconnect.Threw?) && initialize(network).Returned? ==>
                api == Some(initialize(network).value) && completion == Resolved
      ensures api.Some? ==> old(api).Some? || initialize(network).Returned?
    {
      disconnected := api.Some? && api.value.isConnected;
      if disconnected {
        if disconnect.Threw? {
          completion := Rejected;
          return;
        }
        api := Some(api.value.(isConnected := false));
      }
      var newApi := initialize(network);
      if newApi.Threw? {
        completion := Rejected;
        return;
      }
      api := Some(newApi.value);
      completion := Resolved;
    }

    /** `selectAccount(account)`: the account becomes the selection at once,
        whether or not it is one of `accounts` and whether or not there is
        an API handle. Only with a handle is the account's extension looked
        up (`web3FromSource(account.source)`, which may throw); when that
        extension has a metadata capability, the chain metadata is passed to
        `provide` (which may throw too). "Connected." is shown unless one of
        the two calls threw. */
    method SelectAccount(account: AccountWithProvenance, web3FromSource: string -> Outcome<Injector>,
                         provide: Outcome<()>)
      returns (provided: Option<InjectorMetadata>, toast: Option<Toast>, completion: Completion)
      modifies this`selectedAccount
      ensures selectedAccount == Some(account)
      ensures accounts == old(accounts) && api == old(api)
      ensures provided.Some? <==>
                api.Some? && web3FromSource(account.source).Returned? &&
                web3FromSource(account.source).value.hasMetadata
      ensures provided.Some? ==> provided.value == GetInjectorMetadata(api.value)
      ensures var failed := api.Some? && (web3FromSource(account.source).Threw? || (provided.Some? && provide.Threw?));
              (failed ==> toast == None && completion == Rejected) &&
              (!failed ==> toast == Some(SuccessToast("Connected.")) && completion == Resolved)
    {
      selectedAccount := Some(account);
      provided := None;
      if api.Some? {
        var injector := web3FromSource(account.source);
        if injector.Threw? {
          toast, completion := None, Rejected;
          return;
        }
        if injector.value.hasMetadata {
          provided := Some(GetInjectorMetadata(api.value));
          if provide.Threw? {
            toast, completion := None, Rejected;
            return;
          }
        }
      }
      toast, completion := Some(SuccessToast("Connected.")), Resolved;
    }

    /** `disconnectWallet`: forget the accounts and the selection; the API
        handle stays as it is. */
    method DisconnectWallet() returns (toast: Toast)
      modifies this`accounts, this`selectedAccount
      ensures accounts == [] && selectedAccount == None
      ensures api == old(api)
      ensures toast == SuccessToast("Disconnected.")
    {
      accounts := [];
      selectedAccount := None;
      toast := SuccessToast("Disconnected.");
    }
  }
}
