/** The records the front-end exchanges with the wallet extension and the
    chain SDK, reduced to the fields its logic reads. The `ApplicationData`
    record comes from lib/types.ts, which is not part of this model; its
    three fields are the ones every component uses. */
module Types {
  import opened JsValues

  /** One registered application key: its chain-assigned id, the owner's
      address and the key's name. */
  datatype ApplicationData = ApplicationData(id: int, owner: string, name: string)

  /** The `meta` part of an injected account: the optional display name and
      the extension (source) that supplied it. */
  datatype AccountMeta = AccountMeta(name: Option<string>, source: string)

  /** An account as `web3Accounts()` lists it. */
  datatype InjectedAccount = InjectedAccount(address: string, meta: AccountMeta)

  /** What `web3FromSource(source)` resolves to: the extension's name and
      whether it offers a metadata capability. Its signer is opaque. */
  datatype Injector = Injector(name: string, hasMetadata: bool)

  /** The parts of `api.registry` that metadata is built from. */
  datatype Registry = Registry(chainDecimals: seq<int>, chainTokens: seq<string>, chainSS58: Option<int>)

  /** An `ApiPromise` handle, reduced to what the front-end reads from it. */
  datatype Api = Api(
    isConnected: bool,
    runtimeChain: string,
    specVersion: int,
    genesisHash: string,
    registry: Registry)

  /** The record handed to `injector.metadata.provide`. The SDK's type
      definitions and signed extensions it also carries are constants of
      the SDK and are not modelled. */
  datatype InjectorMetadata = InjectorMetadata(
    chain: string,
    specVersion: int,
    tokenDecimals: int,
    tokenSymbol: string,
    genesisHash: string,
    ss58Format: int,
    chainType: string,
    icon: string)

  /** `event.data.toHuman()` of an event: the fields of an
      `ApplicationKeyCreated` payload, and its JSON rendering. */
  datatype EventData = EventData(id: int, owner: string, key: string, json: string)

  /** An emitted chain event: its pallet (`section`), its name (`method`)
      and its payload as `data.toHuman()` gives it, or what that call
      throws. */
  datatype ChainEvent = ChainEvent(section: string, methodName: string, data: Outcome<EventData>)

  /** What is signed and sent: a `createApplicationKey` call with the key's
      name, signed by an address with app id 0 through the signer of an
      injector. */
  datatype SignRequest = SignRequest(keyName: string, signer: string, appId: int, injector: Injector)

  /** A notification shown to the user. */
  datatype Toast = SuccessToast(text: string) | ErrorToast(text: string)
}
