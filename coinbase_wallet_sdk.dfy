/**
 The SDK's entry point, `CoinbaseWalletSDK` (CoinbaseWalletSDK.ts, lines
 18-57): it keeps the normalized application metadata and, on every call of
 `makeWeb3Provider`, either hands back a trusted injected provider or builds
 a new `CoinbaseWalletProvider`.
 */
module CoinbaseWalletSdk {
  import opened JsValues
  import opened AppMetadataDefaults
  import opened CBWindows

  /** The caller's connection preference; the SDK forwards it without reading it. */
  datatype Preference = Preference(options: string)

  /** The default parameter value `{ options: 'all' }`. */
  const DefaultPreference: Preference := Preference("all")

  /** The argument of `new CoinbaseWalletProvider({ metadata, preference })`. */
  datatype ProviderOptions = ProviderOptions(metadata: AppMetadata, preference: Preference)

  /** A provider this SDK builds; its transport is not part of this model. */
  class CoinbaseWalletProvider {
    const options: ProviderOptions

    constructor (options: ProviderOptions)
      ensures this.options == options
    {
      this.options := options;
    }
  }

  /** The two kinds of `ProviderInterface` value `makeWeb3Provider` returns. */
  datatype ProviderInterface =
    | Injected(handle: EthereumHandle)
    | Constructed(provider: CoinbaseWalletProvider)

  /** What `makeWeb3Provider` decides: return this handle as it is, or build a provider from these options. */
  datatype Resolution =
    | UseInjected(handle: EthereumHandle)
    | Construct(options: ProviderOptions)

  /** `p` is what a call returns when the decision is `r`: that very handle, or a provider built with those options. */
  predicate Answers(p: ProviderInterface, r: Resolution)
  {
    match r
    case UseInjected(h) => p == Injected(h)
    case Construct(options) => p.Constructed? && p.provider.options == options
  }

  /**
   A parameter with default `{ options: 'all' }`. Here `None` stands for an
   omitted argument (`undefined`) only: a JavaScript default parameter does
   not replace an explicit `null`, which the model does not represent.
   */
  function EffectivePreference(preference: Option<Preference>): (p: Preference)
    ensures preference.Some? ==> p == preference.value
    ensures preference.None? ==> p == DefaultPreference
  {
    if preference.Some? then preference.value else DefaultPreference
  }

  /**
   The decision `makeWeb3Provider` takes for an SDK holding `metadata`, called
   with `preference` in the environment `window`.
   */
  function Resolve(metadata: AppMetadata, window: CBWindow, preference: Option<Preference>): (r: Resolution)
    // the injected handle is returned only when it carries the trust marker ...
    ensures r.UseInjected? ==> TruthyBool(r.handle.isCoinbaseBrowser)
    // ... and only when it is the local one, or the top window's one while the local one is missing
    ensures r.UseInjected? ==>
      (Some(r.handle) == window.ethereum || (window.ethereum.None? && window.top == Accessible(Some(r.handle))))
    // a trusted local handle is returned as it is
    ensures window.ethereum.Some? && TruthyBool(window.ethereum.value.isCoinbaseBrowser) ==>
      r == UseInjected(window.ethereum.value)
    // an untrusted local handle is never bypassed for the top window's one
    ensures window.ethereum.Some? && !TruthyBool(window.ethereum.value.isCoinbaseBrowser) ==> r.Construct?
    // the top window's handle is used when the local one is missing
    ensures window.ethereum.None? && window.top.Accessible? && window.top.ethereum.Some? ==>
      r == if TruthyBool(window.top.ethereum.value.isCoinbaseBrowser)
           then UseInjected(window.top.ethereum.value)
           else Construct(ProviderOptions(metadata, EffectivePreference(preference)))
    // a denied top window, or none at all, falls through to building a provider
    ensures window.ethereum.None? && !window.top.Accessible? ==> r.Construct?
    // a built provider always gets the stored metadata and the given (or default) preference
    ensures r.Construct? ==> r.options == ProviderOptions(metadata, EffectivePreference(preference))
  {
    match TrustedHandle(window)
    case Some(h) => UseInjected(h)
    case None => Construct(ProviderOptions(metadata, EffectivePreference(preference)))
  }

  /** Calling without a preference is the same as calling with `{ options: 'all' }`. */
  lemma OmittedPreferenceIsAll(metadata: AppMetadata, window: CBWindow)
    ensures Resolve(metadata, window, None) == Resolve(metadata, window, Some(DefaultPreference))
  {
  }

  /** Once a trusted handle is found, the preference makes no difference. */
  lemma PreferenceIgnoredWhenInjected(metadata: AppMetadata, window: CBWindow, p: Option<Preference>, q: Option<Preference>)
    requires Resolve(metadata, window, p).UseInjected?
    ensures Resolve(metadata, window, q) == Resolve(metadata, window, p)
  {
  }

  /** While a local handle is present, nothing about the top window changes the decision. */
  lemma TopIgnoredWhenLocalPresent(metadata: AppMetadata, window: CBWindow, top: TopWindow, p: Option<Preference>)
    requires window.ethereum.Some?
    ensures Resolve(metadata, window.(top := top), p) == Resolve(metadata, window, p)
  {
  }

  /** A top window that denies access decides the same as one that has no handle. */
  lemma DenialAbsorbed(metadata: AppMetadata, window: CBWindow, p: Option<Preference>)
    requires window.top.Denied?
    ensures Resolve(metadata, window, p) == Resolve(metadata, window.(top := Accessible(None)), p)
  {
  }

  /** The SDK object a dapp creates. */
  class CoinbaseWalletSDK {
    var metadata: AppMetadata

    /**
     Normalizes the options; `favicon` is what the page's favicon lookup
     returns. Recording the SDK version, which the source also starts here,
     has no effect on this state.
     */
    constructor (options: SdkOptions, favicon: string)
      ensures metadata == Normalize(options, favicon)
    {
      metadata := Normalize(options, favicon);
    }

    /**
     Returns the trusted injected handle itself, or else a newly allocated
     provider built from the stored metadata and the preference. It never
     fails and changes nothing on the SDK.
     */
    method MakeWeb3Provider(window: CBWindow, preference: Option<Preference>) returns (p: ProviderInterface)
      ensures Answers(p, Resolve(metadata, window, preference))
      ensures p.Constructed? ==> fresh(p.provider)
      ensures metadata == old(metadata)
    {
      var lookup := LookupEthereum(window);
      if lookup.Normal? {
        var ethereum := lookup.value;
        if ethereum.Some? && TruthyBool(ethereum.value.isCoinbaseBrowser) {
          return Injected(ethereum.value);
        }
      }
      // a thrown security error is ignored and ends up here too
      var provider := new CoinbaseWalletProvider(ProviderOptions(metadata, EffectivePreference(preference)));
      p := Constructed(provider);
    }
  }

  /**
   Two calls in an environment without a trusted handle give two distinct
   providers, and both carry the SDK's metadata.
   */
  method TwoCallsTwoProviders(sdk: CoinbaseWalletSDK, window: CBWindow, preference: Option<Preference>)
    returns (first: ProviderInterface, second: ProviderInterface)
    requires TrustedHandle(window).None?
    ensures first.Constructed? && second.Constructed?
    ensures first.provider != second.provider
    ensures first.provider.options.metadata == second.provider.options.metadata == sdk.metadata
  {
    first := sdk.MakeWeb3Provider(window, preference);
    second := sdk.MakeWeb3Provider(window, preference);
  }

  /** One call of `makeWeb3Provider`: the environment at the time and the argument. */
  datatype Call = Call(window: CBWindow, preference: Option<Preference>)

  /**
   A dapp calling `makeWeb3Provider` on one SDK object once per element of
   `calls`, in order. The SDK caches nothing: each answer is the decision for
   that call's own environment and argument, and no built provider is handed
   out twice, nor is it one the dapp already held.
   */
  method MakeMany(sdk: CoinbaseWalletSDK, calls: seq<Call>, held: set<CoinbaseWalletProvider>)
    returns (ps: seq<ProviderInterface>)
    ensures |ps| == |calls|
    ensures forall j :: 0 <= j < |ps| ==> Answers(ps[j], Resolve(sdk.metadata, calls[j].window, calls[j].preference))
    ensures forall j :: 0 <= j < |ps| && ps[j].Constructed? ==> ps[j].provider !in held
    ensures forall j, k :: 0 <= j < k < |ps| && ps[j].Constructed? && ps[k].Constructed? ==>
      ps[j].provider != ps[k].provider
  {
    ps := [];
    for i := 0 to |calls|
      invariant |ps| == i
      invariant forall j :: 0 <= j < i ==> Answers(ps[j], Resolve(sdk.metadata, calls[j].window, calls[j].preference))
      invariant forall j :: 0 <= j < i && ps[j].Constructed? ==> fresh(ps[j].provider)
      invariant forall j, k :: 0 <= j < k < i && ps[j].Constructed? && ps[k].Constructed? ==>
        ps[j].provider != ps[k].provider
    {
      var p := sdk.MakeWeb3Provider(calls[i].window, calls[i].preference);
      ps := ps + [p];
    }
  }
}
