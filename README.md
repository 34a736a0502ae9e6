# Coinbase Wallet SDK entry point, modelled in Dafny

This project models `CoinbaseWalletSDK`, the class a dapp instantiates to get a
wallet provider. It covers two behaviours:

- **Metadata defaults.** The constructor turns partial application metadata into a
  complete `AppMetadata` with JavaScript `||`. An empty or missing `appName` becomes
  `"Dapp"`. An empty or missing `appLogoUrl` becomes the favicon lookup's result. A
  missing `appChainIds` becomes `[]`; a present one, even `[]`, is kept.
- **Provider resolution.** `makeWeb3Provider` looks for an injected `ethereum` handle.
  It reads the local one first and the top window's one only when the local one is
  nullish. If the handle found has a truthy `isCoinbaseBrowser`, that handle itself is
  returned. Otherwise a new `CoinbaseWalletProvider` is built from the stored metadata
  and the preference (default `{ options: 'all' }`). A top window of another origin
  makes the read throw; the exception is caught and a provider is built.

Files:

- `js_values.dfy` (`JsValues`): optional properties, `||` on strings and arrays, truthiness.
- `app_metadata.dfy` (`AppMetadataDefaults`): `AppMetadata`, the constructor's options, `Normalize`.
- `cb_window.dfy` (`CBWindows`): the `CBWindow` environment, the injected handle as an
  object, and the `try` block's lookup with its possible `SecurityError`.
- `coinbase_wallet_sdk.dfy` (`CoinbaseWalletSdk`): the pure decision `Resolve`, the SDK
  class whose `MakeWeb3Provider` allocates a fresh provider, and a client that calls it repeatedly.

The environment and the favicon lookup are parameters. The browser's global object
becomes a `CBWindow` value: a local `Option<EthereumHandle>` and a top window that is
`NoTop`, `Denied` or `Accessible(handle)`. Handles and built providers are objects,
so "the same handle" and "a new provider" mean reference identity and `fresh`.

## Model

| member | source | states |
|---|---|---|
| AppMetadataDefaults.Normalize | packages/wallet-sdk/src/CoinbaseWalletSDK.ts:21-26 | The name is never empty: the given one if non-empty, else "Dapp". The logo URL is the given one if non-empty, else exactly the favicon result. The chain list is the given one unchanged (even empty) if present, else empty. |
| AppMetadataDefaults.NormalizeIdempotent | packages/wallet-sdk/src/CoinbaseWalletSDK.ts:22-26 | Passing normalized metadata back through the constructor gives it back unchanged, whatever the favicon lookup returns then, as long as a logo URL is in place. |
| AppMetadataDefaults.FaviconOnlyAsFallback | packages/wallet-sdk/src/CoinbaseWalletSDK.ts:24 | When a non-empty logo URL is given, the favicon result has no influence. |
| AppMetadataDefaults.EmptyStringsAreMissing | packages/wallet-sdk/src/CoinbaseWalletSDK.ts:23-24 | An empty name or logo URL is treated exactly like a missing one. |
| CBWindows.LookupEthereum | packages/wallet-sdk/src/CoinbaseWalletSDK.ts:33 | A present local handle is the result and the top window is not read. The lookup throws exactly when the local handle is missing and the top window denies access. Otherwise a missing local handle gives the top window's handle. |
| CBWindows.TrustedHandle | packages/wallet-sdk/src/CoinbaseWalletSDK.ts:31-39 | The try block yields a handle only if its marker is true. That handle is the local one, or the top's one when the local one is missing. A thrown error yields nothing. |
| CoinbaseWalletSdk.EffectivePreference | packages/wallet-sdk/src/CoinbaseWalletSDK.ts:30 | An omitted preference is { options: 'all' }; a given one is used unchanged. |
| CoinbaseWalletSdk.Resolve | packages/wallet-sdk/src/CoinbaseWalletSDK.ts:30-41 | A trusted local handle is returned as is. An untrusted local handle leads to a built provider even if the top has a trusted one. With no local handle, the top's trusted handle is returned. Denial, no top, or no trusted handle lead to a built provider. A built provider gets the stored metadata and the effective preference. |
| CoinbaseWalletSdk.OmittedPreferenceIsAll | packages/wallet-sdk/src/CoinbaseWalletSDK.ts:30 | Calling without a preference decides the same as calling with { options: 'all' }. |
| CoinbaseWalletSdk.PreferenceIgnoredWhenInjected | packages/wallet-sdk/src/CoinbaseWalletSDK.ts:34-35 | When a trusted handle is returned, any other preference gives the same result. |
| CoinbaseWalletSdk.TopIgnoredWhenLocalPresent | packages/wallet-sdk/src/CoinbaseWalletSDK.ts:33 | While a local handle is present, replacing the top window (even by a denying one) does not change the decision. |
| CoinbaseWalletSdk.DenialAbsorbed | packages/wallet-sdk/src/CoinbaseWalletSDK.ts:31-40 | A top window that denies access decides exactly like an accessible top window without a handle. |
| CoinbaseWalletSdk.CoinbaseWalletSDK.constructor | packages/wallet-sdk/src/CoinbaseWalletSDK.ts:21-27 | The stored metadata is the normalized options. |
| CoinbaseWalletSdk.CoinbaseWalletSDK.MakeWeb3Provider | packages/wallet-sdk/src/CoinbaseWalletSDK.ts:30-41 | Returns the handle Resolve chose, or a newly allocated provider with the options Resolve chose. Never fails and leaves the stored metadata unchanged. |
| CoinbaseWalletSdk.TwoCallsTwoProviders | packages/wallet-sdk/src/CoinbaseWalletSDK.ts:40 | Two calls without a trusted handle return two distinct built providers, both with the SDK's metadata. |
| CoinbaseWalletSdk.MakeMany | packages/wallet-sdk/src/CoinbaseWalletSDK.ts:30-41 | Repeated calls on one SDK object: each answer is the decision for that call's own environment and argument, and every built provider is distinct from the others and from any the caller already held (no caching). |

## Left out

- `storeLatestVersion` (packages/wallet-sdk/src/CoinbaseWalletSDK.ts:53-56): an asynchronous, fire-and-forget write to a scoped key-value store whose code is not part of this model. It has no effect on the stored metadata or on resolution.
- `getCoinbaseWalletLogo` (packages/wallet-sdk/src/CoinbaseWalletSDK.ts:49-51): a pass-through to the SVG asset lookup `walletLogo`, which is not part of this model.
- `getFavicon`: a DOM lookup, modelled as the string parameter `favicon`. The source calls it only when the logo URL is falsy; since the lookup changes nothing, passing its value up front gives the same metadata.
- `CoinbaseWalletProvider`: only its construction is modelled, as an object holding the options it was given. Its transport and RPC behaviour are not part of this model.
- The browser's global object, `globalThis` casts and the same-origin policy are reduced to the `CBWindow` value, with `Denied` for a top window whose `ethereum` read throws.
- Truthiness of a non-boolean `isCoinbaseBrowser`: the marker is an optional boolean, and only `true` is truthy. Property getters that throw are not modelled; only the top-window read can throw.
- A local `ethereum` that is present but not an object (a number, say) is not modelled; a handle is always an object.
- `Preference`: only its `options` field is modelled. The SDK forwards the value without reading it, so other fields would be forwarded the same way.
- Normalize: does not promise a non-empty logo URL. When no logo URL is given and the favicon lookup returns the empty string, the stored `appLogoUrl` is empty, as in packages/wallet-sdk/src/CoinbaseWalletSDK.ts:24; only `appName` is guaranteed non-empty.
- Normalize: the source keeps the caller's own `appChainIds` array object (packages/wallet-sdk/src/CoinbaseWalletSDK.ts:25; `Readonly` is shallow), so a later change to that array by the dapp shows up in the SDK's metadata. The model copies the sequence as a value.
- MakeWeb3Provider: the source hands the one `this.metadata` object to every provider it builds (packages/wallet-sdk/src/CoinbaseWalletSDK.ts:40), so they all share it by reference. The model gives each provider an equal value; a later change made through one of them is not modelled, and neither is `MakeMany`'s sharing of that object.
- EffectivePreference: an explicit `null` preference is not modelled. The default parameter at packages/wallet-sdk/src/CoinbaseWalletSDK.ts:30 replaces only `undefined`, so a JavaScript caller passing `null` gets `null` forwarded to the provider; the TypeScript type excludes that call.
