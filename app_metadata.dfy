/**
 Application metadata and the defaults the SDK's constructor fills in
 (CoinbaseWalletSDK.ts, lines 21-26).
 */
module AppMetadataDefaults {
  import opened JsValues

  /** The complete metadata the SDK keeps for its whole lifetime. */
  datatype AppMetadata = AppMetadata(appName: string, appLogoUrl: string, appChainIds: seq<int>)

  /** What a dapp passes to the constructor: every field may be left out. */
  datatype SdkOptions = SdkOptions(
    appName: Option<string>,
    appLogoUrl: Option<string>,
    appChainIds: Option<seq<int>>)

  /** The name used when the dapp gives none, or gives the empty string. */
  const DefaultAppName: string := "Dapp"

  /**
   Fills in the defaults with JavaScript `||`: a missing or empty name becomes
   "Dapp", a missing or empty logo URL becomes what the favicon lookup returned
   (`favicon`), and a missing chain list becomes `[]` while a present one, even
   an empty one, is kept.
   */
  function Normalize(options: SdkOptions, favicon: string): (m: AppMetadata)
    ensures m.appName != ""
    ensures TruthyString(options.appName) ==> m.appName == options.appName.value
    ensures !TruthyString(options.appName) ==> m.appName == DefaultAppName
    ensures TruthyString(options.appLogoUrl) ==> m.appLogoUrl == options.appLogoUrl.value
    ensures !TruthyString(options.appLogoUrl) ==> m.appLogoUrl == favicon
    ensures options.appChainIds.Some? ==> m.appChainIds == options.appChainIds.value
    ensures options.appChainIds.None? ==> m.appChainIds == []
  {
    AppMetadata(
      OrString(options.appName, DefaultAppName),
      OrString(options.appLogoUrl, favicon),
      OrArray(options.appChainIds, []))
  }

  /** Metadata handed back to the constructor field by field. */
  function AsOptions(m: AppMetadata): SdkOptions
  {
    SdkOptions(Some(m.appName), Some(m.appLogoUrl), Some(m.appChainIds))
  }

  /**
   Normalizing is a fixed point on complete metadata: once a non-empty logo
   URL is in place, passing the result back through the constructor changes
   nothing, whatever the favicon lookup returns the second time.
   */
  lemma NormalizeIdempotent(options: SdkOptions, favicon: string, favicon': string)
    requires TruthyString(options.appLogoUrl) || favicon != ""
    ensures Normalize(AsOptions(Normalize(options, favicon)), favicon') == Normalize(options, favicon)
  {
  }

  /** The favicon lookup matters only when no logo URL was given. */
  lemma FaviconOnlyAsFallback(options: SdkOptions, favicon: string, favicon': string)
    requires TruthyString(options.appLogoUrl)
    ensures Normalize(options, favicon) == Normalize(options, favicon')
  {
  }

  /** An empty name and a missing name lead to the same metadata, as do an empty and a missing logo URL. */
  lemma EmptyStringsAreMissing(options: SdkOptions, favicon: string)
    ensures Normalize(options.(appName := Some("")), favicon) == Normalize(options.(appName := None), favicon)
    ensures Normalize(options.(appLogoUrl := Some("")), favicon) == Normalize(options.(appLogoUrl := None), favicon)
  {
  }
}
