/**
 The ambient environment `makeWeb3Provider` probes (the `CBWindow` shape of
 CoinbaseWalletSDK.ts, lines 13-16) and the lookup it runs inside its `try`
 block (line 33).
 */
module CBWindows {
  import opened JsValues

  /**
   An object some host placed at `window.ethereum`. It is looked up, never
   owned; the only thing read from it is its trust marker. Reference identity
   stands for JavaScript object identity.
   */
  class EthereumHandle {
    const isCoinbaseBrowser: Option<bool>

    constructor (isCoinbaseBrowser: Option<bool>)
      ensures this.isCoinbaseBrowser == isCoinbaseBrowser
    {
      this.isCoinbaseBrowser := isCoinbaseBrowser;
    }
  }

  /**
   What reading `window.top` and then its `ethereum` property gives: there is
   no top window (`window.top` is nullish, so `?.` yields `undefined`), the
   top window belongs to another origin and the read throws, or the top
   window's `ethereum` property is readable.
   */
  datatype TopWindow =
    | NoTop
    | Denied
    | Accessible(ethereum: Option<EthereumHandle>)

  /** The global object as the SDK sees it. */
  datatype CBWindow = CBWindow(ethereum: Option<EthereumHandle>, top: TopWindow)

  /** The cross-origin security error the browser raises. */
  datatype SecurityError = SecurityError

  /** The outcome of an expression that may throw. */
  datatype Completion<T> = Normal(value: T) | Threw(error: SecurityError)

  /** `window.top?.ethereum`. */
  function ReadTopEthereum(top: TopWindow): Completion<Option<EthereumHandle>>
  {
    match top
    case NoTop => Normal(None)
    case Denied => Threw(SecurityError)
    case Accessible(ethereum) => Normal(ethereum)
  }

  /**
   `window.ethereum ?? window.top?.ethereum`. The `??` evaluates its right
   operand only when the local handle is nullish, so the top window is read,
   and can throw, only then.
   */
  function LookupEthereum(window: CBWindow): (r: Completion<Option<EthereumHandle>>)
    ensures window.ethereum.Some? ==> r == Normal(window.ethereum)
    ensures r.Threw? <==> window.ethereum.None? && window.top.Denied?
    ensures r.Normal? && r.value.Some? ==>
      r.value == window.ethereum || (window.ethereum.None? && window.top == Accessible(r.value))
    ensures window.ethereum.None? && window.top.Accessible? ==> r == Normal(window.top.ethereum)
  {
    if window.ethereum.Some? then Normal(window.ethereum) else ReadTopEthereum(window.top)
  }

  /**
   The handle the `try` block returns, if any: the one the lookup found,
   provided its `isCoinbaseBrowser` is truthy. A lookup that throws is caught
   and returns nothing, exactly like a lookup that finds no trusted handle.
   */
  function TrustedHandle(window: CBWindow): (h: Option<EthereumHandle>)
    ensures h.Some? ==> TruthyBool(h.value.isCoinbaseBrowser)
    ensures h.Some? ==> h == window.ethereum || (window.ethereum.None? && window.top == Accessible(h))
    ensures window.ethereum.Some? ==>
      h == (if TruthyBool(window.ethereum.value.isCoinbaseBrowser) then window.ethereum else None)
    ensures window.ethereum.None? && window.top.Accessible? && window.top.ethereum.Some? ==>
      h == (if TruthyBool(window.top.ethereum.value.isCoinbaseBrowser) then window.top.ethereum else None)
    ensures window.ethereum.None? && !window.top.Accessible? ==> h.None?
  {
    match LookupEthereum(window)
    case Threw(_) => None
    case Normal(ethereum) =>
      if ethereum.Some? && TruthyBool(ethereum.value.isCoinbaseBrowser) then ethereum else None
  }
}
