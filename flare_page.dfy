/**
 * The Flare trading page (app/app/ripplens/flare/page.tsx). Only the label
 * shown for the connected wallet address is logic; the rest is rendering and
 * wallet I/O.
 */
module FlarePage {
  import opened Wrappers

  /**
   * The header label for the wallet address. A long address is cut to its
   * first six characters, an ellipsis and its last four; a short one is shown
   * as it is; a missing or empty address (both falsy in JavaScript) shows as ''.
   */
  function ShortAddress(address: Option<string>): (r: string)
    ensures address.None? ==> r == ""
    ensures address.Some? && |address.value| <= 10 ==> r == address.value
    ensures address.Some? && |address.value| > 10 ==>
      && |r| == 13
      && r[..6] == address.value[..6]
      && r[6..9] == "..."
      && r[9..] == address.value[|address.value| - 4..]
    ensures address.Some? ==> |r| <= if |address.value| < 13 then 13 else |address.value|
  {
    if address.Some? && |address.value| > 10 then
      address.value[..6] + "..." + address.value[|address.value| - 4..]
    else if address.Some? && address.value != "" then
      address.value
    else
      ""
  }

  /** Shortening a label again changes nothing: a label is its own label. */
  lemma ShortAddressIdempotent(address: Option<string>)
    ensures ShortAddress(Some(ShortAddress(address))) == ShortAddress(address)
  {
  }

  /**
   * Two long addresses get the same label exactly when they agree on their
   * first six and their last four characters.
   */
  lemma ShortAddressSameLabel(a: string, b: string)
    requires |a| > 10 && |b| > 10
    ensures ShortAddress(Some(a)) == ShortAddress(Some(b))
        <==> a[..6] == b[..6] && a[|a| - 4..] == b[|b| - 4..]
  {
  }
}
