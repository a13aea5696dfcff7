/**
 * The receive modal: the QR payload for an address, the shortened address text, and the
 * guards of its close and copy actions. An `address` prop that was not passed is None.
 */
module QRCodeModal {
  import opened Common
  import AmountText

  const Scheme := "bitcoin:"

  /** `${addr}` of a missing prop. */
  const Undefined := "undefined"

  /** The address shortened to its first and last eight characters; short or missing ones pass unchanged. */
  function FormatDisplayAddress(addr: Option<string>): (r: Option<string>)
    ensures addr.None? ==> r.None?
    ensures addr.Some? && |addr.value| < 16 ==> r == addr
    ensures addr.Some? && |addr.value| >= 16 ==>
      var a := addr.value;
      r.Some? && |r.value| == 19 && r.value[..8] == a[..8] && r.value[8..11] == "..." &&
      r.value[11..] == a[|a| - 8..]
  {
    if addr.None? || |addr.value| < 16 then addr
    else
      var a := addr.value;
      var shown := a[..8] + "..." + a[|a| - 8..];
      assert shown[..8] == a[..8];
      assert shown[8..11] == "...";
      assert shown[11..] == a[|a| - 8..];
      Some(shown)
  }

  /** The QR code's value: the address-only form of a BIP 21 `bitcoin:` URI. */
  function BitcoinUri(address: Option<string>): string {
    Scheme + (if address.Some? then address.value else Undefined)
  }

  /** The parts of a BIP 21 URI: the address and the text after `?`, when there is one. */
  datatype PaymentUri = PaymentUri(address: string, query: Option<string>)

  /**
   * Reading a URI by the BIP 21 grammar `"bitcoin:" bitcoinaddress [ "?" bitcoinparams ]`:
   * the address runs up to the first `?`. The scheme is matched in lower case only.
   */
  function ParseBitcoinUri(uri: string): (r: Option<PaymentUri>)
    ensures r.Some? ==> |uri| >= |Scheme| && uri[..|Scheme|] == Scheme && '?' !in r.value.address
    ensures r.None? <==> !(|uri| >= |Scheme| && uri[..|Scheme|] == Scheme)
  {
    if |uri| >= |Scheme| && uri[..|Scheme|] == Scheme then
      var rest := uri[|Scheme|..];
      match AmountText.FirstIndex(rest, '?')
      case None => Some(PaymentUri(rest, None))
      case Some(i) => Some(PaymentUri(rest[..i], Some(rest[i + 1..])))
    else None
  }

  /** The QR payload reads back, by the BIP 21 grammar, as the address alone and no parameters. */
  lemma BitcoinUriRoundTrip(address: string)
    requires '?' !in address
    ensures ParseBitcoinUri(BitcoinUri(Some(address))) == Some(PaymentUri(address, None))
  {
    var uri := BitcoinUri(Some(address));
    assert uri[..|Scheme|] == Scheme;
    assert uri[|Scheme|..] == address;
  }

  /** What the open modal shows: the QR payload and the full address text. */
  datatype ModalContent = ModalContent(qrValue: string, addressText: Option<string>)

  /** The modal renders nothing while closed. */
  function Modal(isOpen: bool, address: Option<string>): (r: Option<ModalContent>)
    ensures r.None? <==> !isOpen
    ensures r.Some? ==> r.value.qrValue == BitcoinUri(address) && r.value.addressText == address
  {
    if !isOpen then None else Some(ModalContent(BitcoinUri(address), address))
  }

  /** A click on the backdrop closes the modal only when it landed on the backdrop itself. */
  function BackdropClickCloses(target: nat, currentTarget: nat): (closes: bool)
    ensures closes <==> target == currentTarget
  {
    target == currentTarget
  }

  /** The text written to the clipboard: none for a missing or empty address. */
  function CopyRequest(address: Option<string>): (text: Option<string>)
    ensures text.Some? <==> address.Some? && address.value != ""
    ensures text.Some? ==> text.value == address.value
  {
    if address.None? || address.value == "" then None else address
  }

  /** The open modal's QR code reads back, by the BIP 21 grammar, as the address it shows. */
  lemma OpenModalQrReadsBack(address: string)
    requires '?' !in address
    ensures Modal(true, Some(address)).Some?
    ensures var m := Modal(true, Some(address)).value;
      m.addressText == Some(address) && ParseBitcoinUri(m.qrValue) == Some(PaymentUri(address, None))
  {
    BitcoinUriRoundTrip(address);
  }

  /**
   * The copy button writes exactly the address the open modal shows, and nothing when it
   * shows none; the copied text is also the address the QR code encodes.
   */
  lemma CopyMatchesShown(address: Option<string>)
    ensures var m := Modal(true, address).value;
      && (CopyRequest(address).Some? <==> m.addressText.Some? && m.addressText.value != "")
      && (CopyRequest(address).Some? ==> CopyRequest(address).value == m.addressText.value)
    ensures CopyRequest(address).Some? && '?' !in CopyRequest(address).value ==>
      ParseBitcoinUri(Modal(true, address).value.qrValue) == Some(PaymentUri(CopyRequest(address).value, None))
  {
    if CopyRequest(address).Some? && '?' !in address.value {
      BitcoinUriRoundTrip(address.value);
    }
  }

  /** Without an address the QR code encodes "bitcoin:undefined" while the copy button does nothing. */
  lemma MissingAddressEncodesUndefined()
    ensures Modal(true, None).Some? && Modal(true, None).value.qrValue == "bitcoin:undefined"
    ensures CopyRequest(None).None?
  {
  }

  /**
   * With an onClose that closes the modal, a click on the backdrop itself hides it, and a
   * click that bubbled up from inside the card leaves it showing the same content.
   */
  lemma BackdropClickOutcome(isOpen: bool, address: Option<string>, target: nat, currentTarget: nat)
    ensures var after := isOpen && !BackdropClickCloses(target, currentTarget);
      Modal(after, address) == (if target == currentTarget then None else Modal(isOpen, address))
  {
  }
}
