/**
 * The send-Bitcoin form (src/components/send-bitcoin-form.jsx): the draft (recipient,
 * amount text, fee tier), the tri-state address validity, the fee tiers, the fee
 * estimate, the wallet balance and the submission state, with one method per handler.
 *
 * Every awaited API call is a parameter of the handler that awaits it: the Outcome the
 * call resolved to. The handlers apply that outcome in one step, as it arrives; only
 * the submission is split in two (BeginSubmit / FinishSubmit) so that the in-flight
 * state, during which the Submit button is disabled, can be observed.
 */
module SendBitcoinForm {
  import opened Common
  import opened AmountText

  /** A BTC amount reported by the wallet API: never negative. */
  type Btc = x: real | x >= 0.0 witness 0.0

  /** `isValidAddress`: null (not checked since the last edit), true or false. */
  datatype Validity = Unknown | ValidAddress | InvalidAddress

  /** The API's `isValid` field; a missing field behaves like null in every use of it. */
  function ValidityOf(isValid: Option<bool>): (v: Validity)
    ensures v == ValidAddress <==> isValid == Some(true)
    ensures v == InvalidAddress <==> isValid == Some(false)
  {
    match isValid
    case None => Unknown
    case Some(b) => if b then ValidAddress else InvalidAddress
  }

  /** The body of GET /transactions/fees: four rates in sat/vB. */
  datatype FeeRates = FeeRates(low: int, medium: int, high: int, urgent: int)

  datatype FeeOption = FeeOption(id: string, name: string, rate: int, description: string, estimatedTime: string)

  /** One entry of the `estimations` list of GET /transactions/estimate. */
  datatype Estimation = Estimation(feeRate: int, estimatedFeeBtc: real)

  /** The body of POST /address/validate. */
  datatype AddressReply = AddressReply(isValid: Option<bool>, warning: Option<string>)

  /** The body of GET /wallets/{id}/balance as this form reads it. */
  datatype BalanceReply = BalanceReply(confirmed: Option<Btc>)

  /** The body of POST /transactions/create. */
  datatype TransactionDetails = TransactionDetails(txid: string, amountBtc: real, toAddress: string, fee: real)

  /** The arguments of ApiService.estimateTransactionFee; the amount is parseFloat's result (None for NaN). */
  datatype EstimateCall = EstimateCall(walletId: string, toAddress: string, amount: Option<real>)

  /** The arguments of ApiService.createTransaction. */
  datatype CreateCall = CreateCall(walletId: string, toAddress: string, amount: real, feeRate: int)

  /** The three local checks of handleSubmit, in the order it makes them. */
  datatype SubmitError = IncompleteForm | InvalidAmount | InsufficientBalance {
    function Message(): string {
      match this
      case IncompleteForm => "Please fill in all fields correctly"
      case InvalidAmount => "Please enter a valid amount"
      case InsufficientBalance => "Insufficient balance"
    }
  }

  datatype SubmitDecision = Rejected(error: SubmitError) | Proceed(amount: real)

  /** The fee tiers built from the fee-rate response, cheapest first. */
  function FeeOptions(r: FeeRates): (opts: seq<FeeOption>)
    ensures |opts| == 4
    ensures [opts[0].id, opts[1].id, opts[2].id, opts[3].id] == ["economy", "standard", "priority", "express"]
    ensures [opts[0].rate, opts[1].rate, opts[2].rate, opts[3].rate] == [r.low, r.medium, r.high, r.urgent]
  {
    [ FeeOption("economy", "Economy", r.low, "May take several hours", "6+ hours"),
      FeeOption("standard", "Standard", r.medium, "Usually confirms within 1-2 hours", "1-2 hours"),
      FeeOption("priority", "Priority", r.high, "Usually confirms within an hour", "30-60 minutes"),
      FeeOption("express", "Express", r.urgent, "Usually confirms in the next few blocks", "10-30 minutes") ]
  }

  /** `estimations.find(est => est.feeRate === rate)` */
  function FindByRate(es: seq<Estimation>, rate: int): (r: Option<Estimation>)
    ensures r.None? <==> forall i :: 0 <= i < |es| ==> es[i].feeRate != rate
    ensures r.Some? ==> r.value in es && r.value.feeRate == rate
  {
    if es == [] then None
    else if es[0].feeRate == rate then Some(es[0])
    else
      var r := FindByRate(es[1..], rate);
      assert forall i :: 1 <= i < |es| ==> es[i] == es[1..][i - 1];
      r
  }

  /** The estimation find picks is the first one with the rate. */
  lemma {:induction false} FindByRateIsFirst(es: seq<Estimation>, rate: int)
    requires FindByRate(es, rate).Some?
    ensures exists i :: (0 <= i < |es| && es[i] == FindByRate(es, rate).value &&
      forall j :: 0 <= j < i ==> es[j].feeRate != rate)
  {
    if es[0].feeRate != rate {
      FindByRateIsFirst(es[1..], rate);
      var i :| 0 <= i < |es[1..]| && es[1..][i] == FindByRate(es[1..], rate).value &&
        (forall j :: 0 <= j < i ==> es[1..][j].feeRate != rate);
      assert es[i + 1] == FindByRate(es, rate).value;
      forall j | 0 <= j < i + 1 ensures es[j].feeRate != rate {
        if j > 0 { assert es[j] == es[1..][j - 1]; }
      }
    }
  }

  /** The guard of the fee-estimate effect: valid address, positive amount, a tier. */
  predicate EstimateWanted(validity: Validity, amount: string, selected: Option<FeeOption>) {
    && validity == ValidAddress
    && amount != ""
    && ParseAmount(amount).Some? && ParseAmount(amount).value > 0.0
    && selected.Some?
  }

  /** handleSubmit's local checks, made in the source's order before any network call. */
  function SubmitCheck(recipient: string, amount: string, validity: Validity,
                       selected: Option<FeeOption>, balance: Btc): (d: SubmitDecision)
    ensures d.Proceed? ==>
      && recipient != "" && validity == ValidAddress && selected.Some?
      && ParseAmount(amount) == Some(d.amount) && 0.0 < d.amount <= balance
    ensures d == Rejected(IncompleteForm) <==>
      recipient == "" || amount == "" || validity != ValidAddress || selected.None?
    ensures d == Rejected(InvalidAmount) <==>
      && recipient != "" && amount != "" && validity == ValidAddress && selected.Some?
      && (ParseAmount(amount).None? || ParseAmount(amount).value <= 0.0)
    ensures d == Rejected(InsufficientBalance) <==>
      && recipient != "" && amount != "" && validity == ValidAddress && selected.Some?
      && ParseAmount(amount).Some? && ParseAmount(amount).value > balance
    ensures (&& recipient != "" && amount != "" && validity == ValidAddress && selected.Some?
             && ParseAmount(amount).Some? && 0.0 < ParseAmount(amount).value <= balance) ==>
      d == Proceed(ParseAmount(amount).value)
  {
    if recipient == "" || amount == "" || validity != ValidAddress || selected.None? then
      Rejected(IncompleteForm)
    else
      match ParseAmount(amount)
      case None => Rejected(InvalidAmount)
      case Some(v) =>
        if v <= 0.0 then Rejected(InvalidAmount)
        else if v > balance then Rejected(InsufficientBalance)
        else Proceed(v)
  }

  /** The `disabled` expression of the Submit button. */
  predicate SubmitDisabled(isSubmitting: bool, recipient: string, amount: string,
                           selected: Option<FeeOption>, validity: Validity, balance: Btc) {
    || isSubmitting
    || recipient == ""
    || amount == ""
    || selected.None?
    || validity != ValidAddress
    || ParseAmount(amount).None?
    || ParseAmount(amount).value <= 0.0
    || ParseAmount(amount).value > balance
  }

  /** The Submit button is enabled exactly when nothing is in flight and handleSubmit would send. */
  lemma SubmitButtonMatchesHandler(isSubmitting: bool, recipient: string, amount: string,
                                   selected: Option<FeeOption>, validity: Validity, balance: Btc)
    ensures !SubmitDisabled(isSubmitting, recipient, amount, selected, validity, balance) <==>
      !isSubmitting && SubmitCheck(recipient, amount, validity, selected, balance).Proceed?
  {
  }

  /**
   * Submit is enabled iff the recipient is non-empty, the address is valid,
   * 0 < amount <= balance, a tier is selected and no submission is in flight. The recipient
   * test is not implied by the validity: a validation reply that lands after the field was
   * cleared leaves a valid flag beside an empty recipient.
   */
  lemma SubmitEnabledIff(isSubmitting: bool, recipient: string, amount: string,
                         selected: Option<FeeOption>, validity: Validity, balance: Btc)
    ensures !SubmitDisabled(isSubmitting, recipient, amount, selected, validity, balance) <==>
      && recipient != ""
      && validity == ValidAddress
      && ParseAmount(amount).Some? && 0.0 < ParseAmount(amount).value <= balance
      && selected.Some?
      && !isSubmitting
  {
    if amount == "" {
      assert ParseAmount(amount).None?;
    }
  }

  lemma ParseExample()
    ensures ParseAmount("0.001") == Some(0.001)
  {
    ParseDecimal("0", "001");
    assert "0" + "." + "001" == "0.001";
    assert DigitsValue("0") == 0;
    assert DigitsValue("00") == 0;
    assert "001"[..2] == "00";
    assert DigitsValue("001") == 1;
    assert Pow10(3) == 1000;
  }

  /** An amount of 0.001 BTC against a confirmed balance of 0.0005: Submit stays disabled, no call is made. */
  lemma InsufficientBalanceBlocksSubmit(recipient: string, tier: FeeOption)
    requires recipient != ""
    ensures SubmitDisabled(false, recipient, "0.001", Some(tier), ValidAddress, 0.0005)
    ensures SubmitCheck(recipient, "0.001", ValidAddress, Some(tier), 0.0005) == Rejected(InsufficientBalance)
  {
    ParseExample();
  }

  /** An address the API rejected keeps Submit disabled, whatever the rest of the draft. */
  lemma InvalidAddressBlocksSubmit(isSubmitting: bool, recipient: string, amount: string,
                                   selected: Option<FeeOption>, balance: Btc)
    ensures SubmitDisabled(isSubmitting, recipient, amount, selected, InvalidAddress, balance)
    ensures SubmitCheck(recipient, amount, InvalidAddress, selected, balance) == Rejected(IncompleteForm)
  {
  }

  /**
   * The "Send Max" amount: with a balance and an estimate, the balance less the fee,
   * floored at zero; otherwise the whole balance.
   */
  function SendMaxValue(balance: Btc, fee: Option<Estimation>): (r: Btc)
    ensures fee.None? || balance == 0.0 ==> r == balance
    ensures fee.Some? && balance > 0.0 ==>
      && r + fee.value.estimatedFeeBtc >= balance
      && (r > 0.0 ==> r + fee.value.estimatedFeeBtc == balance)
      && (fee.value.estimatedFeeBtc >= 0.0 ==> r <= balance)
  {
    if balance > 0.0 && fee.Some? then
      var rest := balance - fee.value.estimatedFeeBtc;
      if rest > 0.0 then rest else 0.0
    else balance
  }

  /**
   * For a balance and a fee that are whole numbers of satoshis, the text Send Max writes
   * reads back as exactly the Send-Max value, which never exceeds the balance, so the
   * balance check of handleSubmit passes; it is positive when the balance exceeds the fee.
   */
  lemma SendMaxFitsBalance(balanceSats: nat, feeSats: nat, rate: int, withFee: bool)
    ensures var balance := balanceSats as real / Sat;
      var fee := if withFee then Some(Estimation(rate, feeSats as real / Sat)) else None;
      var max := SendMaxValue(balance, fee);
      && ParseAmount(FormatFixed8(max)) == Some(max)
      && max <= balance
      && (balanceSats > (if withFee then feeSats else 0) ==> max > 0.0)
  {
    var balance := balanceSats as real / Sat;
    var fee := if withFee then Some(Estimation(rate, feeSats as real / Sat)) else None;
    var max := SendMaxValue(balance, fee);
    if withFee && balance > 0.0 {
      var rest := balance - feeSats as real / Sat;
      if balanceSats > feeSats {
        var units: nat := balanceSats - feeSats;
        assert rest == units as real / Sat;
        assert max == units as real / Sat;
        ParseFormatFixed8Exact(units);
      } else {
        assert rest <= 0.0;
        assert max == 0 as real / Sat;
        ParseFormatFixed8Exact(0);
      }
    } else {
      assert max == balance;
      ParseFormatFixed8Exact(balanceSats);
    }
  }

  /** Everything the component keeps in React state, as one value. */
  datatype FormState = FormState(
    recipient: string,
    amount: string,
    feeOptions: seq<FeeOption>,
    selectedFeeOption: Option<FeeOption>,
    isValidating: bool,
    isValidAddress: Validity,
    isLoadingFees: bool,
    isEstimatingFee: bool,
    transactionFee: Option<Estimation>,
    walletBalance: Btc,
    isSubmitting: bool,
    isSuccess: bool,
    transactionDetails: Option<TransactionDetails>)

  class SendForm {
    const walletId: string

    var recipient: string
    var amount: string
    var feeOptions: seq<FeeOption>
    var selectedFeeOption: Option<FeeOption>
    var isValidating: bool
    var isValidAddress: Validity
    var isLoadingFees: bool
    var isEstimatingFee: bool
    var transactionFee: Option<Estimation>
    var walletBalance: Btc
    var isSubmitting: bool
    var isSuccess: bool
    var transactionDetails: Option<TransactionDetails>

    ghost function State(): FormState
      reads this
    {
      FormState(recipient, amount, feeOptions, selectedFeeOption, isValidating, isValidAddress,
                isLoadingFees, isEstimatingFee, transactionFee, walletBalance, isSubmitting,
                isSuccess, transactionDetails)
    }

    /**
     * What every handler keeps: the amount field holds sanitised text, and the selected
     * tier is one of the listed tiers.
     */
    ghost predicate Valid()
      reads this
    {
      && IsSanitized(amount)
      && (selectedFeeOption.Some? ==> selectedFeeOption.value in feeOptions)
    }

    /** The success card replaces the form exactly when a submission succeeded and its details are held. */
    predicate ShowsSuccessView()
      reads this
    {
      isSuccess && transactionDetails.Some?
    }

    predicate SubmitButtonDisabled()
      reads this
    {
      SubmitDisabled(isSubmitting, recipient, amount, selectedFeeOption, isValidAddress, walletBalance)
    }

    constructor (walletId: string)
      ensures Valid()
      ensures this.walletId == walletId
      ensures State() == FormState("", "", [], None, false, Unknown, false, false, None, 0.0, false, false, None)
    {
      this.walletId := walletId;
      recipient, amount := "", "";
      feeOptions, selectedFeeOption := [], None;
      isValidating, isValidAddress := false, Unknown;
      isLoadingFees, isEstimatingFee := false, false;
      transactionFee, walletBalance := None, 0.0;
      isSubmitting, isSuccess, transactionDetails := false, false, None;
    }

    /** The mount effect: with a wallet id and a session token, load the fee tiers and the balance. */
    method MountEffect(token: Option<string>, fees: Outcome<FeeRates>, balance: Outcome<BalanceReply>)
      requires Valid()
      modifies this
      ensures Valid()
      ensures walletId == "" || token.None? || token.value == "" ==> State() == old(State())
      ensures walletId != "" && token.Some? && token.value != "" ==>
        && State() == old(State()).(feeOptions := feeOptions, selectedFeeOption := selectedFeeOption,
                                    walletBalance := walletBalance, isLoadingFees := false)
        && (fees.Success? ==> feeOptions == FeeOptions(fees.value) && selectedFeeOption == Some(feeOptions[1]))
        && (fees.Failure? ==> feeOptions == old(feeOptions) && selectedFeeOption == old(selectedFeeOption))
        && walletBalance == (if balance.Success? then balance.value.confirmed.GetOr(0.0) else old(walletBalance))
    {
      if walletId != "" && token.Some? && token.value != "" {
        FetchFeeOptions(fees);
        FetchWalletBalance(balance);
      }
    }

    /**
     * fetchFeeOptions: on success four tiers and "standard" selected; the spinner ends either
     * way. The handler is applied in one step, so the spinner's raising at the start of the
     * call is not a separate state here.
     */
    method FetchFeeOptions(response: Outcome<FeeRates>)
      requires Valid()
      modifies this
      ensures Valid()
      ensures response.Success? ==>
        && State() == old(State()).(feeOptions := FeeOptions(response.value),
                                    selectedFeeOption := Some(FeeOptions(response.value)[1]),
                                    isLoadingFees := false)
        && selectedFeeOption.value.id == "standard"
        && selectedFeeOption.value.rate == response.value.medium
      ensures response.Failure? ==> State() == old(State()).(isLoadingFees := false)
      ensures !isLoadingFees
    {
      if response.Success? {
        var options := FeeOptions(response.value);
        assert options[1] in options;
        feeOptions := options;
        selectedFeeOption := Some(options[1]);
      }
      isLoadingFees := false;
    }

    /** fetchWalletBalance: the confirmed balance, 0 when the field is absent; unchanged on failure. */
    method FetchWalletBalance(response: Outcome<BalanceReply>)
      requires Valid()
      modifies this
      ensures Valid()
      ensures response.Success? ==> State() == old(State()).(walletBalance := response.value.confirmed.GetOr(0.0))
      ensures response.Failure? ==> State() == old(State())
    {
      if response.Success? {
        walletBalance := response.value.confirmed.GetOr(0.0);
      }
    }

    /** The recipient input's onChange: new text, validity back to unknown. */
    method OnRecipientChange(text: string)
      requires Valid()
      modifies this
      ensures Valid()
      ensures State() == old(State()).(recipient := text, isValidAddress := Unknown)
    {
      recipient := text;
      isValidAddress := Unknown;
    }

    /** The amount input's onChange: the sanitised text. */
    method OnAmountChange(text: string)
      requires Valid()
      modifies this
      ensures Valid()
      ensures State() == old(State()).(amount := Sanitize(text))
    {
      SanitizeIsSanitized(text);
      amount := Sanitize(text);
    }

    /** A click on the i-th rendered fee tier. */
    method SelectFeeOption(i: nat)
      requires Valid()
      requires i < |feeOptions|
      modifies this
      ensures Valid()
      ensures State() == old(State()).(selectedFeeOption := Some(old(feeOptions)[i]))
    {
      selectedFeeOption := Some(feeOptions[i]);
    }

    /**
     * validateAddress, run on blur, up to the validation call: nothing for an empty
     * recipient; otherwise the spinner is on and the current recipient is sent.
     */
    method BeginValidateAddress() returns (sent: Option<string>)
      requires Valid()
      modifies this
      ensures Valid()
      ensures old(recipient) == "" ==> sent == None && State() == old(State())
      ensures old(recipient) != "" ==> sent == Some(recipient) && State() == old(State()).(isValidating := true)
    {
      if recipient == "" {
        sent := None;
        return;
      }
      isValidating := true;
      sent := Some(recipient);
    }

    /**
     * validateAddress after the call: the API's verdict, or invalid when the call failed
     * (fail-closed), whatever the recipient has become meanwhile; the spinner ends.
     */
    method FinishValidateAddress(response: Outcome<AddressReply>)
      requires Valid()
      modifies this
      ensures Valid()
      ensures State() == old(State()).(isValidAddress := isValidAddress, isValidating := false)
      ensures isValidAddress == (if response.Success? then ValidityOf(response.value.isValid) else InvalidAddress)
    {
      match response {
        case Success(reply) => isValidAddress := ValidityOf(reply.isValid);
        case Failure(_) => isValidAddress := InvalidAddress;
      }
      isValidating := false;
    }

    /**
     * estimateTransactionFee: with a complete draft, ask for the estimates and keep the
     * one whose rate is the selected tier's (None when none matches); a failed call
     * keeps the previous estimate.
     */
    method EstimateTransactionFee(response: Outcome<seq<Estimation>>) returns (call: Option<EstimateCall>)
      requires Valid()
      modifies this
      ensures Valid()
      ensures old(recipient == "" || amount == "" || isValidAddress != ValidAddress || selectedFeeOption.None?) ==>
        call == None && State() == old(State())
      ensures old(recipient != "" && amount != "" && isValidAddress == ValidAddress && selectedFeeOption.Some?) ==>
        && call == Some(EstimateCall(walletId, recipient, ParseAmount(amount)))
        && State() == old(State()).(transactionFee := transactionFee, isEstimatingFee := false)
        && transactionFee == (if response.Success?
                              then FindByRate(response.value, selectedFeeOption.value.rate)
                              else old(transactionFee))
    {
      if recipient == "" || amount == "" || isValidAddress != ValidAddress || selectedFeeOption.None? {
        call := None;
        return;
      }
      isEstimatingFee := true;
      call := Some(EstimateCall(walletId, recipient, ParseAmount(amount)));
      if response.Success? {
        transactionFee := FindByRate(response.value, selectedFeeOption.value.rate);
      }
      isEstimatingFee := false;
    }

    /**
     * The effect on [amount, recipient, selectedFeeOption, isValidAddress]: estimate when
     * the address is valid, the amount positive and a tier selected; otherwise clear the
     * estimate. The estimate itself stops at an empty recipient, so a valid flag left
     * beside a cleared field neither asks for an estimate nor clears the old one.
     */
    method EstimateEffect(response: Outcome<seq<Estimation>>) returns (call: Option<EstimateCall>)
      requires Valid()
      modifies this
      ensures Valid()
      ensures !old(EstimateWanted(isValidAddress, amount, selectedFeeOption)) ==>
        call == None && State() == old(State()).(transactionFee := None)
      ensures old(EstimateWanted(isValidAddress, amount, selectedFeeOption)) && old(recipient) == "" ==>
        call == None && State() == old(State())
      ensures old(EstimateWanted(isValidAddress, amount, selectedFeeOption)) && old(recipient) != "" ==>
        && call == Some(EstimateCall(walletId, recipient, ParseAmount(amount)))
        && State() == old(State()).(transactionFee := transactionFee, isEstimatingFee := false)
        && (response.Success? ==> transactionFee == FindByRate(response.value, selectedFeeOption.value.rate))
        && (response.Failure? ==> transactionFee == old(transactionFee))
    {
      if EstimateWanted(isValidAddress, amount, selectedFeeOption) {
        call := EstimateTransactionFee(response);
      } else {
        transactionFee := None;
        call := None;
      }
    }

    /**
     * handleSubmit up to the create call: the local checks in order; when one fails
     * nothing changes and no call is made, otherwise the form is submitting and the call
     * carries the wallet, the recipient, the parsed amount and the tier's rate.
     */
    method BeginSubmit() returns (decision: SubmitDecision, call: Option<CreateCall>)
      requires Valid()
      modifies this
      ensures Valid()
      ensures decision == SubmitCheck(recipient, amount, isValidAddress, selectedFeeOption, walletBalance)
      ensures decision.Rejected? ==> call == None && State() == old(State())
      ensures decision.Proceed? ==>
        && call == Some(CreateCall(walletId, recipient, decision.amount, selectedFeeOption.value.rate))
        && ParseAmount(amount) == Some(decision.amount)
        && State() == old(State()).(isSubmitting := true)
    {
      decision := SubmitCheck(recipient, amount, isValidAddress, selectedFeeOption, walletBalance);
      if decision.Proceed? {
        isSubmitting := true;
        call := Some(CreateCall(walletId, recipient, decision.amount, selectedFeeOption.value.rate));
      } else {
        call := None;
      }
    }

    /**
     * handleSubmit after the create call: a resolved call stores its body and sets
     * isSuccess. The success view needs truthy details, so an ok reply whose body is
     * falsy (None here) sets isSuccess but leaves the form on screen.
     */
    method FinishSubmit(response: Outcome<Option<TransactionDetails>>)
      requires Valid()
      modifies this
      ensures Valid()
      ensures response.Success? ==>
        State() == old(State()).(transactionDetails := response.value, isSuccess := true, isSubmitting := false)
      ensures response.Success? ==> (ShowsSuccessView() <==> response.value.Some?)
      ensures response.Failure? ==> State() == old(State()).(isSubmitting := false)
    {
      if response.Success? {
        transactionDetails := response.value;
        isSuccess := true;
      }
      isSubmitting := false;
    }

    /** handleSendMax: the Send-Max value written with toFixed(8); it reads back as that value rounded to 8 decimals. */
    method SendMax()
      requires Valid()
      modifies this
      ensures Valid()
      ensures State() == old(State()).(amount := FormatFixed8(SendMaxValue(walletBalance, transactionFee)))
      ensures ParseAmount(amount) == Some(Round8(SendMaxValue(walletBalance, transactionFee)) as real / Sat)
    {
      var max := SendMaxValue(walletBalance, transactionFee);
      FormatFixed8IsSanitized(max);
      ParseFormatFixed8(max);
      amount := FormatFixed8(max);
    }

    /** resetForm ("Send Another Transaction"): clears the draft and the result; tiers and balance stay. */
    method ResetForm()
      requires Valid()
      modifies this
      ensures Valid()
      ensures State() == old(State()).(recipient := "", amount := "", isValidAddress := Unknown,
                                       transactionFee := None, isSuccess := false, transactionDetails := None)
      ensures !ShowsSuccessView()
    {
      recipient := "";
      amount := "";
      isValidAddress := Unknown;
      transactionFee := None;
      isSuccess := false;
      transactionDetails := None;
    }
  }
  /**
   * A validation reply that lands after the recipient was cleared: the flag says valid
   * beside an empty field, yet Submit stays disabled and no estimate is requested.
   */
  method LateValidationReply(form: SendForm, reply: AddressReply) returns (estimate: Option<EstimateCall>)
    requires form.Valid() && form.recipient != "" && reply.isValid == Some(true)
    modifies form
    ensures form.Valid()
    ensures form.recipient == "" && form.isValidAddress == ValidAddress
    ensures form.SubmitButtonDisabled()
    ensures estimate.None?
  {
    var sent := form.BeginValidateAddress();
    form.OnRecipientChange("");
    form.FinishValidateAddress(Success(reply));
    estimate := form.EstimateEffect(Failure("not requested"));
  }
}
