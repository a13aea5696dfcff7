/**
 * The dashboard page: the wallet list and its default selection, the selected wallet's
 * balance, history and coins, the network panel, the per-transaction details toggles and
 * the enablement and classification rules of its buttons and rows. Each API call's reply
 * is a parameter: Failure stands for a call that threw.
 */
module Dashboard {
  import opened Common
  import Api
  import Json

  datatype Wallet = Wallet(id: string, name: Option<string>)

  datatype Balance = Balance(confirmed: real, unconfirmed: real, total: real)

  const ZeroBalance := Balance(0.0, 0.0, 0.0)

  /** A history entry: its ids, its type and its amount. */
  datatype Tx = Tx(id: Option<string>, txid: Option<string>, txType: string, amount: real)

  datatype Utxo = Utxo(txid: string, vout: int, value: real)

  datatype UtxoStats = UtxoStats(total: real, avgSize: real, dust: real)

  datatype NetworkStatus = NetworkStatus(blockHeight: real, hashrate: string, mempoolSize: real,
                                         fastFeeRate: real, economyFeeRate: real)

  /** One flag per panel, set while its data is on the way. */
  datatype Loading = Loading(wallets: bool, transactions: bool, utxos: bool, market: bool, network: bool)

  // ---------------------------------------------------------------- replies

  datatype WalletsReply = WalletsReply(success: bool, wallets: Option<seq<Wallet>>)

  datatype BalanceFields = BalanceFields(confirmed: Option<real>, unconfirmed: Option<real>, total: Option<real>)
  datatype BalanceReply = BalanceReply(success: bool, balance: Option<BalanceFields>)

  datatype HistoryReply = HistoryReply(success: bool, transactions: Option<seq<Tx>>)
  datatype UtxosReply = UtxosReply(success: bool, utxos: Option<seq<Utxo>>)

  /** `stats.total` (count and balance in satoshis) and `stats.distribution.dust.count`. */
  datatype StatsTotal = StatsTotal(count: Option<real>, balance: real)
  datatype StatsFields = StatsFields(total: Option<StatsTotal>, dustCount: Option<real>)
  datatype StatsReply = StatsReply(success: bool, stats: Option<StatsFields>)

  datatype BlockchainReply = BlockchainReply(success: bool, blockHeight: Option<real>)
  datatype NetworkReply = NetworkReply(success: bool, hashrate: Option<string>, mempoolTxCount: Option<real>,
                                       feeHigh: Option<real>, feeLow: Option<real>)
  datatype AddressReply = AddressReply(success: bool, address: Option<string>)
  datatype CreateWalletReply = CreateWalletReply(success: bool, wallet: Option<Wallet>)

  /** The fee-estimates body: its `feeOptions` and `fees` members, None when absent. */
  datatype FeeEstimatesReply = FeeEstimatesReply(success: bool, feeOptions: Option<Json.Json>, fees: Option<Json.Json>)

  /** A wallet list the page keeps: a successful reply with `wallets` present. */
  predicate WalletsListed(r: Outcome<WalletsReply>) {
    r.Success? && r.value.success && r.value.wallets.Some?
  }

  /** A creation reply the page acts on: successful, with the new wallet in it. */
  predicate WalletCreated(r: Outcome<CreateWalletReply>) {
    r.Success? && r.value.success && r.value.wallet.Some?
  }

  /** A stats reply the page reads: successful, with `stats` and `stats.total` present. */
  predicate StatsUsable(r: Outcome<StatsReply>) {
    r.Success? && r.value.success && r.value.stats.Some? && r.value.stats.value.total.Some?
  }

  /** An address reply the page keeps: successful, with a non-empty address. */
  predicate AddressUsable(r: Outcome<AddressReply>) {
    r.Success? && r.value.success && r.value.address.Some? && r.value.address.value != ""
  }

  // ---------------------------------------------------------------- defaulting

  /** `x || 0` on a number that may be absent (0 is already the default). */
  function Or0(x: Option<real>): (r: real)
    ensures x.Some? ==> r == x.value
    ensures x.None? ==> r == 0.0
  {
    if x.Some? then x.value else 0.0
  }

  /** The balance shown after a successful balance reply: each missing field reads as 0. */
  function BalanceFrom(f: BalanceFields): (b: Balance)
    ensures b.confirmed == (if f.confirmed.Some? then f.confirmed.value else 0.0)
    ensures b.unconfirmed == (if f.unconfirmed.Some? then f.unconfirmed.value else 0.0)
    ensures b.total == (if f.total.Some? then f.total.value else 0.0)
    ensures f == BalanceFields(None, None, None) ==> b == ZeroBalance
  {
    Balance(Or0(f.confirmed), Or0(f.unconfirmed), Or0(f.total))
  }

  /** The coin statistics: the count, the mean coin size in BTC (0 without coins), the dust count. */
  function StatsFrom(t: StatsTotal, dustCount: Option<real>): (s: UtxoStats)
    ensures s.total == (if t.count.Some? then t.count.value else 0.0)
    ensures t.count.Some? && t.count.value > 0.0 ==> s.avgSize * t.count.value * 100000000.0 == t.balance
    ensures !(t.count.Some? && t.count.value > 0.0) ==> s.avgSize == 0.0
    ensures s.dust == (if dustCount.Some? then dustCount.value else 0.0)
  {
    var avg := if t.count.Some? && t.count.value > 0.0 then t.balance / t.count.value / 100000000.0 else 0.0;
    UtxoStats(Or0(t.count), avg, Or0(dustCount))
  }

  /** The network panel after both replies succeed; the hash rate defaults to the text "0". */
  function NetworkFrom(b: BlockchainReply, n: NetworkReply): (s: NetworkStatus)
    ensures s.blockHeight == Or0(b.blockHeight) && s.mempoolSize == Or0(n.mempoolTxCount)
    ensures s.fastFeeRate == Or0(n.feeHigh) && s.economyFeeRate == Or0(n.feeLow)
    ensures s.hashrate != ""
    ensures n.hashrate.Some? && n.hashrate.value != "" ==> s.hashrate == n.hashrate.value
  {
    NetworkStatus(Or0(b.blockHeight),
                  if n.hashrate.Some? && n.hashrate.value != "" then n.hashrate.value else "0",
                  Or0(n.mempoolTxCount), Or0(n.feeHigh), Or0(n.feeLow))
  }

  // ---------------------------------------------------------------- rows and buttons

  /** The key of a transaction row: its id, or its txid when the id is missing or empty. */
  function TxKey(tx: Tx): (k: string)
    ensures tx.id.Some? && tx.id.value != "" ==> k == tx.id.value
    ensures !(tx.id.Some? && tx.id.value != "") && tx.txid.Some? ==> k == tx.txid.value
    ensures !(tx.id.Some? && tx.id.value != "") && tx.txid.None? ==> k == "undefined"
  {
    if tx.id.Some? && tx.id.value != "" then tx.id.value
    else if tx.txid.Some? then tx.txid.value
    else "undefined"
  }

  /** The Send button: enabled only for a selected wallet with a positive confirmed balance. */
  function SendButtonDisabled(selected: Option<Wallet>, balance: Balance): (disabled: bool)
    ensures !disabled <==> selected.Some? && balance.confirmed > 0.0
  {
    selected.None? || balance.confirmed <= 0.0
  }

  /** The Consolidate button: enabled only for a selected wallet whose coins are loaded, at least three of them. */
  function ConsolidateButtonDisabled(selected: Option<Wallet>, utxosLoading: bool, coinCount: nat): (disabled: bool)
    ensures !disabled <==> selected.Some? && !utxosLoading && coinCount >= 3
  {
    selected.None? || utxosLoading || coinCount < 3
  }

  /** A row is incoming exactly for the two receive spellings; every other type is outgoing. */
  predicate IsIncoming(txType: string) {
    txType == "receive" || txType == "received"
  }

  /** The sign in front of a row's amount. */
  function AmountSign(txType: string): (sign: string)
    ensures sign == "+" || sign == "-"
    ensures sign == "+" <==> IsIncoming(txType)
  {
    if IsIncoming(txType) then "+" else "-"
  }

  /** Whether a row's details are open: a key never toggled reads as closed. */
  predicate IsOpen(open: map<string, bool>, key: string) {
    key in open && open[key]
  }

  /** `{...prev, [key]: !prev[key]}` */
  function Toggled(open: map<string, bool>, key: string): (after: map<string, bool>)
    ensures after.Keys == open.Keys + {key}
    ensures IsOpen(after, key) == !IsOpen(open, key)
    ensures forall k :: k in open && k != key ==> after[k] == open[k]
  {
    open[key := !IsOpen(open, key)]
  }

  /** Toggling the same row twice restores every row's open or closed status. */
  lemma ToggleTwice(open: map<string, bool>, key: string)
    ensures forall k :: IsOpen(Toggled(Toggled(open, key), key), k) == IsOpen(open, k)
  {
    var once := Toggled(open, key);
    var twice := Toggled(once, key);
    forall k ensures IsOpen(twice, k) == IsOpen(open, k) {
      if k != key && k in open {
        assert once[k] == open[k];
      }
    }
  }

  /** The chevron of a row: open when its key is open in the details map. */
  predicate RowOpen(open: map<string, bool>, tx: Tx) {
    IsOpen(open, TxKey(tx))
  }

  /**
   * Clicking a row toggles the details under its key: that row's chevron flips, and every
   * row with a different key keeps its state.
   */
  lemma ClickRowFlipsOnlyIt(open: map<string, bool>, clicked: Tx, other: Tx)
    ensures RowOpen(Toggled(open, TxKey(clicked)), clicked) == !RowOpen(open, clicked)
    ensures TxKey(other) != TxKey(clicked) ==>
      RowOpen(Toggled(open, TxKey(clicked)), other) == RowOpen(open, other)
  {
  }

  /**
   * Rows without usable ids share the key "undefined", so clicking one of them opens or
   * closes all of them together.
   */
  lemma RowsWithoutIdsToggleTogether(open: map<string, bool>, a: Tx, b: Tx)
    requires (a.id.None? || a.id == Some("")) && a.txid.None?
    requires (b.id.None? || b.id == Some("")) && b.txid.None?
    ensures RowOpen(Toggled(open, TxKey(a)), b) == !RowOpen(open, b)
  {
  }

  /**
   * The type test is case-sensitive: only the exact spellings "receive" and "received"
   * are shown with "+"; "Receive", "send" or "sent" are shown with "-".
   */
  lemma AmountSignSpellings()
    ensures AmountSign("receive") == "+" && AmountSign("received") == "+"
    ensures AmountSign("Receive") == "-" && AmountSign("send") == "-" && AmountSign("sent") == "-"
  {
  }

  /** `wallets.find(w => w.id === id)` */
  function FindWallet(wallets: seq<Wallet>, id: string): (w: Option<Wallet>)
    ensures w.None? <==> forall i :: 0 <= i < |wallets| ==> wallets[i].id != id
    ensures w.Some? ==> exists i :: (0 <= i < |wallets| && wallets[i] == w.value && w.value.id == id &&
      forall j :: 0 <= j < i ==> wallets[j].id != id)
  {
    if wallets == [] then None
    else if wallets[0].id == id then Some(wallets[0])
    else
      var w := FindWallet(wallets[1..], id);
      assert forall i :: 1 <= i < |wallets| ==> wallets[i] == wallets[1..][i - 1];
      if w.Some? then
        ghost var i :| 0 <= i < |wallets[1..]| && wallets[1..][i] == w.value && w.value.id == id &&
          forall j :: 0 <= j < i ==> wallets[1..][j].id != id;
        assert wallets[i + 1] == w.value;
        w
      else w
  }

  /** The history the page asks for: the latest ten entries. */
  const HistoryOptionsUsed := Api.HistoryOptions(Some(10), None, None, None)

  lemma HistoryRequestPath(walletId: string)
    ensures Api.HistoryEndpoint(walletId, HistoryOptionsUsed) == "/transactions/history/" + walletId + "?limit=10"
  {
    assert Api.IntText(10) == "10";
    assert Api.HistoryParams(HistoryOptionsUsed) == [("limit", "10")];
  }

  // ---------------------------------------------------------------- the page

  class DashboardPage {
    var wallets: seq<Wallet>
    var selectedWallet: Option<Wallet>
    var balance: Balance
    var transactions: seq<Tx>
    var utxos: seq<Utxo>
    var utxoStats: UtxoStats
    var networkStatus: NetworkStatus
    var loading: Loading
    var receiveAddress: string
    var transactionDetailsOpen: map<string, bool>
    var feeEstimates: Option<Json.Json>

    /** Send needs a selected wallet with a positive confirmed balance. */
    predicate SendDisabled()
      reads this
    {
      SendButtonDisabled(selectedWallet, balance)
    }

    /** Receive needs a selected wallet. */
    predicate ReceiveDisabled()
      reads this
    {
      selectedWallet.None?
    }

    /** Consolidation needs a selected wallet, its coins loaded, and at least three of them. */
    predicate ConsolidateDisabled()
      reads this
    {
      ConsolidateButtonDisabled(selectedWallet, loading.utxos, |utxos|)
    }

    constructor ()
      ensures wallets == [] && selectedWallet.None? && balance == ZeroBalance
      ensures transactions == [] && utxos == [] && utxoStats == UtxoStats(0.0, 0.0, 0.0)
      ensures networkStatus == NetworkStatus(0.0, "0", 0.0, 0.0, 0.0)
      ensures loading == Loading(true, true, true, true, true)
      ensures receiveAddress == "" && transactionDetailsOpen == map[] && feeEstimates.None?
    {
      wallets := [];
      selectedWallet := None;
      balance := ZeroBalance;
      transactions := [];
      utxos := [];
      utxoStats := UtxoStats(0.0, 0.0, 0.0);
      networkStatus := NetworkStatus(0.0, "0", 0.0, 0.0, 0.0);
      loading := Loading(true, true, true, true, true);
      receiveAddress := "";
      transactionDetailsOpen := map[];
      feeEstimates := None;
    }

    /**
     * A reply with a wallet list replaces the list and selects its first wallet; an empty
     * list clears the selection and the selected wallet's data. Anything else changes only
     * the loading flag.
     */
    method FetchWallets(reply: Outcome<WalletsReply>)
      modifies this
      ensures feeEstimates == old(feeEstimates)
      ensures loading == old(loading).(wallets := false)
      ensures reply.Success? && reply.value.success && reply.value.wallets.Some? ==>
        var list := reply.value.wallets.value;
        wallets == list && utxoStats == old(utxoStats) && networkStatus == old(networkStatus) &&
        receiveAddress == old(receiveAddress) && transactionDetailsOpen == old(transactionDetailsOpen) &&
        (|list| > 0 ==> (selectedWallet == Some(list[0]) && balance == old(balance) &&
           transactions == old(transactions) && utxos == old(utxos))) &&
        (|list| == 0 ==> (selectedWallet.None? && balance == ZeroBalance && transactions == [] && utxos == [] &&
           SendDisabled() && ReceiveDisabled() && ConsolidateDisabled()))
      ensures !(reply.Success? && reply.value.success && reply.value.wallets.Some?) ==>
        wallets == old(wallets) && selectedWallet == old(selectedWallet) && balance == old(balance) &&
        transactions == old(transactions) && utxos == old(utxos) && utxoStats == old(utxoStats) &&
        networkStatus == old(networkStatus) && receiveAddress == old(receiveAddress) &&
        transactionDetailsOpen == old(transactionDetailsOpen)
    {
      loading := loading.(wallets := true);
      if reply.Success? && reply.value.success && reply.value.wallets.Some? {
        var list := reply.value.wallets.value;
        wallets := list;
        if |list| > 0 {
          selectedWallet := Some(list[0]);
        } else {
          selectedWallet := None;
          balance := ZeroBalance;
          transactions := [];
          utxos := [];
        }
      }
      loading := loading.(wallets := false);
    }

    /** The selector's onChange: the wallet with that id, or none when no wallet has it. */
    method SelectWallet(id: string)
      modifies this
      ensures feeEstimates == old(feeEstimates)
      ensures selectedWallet == FindWallet(wallets, id)
      ensures wallets == old(wallets) && balance == old(balance) && transactions == old(transactions)
      ensures utxos == old(utxos) && utxoStats == old(utxoStats) && networkStatus == old(networkStatus)
      ensures loading == old(loading) && receiveAddress == old(receiveAddress)
      ensures transactionDetailsOpen == old(transactionDetailsOpen)
    {
      selectedWallet := FindWallet(wallets, id);
    }

    /** A successful balance reply replaces the balance, each missing field reading as 0. */
    method FetchWalletBalance(reply: Outcome<BalanceReply>)
      modifies this
      ensures feeEstimates == old(feeEstimates)
      ensures selectedWallet.Some? && reply.Success? && reply.value.success && reply.value.balance.Some? ==>
        balance == BalanceFrom(reply.value.balance.value)
      ensures !(selectedWallet.Some? && reply.Success? && reply.value.success && reply.value.balance.Some?) ==>
        balance == old(balance)
      ensures wallets == old(wallets) && selectedWallet == old(selectedWallet) && transactions == old(transactions)
      ensures utxos == old(utxos) && utxoStats == old(utxoStats) && networkStatus == old(networkStatus)
      ensures loading == old(loading) && receiveAddress == old(receiveAddress)
      ensures transactionDetailsOpen == old(transactionDetailsOpen)
    {
      if selectedWallet.None? {
        return;
      }
      if reply.Success? && reply.value.success && reply.value.balance.Some? {
        balance := BalanceFrom(reply.value.balance.value);
      }
    }

    /** The latest ten history entries; `endpoint` is the path requested (None without a wallet). */
    method FetchTransactions(reply: Outcome<HistoryReply>) returns (endpoint: Option<string>)
      modifies this
      ensures feeEstimates == old(feeEstimates)
      ensures selectedWallet.None? ==> endpoint.None? && loading == old(loading)
      ensures selectedWallet.Some? ==>
        endpoint == Some(Api.HistoryEndpoint(selectedWallet.value.id, HistoryOptionsUsed)) &&
        loading == old(loading).(transactions := false)
      ensures selectedWallet.Some? && reply.Success? && reply.value.success && reply.value.transactions.Some? ==>
        transactions == reply.value.transactions.value
      ensures !(selectedWallet.Some? && reply.Success? && reply.value.success && reply.value.transactions.Some?) ==>
        transactions == old(transactions)
      ensures wallets == old(wallets) && selectedWallet == old(selectedWallet) && balance == old(balance)
      ensures utxos == old(utxos) && utxoStats == old(utxoStats) && networkStatus == old(networkStatus)
      ensures receiveAddress == old(receiveAddress) && transactionDetailsOpen == old(transactionDetailsOpen)
    {
      if selectedWallet.None? {
        return None;
      }
      loading := loading.(transactions := true);
      endpoint := Some(Api.HistoryEndpoint(selectedWallet.value.id, HistoryOptionsUsed));
      if reply.Success? && reply.value.success && reply.value.transactions.Some? {
        transactions := reply.value.transactions.value;
      }
      loading := loading.(transactions := false);
    }

    /**
     * The coins, then their statistics, asked for only once the coins arrived. A stats
     * reply without `stats.total` throws before the statistics change.
     */
    method FetchUtxos(coins: Outcome<UtxosReply>, stats: Outcome<StatsReply>) returns (statsRequested: bool)
      modifies this
      ensures feeEstimates == old(feeEstimates)
      ensures selectedWallet.None? ==> !statsRequested && loading == old(loading) && utxos == old(utxos)
      ensures selectedWallet.Some? ==> loading == old(loading).(utxos := false)
      ensures statsRequested <==> selectedWallet.Some? && coins.Success? && coins.value.success && coins.value.utxos.Some?
      ensures statsRequested ==> utxos == coins.value.utxos.value
      ensures !statsRequested ==> utxos == old(utxos) && utxoStats == old(utxoStats)
      ensures statsRequested && StatsUsable(stats) ==>
        utxoStats == StatsFrom(stats.value.stats.value.total.value, stats.value.stats.value.dustCount)
      ensures !(statsRequested && StatsUsable(stats)) ==> utxoStats == old(utxoStats)
      ensures wallets == old(wallets) && selectedWallet == old(selectedWallet) && balance == old(balance)
      ensures transactions == old(transactions) && networkStatus == old(networkStatus)
      ensures receiveAddress == old(receiveAddress) && transactionDetailsOpen == old(transactionDetailsOpen)
    {
      statsRequested := false;
      if selectedWallet.None? {
        return;
      }
      loading := loading.(utxos := true);
      if coins.Success? && coins.value.success && coins.value.utxos.Some? {
        utxos := coins.value.utxos.value;
        statsRequested := true;
        if StatsUsable(stats) {
          utxoStats := StatsFrom(stats.value.stats.value.total.value, stats.value.stats.value.dustCount);
        }
      }
      loading := loading.(utxos := false);
    }

    /** Block status, then network statistics; the panel changes only when both succeed. */
    method FetchNetworkStatus(chain: Outcome<BlockchainReply>, network: Outcome<NetworkReply>)
      modifies this
      ensures feeEstimates == old(feeEstimates)
      ensures loading == old(loading).(network := false)
      ensures chain.Success? && network.Success? && chain.value.success && network.value.success ==>
        networkStatus == NetworkFrom(chain.value, network.value)
      ensures !(chain.Success? && network.Success? && chain.value.success && network.value.success) ==>
        networkStatus == old(networkStatus)
      ensures wallets == old(wallets) && selectedWallet == old(selectedWallet) && balance == old(balance)
      ensures transactions == old(transactions) && utxos == old(utxos) && utxoStats == old(utxoStats)
      ensures receiveAddress == old(receiveAddress) && transactionDetailsOpen == old(transactionDetailsOpen)
    {
      loading := loading.(network := true);
      if chain.Success? && network.Success? && chain.value.success && network.value.success {
        networkStatus := NetworkFrom(chain.value, network.value);
      }
      loading := loading.(network := false);
    }

    /** The next receive address, kept only when the reply carries a non-empty one. */
    method FetchNextAddress(reply: Outcome<AddressReply>)
      modifies this
      ensures feeEstimates == old(feeEstimates)
      ensures selectedWallet.Some? && AddressUsable(reply) ==> receiveAddress == reply.value.address.value
      ensures !(selectedWallet.Some? && AddressUsable(reply)) ==> receiveAddress == old(receiveAddress)
      ensures wallets == old(wallets) && selectedWallet == old(selectedWallet) && balance == old(balance)
      ensures transactions == old(transactions) && utxos == old(utxos) && utxoStats == old(utxoStats)
      ensures networkStatus == old(networkStatus) && loading == old(loading)
      ensures transactionDetailsOpen == old(transactionDetailsOpen)
    {
      if selectedWallet.None? {
        return;
      }
      if AddressUsable(reply) {
        receiveAddress := reply.value.address.value;
      }
    }

    /** Opening or closing one row's details leaves every other row as it was. */
    method ToggleTransactionDetails(txId: string)
      modifies this
      ensures feeEstimates == old(feeEstimates)
      ensures transactionDetailsOpen == Toggled(old(transactionDetailsOpen), txId)
      ensures wallets == old(wallets) && selectedWallet == old(selectedWallet) && balance == old(balance)
      ensures transactions == old(transactions) && utxos == old(utxos) && utxoStats == old(utxoStats)
      ensures networkStatus == old(networkStatus) && loading == old(loading)
      ensures receiveAddress == old(receiveAddress)
    {
      transactionDetailsOpen := Toggled(transactionDetailsOpen, txId);
    }
  

    /**
     * fetchFeeEstimates: a successful reply stores its `feeOptions`, or its `fees` when
     * `feeOptions` is absent or falsy; anything else changes nothing.
     */
    method FetchFeeEstimates(reply: Outcome<FeeEstimatesReply>)
      modifies this
      ensures reply.Success? && reply.value.success ==>
        feeEstimates == (if reply.value.feeOptions.Some? && Json.Truthy(reply.value.feeOptions.value)
                         then reply.value.feeOptions else reply.value.fees)
      ensures !(reply.Success? && reply.value.success) ==> feeEstimates == old(feeEstimates)
      ensures wallets == old(wallets) && selectedWallet == old(selectedWallet) && balance == old(balance)
      ensures transactions == old(transactions) && utxos == old(utxos) && utxoStats == old(utxoStats)
      ensures networkStatus == old(networkStatus) && loading == old(loading)
      ensures receiveAddress == old(receiveAddress) && transactionDetailsOpen == old(transactionDetailsOpen)
    {
      if reply.Success? && reply.value.success {
        var r := reply.value;
        feeEstimates := if r.feeOptions.Some? && Json.Truthy(r.feeOptions.value) then r.feeOptions else r.fees;
      }
    }

    /**
     * handleCreateWallet: after a successful creation the list is fetched again (`list` is
     * that reply) and then the new wallet is selected, overriding the first-wallet choice
     * of the refetch, even when the refreshed list does not hold it.
     */
    method CreateWallet(created: Outcome<CreateWalletReply>, list: Outcome<WalletsReply>)
      modifies this
      ensures feeEstimates == old(feeEstimates)
      ensures !WalletCreated(created) ==>
        wallets == old(wallets) && selectedWallet == old(selectedWallet) && balance == old(balance) &&
        transactions == old(transactions) && utxos == old(utxos) && loading == old(loading)
      ensures WalletCreated(created) ==>
        selectedWallet == created.value.wallet && loading == old(loading).(wallets := false)
      ensures WalletCreated(created) && WalletsListed(list) ==> wallets == list.value.wallets.value
      ensures WalletCreated(created) && WalletsListed(list) && |list.value.wallets.value| == 0 ==>
        balance == ZeroBalance && transactions == [] && utxos == []
      ensures WalletCreated(created) && !(WalletsListed(list) && |list.value.wallets.value| == 0) ==>
        balance == old(balance) && transactions == old(transactions) && utxos == old(utxos)
      ensures WalletCreated(created) && !WalletsListed(list) ==> wallets == old(wallets)
      ensures utxoStats == old(utxoStats) && networkStatus == old(networkStatus)
      ensures receiveAddress == old(receiveAddress) && transactionDetailsOpen == old(transactionDetailsOpen)
    {
      if WalletCreated(created) {
        FetchWallets(list);
        selectedWallet := created.value.wallet;
      }
    }
  }
}
