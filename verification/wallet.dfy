/** The carbon-credit wallet: the balance-visibility toggle that masks the
    overview's totals and per-token amounts, the three tabs and their
    panels, and the transaction lines. */
module Wallet {
  import opened Wrappers
  import opened Text
  import Seqs

  /** A held token. `value` is in rupees. */
  datatype WalletToken = WalletToken(
    symbol: string, name: string, balance: int, value: int, change: string, increase: bool)

  datatype WalletData = WalletData(totalBalance: int, totalValue: int, tokens: seq<WalletToken>)

  function Data(): WalletData {
    WalletData(12847, 234567,
      [WalletToken("CCX", "Carbon Credit Token", 8500, 156780, "+12.5%", true),
       WalletToken("REDD", "REDD+ Forest Token", 2200, 45600, "+8.2%", true),
       WalletToken("AFFOR", "Afforestation Token", 2147, 32187, "-2.1%", false)])
  }

  function SumBalances(tokens: seq<WalletToken>): int {
    if tokens == [] then 0 else tokens[0].balance + SumBalances(tokens[1..])
  }

  function SumValues(tokens: seq<WalletToken>): int {
    if tokens == [] then 0 else tokens[0].value + SumValues(tokens[1..])
  }

  /** The headline figures are the sums of the token rows: 12847 tokens
      worth 234567 rupees. */
  lemma TotalsMatchTokens(d: WalletData)
    requires d == Data()
    ensures d.totalBalance == SumBalances(d.tokens)
    ensures d.totalValue == SumValues(d.tokens)
  {
    assert d.tokens[1..][1..][1..] == [];
  }

  /** What a hidden amount shows instead: six bullets. */
  const Mask: string := "\U{2022}\U{2022}\U{2022}\U{2022}\U{2022}\U{2022}"

  /** One amount as displayed: its formatted text, or the mask. */
  function Shown(showBalance: bool, text: string): string {
    if showBalance then text else Mask
  }

  /** The overview of any wallet holding `n` tokens while amounts are hidden. */
  function Hidden(n: nat): Overview {
    Overview(Mask, Mask, seq(n, _ => Mask), seq(n, _ => Mask))
  }

  /** The four masked places: the total value, the total token count, and
      every token's balance and value. `format` stands for the locale
      formatting of a number. */
  datatype Overview = Overview(totalValue: string, totalTokens: string, balances: seq<string>, values: seq<string>)

  function OverviewOf(d: WalletData, showBalance: bool, format: int -> string): (r: Overview)
    ensures |r.balances| == |d.tokens| && |r.values| == |d.tokens|
    ensures showBalance ==> r.totalValue == "\U{20B9}" + format(d.totalValue) && r.totalTokens == format(d.totalBalance)
    ensures showBalance ==> forall i :: 0 <= i < |d.tokens| ==>
      r.balances[i] == format(d.tokens[i].balance) && r.values[i] == "\U{20B9}" + format(d.tokens[i].value)
    ensures !showBalance ==> r == Hidden(|d.tokens|)
  {
    var balances := seq(|d.tokens|, i requires 0 <= i < |d.tokens| => Shown(showBalance, format(d.tokens[i].balance)));
    var values := seq(|d.tokens|, i requires 0 <= i < |d.tokens| => Shown(showBalance, "\U{20B9}" + format(d.tokens[i].value)));
    assert forall i :: 0 <= i < |d.tokens| ==>
      balances[i] == Shown(showBalance, format(d.tokens[i].balance)) &&
      values[i] == Shown(showBalance, "\U{20B9}" + format(d.tokens[i].value));
    Overview(Shown(showBalance, "\U{20B9}" + format(d.totalValue)), Shown(showBalance, format(d.totalBalance)), balances, values)
  }

  /** With the balance hidden, every one of the four places shows the mask,
      so the overview reveals nothing but the number of tokens held: two
      wallets with as many tokens look the same. */
  lemma HiddenRevealsNothing(d1: WalletData, d2: WalletData, format: int -> string)
    requires |d1.tokens| == |d2.tokens|
    ensures var o := OverviewOf(d1, false, format);
      o.totalValue == Mask && o.totalTokens == Mask &&
      (forall i :: 0 <= i < |o.balances| ==> o.balances[i] == Mask && o.values[i] == Mask)
    ensures OverviewOf(d1, false, format) == OverviewOf(d2, false, format)
  {
    var o1, o2 := OverviewOf(d1, false, format), OverviewOf(d2, false, format);
    assert o1.balances == o2.balances;
    assert o1.values == o2.values;
  }

  /** The mask is never mistaken for a rupee amount. */
  lemma MaskIsNotAnAmount(text: string)
    ensures Mask != "\U{20B9}" + text
  {
    assert Mask[0] != ("\U{20B9}" + text)[0];
  }

  /** The tab names in display order. */
  const Tabs: seq<string> := ["overview", "transactions", "settings"]

  /** The tab caption: the same name up to letter case, starting with no
      lower-case letter, and changed in nothing but its first character. */
  function Capitalize(tab: string): (r: string)
    ensures |r| == |tab|
    ensures ToLower(r) == ToLower(tab)
    ensures tab != [] ==> !('a' <= r[0] <= 'z') && r[1..] == tab[1..]
    ensures tab != [] && !('a' <= tab[0] <= 'z') ==> r == tab
  {
    if tab == [] then []
    else
      var r := [UpperChar(tab[0])] + tab[1..];
      assert ToLower(r)[0] == LowerChar(UpperChar(tab[0])) == LowerChar(tab[0]);
      assert forall i :: 1 <= i < |r| ==> ToLower(r)[i] == LowerChar(tab[i]);
      r
  }

  /** Capitalizing twice is capitalizing once: a caption is its own
      caption. */
  lemma CapitalizeIdempotent(tab: string)
    ensures Capitalize(Capitalize(tab)) == Capitalize(tab)
  {
  }

  /** A caption that starts with the upper-cased first character of the
      name and goes on as the name does is the name's caption. */
  lemma CaptionIs(tab: string, caption: string)
    requires tab != [] && |caption| == |tab|
    requires caption[0] == UpperChar(tab[0]) && caption[1..] == tab[1..]
    ensures Capitalize(tab) == caption
  {
    assert caption == [caption[0]] + caption[1..];
  }

  /** The three captions. */
  lemma TabCaptions(tabs: seq<string>)
    requires tabs == Tabs
    ensures Capitalize(tabs[0]) == "Overview"
    ensures Capitalize(tabs[1]) == "Transactions"
    ensures Capitalize(tabs[2]) == "Settings"
  {
    CaptionIs(tabs[0], "Overview");
    CaptionIs(tabs[1], "Transactions");
    CaptionIs(tabs[2], "Settings");
  }

  /** Which of the overview, transactions and settings panels render. */
  function Panels(activeTab: string): seq<bool> {
    [activeTab == "overview", activeTab == "transactions", activeTab == "settings"]
  }

  /** For each tab exactly its own panel renders; for any other value none. */
  lemma ExactlyOnePanel(activeTab: string)
    ensures |Panels(activeTab)| == |Tabs|
    ensures forall i :: 0 <= i < |Tabs| ==> (Panels(activeTab)[i] <==> activeTab == Tabs[i])
    ensures activeTab in Tabs ==> Seqs.Count(Panels(activeTab), true) == 1
    ensures activeTab !in Tabs ==> Seqs.Count(Panels(activeTab), true) == 0
  {
    var p := Panels(activeTab);
    assert p[1..][1..][1..] == [];
    assert Seqs.Count(p[1..][1..], true) == (if p[2] then 1 else 0);
    assert Seqs.Count(p[1..], true) == (if p[1] then 1 else 0) + (if p[2] then 1 else 0);
  }

  /** A transaction row. The counterpart fields are present only for the
      kind that uses them. */
  datatype WalletTx = WalletTx(
    id: int, txType: string, token: string, amount: int, value: int,
    from: Option<string>, to: Option<string>, project: Option<string>,
    timestamp: string, hash: string)

  /** A field read in a template literal: a missing one prints "undefined". */
  function Field(o: Option<string>): string {
    match o
    case Some(s) => s
    case None => "undefined"
  }

  /** The line under each transaction. */
  function Describe(tx: WalletTx): string {
    if tx.txType == "received" then "From " + Field(tx.from)
    else if tx.txType == "sent" then "To " + Field(tx.to)
    else "Minted from " + Field(tx.project)
  }

  /** The line tells the three kinds apart: its first character is 'F' for
      a received transfer, 'T' for a sent one and 'M' for anything else. */
  lemma DescribeShowsKind(tx: WalletTx)
    ensures |Describe(tx)| > 0
    ensures Describe(tx)[0] == 'F' <==> tx.txType == "received"
    ensures Describe(tx)[0] == 'T' <==> tx.txType == "sent"
    ensures Describe(tx)[0] == 'M' <==> tx.txType != "received" && tx.txType != "sent"
  {
  }

  /** A minted row that lacks its project reads "Minted from undefined". */
  lemma MissingFieldPrintsUndefined(tx: WalletTx)
    requires tx.txType == "minted" && tx.project.None?
    ensures Describe(tx) == "Minted from undefined"
  {
  }

  function Transactions(): seq<WalletTx> {
    [WalletTx(1, "received", "CCX", 150, 2760, Some("Forest Conservation Ltd."), None, None, "2 hours ago", "0x1234...5678"),
     WalletTx(2, "sent", "CCX", 75, 1380, None, Some("GreenTech Solutions"), None, "1 day ago", "0x8765...4321"),
     WalletTx(3, "minted", "REDD", 500, 10350, None, None, Some("Amazon Reforestation"), "3 days ago", "0x2468...1357")]
  }

  /** Every listed transaction carries the counterpart its kind reads, so no
      line prints "undefined". */
  lemma ListedTransactionsAreComplete(txs: seq<WalletTx>)
    requires txs == Transactions()
    ensures forall i :: 0 <= i < |txs| ==>
      (txs[i].txType == "received" ==> txs[i].from.Some?) &&
      (txs[i].txType == "sent" ==> txs[i].to.Some?) &&
      (txs[i].txType != "received" && txs[i].txType != "sent" ==> txs[i].project.Some?)
  {
  }

  class WalletInterface {
    var showBalance: bool
    var activeTab: string

    constructor ()
      ensures showBalance && activeTab == Tabs[0]
    {
      showBalance := true;
      activeTab := "overview";
    }

    /** Both the eye button and the settings switch negate the flag. */
    method ToggleBalance()
      modifies this`showBalance
      ensures showBalance == !old(showBalance)
    {
      showBalance := !showBalance;
    }

    method SelectTab(tab: string)
      modifies this`activeTab
      ensures activeTab == tab
    {
      activeTab := tab;
    }

    function View(format: int -> string): Overview
      reads this
    {
      OverviewOf(Data(), showBalance, format)
    }
  }

  /** Two toggles restore the view the wallet started from. */
  method ToggleTwice(w: WalletInterface, format: int -> string)
    modifies w
    ensures w.showBalance == old(w.showBalance) && w.activeTab == old(w.activeTab)
    ensures w.View(format) == old(w.View(format))
  {
    w.ToggleBalance();
    w.ToggleBalance();
  }
}
