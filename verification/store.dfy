/** The global store: a user, a token list and a transaction list, and the
    four actions that update them. Each action is a reducer from the old
    state to the new one. */
module Store {
  import opened Wrappers
  import Seqs

  datatype KycStatus = KycPending | KycVerified | KycRejected

  datatype User = User(id: string, name: string, email: string, kycStatus: KycStatus, walletAddress: string)

  /** Amounts are JavaScript numbers; the store only moves them around. */
  datatype Token = Token(id: string, symbol: string, name: string, balance: real, value: real, price: real)

  datatype TxType = Sent | Received | Minted

  datatype TxStatus = TxPending | TxCompleted | TxFailed

  datatype Transaction = Transaction(
    id: string, txType: TxType, amount: real, token: string,
    timestamp: string, status: TxStatus, hash: string)

  datatype State = State(user: Option<User>, tokens: seq<Token>, transactions: seq<Transaction>)

  /** The state the store is created with: nobody signed in, no tokens,
      no transactions. */
  function Initial(): (s: State)
    ensures s.user.None? && |s.tokens| == 0 && |s.transactions| == 0
  {
    State(None, [], [])
  }

  /** `setUser`: writes only the user. */
  function SetUser(s: State, user: User): (r: State)
    ensures r.user == Some(user)
    ensures r.tokens == s.tokens && r.transactions == s.transactions
  {
    s.(user := Some(user))
  }

  /** `addToken`: the new token goes to the end of the list. */
  function AddToken(s: State, token: Token): (r: State)
    ensures |r.tokens| == |s.tokens| + 1
    ensures r.tokens[..|s.tokens|] == s.tokens && r.tokens[|s.tokens|] == token
    ensures r.user == s.user && r.transactions == s.transactions
  {
    s.(tokens := s.tokens + [token])
  }

  /** `addTransaction`: the newest transaction comes first. */
  function AddTransaction(s: State, tx: Transaction): (r: State)
    ensures |r.transactions| == |s.transactions| + 1
    ensures r.transactions[0] == tx && r.transactions[1..] == s.transactions
    ensures r.user == s.user && r.tokens == s.tokens
  {
    s.(transactions := [tx] + s.transactions)
  }

  /** The `map` inside `updateTokenBalance`: every token with the given id
      gets the new balance, with its other fields kept; every other token is
      left as it was; length and order are kept. */
  function SetBalances(tokens: seq<Token>, tokenId: string, newBalance: real): (r: seq<Token>)
    ensures |r| == |tokens|
    ensures forall i :: 0 <= i < |tokens| && tokens[i].id == tokenId ==>
      r[i].balance == newBalance &&
      r[i].id == tokens[i].id && r[i].symbol == tokens[i].symbol && r[i].name == tokens[i].name &&
      r[i].value == tokens[i].value && r[i].price == tokens[i].price
    ensures forall i :: 0 <= i < |tokens| && tokens[i].id != tokenId ==> r[i] == tokens[i]
  {
    if tokens == [] then []
    else
      var head := if tokens[0].id == tokenId then tokens[0].(balance := newBalance) else tokens[0];
      [head] + SetBalances(tokens[1..], tokenId, newBalance)
  }

  /** `updateTokenBalance`: writes only the token list. */
  function UpdateTokenBalance(s: State, tokenId: string, newBalance: real): (r: State)
    ensures r.user == s.user && r.transactions == s.transactions
    ensures |r.tokens| == |s.tokens|
  {
    s.(tokens := SetBalances(s.tokens, tokenId, newBalance))
  }

  /** With no token carrying the id, the list is unchanged. */
  lemma UpdateUnknownIdIsIdentity(tokens: seq<Token>, tokenId: string, newBalance: real)
    requires forall i :: 0 <= i < |tokens| ==> tokens[i].id != tokenId
    ensures SetBalances(tokens, tokenId, newBalance) == tokens
  {
  }

  /** A second update of the same id overrides the first one. */
  lemma UpdateLastWriteWins(tokens: seq<Token>, tokenId: string, b1: real, b2: real)
    ensures SetBalances(SetBalances(tokens, tokenId, b1), tokenId, b2) == SetBalances(tokens, tokenId, b2)
  {
  }

  function Ids(tokens: seq<Token>): (r: seq<string>)
    ensures |r| == |tokens|
    ensures forall i :: 0 <= i < |tokens| ==> r[i] == tokens[i].id
  {
    if tokens == [] then [] else [tokens[0].id] + Ids(tokens[1..])
  }

  /** The ids, and so the order, of the token list never change under an update. */
  lemma UpdateKeepsIds(tokens: seq<Token>, tokenId: string, newBalance: real)
    ensures Ids(SetBalances(tokens, tokenId, newBalance)) == Ids(tokens)
  {
  }

  /** One dispatched action. */
  datatype Action =
    | SetUserAction(user: User)
    | AddTokenAction(token: Token)
    | AddTransactionAction(tx: Transaction)
    | UpdateBalanceAction(tokenId: string, newBalance: real)

  function Apply(s: State, a: Action): State {
    match a
    case SetUserAction(u) => SetUser(s, u)
    case AddTokenAction(t) => AddToken(s, t)
    case AddTransactionAction(tx) => AddTransaction(s, tx)
    case UpdateBalanceAction(id, b) => UpdateTokenBalance(s, id, b)
  }

  /** Dispatching the actions one after the other, first one first. */
  function Run(s: State, actions: seq<Action>): State
    decreases |actions|
  {
    if actions == [] then s else Run(Apply(s, actions[0]), actions[1..])
  }

  /** The transactions added by `actions`, in dispatch order. */
  function AddedTransactions(actions: seq<Action>): seq<Transaction>
    decreases |actions|
  {
    if actions == [] then []
    else (if actions[0].AddTransactionAction? then [actions[0].tx] else []) + AddedTransactions(actions[1..])
  }

  /** The tokens added by `actions`, in dispatch order. */
  function AddedTokens(actions: seq<Action>): seq<Token>
    decreases |actions|
  {
    if actions == [] then []
    else (if actions[0].AddTokenAction? then [actions[0].token] else []) + AddedTokens(actions[1..])
  }

  /** The transaction list is newest-first: after any run of actions it holds
      the added transactions in reverse dispatch order, in front of the ones
      that were already there. */
  lemma {:induction false} RunTransactionsNewestFirst(s: State, actions: seq<Action>)
    ensures Run(s, actions).transactions == Seqs.Reverse(AddedTransactions(actions)) + s.transactions
    decreases |actions|
  {
    if actions != [] {
      var a, rest := actions[0], actions[1..];
      RunTransactionsNewestFirst(Apply(s, a), rest);
      if a.AddTransactionAction? {
        var added := [a.tx] + AddedTransactions(rest);
        assert AddedTransactions(actions) == added;
        assert added[1..] == AddedTransactions(rest);
        assert Seqs.Reverse(added) == Seqs.Reverse(AddedTransactions(rest)) + [a.tx];
      } else {
        assert AddedTransactions(actions) == AddedTransactions(rest);
      }
    }
  }

  /** The token list keeps the order in which tokens were added: after any run
      of actions its ids are the old ids followed by the added tokens' ids. */
  lemma {:induction false} RunTokensInAddOrder(s: State, actions: seq<Action>)
    ensures Ids(Run(s, actions).tokens) == Ids(s.tokens) + Ids(AddedTokens(actions))
    decreases |actions|
  {
    if actions != [] {
      var a, rest := actions[0], actions[1..];
      RunTokensInAddOrder(Apply(s, a), rest);
      match a
      case AddTokenAction(t) =>
        assert AddedTokens(actions) == [t] + AddedTokens(rest);
        assert Ids([t] + AddedTokens(rest)) == [t.id] + Ids(AddedTokens(rest));
        assert Ids(s.tokens + [t]) == Ids(s.tokens) + [t.id];
      case UpdateBalanceAction(id, b) =>
        UpdateKeepsIds(s.tokens, id, b);
        assert AddedTokens(actions) == AddedTokens(rest);
      case SetUserAction(_) =>
        assert AddedTokens(actions) == AddedTokens(rest);
      case AddTransactionAction(_) =>
        assert AddedTokens(actions) == AddedTokens(rest);
    }
  }

  /** From the initial state, a run of actions that adds tokens and
      transactions only leaves exactly those, the tokens oldest-first and the
      transactions newest-first. */
  lemma RunFromInitial(actions: seq<Action>)
    ensures Run(Initial(), actions).transactions == Seqs.Reverse(AddedTransactions(actions))
    ensures Ids(Run(Initial(), actions).tokens) == Ids(AddedTokens(actions))
  {
    RunTransactionsNewestFirst(Initial(), actions);
    RunTokensInAddOrder(Initial(), actions);
    assert Ids(Initial().tokens) == [];
  }
}
