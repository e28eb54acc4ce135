/**
 * The account store: the accounts known by token, and the token of the current one,
 * if any. Its `current` getter gives the current account, or null.
 */
module AccountStore {
  import opened Js

  /** `Account`: the source declares it without fields. */
  datatype Account = Account

  /** `AccountState`: `currentToken` is null when absent. */
  datatype AccountState = AccountState(list: map<string, Account>, currentToken: Option<string>)

  /** The initial state: no account and no token. */
  function InitialState(): (s: AccountState)
    ensures s.list == map[] && s.currentToken.None?
  {
    AccountState(map[], None)
  }

  /**
   * The `current` getter: the account of the current token, or null (None) when the
   * token is null, empty, or not a key of `list`.
   */
  function Current(s: AccountState): (r: Option<Account>)
    ensures r.Some? <==> s.currentToken.Some? && s.currentToken.value != "" && s.currentToken.value in s.list
    ensures r.Some? ==> r.value == s.list[s.currentToken.value]
  {
    match s.currentToken
    case None => None
    case Some(token) =>
      if token != "" && token in s.list then Some(s.list[token]) else None
  }

  /** In the initial state there is no current account. */
  lemma InitialCurrentNull()
    ensures Current(InitialState()) == None
  {
  }
}
