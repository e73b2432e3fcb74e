/** Wallet-connection bookkeeping: the `useWeb3` hook of
    SimpleDemo/hooks/useWeb3.ts as a three-field state machine. The wallet's
    replies to `eth_accounts` / `eth_requestAccounts` are event payloads; the
    provider object itself is reduced to whether one is held. */
module Wallet {
  import opened Common

  datatype State = State(account: Option<string>, isConnected: bool, hasProvider: bool)

  /** The three `useState` initial values. */
  const Initial := State(None, false, false)

  /** Connected, an account and a provider go together. */
  predicate Consistent(s: State) {
    (s.isConnected <==> s.account.Some?) && (s.account.Some? <==> s.hasProvider)
  }

  /** What a request to the wallet yields: the account list, or a thrown error. */
  datatype Reply = Threw | Accounts(list: seq<string>)

  /** The state every "accounts available" branch sets. */
  function ConnectedTo(account: string): (s: State)
    ensures Consistent(s) && s.isConnected && s.account == Some(account)
  {
    State(Some(account), true, true)
  }

  /** `checkConnection` on mount: adopt the first account when the wallet
      reports one; leave the state alone on an empty list or an error. */
  function CheckConnection(s: State, reply: Reply): (r: State)
    ensures reply.Threw? || (reply.Accounts? && reply.list == []) ==> r == s
    ensures reply.Accounts? && reply.list != [] ==> r.isConnected && r.account == Some(reply.list[0])
    ensures Consistent(s) ==> Consistent(r)
  {
    match reply
    case Accounts(list) => if |list| > 0 then ConnectedTo(list[0]) else s
    case Threw => s
  }

  /** The `accountsChanged` listener: an empty list disconnects, any other
      list connects to its first account, whatever the state before. */
  function AccountsChanged(s: State, accounts: seq<string>): (r: State)
    ensures Consistent(r)
    ensures r.isConnected <==> accounts != []
    ensures accounts != [] ==> r.account == Some(accounts[0])
  {
    if |accounts| == 0 then State(None, false, false) else ConnectedTo(accounts[0])
  }

  /** How a `connect()` call goes: no MetaMask at all, `eth_requestAccounts`
      throws, or it succeeds and `eth_accounts` then replies. */
  datatype Attempt = NoWallet | Refused | Granted(accounts: Reply)

  /** `connect()`: like `checkConnection`, after asking the wallet for access. */
  function Connect(s: State, attempt: Attempt): (r: State)
    ensures !(attempt.Granted? && attempt.accounts.Accounts? && attempt.accounts.list != []) ==> r == s
    ensures attempt.Granted? && attempt.accounts.Accounts? && attempt.accounts.list != [] ==>
      r.isConnected && r.account == Some(attempt.accounts.list[0])
    ensures Consistent(s) ==> Consistent(r)
  {
    match attempt
    case NoWallet => s
    case Refused => s
    case Granted(reply) => CheckConnection(s, reply)
  }

  /** `disconnect()` forgets the account and the provider. */
  function Disconnect(s: State): (r: State)
    ensures Consistent(r) && !r.isConnected && r.account.None? && !r.hasProvider
  {
    State(None, false, false)
  }

  /** Everything that can happen to the hook. */
  datatype Event =
    | Checked(reply: Reply)
    | Changed(accounts: seq<string>)
    | Connected(attempt: Attempt)
    | Disconnected

  function Step(s: State, e: Event): State {
    match e
    case Checked(reply) => CheckConnection(s, reply)
    case Changed(accounts) => AccountsChanged(s, accounts)
    case Connected(attempt) => Connect(s, attempt)
    case Disconnected => Disconnect(s)
  }

  function Run(s: State, events: seq<Event>): State
    decreases |events|
  {
    if events == [] then s else Run(Step(s, events[0]), events[1..])
  }

  /** Whatever the wallet does, starting from the initial state the three
      fields stay in step. */
  lemma {:induction false} RunConsistent(s: State, events: seq<Event>)
    requires Consistent(s)
    ensures Consistent(Run(s, events))
    decreases |events|
  {
    if events != [] {
      RunConsistent(Step(s, events[0]), events[1..]);
    }
  }

  /** A session starts disconnected, and the fields stay in step whatever
      the wallet does afterwards. */
  lemma InitialSession()
    ensures Initial.account.None? && !Initial.isConnected && !Initial.hasProvider
    ensures forall events :: Consistent(Run(Initial, events))
  {
    forall events {
      RunConsistent(Initial, events);
    }
  }
}
