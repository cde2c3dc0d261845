/**
 External accounts and their tokens (backend/internal/services/user/user.go):
 connecting an account, handing out access tokens, refreshing them, and locking an
 account whose refresh was terminally rejected. Tokens are kept in the clear;
 encryption round trips.
 */
module UserTokens {
  import opened Basics

  /** The 60 second grace window, times in seconds. */
  const GRACE: Time := 60

  /** Primary key (user_id, provider) of external_accounts. */
  datatype AccountKey = AccountKey(user: string, provider: string)
  datatype Account = Account(externalId: string, access: string, refresh: string, expiresAt: Option<Time>,
                             scopes: string, needsReconnect: bool, connectedAt: Time)
  type Accounts = map<AccountKey, Account>
  datatype State = State(users: set<string>, accounts: Accounts)

  /** What the OAuth callback provides. */
  datatype ExternalAccount = ExternalAccount(provider: string, externalId: string, access: string, refresh: string,
                                             expiresAt: Time, scopes: string)

  datatype Refreshing = Refreshed(access: string, refresh: string, expiresAt: Time) | Terminal | Transient

  datatype Connected = User(id: string) | Rejected
  datatype Token = Token(access: string) | NoAccount | NeedsReconnect | RefreshFailed | NotStored

  /** One use of the service: the id newUserID draws, what the provider would answer,
      and whether the row writes succeed. */
  datatype Act =
    | Connect(account: ExternalAccount, newId: string, now: Time)
    | Fetch(key: AccountKey, provided: Refreshing, writeOk: bool, now: Time)

  /** The accounts connected to one external identity; the unique index allows one. */
  function Holders(accounts: Accounts, provider: string, externalId: string): set<AccountKey> {
    set k | k in accounts && k.provider == provider && accounts[k].externalId == externalId
  }

  function Reconnected(acc: Account, a: ExternalAccount): Account {
    acc.(access := a.access, refresh := a.refresh, expiresAt := Some(a.expiresAt), scopes := a.scopes,
         needsReconnect := false)
  }

  function NewAccount(a: ExternalAccount, now: Time): Account {
    Account(a.externalId, a.access, a.refresh, Some(a.expiresAt), a.scopes, false, now)
  }

  // ── the invariant of every run ──

  /** An external identity belongs to one account, a user has one account. */
  ghost predicate Valid(s: State) {
    && (forall k :: k in s.accounts ==> k.user in s.users && k.provider != "" && s.accounts[k].externalId != "")
    && (forall k, l :: k in s.accounts && l in s.accounts ==>
        k.provider == l.provider && s.accounts[k].externalId == s.accounts[l].externalId ==> k == l)
    && (forall k, l :: k in s.accounts && l in s.accounts && k.user == l.user ==> k == l)
  }

  lemma HolderIsUnique(s: State, k: AccountKey)
    requires Valid(s) && k in s.accounts
    ensures Holders(s.accounts, k.provider, s.accounts[k].externalId) == {k}
  {
  }

  // ── the operations as functions ──

  ghost function HolderOf(accounts: Accounts, provider: string, externalId: string): AccountKey
    requires Holders(accounts, provider, externalId) != {}
  {
    var k :| k in Holders(accounts, provider, externalId);
    k
  }

  ghost function ConnectStep(s: State, a: ExternalAccount, newId: string, now: Time): (State, Connected) {
    if a.provider == "" || a.externalId == "" then (s, Rejected)
    else if Holders(s.accounts, a.provider, a.externalId) != {} then
      var k := HolderOf(s.accounts, a.provider, a.externalId);
      (s.(accounts := s.accounts[k := Reconnected(s.accounts[k], a)]), User(k.user))
    else if newId in s.users then (s, Rejected)
    else (State(s.users + {newId}, s.accounts[AccountKey(newId, a.provider) := NewAccount(a, now)]), User(newId))
  }

  /** The stored token is good for more than the grace window. */
  predicate Usable(acc: Account, now: Time) {
    acc.expiresAt.Some? && now + GRACE < acc.expiresAt.value
  }

  /** The refresh callback runs. */
  predicate Calls(s: State, key: AccountKey, now: Time) {
    key in s.accounts && !s.accounts[key].needsReconnect && !Usable(s.accounts[key], now)
  }

  /** The row after the provider answered. */
  function AfterRefresh(acc: Account, provided: Refreshing, writeOk: bool): Account {
    if !writeOk then acc else
    match provided
    case Refreshed(access, refresh, at) => acc.(access := access, refresh := refresh, expiresAt := Some(at))
    case Terminal => acc.(needsReconnect := true)
    case Transient => acc
  }

  function FetchStep(s: State, key: AccountKey, provided: Refreshing, writeOk: bool, now: Time): (State, Token) {
    if key !in s.accounts then (s, NoAccount) else
    var acc := s.accounts[key];
    if acc.needsReconnect then (s, NeedsReconnect)
    else if Usable(acc, now) then (s, Token(acc.access))
    else
      var s' := s.(accounts := s.accounts[key := AfterRefresh(acc, provided, writeOk)]);
      (s', if !provided.Refreshed? then RefreshFailed else if writeOk then Token(provided.access) else NotStored)
  }

  ghost function Step(s: State, act: Act): State {
    match act
    case Connect(a, newId, now) => ConnectStep(s, a, newId, now).0
    case Fetch(key, provided, writeOk, now) => FetchStep(s, key, provided, writeOk, now).0
  }

  ghost function Run(s: State, acts: seq<Act>): State {
    if acts == [] then s else Step(Run(s, acts[..|acts| - 1]), acts[|acts| - 1])
  }

  // ── identities ──

  ghost predicate Connects(act: Act, provider: string, externalId: string) {
    act.Connect? && act.account.provider == provider && act.account.externalId == externalId
  }

  /** Accounts never move: rows stay, and keep the external identity they were created for. */
  ghost predicate SameIdentities(s: State, t: State) {
    s.users <= t.users && forall k :: k in s.accounts ==>
        k in t.accounts && t.accounts[k].externalId == s.accounts[k].externalId
  }

  lemma RowReplaced(s: State, k: AccountKey, acc: Account)
    requires Valid(s) && k in s.accounts && acc.externalId == s.accounts[k].externalId
    ensures var t := s.(accounts := s.accounts[k := acc]); Valid(t) && SameIdentities(s, t)
  {
  }

  lemma RowAdded(s: State, k: AccountKey, acc: Account)
    requires Valid(s) && k.user !in s.users && k.provider != "" && acc.externalId != ""
    requires Holders(s.accounts, k.provider, acc.externalId) == {}
    ensures var t := State(s.users + {k.user}, s.accounts[k := acc]); Valid(t) && SameIdentities(s, t)
  {
    forall l | l in s.accounts && l.provider == k.provider
      ensures s.accounts[l].externalId != acc.externalId
    {
      assert l !in Holders(s.accounts, k.provider, acc.externalId);
    }
  }

  /** Every step keeps the invariant, every account and its identity. */
  lemma StepKeepsValid(s: State, act: Act)
    requires Valid(s)
    ensures Valid(Step(s, act)) && SameIdentities(s, Step(s, act))
  {
    match act
    case Connect(a, newId, now) =>
      if a.provider != "" && a.externalId != "" {
        if Holders(s.accounts, a.provider, a.externalId) != {} {
          var k := HolderOf(s.accounts, a.provider, a.externalId);
          RowReplaced(s, k, Reconnected(s.accounts[k], a));
        } else if newId !in s.users {
          RowAdded(s, AccountKey(newId, a.provider), NewAccount(a, now));
        }
      }
    case Fetch(key, provided, writeOk, now) =>
      if Calls(s, key, now) {
        RowReplaced(s, key, AfterRefresh(s.accounts[key], provided, writeOk));
      }
  }

  lemma {:induction false} RunKeepsValid(s: State, acts: seq<Act>)
    requires Valid(s)
    ensures Valid(Run(s, acts)) && SameIdentities(s, Run(s, acts))
  {
    if acts != [] {
      RunKeepsValid(s, acts[..|acts| - 1]);
      StepKeepsValid(Run(s, acts[..|acts| - 1]), acts[|acts| - 1]);
    }
  }

  /** A successful connect leaves the identity with the returned user. */
  lemma ConnectOwns(s: State, a: ExternalAccount, newId: string, now: Time)
    requires Valid(s) && ConnectStep(s, a, newId, now).1.User?
    ensures var (t, u) := ConnectStep(s, a, newId, now);
      var k := AccountKey(u.id, a.provider);
      && k in t.accounts
      && t.accounts[k] == (if k in s.accounts then Reconnected(s.accounts[k], a) else NewAccount(a, now))
      && t.accounts[k].externalId == a.externalId
      && (forall l :: l in s.accounts && l != k ==> l in t.accounts && t.accounts[l] == s.accounts[l])
  {
    if Holders(s.accounts, a.provider, a.externalId) != {} {
      var k := HolderOf(s.accounts, a.provider, a.externalId);
      assert k in Holders(s.accounts, a.provider, a.externalId) && k.provider == a.provider;
      assert k == AccountKey(k.user, a.provider);
    }
  }

  /** Whatever happens between two connects, the second returns the first one's user
      exactly if both name the same external identity. */
  lemma UserNeverChanges(s: State, a: ExternalAccount, newId: string, now: Time, between: seq<Act>,
                         b: ExternalAccount, newId': string, now': Time)
    requires Valid(s)
    requires ConnectStep(s, a, newId, now).1.User?
    requires var t := Run(ConnectStep(s, a, newId, now).0, between); ConnectStep(t, b, newId', now').1.User?
    ensures var (s1, u) := ConnectStep(s, a, newId, now);
      var (_, v) := ConnectStep(Run(s1, between), b, newId', now');
      u == v <==> a.provider == b.provider && a.externalId == b.externalId
  {
    var (s1, u) := ConnectStep(s, a, newId, now);
    StepKeepsValid(s, Connect(a, newId, now));
    RunKeepsValid(s1, between);
    var t := Run(s1, between);
    var (t1, v) := ConnectStep(t, b, newId', now');
    StepKeepsValid(t, Connect(b, newId', now'));
    ConnectOwns(s, a, newId, now);
    ConnectOwns(t, b, newId', now');
    var k, l := AccountKey(u.id, a.provider), AccountKey(v.id, b.provider);
    assert k in t1.accounts && t1.accounts[k].externalId == a.externalId;
    assert l in t1.accounts && t1.accounts[l].externalId == b.externalId;
  }

  // ── tokens ──

  /** The stored token is good: it expires more than 60 seconds from now. */
  ghost predicate ExpiresLater(acc: Account, now: Time) {
    acc.expiresAt.Some? && acc.expiresAt.value > now + 60
  }

  /** The callback runs exactly for an account that is there, not locked, and whose token
      does not expire more than 60 seconds from now. */
  lemma CallsIff(s: State, key: AccountKey, now: Time)
    ensures Calls(s, key, now) <==>
              key in s.accounts && !s.accounts[key].needsReconnect && !ExpiresLater(s.accounts[key], now)
  {
  }

  /** A returned token is a stored one more than 60 seconds from expiry, or one the provider
      just issued, which is then also the stored one, with its refresh token and expiry. */
  lemma TokenIsCurrent(s: State, key: AccountKey, provided: Refreshing, writeOk: bool, now: Time)
    requires FetchStep(s, key, provided, writeOk, now).1.Token?
    ensures var (t, token) := FetchStep(s, key, provided, writeOk, now);
      && key in s.accounts && key in t.accounts && t.accounts[key].access == token.access
      && if ExpiresLater(s.accounts[key], now) then t == s
         else provided.Refreshed? && token.access == provided.access && t.accounts[key].refresh == provided.refresh
              && t.accounts[key].expiresAt == Some(provided.expiresAt)
  {
  }

  /** A fetch leaves the state alone exactly when the callback does not run, its answer
      cannot be written or is transient, or it issues what is stored already. */
  lemma FetchChangesIff(s: State, key: AccountKey, provided: Refreshing, writeOk: bool, now: Time)
    ensures FetchStep(s, key, provided, writeOk, now).0 != s <==>
            && Calls(s, key, now) && writeOk
            && match provided {
                 case Refreshed(access, refresh, at) =>
                   var acc := s.accounts[key];
                   access != acc.access || refresh != acc.refresh || Some(at) != acc.expiresAt
                 case Terminal => true
                 case Transient => false
               }
  {
    if Calls(s, key, now) {
      assert s.accounts[key := AfterRefresh(s.accounts[key], provided, writeOk)][key]
          == AfterRefresh(s.accounts[key], provided, writeOk);
      if AfterRefresh(s.accounts[key], provided, writeOk) == s.accounts[key] {
        assert s.accounts[key := s.accounts[key]] == s.accounts;
      }
    }
  }

  /** A row no act of a run may change: locked, or fresh whenever it is asked for. */
  ghost predicate Rests(acc: Account, key: AccountKey, act: Act) {
    && !Connects(act, key.provider, acc.externalId)
    && (act.Fetch? && act.key == key ==> acc.needsReconnect || Usable(acc, act.now))
  }

  lemma RestingStep(s: State, key: AccountKey, act: Act)
    requires Valid(s) && key in s.accounts && Rests(s.accounts[key], key, act)
    ensures key in Step(s, act).accounts && Step(s, act).accounts[key] == s.accounts[key]
  {
    if act.Connect? && ConnectStep(s, act.account, act.newId, act.now).1.User? {
      ConnectOwns(s, act.account, act.newId, act.now);
      StepKeepsValid(s, act);
    }
  }

  lemma {:induction false} RestingRun(s: State, key: AccountKey, acts: seq<Act>)
    requires Valid(s) && key in s.accounts && forall act :: act in acts ==> Rests(s.accounts[key], key, act)
    ensures key in Run(s, acts).accounts && Run(s, acts).accounts[key] == s.accounts[key]
  {
    if acts != [] {
      var front := acts[..|acts| - 1];
      RestingRun(s, key, front);
      RunKeepsValid(s, front);
      RestingStep(Run(s, front), key, acts[|acts| - 1]);
    }
  }

  /** After a terminal failure whose lock was written, no callback runs for the account
      and every fetch asks for a reconnect, until its identity is connected again. */
  lemma LockedUntilReconnect(s: State, key: AccountKey, now: Time, acts: seq<Act>, later: Time, provided: Refreshing,
                             writeOk: bool)
    requires Valid(s) && Calls(s, key, now)
    requires forall act :: act in acts ==> !Connects(act, key.provider, s.accounts[key].externalId)
    ensures var t := Run(FetchStep(s, key, Terminal, true, now).0, acts);
      !Calls(t, key, later) && FetchStep(t, key, provided, writeOk, later) == (t, NeedsReconnect)
  {
    StepKeepsValid(s, Fetch(key, Terminal, true, now));
    RestingRun(FetchStep(s, key, Terminal, true, now).0, key, acts);
  }

  /** Connecting the identity unlocks the account, stores the new tokens, expiry and scopes,
      and changes nothing else. */
  lemma ReconnectUnlocks(s: State, key: AccountKey, a: ExternalAccount, newId: string, now: Time)
    requires Valid(s) && key in s.accounts && Connects(Connect(a, newId, now), key.provider, s.accounts[key].externalId)
    ensures var (t, u) := ConnectStep(s, a, newId, now);
      && u == User(key.user) && t.users == s.users && t.accounts.Keys == s.accounts.Keys
      && (forall k :: k in s.accounts && k != key ==> t.accounts[k] == s.accounts[k])
      && t.accounts[key] == Account(s.accounts[key].externalId, a.access, a.refresh, Some(a.expiresAt), a.scopes,
                                    false, s.accounts[key].connectedAt)
  {
    HolderIsUnique(s, key);
    assert HolderOf(s.accounts, a.provider, a.externalId) in {key};
  }

  /** A first connect creates the user and an unlocked account with the tokens given. */
  lemma FirstConnect(s: State, a: ExternalAccount, newId: string, now: Time)
    requires a.provider != "" && a.externalId != "" && newId !in s.users
    requires Holders(s.accounts, a.provider, a.externalId) == {}
    ensures var (t, u) := ConnectStep(s, a, newId, now);
      && u == User(newId) && t.users == s.users + {newId}
      && t.accounts == s.accounts[AccountKey(newId, a.provider) :=
                         Account(a.externalId, a.access, a.refresh, Some(a.expiresAt), a.scopes, false, now)]
  {
  }

  /** Once tokens are stored, fetches before the grace window opens return the stored
      token and no callback runs, unless the identity is connected again. */
  lemma QuietWhileFresh(s: State, key: AccountKey, acts: seq<Act>, provided: Refreshing, writeOk: bool, now: Time)
    requires Valid(s) && key in s.accounts && !s.accounts[key].needsReconnect && ExpiresLater(s.accounts[key], now)
    requires forall act :: act in acts ==> !Connects(act, key.provider, s.accounts[key].externalId) && act.now <= now
    ensures var t := Run(s, acts);
      !Calls(t, key, now) && FetchStep(t, key, provided, writeOk, now) == (t, Token(s.accounts[key].access))
  {
    RestingRun(s, key, acts);
  }

  // ── the service ──

  class Service {
    var users: set<string>
    var accounts: Accounts

    ghost function Now(): State
      reads this
    {
      State(users, accounts)
    }

    constructor ()
      ensures Now() == State({}, map[]) && Valid(Now())
    {
      users, accounts := {}, map[];
    }

    /** One transaction: nothing is written unless a user id is returned. */
    method UpsertByExternal(a: ExternalAccount, newId: string, now: Time) returns (user: Connected)
      requires Valid(Now())
      modifies this
      ensures (Now(), user) == ConnectStep(old(Now()), a, newId, now)
      ensures Valid(Now()) && SameIdentities(old(Now()), Now())
    {
      StepKeepsValid(Now(), Connect(a, newId, now));
      if a.provider == "" || a.externalId == "" {
        return Rejected;
      }
      var held := Holders(accounts, a.provider, a.externalId);
      if held == {} {
        if newId in users {
          return Rejected;
        }
        users := users + {newId};
        accounts := accounts[AccountKey(newId, a.provider) := NewAccount(a, now)];
        return User(newId);
      }
      var k :| k in held;
      HolderIsUnique(Now(), k);
      assert HolderOf(accounts, a.provider, a.externalId) in {k};
      accounts := accounts[k := Reconnected(accounts[k], a)];
      user := User(k.user);
    }

    /** called tells whether the refresh callback ran, and with which arguments. */
    method AccessToken(key: AccountKey, provided: Refreshing, writeOk: bool, now: Time)
      returns (token: Token, called: Option<(string, string)>)
      modifies this`accounts
      ensures (Now(), token) == FetchStep(old(Now()), key, provided, writeOk, now)
      ensures called == if old(Calls(Now(), key, now))
           then Some((old(accounts)[key].externalId, old(accounts)[key].refresh)) else None
    {
      called := None;
      if key !in accounts {
        return NoAccount, called;
      }
      var acc := accounts[key];
      if acc.needsReconnect {
        return NeedsReconnect, called;
      }
      if acc.expiresAt.Some? && now + GRACE < acc.expiresAt.value {
        return Token(acc.access), called;
      }
      called := Some((acc.externalId, acc.refresh));
      assert accounts[key := acc] == accounts;
      match provided
      case Terminal =>
        if writeOk {
          accounts := accounts[key := acc.(needsReconnect := true)];
        }
        token := RefreshFailed;
      case Transient =>
        token := RefreshFailed;
      case Refreshed(access, refresh, at) =>
        if !writeOk {
          return NotStored, called;
        }
        accounts := accounts[key := acc.(access := access, refresh := refresh, expiresAt := Some(at))];
        token := Token(access);
    }
  }
}
