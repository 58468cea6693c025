/** The context's operations run one after another, each to completion, and
    what holds of the state after any such sequence. */
module SessionTraces {
  import opened Outcomes
  import opened Session

  /** One operation of the context, together with the outcome its network call would have. */
  datatype Op =
    | RestoreOp(fetch: Result<MeBody>)
    | SignInOp(credentials: Credentials, exchange: Result<SessionsBody>)
    | SignOutOp

  function Step(s: State, op: Op): State
  {
    match op
    case RestoreOp(fetch) => Restored(s, fetch)
    case SignInOp(credentials, exchange) => SignedIn(s, credentials, exchange)
    case SignOutOp => SignedOut(s)
  }

  /** The state after running `ops` from `s`, first operation first. */
  function Run(s: State, ops: seq<Op>): State
    decreases |ops|
  {
    if ops == [] then s else Step(Run(s, ops[..|ops| - 1]), ops[|ops| - 1])
  }

  /** `op`, run in state `s`, calls `setUser`. */
  predicate SetsUser(s: State, op: Op)
  {
    match op
    case RestoreOp(fetch) => fetch.Ok? && HasToken(s)
    case SignInOp(_, exchange) => exchange.Ok?
    case SignOutOp => false
  }

  /** The identity an operation that calls `setUser` passes to it. */
  function UserSetBy(op: Op): User
    requires (op.RestoreOp? && op.fetch.Ok?) || (op.SignInOp? && op.exchange.Ok?)
  {
    if op.RestoreOp? then UserFromMe(op.fetch.value)
    else User(op.credentials.email, op.exchange.value.permissions, op.exchange.value.roles)
  }

  /** The token pair as the context writes it: both cookies or neither, each
      with a thirty-day lifetime on the root path. */
  predicate TokenPairWritten(c: map<string, Cookie>)
  {
    && (TokenKey in c <==> RefreshTokenKey in c)
    && (TokenKey in c ==> c[TokenKey].maxAge == 2592000 && c[TokenKey].path == "/")
    && (RefreshTokenKey in c ==> c[RefreshTokenKey].maxAge == 2592000 && c[RefreshTokenKey].path == "/")
  }

  /** One operation sets `user` to what it passes to `setUser`, and otherwise leaves it. */
  lemma StepUser(s: State, op: Op)
    ensures SetsUser(s, op) ==> Step(s, op).user == Some(UserSetBy(op))
    ensures !SetsUser(s, op) ==> Step(s, op).user == s.user
  {
  }

  /** The prefix of a prefix, as `Run` takes them apart. */
  lemma PrefixOfPrefix(ops: seq<Op>, i: nat)
    requires i < |ops|
    ensures ops[..|ops| - 1][..i] == ops[..i]
  {
  }

  /** No operation ever clears `user`: sign-out does not call `setUser`, so a
      provider that was authenticated once stays authenticated. */
  lemma {:induction false} UserNeverCleared(s: State, ops: seq<Op>)
    requires s.user.Some?
    ensures Run(s, ops).user.Some?
    decreases |ops|
  {
    if ops != [] {
      UserNeverCleared(s, ops[..|ops| - 1]);
      StepUser(Run(s, ops[..|ops| - 1]), ops[|ops| - 1]);
    }
  }

  /** A provider that starts without a user is authenticated after `ops`
      exactly when one of them actually called `setUser`. */
  lemma {:induction false} AuthenticatedIffUserSet(s: State, ops: seq<Op>)
    requires s.user == None
    ensures IsAuthenticated(Run(s, ops)) <==>
              exists i :: 0 <= i < |ops| && SetsUser(Run(s, ops[..i]), ops[i])
    decreases |ops|
  {
    if ops != [] {
      var n := |ops| - 1;
      var front := ops[..n];
      AuthenticatedIffUserSet(s, front);
      StepUser(Run(s, front), ops[n]);
      assert ops[..n] == front;
      if IsAuthenticated(Run(s, ops)) {
        if !SetsUser(Run(s, front), ops[n]) {
          var i :| 0 <= i < |front| && SetsUser(Run(s, front[..i]), front[i]);
          PrefixOfPrefix(ops, i);
          assert SetsUser(Run(s, ops[..i]), ops[i]);
        }
      } else {
        forall i | 0 <= i < |ops| ensures !SetsUser(Run(s, ops[..i]), ops[i]) {
          if i < n {
            PrefixOfPrefix(ops, i);
            assert front[..i] == ops[..i] && front[i] == ops[i];
          }
        }
      }
    }
  }

  /** The user after `ops` is the one passed to `setUser` by the last
      operation that called it. */
  lemma {:induction false} UserIsLastSet(s: State, ops: seq<Op>, i: nat)
    requires i < |ops| && SetsUser(Run(s, ops[..i]), ops[i])
    requires forall j :: i < j < |ops| ==> !SetsUser(Run(s, ops[..j]), ops[j])
    ensures Run(s, ops).user == Some(UserSetBy(ops[i]))
    decreases |ops|
  {
    var n := |ops| - 1;
    var front := ops[..n];
    StepUser(Run(s, front), ops[n]);
    if i < n {
      PrefixOfPrefix(ops, i);
      forall j | i < j < |front| ensures !SetsUser(Run(s, front[..j]), front[j]) {
        PrefixOfPrefix(ops, j);
        assert !SetsUser(Run(s, ops[..j]), ops[j]);
      }
      UserIsLastSet(s, front, i);
    }
  }

  /** Every sequence of operations keeps the token pair as the context writes it. */
  lemma {:induction false} TokenPairStaysWritten(s: State, ops: seq<Op>)
    requires TokenPairWritten(s.cookies)
    ensures TokenPairWritten(Run(s, ops).cookies)
    decreases |ops|
  {
    if ops != [] {
      TokenPairStaysWritten(s, ops[..|ops| - 1]);
    }
  }

  /** A cookie under any other key is never written or destroyed. */
  lemma {:induction false} OtherCookiesUntouched(s: State, ops: seq<Op>, k: string)
    requires !IsTokenKey(k)
    ensures SameCookie(Run(s, ops).cookies, s.cookies, k)
    decreases |ops|
  {
    if ops != [] {
      OtherCookiesUntouched(s, ops[..|ops| - 1], k);
    }
  }

  /** Routes are only ever appended, at most one per operation, and the only
      routes pushed are "/" and "/dashboard". */
  lemma {:induction false} RedirectsOnlyToKnownRoutes(s: State, ops: seq<Op>)
    ensures var r := Run(s, ops).redirects;
            && s.redirects <= r
            && |r| <= |s.redirects| + |ops|
            && forall i :: |s.redirects| <= i < |r| ==> r[i] == "/" || r[i] == "/dashboard"
    decreases |ops|
  {
    if ops != [] {
      RedirectsOnlyToKnownRoutes(s, ops[..|ops| - 1]);
    }
  }
}
