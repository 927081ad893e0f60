/** The credential store (internal/provision/provision.go) and the agent's copy of it
    (internal/agent/agent.go, internal/agent/claim.go). */
module Provision {
  import opened Common
  import Throttle

  datatype Credentials = Credentials(
    uid: string, namespace: string, claimStatus: string, username: string, password: string,
    token: string, code: string, codeExpiresAt: string, serial: string, provisionedAt: int)

  /** What the cloud sends when it provisions, and when it reissues a claim code. */
  datatype Grant = Grant(
    uid: string, namespace: string, claimStatus: string, username: string, password: string,
    token: string, code: string, codeExpiresAt: string)

  datatype Code = Code(code: string, expiresAt: string)

  datatype Reply<T> = Accepted(body: T) | Rejected(status: int, errorCode: string) | Unanswered

  datatype Error = NoBaseUrl | NoToken | Refused(status: int, errorCode: string) | NoAnswer | Unusable | NotSaved

  datatype Result = Ok(creds: Credentials) | Err(error: Error)

  datatype Config = Config(baseUrl: string, serial: string)

  predicate IsUsable(c: Credentials) {
    c.uid != "" && c.username != "" && c.password != ""
  }

  // ---- one operation -----------------------------------------------------------------

  /** The token that a request carries: the stored one, if there is one. */
  function TokenOf(file: Option<Credentials>): string {
    if file.None? then "" else file.value.token
  }

  /** The credentials a grant leads to. The cloud resends the token only when it
      issued one, and a claim code only while unclaimed. */
  function Granted(cfg: Config, file: Option<Credentials>, g: Grant, now: int): Credentials {
    var keepsCode := g.code == "" && file.Some? && g.claimStatus != "claimed";
    Credentials(
      g.uid, g.namespace, g.claimStatus, g.username, g.password,
      if g.token == "" && file.Some? then file.value.token else g.token,
      if keepsCode then file.value.code else g.code,
      if keepsCode then file.value.codeExpiresAt else g.codeExpiresAt,
      cfg.serial, now)
  }

  function Recovered(cfg: Config, file: Option<Credentials>, reply: Reply<Grant>, saved: bool, now: int): Result {
    if cfg.baseUrl == "" then Err(NoBaseUrl)
    else match reply
      case Unanswered => Err(NoAnswer)
      case Rejected(status, code) => Err(Refused(status, code))
      case Accepted(grant) =>
        var creds := Granted(cfg, file, grant, now);
        if !IsUsable(creds) then Err(Unusable) else if !saved then Err(NotSaved) else Ok(creds)
  }

  function Reissued(file: Option<Credentials>, reply: Reply<Code>, saved: bool): Result {
    if TokenOf(file) == "" then Err(NoToken)
    else match reply
      case Unanswered => Err(NoAnswer)
      case Rejected(status, code) => Err(Refused(status, code))
      case Accepted(c) =>
        if !saved then Err(NotSaved) else Ok(file.value.(code := c.code, codeExpiresAt := c.expiresAt))
  }

  function Stored(file: Option<Credentials>, r: Result): Option<Credentials> {
    if r.Ok? then Some(r.creds) else file
  }

  // ---- the agent's copy ----------------------------------------------------------------

  /** Copies the secrets and leaves the identity. */
  function Applied(live: Credentials, c: Credentials): Credentials {
    live.(username := c.username, password := c.password, token := c.token, claimStatus := c.claimStatus,
          code := c.code, codeExpiresAt := c.codeExpiresAt)
  }

  ghost predicate SameSecrets(a: Credentials, b: Credentials) {
    && a.username == b.username && a.password == b.password && a.token == b.token
    && a.claimStatus == b.claimStatus && a.code == b.code && a.codeExpiresAt == b.codeExpiresAt
  }

  /** One thing after the other: a recovery, the claim code when it is missing or
      expired, a restart. */
  datatype Op =
    | Recover(reply: Reply<Grant>, saved: bool, now: int)
    | EnsureClaimCode(expired: bool, codeReply: Reply<Code>, saved: bool)
    | Restart

  datatype State = State(file: Option<Credentials>, live: Credentials)

  /** The result of an operation; None if it leaves the credentials alone. */
  function ResultOf(cfg: Config, s: State, op: Op): Option<Result> {
    match op
    case Recover(reply, saved, now) => Some(Recovered(cfg, s.file, reply, saved, now))
    case EnsureClaimCode(expired, reply, saved) =>
      if s.live.code != "" && !expired then None else Some(Reissued(s.file, reply, saved))
    case Restart => None
  }

  function Next(cfg: Config, s: State, op: Op): State {
    var r := ResultOf(cfg, s, op);
    if op.Restart? && s.file.Some? && IsUsable(s.file.value) then s.(live := s.file.value)
    else if r.Some? && r.value.Ok? then State(Some(r.value.creds), Applied(s.live, r.value.creds))
    else s
  }

  function Run(cfg: Config, s: State, ops: seq<Op>): State {
    if ops == [] then s else Next(cfg, Run(cfg, s, ops[..|ops| - 1]), ops[|ops| - 1])
  }

  // ---- properties of whole runs -----------------------------------------------------------

  /** Whether a reply is a grant that the store takes in, by the reply alone. */
  predicate Takes(cfg: Config, op: Op) {
    && op.Recover? && cfg.baseUrl != "" && op.saved && op.reply.Accepted?
    && op.reply.body.uid != "" && op.reply.body.username != "" && op.reply.body.password != ""
  }

  /** The last token that the cloud issued in a grant that was taken in. */
  function LastToken(cfg: Config, first: string, ops: seq<Op>): string {
    if ops == [] then first
    else
      var op := ops[|ops| - 1];
      if Takes(cfg, op) && op.reply.body.token != "" then op.reply.body.token
      else LastToken(cfg, first, ops[..|ops| - 1])
  }

  /** The agent's secrets are those on file, and the file is usable. */
  ghost predicate Agreed(s: State) {
    s.file.Some? && IsUsable(s.file.value) && SameSecrets(s.live, s.file.value)
  }

  /** Over any sequence of replies, failures and restarts: the agent's secrets are
      the ones on file, every file is usable, and the token on file is the last
      one that the cloud issued. */
  lemma {:induction false} StoreAndCopyAgree(cfg: Config, s: State, ops: seq<Op>)
    requires Agreed(s)
    ensures Agreed(Run(cfg, s, ops))
    ensures TokenOf(Run(cfg, s, ops).file) == LastToken(cfg, TokenOf(s.file), ops)
  {
    hide Next, Takes;
    if ops != [] {
      StoreAndCopyAgree(cfg, s, ops[..|ops| - 1]);
      StepKeeps(cfg, Run(cfg, s, ops[..|ops| - 1]), ops[|ops| - 1]);
    }
  }

  lemma StepKeeps(cfg: Config, s: State, op: Op)
    requires Agreed(s)
    ensures Agreed(Next(cfg, s, op))
    ensures TokenOf(Next(cfg, s, op).file) ==
            if Takes(cfg, op) && op.reply.body.token != "" then op.reply.body.token else TokenOf(s.file)
  {
  }

  /** A stored recovery token is never blanked again. */
  lemma TokenNeverBlanked(cfg: Config, s: State, ops: seq<Op>, more: seq<Op>)
    requires Agreed(s) && TokenOf(Run(cfg, s, ops).file) != ""
    ensures TokenOf(Run(cfg, s, ops + more).file) != ""
  {
    hide Run;
    StoreAndCopyAgree(cfg, s, ops);
    StoreAndCopyAgree(cfg, s, ops + more);
    LastTokenStays(cfg, TokenOf(s.file), ops, more);
  }

  lemma {:induction false} LastTokenStays(cfg: Config, first: string, ops: seq<Op>, more: seq<Op>)
    requires LastToken(cfg, first, ops) != ""
    ensures LastToken(cfg, first, ops + more) != ""
    decreases |more|
  {
    if more == [] {
      assert ops + more == ops;
    } else {
      LastTokenStays(cfg, first, ops, more[..|more| - 1]);
      assert (ops + more)[..|ops + more| - 1] == ops + more[..|more| - 1];
    }
  }

  /** An operation that reports an error leaves file and copy as they were. */
  lemma FailureChangesNothing(cfg: Config, s: State, op: Op)
    requires ResultOf(cfg, s, op).Some? && ResultOf(cfg, s, op).value.Err?
    ensures Next(cfg, s, op) == s
  {
  }

  /** The operations of a run that did not report an error. */
  function Succeeded(cfg: Config, s: State, ops: seq<Op>): seq<Op> {
    if ops == [] then []
    else
      var init, op := ops[..|ops| - 1], ops[|ops| - 1];
      var r := ResultOf(cfg, Run(cfg, s, init), op);
      if r.Some? && r.value.Err? then Succeeded(cfg, s, init) else Succeeded(cfg, s, init) + [op]
  }

  /** A run ends as if the operations that failed had never been tried. */
  lemma {:induction false} FailuresErased(cfg: Config, s: State, ops: seq<Op>)
    ensures Run(cfg, s, ops) == Run(cfg, s, Succeeded(cfg, s, ops))
  {
    hide Next, ResultOf;
    if ops != [] {
      var init, op := ops[..|ops| - 1], ops[|ops| - 1];
      var before, kept := Run(cfg, s, init), Succeeded(cfg, s, init);
      FailuresErased(cfg, s, init);
      if ResultOf(cfg, before, op).Some? && ResultOf(cfg, before, op).value.Err? {
        FailureChangesNothing(cfg, before, op);
      } else {
        assert (kept + [op])[..|kept|] == kept;
      }
    }
  }

  /** A grant that is taken in is on file as the cloud sent it, under this unit's
      serial, and its secrets are the agent's. */
  lemma GrantTakenIn(cfg: Config, s: State, op: Op)
    requires Takes(cfg, op)
    ensures var s', g := Next(cfg, s, op), op.reply.body;
      && s'.file.Some?
      && var c := s'.file.value;
      && c.uid == g.uid && c.namespace == g.namespace && c.claimStatus == g.claimStatus
      && c.username == g.username && c.password == g.password && c.serial == cfg.serial
      && c.provisionedAt == op.now
      && SameSecrets(s'.live, c)
      && s'.live.uid == s.live.uid && s'.live.namespace == s.live.namespace && s'.live.serial == s.live.serial
  {
  }

  /** A restart takes everything from the file, the identity included. */
  lemma RestartReloads(cfg: Config, s: State)
    requires Agreed(s)
    ensures Next(cfg, s, Restart) == State(s.file, s.file.value)
  {
  }

  /** A unit that has a claim code keeps one through every recovery that leaves it
      unclaimed, and shows none of the old one once it is claimed. */
  lemma ClaimCodeKept(cfg: Config, s: State, op: Op)
    requires Agreed(s) && op.Recover? && Takes(cfg, op)
    ensures var c := Next(cfg, s, op).live;
      && (op.reply.body.code != "" ==> c.code == op.reply.body.code && c.codeExpiresAt == op.reply.body.codeExpiresAt)
      && (op.reply.body.code == "" && c.claimStatus != "claimed" ==>
            c.code == s.live.code && c.codeExpiresAt == s.live.codeExpiresAt)
      && (op.reply.body.code == "" && c.claimStatus == "claimed" ==>
            c.code == "" && c.codeExpiresAt == op.reply.body.codeExpiresAt)
  {
  }

  /** Reissuing happens exactly when the code is missing or expired and a token is
      stored, and then changes the code and nothing else. */
  lemma OnlyTheCode(cfg: Config, s: State, op: Op)
    requires Agreed(s) && op.EnsureClaimCode? && op.codeReply.Accepted? && op.saved
    ensures var s', c := Next(cfg, s, op), op.codeReply.body;
      if (s.live.code == "" || op.expired) && TokenOf(s.file) != ""
      then s' == State(Some(s.file.value.(code := c.code, codeExpiresAt := c.expiresAt)),
                       s.live.(code := c.code, codeExpiresAt := c.expiresAt))
      else s' == s
  {
  }

  /** The last grant that was taken in. */
  function LastGrant(cfg: Config, ops: seq<Op>): Option<Grant> {
    if ops == [] then None
    else if Takes(cfg, ops[|ops| - 1]) then Some(ops[|ops| - 1].reply.body)
    else LastGrant(cfg, ops[..|ops| - 1])
  }

  /** After any run the file is, field by field, the last grant that was taken in, or
      the first file if none was; claim codes and the token have their own rules. */
  lemma {:induction false} FileIsLastGrant(cfg: Config, s: State, ops: seq<Op>)
    requires Agreed(s)
    ensures var file, last := Run(cfg, s, ops).file, LastGrant(cfg, ops);
      && file.Some?
      && var c := file.value;
      if last.Some? then
        && c.uid == last.value.uid && c.namespace == last.value.namespace && c.claimStatus == last.value.claimStatus
        && c.username == last.value.username && c.password == last.value.password && c.serial == cfg.serial
      else
        c == s.file.value.(code := c.code, codeExpiresAt := c.codeExpiresAt)
  {
    hide Next, Takes;
    if ops != [] {
      var init, op := ops[..|ops| - 1], ops[|ops| - 1];
      FileIsLastGrant(cfg, s, init);
      StoreAndCopyAgree(cfg, s, init);
      if Takes(cfg, op) {
        GrantTakenIn(cfg, Run(cfg, s, init), op);
      } else {
        OnlyGrantsReplace(cfg, Run(cfg, s, init), op);
      }
    }
  }

  lemma OnlyGrantsReplace(cfg: Config, s: State, op: Op)
    requires Agreed(s) && !Takes(cfg, op)
    ensures var file := Next(cfg, s, op).file;
      file.Some? && file.value == s.file.value.(code := file.value.code, codeExpiresAt := file.value.codeExpiresAt)
  {
    if op.EnsureClaimCode? && op.codeReply.Accepted? && op.saved {
      OnlyTheCode(cfg, s, op);
    }
  }

  /** Neither claims the unit nor takes its code away. */
  predicate KeepsCode(cfg: Config, op: Op) {
    && (Takes(cfg, op) ==> op.reply.body.claimStatus != "claimed")
    && (op.EnsureClaimCode? && op.codeReply.Accepted? ==> op.codeReply.body.code != "")
  }

  /** A unit that stays unclaimed and has a claim code has one ever after, as long as
      the cloud does not reissue an empty one. */
  lemma {:induction false} CodeNeverLost(cfg: Config, s: State, ops: seq<Op>)
    requires Agreed(s) && s.live.code != "" && forall k :: 0 <= k < |ops| ==> KeepsCode(cfg, ops[k])
    ensures Run(cfg, s, ops).live.code != ""
  {
    hide Next, Takes;
    if ops != [] {
      var init, op := ops[..|ops| - 1], ops[|ops| - 1];
      var before := Run(cfg, s, init);
      StoreAndCopyAgree(cfg, s, init);
      CodeNeverLost(cfg, s, init);
      assert KeepsCode(cfg, op);
      if Takes(cfg, op) {
        assert op.Recover? by { TakesRecovers(cfg, op); }
        GrantTakenIn(cfg, before, op);
        ClaimCodeKept(cfg, before, op);
      } else {
        CodeStays(cfg, before, op);
      }
    }
  }

  lemma TakesRecovers(cfg: Config, op: Op)
    ensures Takes(cfg, op) ==> op.Recover?
  {
  }

  lemma CodeStays(cfg: Config, s: State, op: Op)
    requires Agreed(s) && s.live.code != "" && !Takes(cfg, op) && KeepsCode(cfg, op)
    ensures Next(cfg, s, op).live.code != ""
  {
  }

  // ---- the client ---------------------------------------------------------------------------

  /** A request: the serial, the token if there is one to send. */
  datatype Request = Request(serial: string, token: Option<string>)

  function Asking(serial: string, file: Option<Credentials>): Request {
    Request(serial, if TokenOf(file) == "" then None else Some(TokenOf(file)))
  }

  /** After any run the cloud is shown the token that it issued last, or the stored one,
      and none only if there never was one. */
  lemma TokenShown(cfg: Config, s: State, ops: seq<Op>)
    requires Agreed(s)
    ensures var sent, last := Asking(cfg.serial, Run(cfg, s, ops).file), LastToken(cfg, s.file.value.token, ops);
      sent.serial == cfg.serial && sent.token == if last == "" then None else Some(last)
  {
    hide Run, LastToken, Agreed;
    assert s.file.Some? by { AgreedHasFile(s); }
    StoreAndCopyAgree(cfg, s, ops);
  }

  lemma AgreedHasFile(s: State)
    ensures Agreed(s) ==> s.file.Some?
  {
  }

  /** Why a recovery fails: nothing to ask, no answer, an answer that refuses, a grant
      that cannot be used, or a file that cannot be written; and otherwise it succeeds. */
  lemma WhyRecoveryFails(cfg: Config, file: Option<Credentials>, reply: Reply<Grant>, saved: bool, now: int)
    ensures var r := Recovered(cfg, file, reply, saved, now);
      && (r == Err(NoBaseUrl) <==> cfg.baseUrl == "")
      && (r == Err(NoAnswer) <==> cfg.baseUrl != "" && reply == Unanswered)
      && (forall status, code :: r == Err(Refused(status, code)) <==>
            cfg.baseUrl != "" && reply == Rejected(status, code))
      && (r.Ok? || r == Err(NotSaved) <==>
            cfg.baseUrl != "" && reply.Accepted?
            && reply.body.uid != "" && reply.body.username != "" && reply.body.password != "")
      && (r.Ok? ==> saved) && (r == Err(NotSaved) ==> !saved)
  {
  }

  const INITIAL_BACKOFF: nat := 2
  const MAX_BACKOFF: nat := 300

  function Pow2(n: nat): nat {
    if n == 0 then 1 else 2 * Pow2(n - 1)
  }

  /** The wait after the n-th failed attempt, counted from zero. */
  function Backoff(n: nat): nat {
    if INITIAL_BACKOFF * Pow2(n) < MAX_BACKOFF then INITIAL_BACKOFF * Pow2(n) else MAX_BACKOFF
  }

  /** What the world answers to one attempt to provision. */
  datatype Attempt = Attempt(reply: Reply<Grant>, saved: bool, now: int)

  class Client {
    const cfg: Config
    var file: Option<Credentials>
    ghost var requests: seq<Request>

    constructor (cfg: Config, file: Option<Credentials>)
      ensures this.cfg == cfg && this.file == file && requests == []
    {
      this.cfg, this.file, requests := cfg, file, [];
    }

    method Save(creds: Credentials, saved: bool) returns (ok: bool)
      modifies `file
      ensures ok == saved && file == if saved then Some(creds) else old(file)
    {
      if saved {
        file := Some(creds);
      }
      return saved;
    }

    /** One attempt to (re)provision. */
    method Recover(reply: Reply<Grant>, saved: bool, now: int) returns (r: Result)
      modifies this
      ensures r == Recovered(cfg, old(file), reply, saved, now) && file == Stored(old(file), r)
      ensures requests == old(requests) + if cfg.baseUrl == "" then [] else [Asking(cfg.serial, old(file))]
      ensures cfg.baseUrl != "" ==>
                && |requests| == |old(requests)| + 1
                && var sent := requests[|old(requests)|];
                && sent.serial == cfg.serial
                && (sent.token.Some? <==> old(file).Some? && old(file).value.token != "")
                && (sent.token.Some? ==> sent.token.value == old(file).value.token)
    {
      if cfg.baseUrl == "" {
        return Err(NoBaseUrl);
      }
      var existing := file;
      var token := None;
      if existing.Some? && existing.value.token != "" {
        token := Some(existing.value.token);
      }
      requests := requests + [Request(cfg.serial, token)];
      match reply {
        case Unanswered => return Err(NoAnswer);
        case Rejected(status, code) => return Err(Refused(status, code));
        case Accepted(g) =>
          var creds := Credentials(g.uid, g.namespace, g.claimStatus, g.username, g.password, g.token, g.code,
                                   g.codeExpiresAt, cfg.serial, now);
          if creds.token == "" && existing.Some? {
            creds := creds.(token := existing.value.token);
          }
          if creds.code == "" && existing.Some? && creds.claimStatus != "claimed" {
            creds := creds.(code := existing.value.code, codeExpiresAt := existing.value.codeExpiresAt);
          }
          if !IsUsable(creds) {
            return Err(Unusable);
          }
          var ok := Save(creds, saved);
          if !ok {
            return Err(NotSaved);
          }
          return Ok(creds);
      }
    }

    method ReissueClaimCode(reply: Reply<Code>, saved: bool) returns (r: Result)
      modifies this
      ensures r == Reissued(old(file), reply, saved) && file == Stored(old(file), r)
      ensures requests == old(requests) +
              if TokenOf(old(file)) == "" then [] else [Request(old(file).value.serial, Some(TokenOf(old(file))))]
    {
      if file.None? || file.value.token == "" {
        return Err(NoToken);
      }
      var existing := file.value;
      requests := requests + [Request(existing.serial, Some(existing.token))];
      match reply {
        case Unanswered => return Err(NoAnswer);
        case Rejected(status, code) => return Err(Refused(status, code));
        case Accepted(c) =>
          existing := existing.(code := c.code, codeExpiresAt := c.expiresAt);
          var ok := Save(existing, saved);
          if !ok {
            return Err(NotSaved);
          }
          return Ok(existing);
      }
    }

    /** Retries with a growing wait until an attempt succeeds; running out of
        attempts stands for the context being cancelled. */
    method ProvisionWithRetry(attempts: seq<Attempt>) returns (r: Option<Credentials>, waits: seq<nat>)
      modifies this
      ensures forall k :: 0 <= k < |waits| ==> waits[k] == Backoff(k)
      ensures forall k :: 0 <= k < |waits| ==> k < |attempts| && Outcome(cfg, old(file), attempts[k]).Err?
      ensures r.None? ==> |waits| == |attempts| && file == old(file)
      ensures r.Some? ==> |waits| < |attempts| && file == r
                          && Outcome(cfg, old(file), attempts[|waits|]) == Ok(r.value)
    {
      hide Recovered, Asking, Pow2;
      var backoff := INITIAL_BACKOFF;
      waits := [];
      FirstBackoff();
      for n := 0 to |attempts|
        invariant |waits| == n && file == old(file) && backoff == Backoff(n)
        invariant forall k :: 0 <= k < n ==> waits[k] == Backoff(k) && Outcome(cfg, old(file), attempts[k]).Err?
      {
        var result := Recover(attempts[n].reply, attempts[n].saved, attempts[n].now);
        if result.Ok? {
          return Some(result.creds), waits;
        }
        waits := waits + [backoff];
        BackoffDoubles(n);
        if backoff < MAX_BACKOFF {
          backoff := backoff * 2;
          if backoff > MAX_BACKOFF {
            backoff := MAX_BACKOFF;
          }
        }
      }
      return None, waits;
    }

    /** The stored credentials if they are usable, without asking anyone. */
    method EnsureProvisioned(attempts: seq<Attempt>) returns (r: Option<Credentials>)
      modifies this
      ensures old(file).Some? && IsUsable(old(file).value) ==> r == old(file) == file && requests == old(requests)
      ensures r.Some? ==> r == file && IsUsable(r.value)
      ensures r.None? ==> file == old(file) && forall k :: 0 <= k < |attempts| ==> Outcome(cfg, file, attempts[k]).Err?
    {
      if file.Some? && IsUsable(file.value) {
        return file;
      }
      var waits;
      r, waits := ProvisionWithRetry(attempts);
    }
  }

  function Outcome(cfg: Config, file: Option<Credentials>, a: Attempt): Result {
    Recovered(cfg, file, a.reply, a.saved, a.now)
  }

  lemma FirstBackoff()
    ensures Backoff(0) == INITIAL_BACKOFF
  {
  }

  lemma BackoffDoubles(n: nat)
    ensures Backoff(n + 1) == if 2 * Backoff(n) < MAX_BACKOFF then 2 * Backoff(n) else MAX_BACKOFF
    ensures Backoff(n) <= MAX_BACKOFF
  {
  }

  /** Two seconds, four, and so on up to 256, and five minutes from then on. */
  lemma BackoffTimes(n: nat)
    ensures n < 8 ==> Backoff(n) == [2, 4, 8, 16, 32, 64, 128, 256][n]
    ensures n >= 8 ==> Backoff(n) == 300
  {
    assert Pow2(0) == 1 && Pow2(1) == 2 && Pow2(2) == 4 && Pow2(3) == 8;
    assert Pow2(4) == 16 && Pow2(5) == 32 && Pow2(6) == 64 && Pow2(7) == 128;
    if n >= 8 {
      PowGrows(n);
    }
  }

  lemma {:induction false} PowGrows(n: nat)
    requires n >= 8
    ensures Pow2(n) >= 256
  {
    if n > 8 {
      PowGrows(n - 1);
    } else {
      assert Pow2(4) == 16 && Pow2(6) == 64 && Pow2(7) == 128;
    }
  }

  // ---- the agent ---------------------------------------------------------------------------------

  /** The agent's part: its own copy of the credentials, refreshed after a success,
      and the cool-down between recoveries. */
  class Agent {
    const prov: Client
    const cooldown: Throttle.Recovery
    var creds: Credentials

    ghost function Now(): State reads this, prov {
      State(prov.file, creds)
    }

    constructor (prov: Client, cooldown: Throttle.Recovery, creds: Credentials)
      ensures this.prov == prov && this.cooldown == cooldown && this.creds == creds
    {
      this.prov, this.cooldown, this.creds := prov, cooldown, creds;
    }

    method ApplyRecoveredCredentials(c: Credentials)
      modifies `creds
      ensures creds == Applied(old(creds), c)
    {
      creds := creds.(username := c.username, password := c.password);
      creds := creds.(token := c.token, claimStatus := c.claimStatus);
      creds := creds.(code := c.code, codeExpiresAt := c.codeExpiresAt);
    }

    /** Whether the credentials were refreshed. The cloud is asked only if the wait
        for the cool-down is not cancelled. */
    method RecoverCredentials(q: Throttle.Request, reply: Reply<Grant>, saved: bool) returns (ok: bool)
      modifies this, prov, cooldown
      ensures var goes := Throttle.Goes(old(cooldown.lastRecover), q);
        && cooldown.lastRecover == (if goes then Some(q.woken) else old(cooldown.lastRecover))
        && cooldown.attempts == old(cooldown.attempts) + (if goes then [q.woken] else [])
        && Now() == (if goes then Next(prov.cfg, old(Now()), Op.Recover(reply, saved, q.woken)) else old(Now()))
        && ok == (goes && Recovered(prov.cfg, old(prov.file), reply, saved, q.woken).Ok?)
        && (!goes ==> prov.requests == old(prov.requests))
    {
      var attempted := cooldown.RecoverCredentials(q);
      if !attempted {
        return false;
      }
      var r := prov.Recover(reply, saved, q.woken);
      if r.Err? {
        return false;
      }
      ApplyRecoveredCredentials(r.creds);
      return true;
    }

    method EnsureClaimCode(expired: bool, reply: Reply<Code>, saved: bool)
      modifies this, prov
      ensures Now() == Next(prov.cfg, old(Now()), Op.EnsureClaimCode(expired, reply, saved))
    {
      if creds.code != "" && !expired {
        return;
      }
      var r := prov.ReissueClaimCode(reply, saved);
      if r.Ok? {
        ApplyRecoveredCredentials(r.creds);
      }
    }
  }
}
