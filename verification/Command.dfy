/** One-shot commands (internal/agent/agent.go) behind the guard against doing one
    twice (internal/agent/dedupe.go). */
module Command {
  import opened Common
  import opened Translate
  import Buffer
  import Pairing

  // ---- the guard ---------------------------------------------------------------------

  /** The ids let through, in order, after one more id turned up: a new one is let
      through unless it is among the last `limit` that were. */
  function Admit(admitted: seq<string>, limit: nat, id: string): seq<string> {
    if id in Buffer.Last(admitted, limit) then admitted else admitted + [id]
  }

  function AdmitAll(limit: nat, ids: seq<string>): seq<string> {
    if ids == [] then [] else Admit(AdmitAll(limit, ids[..|ids| - 1]), limit, ids[|ids| - 1])
  }

  ghost predicate Apart(admitted: seq<string>, limit: nat) {
    forall i, j :: 0 <= i < j < |admitted| && j - i <= limit ==> admitted[i] != admitted[j]
  }

  lemma AdmitKeepsApart(admitted: seq<string>, limit: nat, id: string)
    requires Apart(admitted, limit)
    ensures Apart(Admit(admitted, limit, id), limit)
  {
    if id !in Buffer.Last(admitted, limit) {
      forall i | 0 <= i < |admitted| && |admitted| - i <= limit ensures admitted[i] != id {
        var last := Buffer.Last(admitted, limit);
        assert admitted[i] == last[i - (|admitted| - |last|)];
      }
    }
  }

  lemma {:induction false} AdmitAllApart(limit: nat, ids: seq<string>)
    ensures Apart(AdmitAll(limit, ids), limit) && forall id :: id in ids <==> id in AdmitAll(limit, ids)
  {
    if ids != [] {
      assert ids == ids[..|ids| - 1] + [ids[|ids| - 1]];
      AdmitAllApart(limit, ids[..|ids| - 1]);
      AdmitKeepsApart(AdmitAll(limit, ids[..|ids| - 1]), limit, ids[|ids| - 1]);
    }
  }

  /** Every id is let through at some time; and between two times that one is, at least
      `limit` other ids are, and no two of those that follow the first are the same. */
  lemma RepeatsFarApart(limit: nat, ids: seq<string>, i: nat, j: nat)
    requires i < j < |AdmitAll(limit, ids)| && AdmitAll(limit, ids)[i] == AdmitAll(limit, ids)[j]
    ensures var admitted := AdmitAll(limit, ids);
      && (forall id :: id in ids <==> id in admitted)
      && i + 1 + limit <= j
      && var between := admitted[i + 1..i + 1 + limit];
      admitted[i] !in between && forall m, n :: 0 <= m < n < limit ==> between[m] != between[n]
  {
    AdmitAllApart(limit, ids);
  }

  lemma AmongLast(admitted: seq<string>, limit: nat, id: string)
    ensures id !in Buffer.Last(admitted, limit) <==>
            forall i :: 0 <= i < |admitted| && |admitted| - i <= limit ==> admitted[i] != id
  {
    var last := Buffer.Last(admitted, limit);
    assert forall j :: 0 <= j < |last| ==> last[j] == admitted[|admitted| - |last| + j];
    assert forall i :: 0 <= i < |admitted| && |admitted| - i <= limit ==>
      admitted[i] == last[i - (|admitted| - |last|)];
  }

  class CmdDedupe {
    var seen: set<string>
    var order: seq<string>
    const limit: nat
    ghost var admitted: seq<string>

    ghost predicate Valid() reads this {
      && limit >= 1
      && order == Buffer.Last(admitted, limit)
      && (forall id :: id in seen <==> id in order)
      && Apart(admitted, limit)
    }

    constructor (limit: nat)
      requires limit >= 1
      ensures Valid() && this.limit == limit && admitted == []
    {
      this.limit := limit;
      seen, order, admitted := {}, [], [];
    }

    method FirstSee(id: string) returns (first: bool)
      requires Valid()
      modifies this
      ensures Valid() && admitted == Admit(old(admitted), limit, id)
      ensures first <==> forall i :: 0 <= i < |old(admitted)| && |old(admitted)| - i <= limit ==> old(admitted)[i] != id
      ensures admitted == if first then old(admitted) + [id] else old(admitted)
    {
      hide Buffer.Last, Apart;
      AdmitKeepsApart(admitted, limit, id);
      AmongLast(admitted, limit, id);
      if id in seen {
        return false;
      }
      ghost var before := order;
      if |order| >= limit {
        var oldest := order[0];
        DistinctOrder(admitted, limit);
        order := order[1..];
        seen := seen - {oldest};
      }
      seen := seen + {id};
      order := order + [id];
      Buffer.LastPushed(limit, admitted, id);
      admitted := admitted + [id];
      return true;
    }
  }

  lemma DistinctOrder(admitted: seq<string>, limit: nat)
    requires Apart(admitted, limit)
    ensures var order := Buffer.Last(admitted, limit); forall m, n :: 0 <= m < n < |order| ==> order[m] != order[n]
  {
    var order := Buffer.Last(admitted, limit);
    forall m, n | 0 <= m < n < |order| ensures order[m] != order[n] {
      var from := |admitted| - |order|;
      assert order[m] == admitted[from + m] && order[n] == admitted[from + n];
    }
  }

  // ---- actions ----------------------------------------------------------------------------

  /** The place of the first dot, or the length if there is none. */
  function FirstDot(action: string): (r: nat)
    ensures r <= |action| && '.' !in action[..r] && (r < |action| ==> action[r] == '.')
  {
    if action == "" || action[0] == '.' then 0
    else
      var r := FirstDot(action[1..]);
      assert action[..r + 1] == [action[0]] + action[1..][..r];
      r + 1
  }

  /** Domain and service, divided at the first dot; the service may contain more. */
  function Split(action: string): Option<(string, string)> {
    var dot := FirstDot(action);
    if dot == 0 || dot >= |action| - 1 then None else Some((action[..dot], action[dot + 1..]))
  }

  /** An action divides into exactly the non-empty domain without a dot and the
      non-empty service that a dot joins back into it. */
  lemma SplitExactly(action: string, domain: string, service: string)
    ensures Split(action) == Some((domain, service)) <==>
            action == domain + "." + service && domain != "" && service != "" && '.' !in domain
  {
    if action == domain + "." + service && domain != "" && service != "" && '.' !in domain {
      assert action[..|domain|] == domain && action[|domain| + 1..] == service;
      DotIsFirst(action, |domain|);
    }
    if Split(action) == Some((domain, service)) {
      var dot := FirstDot(action);
      assert action == action[..dot] + [action[dot]] + action[dot + 1..];
    }
  }

  method SplitAction(action: string) returns (r: Option<(string, string)>)
    ensures r == Split(action)
  {
    for i := 0 to |action|
      invariant '.' !in action[..i]
    {
      assert action[..i + 1] == action[..i] + [action[i]];
      if action[i] == '.' {
        DotIsFirst(action, i);
        if i == 0 || i == |action| - 1 {
          return None;
        }
        return Some((action[..i], action[i + 1..]));
      }
    }
    assert action[..|action|] == action;
    assert FirstDot(action) == |action|;
    return None;
  }

  lemma {:induction false} DotIsFirst(action: string, i: nat)
    requires i < |action| && action[i] == '.' && '.' !in action[..i]
    ensures FirstDot(action) == i
    decreases i
  {
    if i > 0 {
      assert action[..i][0] == action[0];
      assert action[1..][..i - 1] == action[..i][1..];
      DotIsFirst(action[1..], i - 1);
    }
  }

  // ---- handling a command -------------------------------------------------------------------

  /** `issued` is None if the time stamp cannot be read. */
  datatype Cmd = Cmd(id: string, action: string, device: string, params: Fields, ttl: int, issued: Option<int>)

  predicate Expired(cmd: Cmd, now: int) {
    cmd.ttl > 0 && cmd.issued.Some? && now > cmd.issued.value + cmd.ttl
  }

  datatype Status = Acked | AckFailed

  datatype Effect =
    | Call(call: ServiceCall, ok: bool)
    | Ack(id: string, status: Status)
    | PairingStart(session: string, seconds: int, result: Pairing.StartResult)
    | PairingStop(session: string)
    | PairingFailed(session: string)

  /** What Home Assistant and the pairing backend answer, if they are asked. */
  datatype Answers = Answers(ok: bool, start: Pairing.StartResult)

  datatype Env = Env(emap: map<string, string>, pairing: bool)

  predicate IsPairing(action: string) {
    "pairing." <= action
  }

  function Session(params: Fields): string {
    if "session_id" in params && params["session_id"].Text? then params["session_id"].text else ""
  }

  /** Two minutes unless a positive number of seconds is given. */
  function Seconds(params: Fields): int {
    if "duration_sec" in params && params["duration_sec"].Number? && params["duration_sec"].number > 0.0
    then params["duration_sec"].number.Floor else 120
  }

  function PairingEffects(cmd: Cmd, env: Env, a: Answers): seq<Effect> {
    var session := Session(cmd.params);
    if session == "" then [Ack(cmd.id, AckFailed)]
    else if !env.pairing then [PairingFailed(session), Ack(cmd.id, AckFailed)]
    else if cmd.action == "pairing.start" then
      [PairingStart(session, Seconds(cmd.params), a.start)]
      + if a.start.Opened? then [Ack(cmd.id, Acked)] else [PairingFailed(session), Ack(cmd.id, AckFailed)]
    else if cmd.action == "pairing.stop" then [PairingStop(session), Ack(cmd.id, Acked)]
    else [Ack(cmd.id, AckFailed)]
  }

  /** What a command that is let through and has not expired leads to. */
  function Effects(cmd: Cmd, env: Env, a: Answers): seq<Effect> {
    if IsPairing(cmd.action) then PairingEffects(cmd, env, a)
    else
      var entity, split := Lookup(env.emap, cmd.device), Split(cmd.action);
      if entity == "" || split.None? then [Ack(cmd.id, AckFailed)]
      else [Call(ServiceCall(split.value.0, split.value.1, Base(entity) + cmd.params), a.ok),
            Ack(cmd.id, if a.ok then Acked else AckFailed)]
  }

  /** Messages as they arrive, each with the time, the surroundings and the answers;
      None stands for one that does not decode. */
  datatype Message = Message(cmd: Option<Cmd>, now: int, env: Env, answers: Answers)

  predicate Seen(m: Message) {
    m.cmd.Some? && m.cmd.value.id != ""
  }

  /** A message is due an ack if its command is let through and has not expired. */
  predicate Due(admitted: seq<string>, limit: nat, m: Message) {
    Seen(m) && m.cmd.value.id !in Buffer.Last(admitted, limit) && !Expired(m.cmd.value, m.now)
  }

  function MessageEffects(admitted: seq<string>, limit: nat, m: Message): seq<Effect> {
    if Due(admitted, limit, m) then Effects(m.cmd.value, m.env, m.answers) else []
  }

  datatype State = State(admitted: seq<string>, log: seq<Effect>)

  function Next(s: State, limit: nat, m: Message): State {
    State(if Seen(m) then Admit(s.admitted, limit, m.cmd.value.id) else s.admitted,
          s.log + MessageEffects(s.admitted, limit, m))
  }

  function Run(limit: nat, ms: seq<Message>): State {
    if ms == [] then State([], []) else Next(Run(limit, ms[..|ms| - 1]), limit, ms[|ms| - 1])
  }

  // ---- one ack for each command --------------------------------------------------------------

  function AckedIds(log: seq<Effect>): seq<string> {
    if log == [] then []
    else AckedIds(log[..|log| - 1]) + if log[|log| - 1].Ack? then [log[|log| - 1].id] else []
  }

  /** The ids of the commands that are due an ack, in order. */
  function DueIds(limit: nat, ms: seq<Message>): seq<string> {
    if ms == [] then []
    else DueIds(limit, ms[..|ms| - 1])
         + if Due(Run(limit, ms[..|ms| - 1]).admitted, limit, ms[|ms| - 1]) then [ms[|ms| - 1].cmd.value.id] else []
  }

  lemma {:induction false} AckedAppend(log: seq<Effect>, more: seq<Effect>)
    ensures AckedIds(log + more) == AckedIds(log) + AckedIds(more)
    decreases |more|
  {
    if more == [] {
      assert log + more == log;
    } else {
      AckedAppend(log, more[..|more| - 1]);
      assert (log + more)[..|log + more| - 1] == log + more[..|more| - 1];
    }
  }

  /** Every path of a command ends in exactly one ack, its last effect, and says
      `acked` exactly if something was done and worked. */
  lemma OneAckLast(cmd: Cmd, env: Env, a: Answers)
    ensures var effects := Effects(cmd, env, a);
      && AckedIds(effects) == [cmd.id]
      && effects[|effects| - 1] == Ack(cmd.id, if Worked(effects[0]) then Acked else AckFailed)
      && (forall k :: 1 <= k < |effects| ==> !effects[k].Call? && !effects[k].PairingStart? && !effects[k].PairingStop?)
  {
    hide Split, Lookup, Session, Seconds, IsPairing, AckedIds;
    var effects := Effects(cmd, env, a);
    OnlyLastAcks(effects);
  }

  /** An effect that is something done, and worked. */
  predicate Worked(e: Effect) {
    match e
    case Call(_, ok) => ok
    case PairingStart(_, _, result) => result.Opened?
    case PairingStop(_) => true
    case _ => false
  }

  lemma {:induction false} OnlyLastAcks(log: seq<Effect>)
    requires forall k :: 0 <= k < |log| - 1 ==> !log[k].Ack?
    ensures AckedIds(log) == if log != [] && log[|log| - 1].Ack? then [log[|log| - 1].id] else []
  {
    if log != [] {
      OnlyLastAcks(log[..|log| - 1]);
    }
  }

  /** Over every run of messages, the acks issued are exactly one for each command
      that is let through unexpired, pairing commands included, in order; repeats,
      expired ones, ones without an id and undecodable ones get none. */
  lemma {:induction false} OneAckEach(limit: nat, ms: seq<Message>)
    ensures AckedIds(Run(limit, ms).log) == DueIds(limit, ms)
  {
    hide Effects, Due, AckedIds, Admit;
    if ms == [] {
      NothingAcked();
    } else {
      var init, m := ms[..|ms| - 1], ms[|ms| - 1];
      var s := Run(limit, init);
      OneAckEach(limit, init);
      AckedAppend(s.log, MessageEffects(s.admitted, limit, m));
      if Due(s.admitted, limit, m) {
        assert m.cmd.Some? by { DueIsSeen(s.admitted, limit, m); }
        OneAckLast(m.cmd.value, m.env, m.answers);
      } else {
        NothingAcked();
      }
    }
  }

  lemma DueIsSeen(admitted: seq<string>, limit: nat, m: Message)
    ensures Due(admitted, limit, m) ==> Seen(m)
  {
  }

  lemma NothingAcked()
    ensures AckedIds([]) == []
  {
  }

  function Ids(ms: seq<Message>): seq<string> {
    if ms == [] then []
    else Ids(ms[..|ms| - 1]) + if Seen(ms[|ms| - 1]) then [ms[|ms| - 1].cmd.value.id] else []
  }

  /** Which ids are let through depends on the ids alone, so the distance between
      repeats holds of the handler's runs; expired commands count as seen. */
  lemma {:induction false} AdmittedById(limit: nat, ms: seq<Message>)
    ensures Run(limit, ms).admitted == AdmitAll(limit, Ids(ms))
  {
    hide Admit, MessageEffects;
    if ms != [] {
      var m := ms[|ms| - 1];
      AdmittedById(limit, ms[..|ms| - 1]);
      var before := Ids(ms[..|ms| - 1]);
      if Seen(m) {
        assert Ids(ms) == before + [m.cmd.value.id] && Ids(ms)[..|before|] == before;
      } else {
        assert Ids(ms) == before;
      }
    }
  }

  // ---- repeats -----------------------------------------------------------------------------

  /** Told by the messages alone: a message is let through unless its id was before,
      with fewer than `limit` others let through in between. */
  predicate LetThrough(limit: nat, ms: seq<Message>, k: nat)
    requires k < |ms|
    decreases k, 1
  {
    Seen(ms[k]) && forall i: nat :: i < k && SameId(ms, i, k) && LetThrough(limit, ms, i) ==>
                     LetBetween(limit, ms, i, k) >= limit
  }

  predicate SameId(ms: seq<Message>, i: nat, k: nat)
    requires i < |ms| && k < |ms|
  {
    Seen(ms[i]) && Seen(ms[k]) && ms[i].cmd.value.id == ms[k].cmd.value.id
  }

  /** How many messages after i and before k are let through. */
  function LetBetween(limit: nat, ms: seq<Message>, i: nat, k: nat): nat
    requires k <= |ms|
    decreases k, 0
  {
    if k <= i + 1 then 0 else LetBetween(limit, ms, i, k - 1) + if LetThrough(limit, ms, k - 1) then 1 else 0
  }

  /** Whether a message with this id was let through before k, with fewer than n others
      since. */
  ghost predicate Lately(limit: nat, ms: seq<Message>, k: nat, n: nat, id: string)
    requires k <= |ms|
  {
    exists i: nat :: i < k && Seen(ms[i]) && ms[i].cmd.value.id == id && LetThrough(limit, ms, i)
                     && LetBetween(limit, ms, i, k) < n
  }

  /** The guard's memory is the messages that were lately let through. */
  lemma {:induction false} MemoryIsLately(limit: nat, ms: seq<Message>, k: nat, n: nat, id: string)
    requires k <= |ms|
    ensures id in Buffer.Last(Run(limit, ms[..k]).admitted, n) <==> Lately(limit, ms, k, n, id)
    decreases k, 0
  {
    hide MessageEffects, Buffer.Last, LetThrough, Lately;
    if k == 0 {
      assert Run(limit, ms[..0]).admitted == [];
      InLast([], n, id);
      NoneLately(limit, ms, n, id);
    } else {
      var before := Run(limit, ms[..k - 1]).admitted;
      assert ms[..k][..k - 1] == ms[..k - 1] && ms[..k][k - 1] == ms[k - 1];
      PassedIsLetThrough(limit, ms, k - 1);
      MemoryIsLately(limit, ms, k - 1, n, id);
      if LetThrough(limit, ms, k - 1) {
        if n > 0 {
          MemoryIsLately(limit, ms, k - 1, n - 1, id);
          LastOneMore(before, ms[k - 1].cmd.value.id, n, id);
        } else {
          InLast(before + [ms[k - 1].cmd.value.id], n, id);
        }
      }
      LatelyOneMore(limit, ms, k - 1, n, id);
    }
  }

  lemma NoneLately(limit: nat, ms: seq<Message>, n: nat, id: string)
    ensures !Lately(limit, ms, 0, n, id)
  {
  }

  lemma InLast(s: seq<string>, n: nat, id: string)
    ensures s == [] || n == 0 ==> id !in Buffer.Last(s, n)
  {
  }

  lemma LastOneMore(s: seq<string>, x: string, n: nat, id: string)
    requires n > 0
    ensures id in Buffer.Last(s + [x], n) <==> id == x || id in Buffer.Last(s, n - 1)
  {
    assert Buffer.Last(s + [x], n) == Buffer.Last(s, n - 1) + [x];
  }

  lemma LatelyOneMore(limit: nat, ms: seq<Message>, k: nat, n: nat, id: string)
    requires k < |ms|
    ensures LetThrough(limit, ms, k) ==>
              (Lately(limit, ms, k + 1, n, id) <==>
                n > 0 && (ms[k].cmd.value.id == id || Lately(limit, ms, k, n - 1, id)))
    ensures !LetThrough(limit, ms, k) ==> (Lately(limit, ms, k + 1, n, id) <==> Lately(limit, ms, k, n, id))
  {
    hide LetThrough;
    assert forall i: nat :: i < k ==>
      LetBetween(limit, ms, i, k + 1) == LetBetween(limit, ms, i, k) + if LetThrough(limit, ms, k) then 1 else 0;
    assert LetBetween(limit, ms, k, k + 1) == 0;
    assert LetThrough(limit, ms, k) ==> Seen(ms[k]) by { LetThroughSeen(limit, ms, k); }
  }

  lemma LetThroughSeen(limit: nat, ms: seq<Message>, k: nat)
    requires k < |ms|
    ensures LetThrough(limit, ms, k) ==> Seen(ms[k])
  {
  }

  /** What the guard lets through is what the messages alone tell. */
  lemma {:induction false} PassedIsLetThrough(limit: nat, ms: seq<Message>, k: nat)
    requires k < |ms|
    ensures LetThrough(limit, ms, k) <==>
            Seen(ms[k]) && ms[k].cmd.value.id !in Buffer.Last(Run(limit, ms[..k]).admitted, limit)
    decreases k, 1
  {
    hide MessageEffects, Buffer.Last, Run;
    if Seen(ms[k]) {
      MemoryIsLately(limit, ms, k, limit, ms[k].cmd.value.id);
    }
  }

  /** What each message of a run leads to: its effects if it is let through, by the
      messages alone, and has not outlived its time; and otherwise nothing. */
  lemma EffectsOfMessage(limit: nat, ms: seq<Message>, k: nat)
    requires k < |ms|
    ensures var before, after := Run(limit, ms[..k]).log, Run(limit, ms[..k + 1]).log;
      after == before +
        (if !LetThrough(limit, ms, k) then []
         else
           var cmd := ms[k].cmd.value;
           if cmd.ttl > 0 && cmd.issued.Some? && ms[k].now > cmd.issued.value + cmd.ttl then []
           else Effects(cmd, ms[k].env, ms[k].answers))
  {
    hide LetThrough, Effects, Admit, Buffer.Last;
    assert ms[..k + 1][..k] == ms[..k];
    PassedIsLetThrough(limit, ms, k);
  }

  /** The messages let through after i and before k. */
  function Between(limit: nat, ms: seq<Message>, i: nat, k: nat): (r: seq<nat>)
    requires k <= |ms|
    ensures |r| == LetBetween(limit, ms, i, k)
    ensures forall m :: 0 <= m < |r| ==> i < r[m] < k && LetThrough(limit, ms, r[m])
    ensures forall m, n :: 0 <= m < n < |r| ==> r[m] < r[n]
    decreases k
  {
    if k <= i + 1 then []
    else Between(limit, ms, i, k - 1) + if LetThrough(limit, ms, k - 1) then [k - 1] else []
  }

  lemma {:induction false} BetweenPlace(limit: nat, ms: seq<Message>, i: nat, k: nat, n: nat)
    requires k <= |ms| && n < |Between(limit, ms, i, k)|
    ensures Between(limit, ms, i, Between(limit, ms, i, k)[n]) == Between(limit, ms, i, k)[..n]
    decreases k
  {
    hide LetThrough;
    var init := Between(limit, ms, i, k - 1);
    if n < |init| {
      BetweenPlace(limit, ms, i, k - 1, n);
    } else {
      assert init == Between(limit, ms, i, k)[..n];
    }
  }

  lemma {:induction false} BetweenSplit(limit: nat, ms: seq<Message>, i: nat, j: nat, k: nat)
    requires i < j < k <= |ms|
    ensures LetBetween(limit, ms, i, k) ==
            LetBetween(limit, ms, i, j) + (if LetThrough(limit, ms, j) then 1 else 0) + LetBetween(limit, ms, j, k)
    decreases k
  {
    hide LetThrough;
    if k > j + 1 {
      BetweenSplit(limit, ms, i, j, k - 1);
    }
  }

  /** Of the messages let through from i on, `limit` and fewer in a row have ids of
      their own. */
  lemma OwnIds(limit: nat, ms: seq<Message>, i: nat, j: nat)
    requires i < j < |ms| && LetThrough(limit, ms, i) && LetThrough(limit, ms, j)
    requires LetBetween(limit, ms, i, j) < limit
    ensures !SameId(ms, i, j)
  {
  }

  /** Between two messages with the same id that both have an effect, an ack or a
      service call say, `limit` messages with other ids, no two the same, are let
      through. */
  lemma ActedApart(limit: nat, ms: seq<Message>, i: nat, j: nat) returns (others: seq<nat>)
    requires i < j < |ms| && SameId(ms, i, j)
    requires Run(limit, ms[..i + 1]).log != Run(limit, ms[..i]).log
    requires Run(limit, ms[..j + 1]).log != Run(limit, ms[..j]).log
    ensures |others| == limit && forall m :: 0 <= m < limit ==> i < others[m] < j && LetThrough(limit, ms, others[m])
    ensures forall m :: 0 <= m < limit ==> !SameId(ms, i, others[m])
    ensures forall m, n :: 0 <= m < n < limit ==> others[m] < others[n] && !SameId(ms, others[m], others[n])
  {
    hide Run, Effects;
    EffectsOfMessage(limit, ms, i);
    EffectsOfMessage(limit, ms, j);
    assert Run(limit, ms[..i]).log + [] == Run(limit, ms[..i]).log;
    assert Run(limit, ms[..j]).log + [] == Run(limit, ms[..j]).log;
    assert LetBetween(limit, ms, i, j) >= limit;
    hide LetThrough;
    var all := Between(limit, ms, i, j);
    others := all[..limit];
    forall m | 0 <= m < limit ensures !SameId(ms, i, others[m]) {
      BetweenPlace(limit, ms, i, j, m);
      OwnIds(limit, ms, i, others[m]);
    }
    forall m, n | 0 <= m < n < limit ensures !SameId(ms, others[m], others[n]) {
      BetweenPlace(limit, ms, i, j, m);
      BetweenPlace(limit, ms, i, j, n);
      BetweenSplit(limit, ms, i, others[m], others[n]);
      OwnIds(limit, ms, others[m], others[n]);
    }
  }

  /** A command's service call names the mapped entity exactly if its parameters do
      not name another: they are laid over the entity. */
  lemma CallTarget(cmd: Cmd, env: Env, a: Answers)
    requires !IsPairing(cmd.action) && Lookup(env.emap, cmd.device) != "" && Split(cmd.action).Some?
    ensures var effects := Effects(cmd, env, a);
      && effects[0].Call? && "entity_id" in effects[0].call.data
      && (forall k :: k in cmd.params ==> k in effects[0].call.data && effects[0].call.data[k] == cmd.params[k])
      && (effects[0].call.data["entity_id"] == Text(Lookup(env.emap, cmd.device)) <==>
            ("entity_id" in cmd.params ==> cmd.params["entity_id"] == Text(Lookup(env.emap, cmd.device))))
      && cmd.action == effects[0].call.domain + "." + effects[0].call.service
  {
    hide FirstDot;
    SplitExactly(cmd.action, Split(cmd.action).value.0, Split(cmd.action).value.1);
  }

  /** A pairing command reaches the manager at most once, with the session it names;
      and a failed one is explained by a `failed` event exactly if it names a
      session and either there is no manager or a start was refused. */
  lemma PairingExplained(cmd: Cmd, env: Env, a: Answers)
    requires IsPairing(cmd.action)
    ensures var effects, session := Effects(cmd, env, a), Session(cmd.params);
      && (PairingFailed(session) in effects <==>
            session != "" && (!env.pairing || (cmd.action == "pairing.start" && !a.start.Opened?)))
      && (PairingStart(session, Seconds(cmd.params), a.start) in effects <==>
            session != "" && env.pairing && cmd.action == "pairing.start")
      && (forall e :: e in effects && e.PairingStart? ==> e == PairingStart(session, Seconds(cmd.params), a.start))
      && (PairingStop(session) in effects <==> session != "" && env.pairing && cmd.action == "pairing.stop")
      && (forall e :: e in effects ==> !e.Call? && (!e.Ack? ==> e.session == session))
  {
    hide Seconds, Session, IsPairing;
  }

  // ---- what is carried out ---------------------------------------------------------------

  /** A command for a mapped device names one service, which is called on its entity with
      its parameters laid over that, and is acked as the call went. */
  lemma ServiceCalled(cmd: Cmd, env: Env, a: Answers, domain: string, service: string, entity: string)
    requires cmd.action == domain + "." + service && domain !in {"", "pairing"} && service != "" && '.' !in domain
    requires cmd.device in env.emap && env.emap[cmd.device] == entity != ""
    ensures var effects := Effects(cmd, env, a);
      && |effects| == 2 && effects[0].Call?
      && var call := effects[0].call;
      && effects[0] == Call(ServiceCall(domain, service, call.data), a.ok)
      && effects[1] == Ack(cmd.id, if a.ok then Acked else AckFailed)
      && call.data.Keys == cmd.params.Keys + {"entity_id"}
      && (forall k :: k in cmd.params ==> call.data[k] == cmd.params[k])
      && ("entity_id" !in cmd.params ==> call.data["entity_id"] == Text(entity))
  {
    hide Split;
    SplitExactly(cmd.action, domain, service);
    PairingByDomain(cmd.action, domain, service);
  }

  lemma PairingByDomain(action: string, domain: string, service: string)
    requires action == domain + "." + service && '.' !in domain
    ensures "pairing." <= action <==> domain == "pairing"
  {
    DotIsFirst(action, |domain|);
    assert action[..|domain|] == domain;
    if "pairing." <= action {
      assert action[..7] == "pairing" && action[7] == '.';
      DotIsFirst(action, 7);
    }
  }

  /** Without a mapped device, or with an action that names no service, there is only the
      ack that says so. */
  lemma NotCarriedOut(cmd: Cmd, env: Env, a: Answers)
    requires !("pairing." <= cmd.action)
    requires (cmd.device in env.emap ==> env.emap[cmd.device] == "")
             || forall domain, service :: cmd.action == domain + "." + service && '.' !in domain ==>
                  domain == "" || service == ""
    ensures Effects(cmd, env, a) == [Ack(cmd.id, AckFailed)]
  {
    hide Split;
    if Split(cmd.action).Some? {
      SplitExactly(cmd.action, Split(cmd.action).value.0, Split(cmd.action).value.1);
    }
  }

  /** The join window is asked for as long as the command says in whole seconds, two
      minutes if it says nothing of use; a refusal is told to the session. */
  lemma PairingStarted(cmd: Cmd, env: Env, a: Answers, session: string)
    requires cmd.action == "pairing.start" && env.pairing && session != ""
    requires "session_id" in cmd.params && cmd.params["session_id"] == Text(session)
    ensures var effects := Effects(cmd, env, a);
      && effects != [] && effects[0].PairingStart?
      && var seconds := effects[0].seconds;
      && (if a.start.Opened? then effects == [PairingStart(session, seconds, a.start), Ack(cmd.id, Acked)]
          else effects == [PairingStart(session, seconds, a.start), PairingFailed(session), Ack(cmd.id, AckFailed)])
      && (forall x :: x > 0.0 && "duration_sec" in cmd.params && cmd.params["duration_sec"] == Number(x) ==>
            seconds as real <= x < (seconds + 1) as real)
      && ((forall x :: x > 0.0 && "duration_sec" in cmd.params ==> cmd.params["duration_sec"] != Number(x)) ==>
            seconds == 120)
  {
    assert "pairing." <= cmd.action;
    if "duration_sec" in cmd.params && cmd.params["duration_sec"].Number? {
      assert cmd.params["duration_sec"] == Number(cmd.params["duration_sec"].number);
    }
  }

  lemma PairingStopped(cmd: Cmd, env: Env, a: Answers, session: string)
    requires cmd.action == "pairing.stop" && env.pairing && session != ""
    requires "session_id" in cmd.params && cmd.params["session_id"] == Text(session)
    ensures Effects(cmd, env, a) == [PairingStop(session), Ack(cmd.id, Acked)]
  {
    assert "pairing." <= cmd.action && cmd.action != "pairing.start";
  }

  /** Other pairing commands fail: those without a session, those on a unit without a
      pairing backend, which is told to the session, and unknown ones. */
  lemma PairingRefused(cmd: Cmd, env: Env, a: Answers)
    requires "pairing." <= cmd.action
    ensures var effects := Effects(cmd, env, a); var none := [Ack(cmd.id, AckFailed)];
      && ((forall session :: session != "" && "session_id" in cmd.params ==>
             cmd.params["session_id"] != Text(session)) ==> effects == none)
      && (forall session :: session != "" && "session_id" in cmd.params && cmd.params["session_id"] == Text(session) ==>
            if !env.pairing then effects == [PairingFailed(session)] + none
            else cmd.action !in {"pairing.start", "pairing.stop"} ==> effects == none)
  {
    if "session_id" in cmd.params && cmd.params["session_id"].Text? {
      assert cmd.params["session_id"] == Text(cmd.params["session_id"].text);
    }
  }

  /** Where in a run an effect comes from: the message that was due it. */
  ghost predicate From(limit: nat, ms: seq<Message>, k: nat, e: Effect)
    requires k < |ms|
  {
    var admitted := Run(limit, ms[..k]).admitted;
    Due(admitted, limit, ms[k]) && e in MessageEffects(admitted, limit, ms[k])
  }

  /** Nothing happens in a run but by a message that was due it. */
  lemma {:induction false} Attributed(limit: nat, ms: seq<Message>, e: Effect) returns (k: nat)
    requires e in Run(limit, ms).log
    ensures k < |ms| && From(limit, ms, k, e)
  {
    hide Effects, Due, Admit;
    var init, m := ms[..|ms| - 1], ms[|ms| - 1];
    var s := Run(limit, init);
    if e in s.log {
      k := Attributed(limit, init, e);
      assert init[..k] == ms[..k];
    } else {
      k := |ms| - 1;
      assert e in MessageEffects(s.admitted, limit, m);
    }
  }

  lemma CallIsNoPairing(cmd: Cmd, env: Env, a: Answers, e: Effect)
    requires e in Effects(cmd, env, a) && e.Call?
    ensures !IsPairing(cmd.action) && Lookup(env.emap, cmd.device) != "" && Split(cmd.action).Some?
    ensures e == Effects(cmd, env, a)[0]
  {
    hide Split, Session, Seconds;
  }

  /** Every service call of a run is that of a due message: it calls the service that
      its action names, with all its parameters, on the entity of its device exactly
      if the parameters do not name another. */
  lemma CallsOfRun(limit: nat, ms: seq<Message>, e: Effect) returns (k: nat)
    requires e in Run(limit, ms).log && e.Call?
    ensures k < |ms| && From(limit, ms, k, e) && ms[k].cmd.Some?
    ensures var cmd, entity := ms[k].cmd.value, Lookup(ms[k].env.emap, ms[k].cmd.value.device);
      && cmd.action == e.call.domain + "." + e.call.service && "entity_id" in e.call.data
      && (forall p :: p in cmd.params ==> p in e.call.data && e.call.data[p] == cmd.params[p])
      && (e.call.data["entity_id"] == Text(entity) <==>
            ("entity_id" in cmd.params ==> cmd.params["entity_id"] == Text(entity)))
  {
    hide Effects, Run, Split;
    k := Attributed(limit, ms, e);
    var m := ms[k];
    DueIsSeen(Run(limit, ms[..k]).admitted, limit, m);
    CallIsNoPairing(m.cmd.value, m.env, m.answers, e);
    CallTarget(m.cmd.value, m.env, m.answers);
  }

  lemma PairingOnly(cmd: Cmd, env: Env, a: Answers, e: Effect)
    requires e in Effects(cmd, env, a) && (e.PairingStart? || e.PairingStop? || e.PairingFailed?)
    ensures IsPairing(cmd.action)
  {
    hide Split, Session, Seconds;
  }

  /** Every time a run reaches the pairing manager, or reports that it could not, a
      due pairing command asked for it, for the session that it names. */
  lemma PairingOfRun(limit: nat, ms: seq<Message>, e: Effect) returns (k: nat)
    requires e in Run(limit, ms).log && (e.PairingStart? || e.PairingStop? || e.PairingFailed?)
    ensures k < |ms| && From(limit, ms, k, e) && ms[k].cmd.Some?
    ensures var cmd, m := ms[k].cmd.value, ms[k];
      && e.session == Session(cmd.params) != ""
      && (e.PairingStart? ==> m.env.pairing && cmd.action == "pairing.start" && e.result == m.answers.start)
      && (e.PairingStop? ==> m.env.pairing && cmd.action == "pairing.stop")
      && (e.PairingFailed? ==> !m.env.pairing || (cmd.action == "pairing.start" && !m.answers.start.Opened?))
  {
    hide Effects, Run, Session, IsPairing;
    k := Attributed(limit, ms, e);
    var m := ms[k];
    DueIsSeen(Run(limit, ms[..k]).admitted, limit, m);
    PairingOnly(m.cmd.value, m.env, m.answers, e);
    PairingExplained(m.cmd.value, m.env, m.answers);
  }

  // ---- the handler ------------------------------------------------------------------------------

  class CommandHandler {
    const dedupe: CmdDedupe
    var env: Env
    ghost var log: seq<Effect>

    constructor (dedupe: CmdDedupe, env: Env)
      ensures this.dedupe == dedupe && this.env == env && log == []
    {
      this.dedupe, this.env, log := dedupe, env, [];
    }

    method AckCommand(id: string, status: Status)
      modifies `log
      ensures log == old(log) + [Ack(id, status)]
    {
      log := log + [Ack(id, status)];
    }

    method HandlePairingCommand(cmd: Cmd, a: Answers)
      requires IsPairing(cmd.action)
      modifies `log
      ensures log == old(log) + PairingEffects(cmd, env, a)
    {
      var session := Session(cmd.params);
      if session == "" {
        AckCommand(cmd.id, AckFailed);
        return;
      }
      if !env.pairing {
        log := log + [PairingFailed(session)];
        AckCommand(cmd.id, AckFailed);
        return;
      }
      match cmd.action {
        case "pairing.start" =>
          log := log + [PairingStart(session, Seconds(cmd.params), a.start)];
          if !a.start.Opened? {
            log := log + [PairingFailed(session)];
            AckCommand(cmd.id, AckFailed);
            return;
          }
          AckCommand(cmd.id, Acked);
        case "pairing.stop" =>
          log := log + [PairingStop(session)];
          AckCommand(cmd.id, Acked);
        case _ =>
          AckCommand(cmd.id, AckFailed);
      }
    }

    method HandleCommand(msg: Option<Cmd>, now: int, a: Answers)
      requires dedupe.Valid()
      modifies `log, dedupe
      ensures dedupe.Valid()
      ensures State(dedupe.admitted, log) ==
              Next(State(old(dedupe.admitted), old(log)), dedupe.limit, Message(msg, now, env, a))
    {
      hide Admit, PairingEffects, Split, Buffer.Last, Expired;
      if msg.None? || msg.value.id == "" {
        return;
      }
      var cmd := msg.value;
      AmongLast(dedupe.admitted, dedupe.limit, cmd.id);
      var first := dedupe.FirstSee(cmd.id);
      if !first || Expired(cmd, now) {
        return;
      }
      if IsPairing(cmd.action) {
        HandlePairingCommand(cmd, a);
        return;
      }
      var entity := Lookup(env.emap, cmd.device);
      if entity == "" {
        AckCommand(cmd.id, AckFailed);
        return;
      }
      var split := SplitAction(cmd.action);
      if split.None? {
        AckCommand(cmd.id, AckFailed);
        return;
      }
      var data := Base(entity) + cmd.params;
      log := log + [Call(ServiceCall(split.value.0, split.value.1, data), a.ok)];
      AckCommand(cmd.id, if a.ok then Acked else AckFailed);
    }
  }
}
