/** The offline uplink buffer (internal/agent/buffer.go): bounded, dropping the
    oldest, over a slice that shares its backing array with drained batches. */
module Buffer {

  // ---- what the buffer holds -------------------------------------------------

  function Pushed<T>(items: seq<T>, limit: nat, x: T): seq<T>
    requires limit >= 1
  {
    (if |items| >= limit then items[1..] else items) + [x]
  }

  datatype Op<T> = Push(x: T) | Drain

  /** A buffer with everything that ever went in and out of it. */
  datatype History<T> = History(pushed: seq<T>, drained: seq<T>, held: seq<T>, dropped: nat, sinceDrain: seq<T>)

  function Next<T>(h: History<T>, limit: nat, op: Op<T>): History<T>
    requires limit >= 1
  {
    match op
    case Push(x) =>
      h.(pushed := h.pushed + [x], held := Pushed(h.held, limit, x),
         dropped := h.dropped + (if |h.held| >= limit then 1 else 0), sinceDrain := h.sinceDrain + [x])
    case Drain =>
      h.(drained := h.drained + h.held, held := [], sinceDrain := [])
  }

  function Run<T>(limit: nat, ops: seq<Op<T>>): History<T>
    requires limit >= 1
  {
    if ops == [] then History([], [], [], 0, []) else Next(Run(limit, ops[..|ops| - 1]), limit, ops[|ops| - 1])
  }

  function Last<T>(s: seq<T>, n: nat): seq<T> {
    if |s| <= n then s else s[|s| - n..]
  }

  /** Whether s can be had from t by leaving elements out. */
  ghost predicate Subsequence<T(!new)>(s: seq<T>, t: seq<T>)
    decreases |t|
  {
    if s == [] then true
    else t != [] && (Subsequence(s, t[..|t| - 1])
                     || (s[|s| - 1] == t[|t| - 1] && Subsequence(s[..|s| - 1], t[..|t| - 1])))
  }

  lemma Skip<T(!new)>(s: seq<T>, t: seq<T>, x: T)
    requires Subsequence(s, t)
    ensures Subsequence(s, t + [x])
  {
    assert (t + [x])[..|t|] == t;
  }

  lemma Take<T(!new)>(s: seq<T>, t: seq<T>, x: T)
    requires Subsequence(s, t)
    ensures Subsequence(s + [x], t + [x])
  {
    assert (t + [x])[..|t|] == t && (s + [x])[..|s|] == s;
  }

  lemma Unfold<T(!new)>(s: seq<T>, t: seq<T>)
    requires s != [] && Subsequence(s, t)
    ensures t != []
    ensures var init := t[..|t| - 1];
      Subsequence(s, init) || (s[|s| - 1] == t[|t| - 1] && Subsequence(s[..|s| - 1], init))
  {
  }

  /** Leaving out one more element of a subsequence leaves a subsequence. */
  lemma {:induction false} LeaveOut<T(!new)>(s: seq<T>, i: nat, t: seq<T>)
    requires i < |s| && Subsequence(s, t)
    ensures Subsequence(s[..i] + s[i + 1..], t)
    decreases |t|
  {
    hide Subsequence;
    Unfold(s, t);
    var less, init, x := s[..i] + s[i + 1..], t[..|t| - 1], t[|t| - 1];
    assert t == init + [x];
    if Subsequence(s, init) {
      LeaveOut(s, i, init);
      Skip(less, init, x);
    } else {
      var front := s[..|s| - 1];
      if i == |front| {
        assert less == front;
        Skip(front, init, x);
      } else {
        LeaveOut(front, i, init);
        Take(front[..i] + front[i + 1..], init, x);
        assert less == front[..i] + front[i + 1..] + [x];
      }
    }
  }

  /** After any pushes and drains the buffer holds, in order, the newest of the
      messages pushed since the last drain, as many as fit. */
  lemma {:induction false} HoldsTheNewest<T>(limit: nat, ops: seq<Op<T>>)
    requires limit >= 1
    ensures var h := Run(limit, ops); h.held == Last(h.sinceDrain, limit)
  {
    hide Last, Pushed;
    NothingLast<T>(limit);
    if ops != [] {
      HoldsTheNewest(limit, ops[..|ops| - 1]);
      var op := ops[|ops| - 1];
      if op.Push? {
        LastPushed(limit, Run(limit, ops[..|ops| - 1]).sinceDrain, op.x);
      }
    }
  }

  function Pushes<T>(xs: seq<T>): seq<Op<T>> {
    seq(|xs|, i requires 0 <= i < |xs| => Push(xs[i]))
  }

  /** Whatever came before the last drain, the buffer holds those that were pushed since,
      as many as fit and the ones that came last, and everything else went out or was
      dropped. */
  lemma HeldExactly<T>(limit: nat, before: seq<Op<T>>, xs: seq<T>)
    requires limit >= 1 && (before == [] || before[|before| - 1] == Drain)
    ensures var n := if |xs| < limit then |xs| else limit;
      Run(limit, before + Pushes(xs)).held == xs[|xs| - n..]
  {
    hide Run;
    HoldsTheNewest(limit, before + Pushes(xs));
    PushedSince(limit, before, xs);
  }

  lemma {:induction false} PushedSince<T>(limit: nat, before: seq<Op<T>>, xs: seq<T>)
    requires limit >= 1 && (before == [] || before[|before| - 1] == Drain)
    ensures Run(limit, before + Pushes(xs)).sinceDrain == xs
    decreases |xs|
  {
    hide Pushed;
    if xs == [] {
      assert before + Pushes(xs) == before;
    } else {
      var init, x := xs[..|xs| - 1], xs[|xs| - 1];
      PushedSince(limit, before, init);
      assert Pushes(xs) == Pushes(init) + [Push(x)];
      assert (before + Pushes(xs))[..|before + Pushes(xs)| - 1] == before + Pushes(init);
    }
  }

  lemma NothingLast<T>(limit: nat)
    ensures Last<T>([], limit) == []
  {
  }

  lemma LastPushed<T>(limit: nat, s: seq<T>, x: T)
    requires limit >= 1
    ensures Pushed(Last(s, limit), limit, x) == Last(s + [x], limit)
  {
  }

  /** Nothing is made up, reordered or counted twice: what was drained followed by
      what is held can be had from the pushes by leaving out the dropped ones. */
  lemma {:induction false} Conservation<T(!new)>(limit: nat, ops: seq<Op<T>>)
    requires limit >= 1
    ensures var h := Run(limit, ops);
      && |h.pushed| == |h.drained| + |h.held| + h.dropped
      && Subsequence(h.drained + h.held, h.pushed)
  {
    if ops != [] {
      Conservation(limit, ops[..|ops| - 1]);
      var h, op := Run(limit, ops[..|ops| - 1]), ops[|ops| - 1];
      match op {
        case Push(x) =>
          PushConserves(h, limit, x);
        case Drain =>
          assert h.drained + h.held + [] == h.drained + h.held;
      }
    }
  }

  lemma PushConserves<T(!new)>(h: History<T>, limit: nat, x: T)
    requires limit >= 1 && Subsequence(h.drained + h.held, h.pushed)
    ensures Subsequence(h.drained + Pushed(h.held, limit, x), h.pushed + [x])
  {
    var all := h.drained + h.held;
    if |h.held| >= limit {
      LeaveOut(all, |h.drained|, h.pushed);
      var less := all[..|h.drained|] + all[|h.drained| + 1..];
      assert less == h.drained + h.held[1..];
      Take(less, h.pushed, x);
      assert less + [x] == h.drained + Pushed(h.held, limit, x);
    } else {
      Take(all, h.pushed, x);
      assert all + [x] == h.drained + Pushed(h.held, limit, x);
    }
  }

  // ---- the buffer itself --------------------------------------------------------

  /** A window on a backing array. */
  datatype Slice<T> = Slice(data: array<T>, off: nat, len: nat) {
    ghost predicate Valid() {
      off + len <= data.Length
    }

    ghost function Values(): seq<T>
      requires Valid()
      reads data
    {
      data[off..off + len]
    }
  }

  class UplinkBuffer<T(0)> {
    var items: Slice<T>
    const limit: nat

    ghost predicate Valid()
      reads this
    {
      items.Valid() && limit >= 1 && items.len <= limit
    }

    ghost function Contents(): seq<T>
      requires Valid()
      reads this, items.data
    {
      items.Values()
    }

    constructor (limit: nat)
      requires limit >= 1
      ensures Valid() && this.limit == limit && Contents() == [] && fresh(items.data)
    {
      var data := new T[limit];
      this.limit := limit;
      items := Slice(data, 0, 0);
    }

    method Push(x: T)
      requires Valid()
      modifies this, items.data
      ensures Valid() && (items.data == old(items.data) || fresh(items.data))
      ensures Contents() == Pushed(old(Contents()), limit, x)
      ensures var all := old(Contents()) + [x]; Contents() == if |all| <= limit then all else all[1..]
    {
      var kept := items;
      if items.len >= limit {
        kept := Slice(items.data, items.off + 1, items.len - 1);
        assert kept.Values() == items.Values()[1..];
      }
      items := Append(kept, x);
    }

    /** Hands out what is held and starts afresh, so that later pushes cannot
        reach the batch. */
    method Drain() returns (batch: Slice<T>)
      requires Valid()
      modifies this
      ensures Valid() && Contents() == [] && (old(items.len) > 0 ==> fresh(items.data))
      ensures batch.Valid() && batch.Values() == old(Contents())
      ensures old(items.len) > 0 ==> batch.data == old(items.data)
      ensures old(items.len) == 0 ==> fresh(batch.data) && items == old(items)
    {
      if items.len == 0 {
        var none := new T[0];
        return Slice(none, 0, 0);
      }
      batch := items;
      var data := new T[limit];
      items := Slice(data, 0, 0);
    }
  }

  /** Appends in place while the backing array has room, and otherwise in a larger one. */
  method Append<T(0)>(s: Slice<T>, x: T) returns (r: Slice<T>)
    requires s.Valid()
    modifies s.data
    ensures r.Valid() && r.len == s.len + 1 && (r.data == s.data || fresh(r.data))
    ensures r.Values() == old(s.Values()) + [x]
  {
    r := s;
    if s.off + s.len == s.data.Length {
      r := Grow(s);
    }
    r.data[r.off + r.len] := x;
    r := r.(len := s.len + 1);
  }

  /** The same values in an array with room for more. */
  method Grow<T(0)>(s: Slice<T>) returns (r: Slice<T>)
    requires s.Valid()
    ensures r.Valid() && fresh(r.data) && r.len == s.len && r.Values() == s.Values() && r.off + r.len < r.data.Length
  {
    var data := new T[2 * s.len + 1];
    for i := 0 to s.len
      invariant data[..i] == s.data[s.off..s.off + i]
    {
      data[i] := s.data[s.off + i];
    }
    r := Slice(data, 0, s.len);
  }

  /** A batch is never changed by the pushes that follow it. */
  method DrainThenPush<T(0)>(buffer: UplinkBuffer<T>, later: seq<T>) returns (batch: Slice<T>)
    requires buffer.Valid()
    modifies buffer, buffer.items.data
    ensures buffer.Valid() && batch.Valid() && batch.Values() == old(buffer.Contents())
    ensures buffer.Contents() == Last(later, buffer.limit)
  {
    hide Last, Pushed;
    batch := buffer.Drain();
    ghost var drained := batch.Values();
    NothingLast<T>(buffer.limit);
    for i := 0 to |later|
      invariant buffer.Valid() && buffer.items.data != batch.data
      invariant fresh(buffer.items.data) || buffer.items.data == old(buffer.items.data)
      invariant batch.Values() == drained
      invariant buffer.Contents() == Last(later[..i], buffer.limit)
    {
      buffer.Push(later[i]);
      LastPushed(buffer.limit, later[..i], later[i]);
      assert later[..i + 1] == later[..i] + [later[i]];
    }
    assert later[..|later|] == later;
  }
}
