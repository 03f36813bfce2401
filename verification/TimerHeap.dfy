/**
 The timer heap as the event thread uses it: a binary heap of (deadline, id)
 entries, a callback table, and lazy cancellation. Every operation is proved
 against the plain map of pending timers.
 */
module TimerHeaps {
  import opened Octets
  import opened BinaryHeap
  import opened TimerModel

  const INT_MAX: int := 0x7FFF_FFFF
  const NANOS_PER_MS: int := 1_000_000

  /** Live heap entries carry the pending deadlines; every pending timer has an entry; stale entries are ignored. */
  ghost predicate Represents<C>(heap: seq<Entry>, callbacks: map<nat, C>, t: Timers<C>) {
    && IsHeap(heap)
    && callbacks.Keys == t.pending.Keys
    && (forall id :: id in callbacks ==> callbacks[id] == t.pending[id].callback && EntryOf(t, id) in heap)
    && (forall e :: e in heap ==> e.id < t.nextId && (e.id in t.pending ==> e == EntryOf(t, e.id)))
  }

  ghost predicate DueBy<C>(t: Timers<C>, time: int) { exists id :: IsDue(t, id, time) }

  lemma PushRepresents<C>(h: seq<Entry>, r: seq<Entry>, callbacks: map<nat, C>, t: Timers<C>, deadline: int,
      callback: C)
    requires WellFormed(t) && Represents(h, callbacks, t)
    requires IsHeap(r) && multiset(r) == multiset(h) + multiset{Entry(deadline, t.nextId)}
    ensures Represents(r, callbacks[t.nextId := callback], Added(t, deadline, callback))
  {
    forall e | true
      ensures e in r <==> e in h || e == Entry(deadline, t.nextId)
    {
      assert e in r <==> e in multiset(r);
      assert e in h <==> e in multiset(h);
    }
  }

  lemma PopMembers(h: seq<Entry>, r: seq<Entry>, e: Entry)
    requires h != [] && multiset(r) == multiset(h) - multiset{h[0]}
    ensures e in r ==> e in h
    ensures e in h && e != h[0] ==> e in r
  {
    assert e in r <==> e in multiset(r);
    assert e in h <==> e in multiset(h);
  }

  /** Popping an entry that is stale, or whose timer was just taken out, loses no pending timer. */
  lemma PopRepresents<C>(h: seq<Entry>, r: seq<Entry>, callbacks: map<nat, C>, t: Timers<C>)
    requires h != [] && h[0].id !in t.pending && Represents(h, callbacks, t)
    requires IsHeap(r) && multiset(r) == multiset(h) - multiset{h[0]}
    ensures Represents(r, callbacks, t) && |r| < |h|
  {
    forall e
      ensures e in r ==> e in h
      ensures e in h && e != h[0] ==> e in r
    {
      PopMembers(h, r, e);
    }
    assert |multiset(r)| == |multiset(h)| - 1;
  }

  lemma TopIsLeast<C>(h: seq<Entry>, callbacks: map<nat, C>, t: Timers<C>)
    requires Represents(h, callbacks, t) && h != [] && h[0].id in callbacks
    ensures IsLeast(t, h[0].id) && h[0] == EntryOf(t, h[0].id)
  {
    assert h[0] in h;
    forall j | j in t.pending
      ensures !Later(h[0], EntryOf(t, j))
    {
      var i :| 0 <= i < |h| && h[i] == EntryOf(t, j);
      FrontIsLeast(h, i);
    }
  }

  class TimerHeap<C(!new)> {
    var heap: seq<Entry>
    var callbacks: map<nat, C>
    var nextId: nat

    ghost var pending: map<nat, Timer<C>>

    ghost function Model(): Timers<C>
      reads this
    {
      Timers(pending, nextId)
    }

    ghost predicate Valid()
      reads this
    {
      WellFormed(Model()) && Represents(heap, callbacks, Model())
    }

    constructor ()
      ensures Valid() && Model() == Timers(map[], 1)
    {
      heap, callbacks, nextId, pending := [], map[], 1, map[];
    }

    method Add(deadline: int, callback: C) returns (id: nat)
      requires Valid()
      modifies this
      ensures Valid() && Model() == Added(old(Model()), deadline, callback)
      ensures id == old(nextId) && id != 0 && id !in old(pending)
    {
      id := nextId;
      nextId := nextId + 1;
      callbacks := callbacks[id := callback];
      heap := PushHeap(heap, Entry(deadline, id));
      PushRepresents(old(heap), heap, old(callbacks), old(Model()), deadline, callback);
      pending := pending[id := Timer(deadline, callback)];
    }

    /** True exactly when the timer was still pending. The heap entry stays behind. */
    method Cancel(id: nat) returns (ok: bool)
      requires Valid()
      modifies this
      ensures Valid() && Model() == Removed(old(Model()), id)
      ensures ok <==> id in old(pending)
    {
      ok := id in callbacks;
      callbacks := callbacks - {id};
      pending := pending - {id};
    }

    method PruneCancelledTop()
      requires Valid()
      modifies `heap
      ensures Valid()
      ensures heap == [] <==> pending == map[]
      ensures heap != [] ==> heap[0].id in pending && IsLeast(Model(), heap[0].id)
      ensures heap != [] ==> heap[0] == EntryOf(Model(), heap[0].id)
    {
      while heap != [] && heap[0].id !in callbacks
        invariant Valid()
        decreases |heap|
      {
        ghost var before := heap;
        heap := PopHeap(heap);
        PopRepresents(before, heap, callbacks, Model());
      }
      if heap != [] {
        TopIsLeast(heap, callbacks, Model());
      } else {
        assert callbacks.Keys == {};
      }
    }

    /** The earliest pending deadline. */
    method NextDeadline() returns (deadline: Option<int>)
      requires Valid()
      modifies `heap
      ensures Valid()
      ensures deadline.None? <==> pending == map[]
      ensures deadline.Some? ==> DueBy(Model(), deadline.value)
      ensures deadline.Some? ==> forall id :: id in pending ==> deadline.value <= pending[id].deadline
    {
      PruneCancelledTop();
      if heap == [] { return None; }
      var top := heap[0];
      assert forall id :: id in pending ==> !Later(EntryOf(Model(), top.id), EntryOf(Model(), id));
      assert IsDue(Model(), top.id, top.deadline);
      deadline := Some(top.deadline);
    }

    /** A poll of this many milliseconds never ends before the next deadline, unless the answer is capped. */
    method PollTimeoutMs(now: int) returns (ms: int)
      requires Valid()
      modifies `heap
      ensures Valid() && -1 <= ms <= INT_MAX
      ensures ms == -1 <==> pending == map[]
      ensures ms == 0 <==> DueBy(Model(), now)
      ensures ms > 0 ==> forall id :: id in pending ==> now + (ms - 1) * NANOS_PER_MS <= pending[id].deadline
      ensures 0 < ms < INT_MAX ==> DueBy(Model(), now + ms * NANOS_PER_MS - 1)
    {
      var next := NextDeadline();
      if next.None? { return -1; }
      ghost var id :| IsDue(Model(), id, next.value);
      if next.value <= now {
        assert IsDue(Model(), id, now);
        return 0;
      }
      var delta := (next.value - now) / NANOS_PER_MS + 1;
      assert IsDue(Model(), id, now + delta * NANOS_PER_MS - 1);
      ms := if delta < INT_MAX then delta else INT_MAX;
    }

    /** A callback's commands, issued while the pass is running. */
    method RunCallback(commands: seq<Command<C>>)
      requires Valid()
      modifies this
      ensures Valid() && Model() == Obey(old(Model()), commands)
    {
      for i := 0 to |commands|
        invariant Valid() && Model() == Obey(old(Model()), commands[..i])
      {
        assert commands[..i + 1][..i] == commands[..i];
        match commands[i]
        case Schedule(deadline, callback) =>
          var id := Add(deadline, callback);
        case Unschedule(id) =>
          var ok := Cancel(id);
      }
      assert commands[..|commands|] == commands;
    }

    /**
     One pass at `now`; `env` says what each callback does when it runs as the
     n-th one. Timers a callback adds that are already due run in this pass too,
     so the pass returns exactly when a finite one exists.
     */
    method RunDue(now: int, env: (C, nat) -> seq<Command<C>>, first: nat) returns (ran: nat, ghost fired: seq<nat>)
      requires Valid()
      requires Ends(Model(), env, first, now)
      modifies this
      ensures Valid() && ran == |fired|
      ensures Pass(old(Model()), fired, env, first, now, Model())
    {
      hide Represents, Obey, After, Completes;
      ghost var path :| Completes(Model(), path, env, first, now);
      ran, fired := 0, [];
      NoneFiredYet(Model(), path, env, first);
      while true
        invariant Valid() && ran == |fired| <= |path| && fired == path[..ran]
        invariant Model() == After(old(Model()), fired, env, first)
        invariant LeastFirst(old(Model()), fired, env, first, now)
        decreases |path| - ran
      {
        PruneCancelledTop();
        if heap == [] || heap[0].deadline > now {
          NothingDue(Model(), heap, now);
          return;
        }
        ghost var id := heap[0].id;
        PassFiresLeast(old(Model()), path, env, first, now, ran, id);
        FireTop(env, first + ran);
        FiredOneMore(old(Model()), fired, id, env, first, now);
        fired := fired + [id];
        ran := ran + 1;
      }
    }

    /** Takes the top timer out and runs its callback. */
    method FireTop(env: (C, nat) -> seq<Command<C>>, n: nat)
      requires Valid() && heap != [] && heap[0].id in pending
      modifies this
      ensures Valid()
      ensures Model() == Fire(old(Model()), old(heap[0].id), env, n)
    {
      hide Obey;
      var id := heap[0].id;
      var rest := PopHeap(heap);
      var callback := callbacks[id];
      TakeOut(heap, callbacks, Model(), id);
      PopRepresents(heap, rest, callbacks - {id}, Removed(Model(), id));
      heap := rest;
      callbacks := callbacks - {id};
      pending := pending - {id};
      RunCallback(env(callback, n));
    }
  }

  lemma TakeOut<C>(h: seq<Entry>, callbacks: map<nat, C>, t: Timers<C>, id: nat)
    requires Represents(h, callbacks, t)
    ensures Represents(h, callbacks - {id}, Removed(t, id))
  {
  }

  lemma NothingDue<C>(t: Timers<C>, heap: seq<Entry>, now: int)
    requires heap == [] ==> t.pending == map[]
    requires heap != [] ==> heap[0].id in t.pending && IsLeast(t, heap[0].id) && heap[0] == EntryOf(t, heap[0].id)
    requires heap == [] || heap[0].deadline > now
    ensures forall id :: id in t.pending ==> !IsDue(t, id, now)
  {
    if heap != [] {
      forall id | id in t.pending
        ensures !IsDue(t, id, now)
      {
        assert !Later(EntryOf(t, heap[0].id), EntryOf(t, id));
      }
    }
  }

  lemma FiredOneMore<C>(t: Timers<C>, fired: seq<nat>, id: nat, env: (C, nat) -> seq<Command<C>>, n: nat, now: int)
    requires LeastFirst(t, fired, env, n, now)
    requires FiredWell(After(t, fired, env, n), id, now)
    ensures LeastFirst(t, fired + [id], env, n, now)
    ensures After(t, fired + [id], env, n) == Fire(After(t, fired, env, n), id, env, n + |fired|)
  {
    hide FiredWell, Fire;
    var more := fired + [id];
    assert more[..|fired|] == fired;
    forall k | 0 <= k < |more|
      ensures FiredWell(After(t, more[..k], env, n), more[k], now)
    {
      if k < |fired| { assert more[..k] == fired[..k]; }
    }
  }

  /** What a client asks for. */
  datatype Request<C> = AddTimer(deadline: int, callback: C) | CancelTimer(id: nat) | RunPass(now: int)

  ghost predicate Answers<C>(op: Op<C>, request: Request<C>) {
    match request
    case AddTimer(deadline, callback) => op == TimerModel.Add(deadline, callback)
    case CancelTimer(id) => op == TimerModel.Cancel(id)
    case RunPass(now) => op.RunDue? && op.now == now
  }

  /**
   The timers after a list of requests, and how many callbacks ran; a pass that never ends is as
   if never asked for.
   */
  ghost function Serve<C>(requests: seq<Request<C>>, env: (C, nat) -> seq<Command<C>>): (r: (Timers<C>, nat)) {
    if requests == [] then (Timers(map[], 1), 0)
    else
      var (t, n) := Serve(requests[..|requests| - 1], env);
      match requests[|requests| - 1]
      case AddTimer(deadline, callback) => (Added(t, deadline, callback), n)
      case CancelTimer(id) => (Removed(t, id), n)
      case RunPass(now) =>
        if Ends(t, env, n, now) then
          var fired :| Completes(t, fired, env, n, now);
          (After(t, fired, env, n), n + |fired|)
        else (t, n)
  }

  /** Every pass asked for is one that ends. */
  ghost predicate AllEnd<C>(requests: seq<Request<C>>, env: (C, nat) -> seq<Command<C>>) {
    forall k :: 0 <= k < |requests| && requests[k].RunPass? ==>
      var (t, n) := Serve(requests[..k], env); Ends(t, env, n, requests[k].now)
  }

  lemma LawfulMore<C>(ops: seq<Op<C>>, op: Op<C>, env: (C, nat) -> seq<Command<C>>)
    requires Lawful(ops, env)
    requires op.RunDue? ==> var (t, n) := Run(ops, env); Completes(t, op.fired, env, n, op.now)
    ensures Lawful(ops + [op], env)
  {
    hide Completes;
    var more := ops + [op];
    forall k | 0 <= k < |more| && more[k].RunDue?
      ensures var (t, n) := Run(more[..k], env); Completes(t, more[k].fired, env, n, more[k].now)
    {
      assert more[..k] == if k < |ops| then ops[..k] else ops;
    }
  }

  /**
   Any client session with the heap is a lawful run of the timer model: the
   callbacks run are the fired ones, no timer fires twice, and what is left is pending.
   */
  method RunTimers<C(!new)>(requests: seq<Request<C>>, env: (C, nat) -> seq<Command<C>>)
    returns (ran: nat, left: set<nat>, ghost ops: seq<Op<C>>)
    requires AllEnd(requests, env)
    ensures |ops| == |requests| && forall k :: 0 <= k < |ops| ==> Answers(ops[k], requests[k])
    ensures Lawful(ops, env) && Distinct(FiredIn(ops)) && AllSpent(Run(ops, env).0, FiredIn(ops))
    ensures ran == |FiredIn(ops)| && left == Run(ops, env).0.pending.Keys
    ensures Run(ops, env) == Serve(requests, env)
    ensures ran == Serve(requests, env).1 && left == Serve(requests, env).0.pending.Keys
  {
    hide Lawful, Represents, LeastFirst, After, Serve, AllEnd, Ends;
    var timers := new TimerHeap<C>();
    ran, ops := 0, [];
    NothingRun(env);
    NothingServed(requests, env);
    for i := 0 to |requests|
      invariant fresh(timers) && timers.Valid() && |ops| == i
      invariant forall k :: 0 <= k < i ==> Answers(ops[k], requests[k])
      invariant Lawful(ops, env) && Run(ops, env) == (timers.Model(), ran) && ran == |FiredIn(ops)|
      invariant Serve(requests[..i], env) == (timers.Model(), ran)
    {
      ghost var op;
      match requests[i] {
        case AddTimer(deadline, callback) =>
          ServedPlain(requests, env, i);
          var id := timers.Add(deadline, callback);
          op := TimerModel.Add(deadline, callback);
        case CancelTimer(id) =>
          ServedPlain(requests, env, i);
          var ok := timers.Cancel(id);
          op := TimerModel.Cancel(id);
        case RunPass(now) =>
          PassWillEnd(requests, env, i);
          ghost var fired;
          var count;
          ghost var before := timers.Model();
          count, fired := timers.RunDue(now, env, ran);
          ServedPass(requests, env, i, fired);
          op := TimerModel.RunDue(now, fired);
          ran := ran + count;
      }
      LawfulMore(ops, op, env);
      assert (ops + [op])[..|ops|] == ops;
      ops := ops + [op];
    }
    assert requests[..|requests|] == requests;
    NoTimerFiresTwice(ops, env);
    left := timers.callbacks.Keys;
    SameKeys(timers);
  }

  lemma NothingServed<C>(requests: seq<Request<C>>, env: (C, nat) -> seq<Command<C>>)
    ensures Serve(requests[..0], env) == (Timers(map[], 1), 0)
  {
  }

  lemma PassWillEnd<C>(requests: seq<Request<C>>, env: (C, nat) -> seq<Command<C>>, i: nat)
    requires AllEnd(requests, env) && i < |requests| && requests[i].RunPass?
    ensures var (t, n) := Serve(requests[..i], env); Ends(t, env, n, requests[i].now)
  {
  }

  lemma ServedPlain<C>(requests: seq<Request<C>>, env: (C, nat) -> seq<Command<C>>, i: nat)
    requires i < |requests| && !requests[i].RunPass?
    ensures var (t, n) := Serve(requests[..i], env);
            Serve(requests[..i + 1], env) ==
            (if requests[i].AddTimer? then Added(t, requests[i].deadline, requests[i].callback)
             else Removed(t, requests[i].id), n)
  {
    assert requests[..i + 1][..i] == requests[..i];
  }

  /** The pass that was made is the only one there is. */
  lemma ServedPass<C>(requests: seq<Request<C>>, env: (C, nat) -> seq<Command<C>>, i: nat, fired: seq<nat>)
    requires i < |requests| && requests[i].RunPass?
    requires var (t, n) := Serve(requests[..i], env); Completes(t, fired, env, n, requests[i].now)
    ensures var (t, n) := Serve(requests[..i], env);
            Serve(requests[..i + 1], env) == (After(t, fired, env, n), n + |fired|)
  {
    hide Completes, After;
    assert requests[..i + 1][..i] == requests[..i];
    var (t, n) := Serve(requests[..i], env);
    forall other | Completes(t, other, env, n, requests[i].now)
      ensures other == fired
    {
      PassIsUnique(t, other, fired, env, n, requests[i].now);
    }
  }

  lemma SameKeys<C(!new)>(timers: TimerHeap<C>)
    requires timers.Valid()
    ensures timers.callbacks.Keys == timers.pending.Keys
  {
  }

  lemma NothingRun<C>(env: (C, nat) -> seq<Command<C>>)
    ensures Lawful([], env) && Run([], env) == (Timers(map[], 1), 0)
  {
  }
}
