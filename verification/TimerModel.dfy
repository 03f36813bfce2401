/**
 Timers as a plain map of what is pending. A callback is whatever the
 environment makes of it: run as the n-th callback, it issues some list of
 Add and Cancel commands, possibly re-adding itself.
 */
module TimerModel {
  import opened Octets
  import opened BinaryHeap

  datatype Timer<C> = Timer(deadline: int, callback: C)

  /** Ids start at 1 and are never reused. */
  datatype Timers<C> = Timers(pending: map<nat, Timer<C>>, nextId: nat)

  datatype Command<C> = Schedule(deadline: int, callback: C) | Unschedule(id: nat)

  ghost predicate WellFormed<C>(t: Timers<C>) {
    1 <= t.nextId && forall id :: id in t.pending ==> 1 <= id < t.nextId
  }

  function Added<C>(t: Timers<C>, deadline: int, callback: C): (r: Timers<C>) {
    Timers(t.pending[t.nextId := Timer(deadline, callback)], t.nextId + 1)
  }

  function Removed<C>(t: Timers<C>, id: nat): (r: Timers<C>) {
    Timers(t.pending - {id}, t.nextId)
  }

  function Apply<C>(t: Timers<C>, command: Command<C>): (r: Timers<C>) {
    match command
    case Schedule(deadline, callback) => Added(t, deadline, callback)
    case Unschedule(id) => Removed(t, id)
  }

  function Obey<C>(t: Timers<C>, commands: seq<Command<C>>): (r: Timers<C>) {
    if commands == [] then t
    else Apply(Obey(t, commands[..|commands| - 1]), commands[|commands| - 1])
  }

  function EntryOf<C>(t: Timers<C>, id: nat): Entry
    requires id in t.pending
  {
    Entry(t.pending[id].deadline, id)
  }

  /** The pending timer that fires before every other pending timer. */
  ghost predicate IsLeast<C>(t: Timers<C>, id: nat) {
    id in t.pending && forall j :: j in t.pending ==> !Later(EntryOf(t, id), EntryOf(t, j))
  }

  ghost predicate IsDue<C>(t: Timers<C>, id: nat, now: int) {
    id in t.pending && t.pending[id].deadline <= now
  }

  /** Firing takes the timer out before its callback runs. */
  ghost function Fire<C>(t: Timers<C>, id: nat, env: (C, nat) -> seq<Command<C>>, n: nat): (r: Timers<C>) {
    if id in t.pending then Obey(Removed(t, id), env(t.pending[id].callback, n)) else t
  }

  /** The timers after the listed ids fired one after another, as callbacks n, n + 1, and so on. */
  ghost function After<C>(t: Timers<C>, fired: seq<nat>, env: (C, nat) -> seq<Command<C>>, n: nat): (r: Timers<C>) {
    if fired == [] then t
    else
      var last := |fired| - 1;
      Fire(After(t, fired[..last], env, n), fired[last], env, n + last)
  }

  /** Every listed timer was, when its turn came, due and the least of all pending ones. */
  ghost predicate LeastFirst<C>(t: Timers<C>, fired: seq<nat>, env: (C, nat) -> seq<Command<C>>, n: nat, now: int) {
    forall k :: 0 <= k < |fired| ==> FiredWell(After(t, fired[..k], env, n), fired[k], now)
  }

  ghost predicate FiredWell<C>(t: Timers<C>, id: nat, now: int) {
    IsLeast(t, id) && IsDue(t, id, now)
  }

  /** A whole pass over the due timers. */
  ghost predicate Pass<C>(t: Timers<C>, fired: seq<nat>, env: (C, nat) -> seq<Command<C>>, n: nat, now: int,
                          r: Timers<C>)
  {
    && r == After(t, fired, env, n)
    && LeastFirst(t, fired, env, n, now)
    && forall id :: id in r.pending ==> !IsDue(r, id, now)
  }

  // ------------------------------------------------------------ properties

  /** The least timer, spelled out: no pending one has an earlier deadline, or the same deadline and a smaller id. */
  lemma LeastMeans<C>(t: Timers<C>, id: nat)
    requires id in t.pending
    ensures IsLeast(t, id) <==>
            forall j :: j in t.pending ==>
              var d, e := t.pending[id].deadline, t.pending[j].deadline; d < e || (d == e && id <= j)
  {
    forall j | j in t.pending
      ensures Later(EntryOf(t, id), EntryOf(t, j)) <==>
              var d, e := t.pending[id].deadline, t.pending[j].deadline; !(d < e || (d == e && id <= j))
    {
    }
  }

  lemma LeastIsUnique<C>(t: Timers<C>, i: nat, j: nat)
    requires IsLeast(t, i) && IsLeast(t, j)
    ensures i == j
  {
    assert !Later(EntryOf(t, i), EntryOf(t, j)) && !Later(EntryOf(t, j), EntryOf(t, i));
  }

  /** From t to r only never-used ids were added: an id used before t is in r only as it was in t. */
  ghost predicate Evolves<C>(t: Timers<C>, r: Timers<C>) {
    && WellFormed(t) && WellFormed(r) && t.nextId <= r.nextId
    && forall id :: id in r.pending && id < t.nextId ==> id in t.pending && r.pending[id] == t.pending[id]
  }

  lemma EvolvesOn<C>(t: Timers<C>, s: Timers<C>, r: Timers<C>)
    requires Evolves(t, s) && Evolves(s, r)
    ensures Evolves(t, r)
  {
  }

  lemma {:induction false} ObeyEvolves<C>(t: Timers<C>, commands: seq<Command<C>>)
    requires WellFormed(t)
    ensures Evolves(t, Obey(t, commands))
  {
    if commands != [] {
      ObeyEvolves(t, commands[..|commands| - 1]);
    }
  }

  lemma FireEvolves<C>(t: Timers<C>, id: nat, env: (C, nat) -> seq<Command<C>>, n: nat)
    requires WellFormed(t) && id in t.pending
    ensures Evolves(t, Fire(t, id, env, n)) && Spent(Fire(t, id, env, n), id)
  {
    hide Obey;
    ObeyEvolves(Removed(t, id), env(t.pending[id].callback, n));
  }

  /** Used up: a valid id that is not pending. */
  ghost predicate Spent<C>(t: Timers<C>, id: nat) { id < t.nextId && id !in t.pending }

  ghost predicate AllSpent<C>(t: Timers<C>, ids: seq<nat>) { forall id :: id in ids ==> Spent(t, id) }

  ghost predicate NoneSpent<C>(t: Timers<C>, ids: seq<nat>) { forall id :: id in ids ==> !Spent(t, id) }

  predicate Distinct(ids: seq<nat>) { forall i, k :: 0 <= i < k < |ids| ==> ids[i] != ids[k] }

  lemma DistinctConcat<C>(t: Timers<C>, a: seq<nat>, b: seq<nat>)
    requires Distinct(a) && Distinct(b) && AllSpent(t, a) && NoneSpent(t, b)
    ensures Distinct(a + b)
  {
    var ids := a + b;
    forall i, k | 0 <= i < k < |ids|
      ensures ids[i] != ids[k]
    {
      assert ids[i] == if i < |a| then a[i] else b[i - |a|];
      assert ids[k] == if k < |a| then a[k] else b[k - |a|];
      if i < |a| <= k { assert a[i] in a && b[k - |a|] in b; }
    }
  }

  lemma FrontLawful<C>(t: Timers<C>, fired: seq<nat>, env: (C, nat) -> seq<Command<C>>, n: nat, now: int)
    requires fired != [] && LeastFirst(t, fired, env, n, now)
    ensures LeastFirst(t, fired[..|fired| - 1], env, n, now)
    ensures FiredWell(After(t, fired[..|fired| - 1], env, n), fired[|fired| - 1], now)
  {
    hide After, FiredWell;
    var front := fired[..|fired| - 1];
    forall k | 0 <= k < |front|
      ensures FiredWell(After(t, front[..k], env, n), front[k], now)
    {
      assert front[..k] == fired[..k];
    }
  }

  /** What fires was not spent before, is spent afterwards, and fires once. */
  lemma {:induction false} GoneForGood<C>(t: Timers<C>, fired: seq<nat>, env: (C, nat) -> seq<Command<C>>, n: nat,
      now: int)
    requires WellFormed(t) && LeastFirst(t, fired, env, n, now)
    ensures var r := After(t, fired, env, n);
            Evolves(t, r) && NoneSpent(t, fired) && AllSpent(r, fired) && Distinct(fired)
    decreases |fired|
  {
    hide Fire, LeastFirst;
    if fired != [] {
      var last := |fired| - 1;
      var front, id := fired[..last], fired[last];
      FrontLawful(t, fired, env, n, now);
      GoneForGood(t, front, env, n, now);
      var s := After(t, front, env, n);
      var r := Fire(s, id, env, n + last);
      FireEvolves(s, id, env, n + last);
      EvolvesOn(t, s, r);
      SpentStays(s, r, front);
      DistinctConcat(s, front, [id]);
      assert fired == front + [id];
    }
  }

  lemma SpentStays<C>(s: Timers<C>, r: Timers<C>, ids: seq<nat>)
    requires Evolves(s, r) && AllSpent(s, ids)
    ensures AllSpent(r, ids)
  {
  }

  /** The operations a client may interleave; a pass carries the list it fires. */
  datatype Op<C> = Add(deadline: int, callback: C) | Cancel(id: nat) | RunDue(now: int, fired: seq<nat>)

  /** A run from an empty heap: the timers after it and the number of callbacks run. */
  ghost function Run<C>(ops: seq<Op<C>>, env: (C, nat) -> seq<Command<C>>): (r: (Timers<C>, nat)) {
    if ops == [] then (Timers(map[], 1), 0)
    else
      var (t, n) := Run(ops[..|ops| - 1], env);
      match ops[|ops| - 1]
      case Add(deadline, callback) => (Added(t, deadline, callback), n)
      case Cancel(id) => (Removed(t, id), n)
      case RunDue(now, fired) => (After(t, fired, env, n), n + |fired|)
  }

  /** Every pass of the run is one the heap can make: always the least due timer, until none is due. */
  ghost predicate Lawful<C>(ops: seq<Op<C>>, env: (C, nat) -> seq<Command<C>>) {
    forall k :: 0 <= k < |ops| && ops[k].RunDue? ==>
      var (t, n) := Run(ops[..k], env); Completes(t, ops[k].fired, env, n, ops[k].now)
  }

  /** All ids fired by a run, in firing order. */
  function FiredIn<C>(ops: seq<Op<C>>): (ids: seq<nat>) {
    if ops == [] then []
    else FiredIn(ops[..|ops| - 1]) + if ops[|ops| - 1].RunDue? then ops[|ops| - 1].fired else []
  }

  /** Over any run no timer fires twice, and none that fired is pending again. */
  lemma {:induction false} NoTimerFiresTwice<C>(ops: seq<Op<C>>, env: (C, nat) -> seq<Command<C>>)
    requires Lawful(ops, env)
    ensures var t := Run(ops, env).0;
            WellFormed(t) && AllSpent(t, FiredIn(ops)) && Distinct(FiredIn(ops))
    decreases |ops|
  {
    hide Lawful, After, LeastFirst, AllSpent, Distinct;
    if ops == [] {
      NoneFired(Run(ops, env).0);
    } else {
      var front := ops[..|ops| - 1];
      LawfulFront(ops, env);
      NoTimerFiresTwice(front, env);
      var t := Run(front, env).0;
      var r, fired := RunStep(ops, env);
      SpentStays(t, r, FiredIn(front));
      DistinctConcat(t, FiredIn(front), fired);
      SpentBoth(r, FiredIn(front), fired);
    }
  }

  lemma NoneFired<C>(t: Timers<C>)
    ensures AllSpent(t, []) && Distinct([])
  {
  }

  lemma SpentBoth<C>(t: Timers<C>, a: seq<nat>, b: seq<nat>)
    requires AllSpent(t, a) && AllSpent(t, b)
    ensures AllSpent(t, a + b)
  {
  }

  /** One operation: the timers evolve, and whatever it fires goes from not spent to spent. */
  lemma RunStep<C>(ops: seq<Op<C>>, env: (C, nat) -> seq<Command<C>>) returns (r: Timers<C>, fired: seq<nat>)
    requires ops != [] && Lawful(ops, env) && WellFormed(Run(ops[..|ops| - 1], env).0)
    ensures r == Run(ops, env).0 && fired == (if ops[|ops| - 1].RunDue? then ops[|ops| - 1].fired else [])
    ensures var t := Run(ops[..|ops| - 1], env).0;
            Evolves(t, r) && NoneSpent(t, fired) && AllSpent(r, fired) && Distinct(fired)
  {
    hide After, LeastFirst;
    var last := |ops| - 1;
    var (t, n) := Run(ops[..last], env);
    r, fired := Run(ops, env).0, if ops[last].RunDue? then ops[last].fired else [];
    if ops[last].RunDue? {
      GoneForGood(t, fired, env, n, ops[last].now);
    }
  }

  lemma LawfulFront<C>(ops: seq<Op<C>>, env: (C, nat) -> seq<Command<C>>)
    requires ops != [] && Lawful(ops, env)
    ensures Lawful(ops[..|ops| - 1], env)
  {
    var front := ops[..|ops| - 1];
    forall k | 0 <= k < |front| && front[k].RunDue?
      ensures var (t, n) := Run(front[..k], env); Completes(t, front[k].fired, env, n, front[k].now)
    {
      assert front[..k] == ops[..k] && front[k] == ops[k];
    }
  }

  /** A timer cancelled while pending never fires afterwards, whatever the rest of the run does. */
  lemma {:induction false} CancelledNeverFires<C>(ops: seq<Op<C>>, more: seq<Op<C>>, id: nat,
      env: (C, nat) -> seq<Command<C>>)
    requires Lawful(ops + [Cancel(id)] + more, env)
    requires id in Run(ops, env).0.pending
    ensures var t := Run(ops + [Cancel(id)] + more, env).0;
            WellFormed(t) && Spent(t, id)
    ensures id !in FiredIn(more)
    decreases |more|
  {
    hide Lawful, After, LeastFirst;
    var all := ops + [Cancel(id)] + more;
    if more == [] {
      LawfulPrefix(all, |ops|, env);
      assert all[..|ops|] == ops && all[..|all| - 1] == ops;
      NoTimerFiresTwice(ops, env);
    } else {
      var less := more[..|more| - 1];
      assert all[..|all| - 1] == ops + [Cancel(id)] + less && all[|all| - 1] == more[|more| - 1];
      LawfulFront(all, env);
      CancelledNeverFires(ops, less, id, env);
      var r, fired := RunStep(all, env);
    }
  }

  lemma {:induction false} LawfulPrefix<C>(ops: seq<Op<C>>, n: nat, env: (C, nat) -> seq<Command<C>>)
    requires n <= |ops| && Lawful(ops, env)
    ensures Lawful(ops[..n], env)
    decreases |ops| - n
  {
    if n < |ops| {
      LawfulPrefix(ops, n + 1, env);
      LawfulFront(ops[..n + 1], env);
      assert ops[..n + 1][..n] == ops[..n];
    } else {
      assert ops[..n] == ops;
    }
  }

  lemma {:induction false} RunEvolves<C>(ops: seq<Op<C>>, a: nat, k: nat, env: (C, nat) -> seq<Command<C>>)
    requires Lawful(ops, env) && a <= k <= |ops|
    ensures Evolves(Run(ops[..a], env).0, Run(ops[..k], env).0)
    decreases k - a
  {
    hide Lawful, After, LeastFirst;
    LawfulPrefix(ops, k, env);
    NoTimerFiresTwice(ops[..k], env);
    if a < k {
      RunEvolves(ops, a, k - 1, env);
      assert ops[..k][..k - 1] == ops[..k - 1];
      var r, fired := RunStep(ops[..k], env);
      EvolvesOn(Run(ops[..a], env).0, Run(ops[..k - 1], env).0, r);
    }
  }

  /**
   A timer fires on time. It is added at one moment of a run with some deadline. A
   later pass fires it only if the deadline has come, and a pass at or after the
   deadline leaves it fired or cancelled.
   */
  lemma FiresOnTime<C>(ops: seq<Op<C>>, a: nat, k: nat, env: (C, nat) -> seq<Command<C>>)
    requires Lawful(ops, env) && a < k < |ops| && ops[a].Add? && ops[k].RunDue?
    ensures var id := Run(ops[..a], env).0.nextId;
            && (id in ops[k].fired ==> ops[a].deadline <= ops[k].now)
            && (ops[a].deadline <= ops[k].now ==> id !in Run(ops[..k + 1], env).0.pending)
  {
    var id, timer := Run(ops[..a], env).0.nextId, Timer(ops[a].deadline, ops[a].callback);
    var (t, n) := Run(ops[..k], env);
    assert ops[..a + 1][..a] == ops[..a] && ops[..k + 1][..k] == ops[..k];
    AddedTimer(ops, a, env);
    RunEvolves(ops, a + 1, k, env);
    assert Completes(t, ops[k].fired, env, n, ops[k].now);
    hide Lawful, Run;
    FiredWhenDue(t, ops[k].fired, env, n, ops[k].now, id, timer);
  }

  lemma AddedTimer<C>(ops: seq<Op<C>>, a: nat, env: (C, nat) -> seq<Command<C>>)
    requires a < |ops| && ops[a].Add?
    ensures var t, r := Run(ops[..a], env).0, Run(ops[..a + 1], env).0;
            && r.nextId == t.nextId + 1 && t.nextId in r.pending
            && r.pending[t.nextId] == Timer(ops[a].deadline, ops[a].callback)
  {
    assert ops[..a + 1][..a] == ops[..a];
  }

  /** A pass over timers among which this one, if pending, is still as it was added. */
  lemma FiredWhenDue<C>(t: Timers<C>, fired: seq<nat>, env: (C, nat) -> seq<Command<C>>, n: nat, now: int,
                        id: nat, timer: Timer<C>)
    requires WellFormed(t) && Completes(t, fired, env, n, now) && id < t.nextId
    requires id in t.pending ==> t.pending[id] == timer
    ensures id in fired ==> timer.deadline <= now
    ensures timer.deadline <= now ==> id !in After(t, fired, env, n).pending
  {
    hide After;
    GoneForGood(t, fired, env, n, now);
    if id in fired {
      var q :| 0 <= q < |fired| && fired[q] == id;
      assert FiredWell(After(t, fired[..q], env, n), id, now);
      LawfulStart(t, fired, env, n, now, q);
      GoneForGood(t, fired[..q], env, n, now);
    }
  }

  /** Commands that schedule nothing at or before `now`. */
  ghost predicate OnlyLater<C>(commands: seq<Command<C>>, now: int) {
    forall k :: 0 <= k < |commands| && commands[k].Schedule? ==> commands[k].deadline > now
  }

  ghost function DueIds<C>(t: Timers<C>, now: int): set<nat> {
    set id | id in t.pending && t.pending[id].deadline <= now
  }

  lemma {:induction false} ObeyLater<C>(t: Timers<C>, commands: seq<Command<C>>, now: int)
    requires OnlyLater(commands, now)
    ensures DueIds(Obey(t, commands), now) <= DueIds(t, now)
    ensures forall id :: id in DueIds(Obey(t, commands), now) ==>
              Obey(t, commands).pending[id] == t.pending[id]
  {
    if commands != [] {
      var front := commands[..|commands| - 1];
      assert forall k :: 0 <= k < |front| ==> front[k] == commands[k];
      ObeyLater(t, front, now);
    }
  }

  /**
   Ties fire in the order the timers were added: when a timer fires, an older one with
   the same deadline is no longer pending, so it fired before or was cancelled.
   */
  lemma TiesInOrder<C>(t: Timers<C>, fired: seq<nat>, env: (C, nat) -> seq<Command<C>>, n: nat, now: int,
                       q: nat, older: nat)
    requires WellFormed(t) && LeastFirst(t, fired, env, n, now) && q < |fired|
    requires older in t.pending && fired[q] in t.pending && older < fired[q]
    requires t.pending[older].deadline == t.pending[fired[q]].deadline
    ensures older !in After(t, fired[..q], env, n).pending
  {
    var s := After(t, fired[..q], env, n);
    assert FiredWell(s, fired[q], now);
    LawfulStart(t, fired, env, n, now, q);
    GoneForGood(t, fired[..q], env, n, now);
    LeastMeans(s, fired[q]);
  }

  lemma LawfulStart<C>(t: Timers<C>, fired: seq<nat>, env: (C, nat) -> seq<Command<C>>, n: nat, now: int, q: nat)
    requires LeastFirst(t, fired, env, n, now) && q <= |fired|
    ensures LeastFirst(t, fired[..q], env, n, now)
  {
    hide After, FiredWell;
    forall k | 0 <= k < q
      ensures FiredWell(After(t, fired[..q][..k], env, n), fired[..q][k], now)
    {
      assert fired[..q][..k] == fired[..k];
    }
  }

  /** When callbacks add only later timers, a pass fires in strictly increasing (deadline, id) order. */
  lemma FiringOrder<C>(t: Timers<C>, fired: seq<nat>, env: (C, nat) -> seq<Command<C>>, n: nat, now: int, k: nat)
    requires WellFormed(t) && LeastFirst(t, fired, env, n, now) && k + 1 < |fired|
    requires forall c, i :: OnlyLater(env(c, i), now)
    ensures var s := After(t, fired[..k], env, n);
            && fired[k] in s.pending && fired[k + 1] in s.pending
            && (s.pending[fired[k]].deadline < s.pending[fired[k + 1]].deadline
                || (s.pending[fired[k]].deadline == s.pending[fired[k + 1]].deadline && fired[k] < fired[k + 1]))
            && After(t, fired[..k + 1], env, n).pending[fired[k + 1]] == s.pending[fired[k + 1]]
  {
    var s := After(t, fired[..k], env, n);
    var r := After(t, fired[..k + 1], env, n);
    assert fired[..k + 1][..k] == fired[..k];
    assert r == Fire(s, fired[k], env, n + k);
    assert FiredWell(s, fired[k], now) && FiredWell(r, fired[k + 1], now);
    var cut := Removed(s, fired[k]);
    assert OnlyLater(env(s.pending[fired[k]].callback, n + k), now);
    ObeyLater(cut, env(s.pending[fired[k]].callback, n + k), now);
    assert fired[k + 1] in DueIds(r, now);
  }

  // ------------------------------------------------------------ a pass is determined, and when it ends

  /** Firing these ids one after another leaves nothing due. */
  ghost predicate Completes<C>(t: Timers<C>, fired: seq<nat>, env: (C, nat) -> seq<Command<C>>, n: nat, now: int) {
    Pass(t, fired, env, n, now, After(t, fired, env, n))
  }

  /** Some finite pass exists. */
  ghost predicate Ends<C>(t: Timers<C>, env: (C, nat) -> seq<Command<C>>, n: nat, now: int) {
    exists fired :: Completes(t, fired, env, n, now)
  }

  /** As long as some least timer is due, a complete pass goes on with exactly that one. */
  lemma PassFiresLeast<C>(t: Timers<C>, fired: seq<nat>, env: (C, nat) -> seq<Command<C>>, n: nat, now: int, k: nat,
      id: nat)
    requires Completes(t, fired, env, n, now) && k <= |fired| && FiredWell(After(t, fired[..k], env, n), id, now)
    ensures k < |fired| && fired[k] == id
  {
    hide After;
    assert fired[..|fired|] == fired;
    if k < |fired| {
      assert FiredWell(After(t, fired[..k], env, n), fired[k], now);
      LeastIsUnique(After(t, fired[..k], env, n), fired[k], id);
    }
  }

  lemma {:induction false} PassesAgree<C>(t: Timers<C>, f: seq<nat>, g: seq<nat>, env: (C, nat) -> seq<Command<C>>,
      n: nat, now: int, k: nat)
    requires Completes(t, f, env, n, now) && Completes(t, g, env, n, now) && k <= |f|
    ensures k <= |g| && f[..k] == g[..k]
    decreases k
  {
    hide After;
    if k > 0 {
      PassesAgree(t, f, g, env, n, now, k - 1);
      assert FiredWell(After(t, f[..k - 1], env, n), f[k - 1], now);
      PassFiresLeast(t, g, env, n, now, k - 1, f[k - 1]);
    }
  }

  /** There is at most one complete pass: which timers fire, and in which order, is determined. */
  lemma PassIsUnique<C>(t: Timers<C>, f: seq<nat>, g: seq<nat>, env: (C, nat) -> seq<Command<C>>, n: nat, now: int)
    requires Completes(t, f, env, n, now) && Completes(t, g, env, n, now)
    ensures f == g
  {
    hide Completes;
    PassesAgree(t, f, g, env, n, now, |f|);
    PassesAgree(t, g, f, env, n, now, |g|);
    assert f[..|f|] == f && g[..|g|] == g;
  }

  /** A nonempty set of pending timers has a least one. */
  lemma {:induction false} LeastExists<C>(t: Timers<C>) returns (least: nat)
    requires t.pending.Keys != {}
    ensures IsLeast(t, least)
    decreases |t.pending.Keys|
  {
    var id :| id in t.pending.Keys;
    var rest := Removed(t, id);
    assert rest.pending.Keys == t.pending.Keys - {id};
    if rest.pending.Keys == {} {
      least := id;
      assert t.pending.Keys == {id};
    } else {
      var other := LeastExists(rest);
      least := if Later(EntryOf(t, other), EntryOf(t, id)) then id else other;
      forall j | j in t.pending
        ensures !Later(EntryOf(t, least), EntryOf(t, j))
      {
        if j != id { assert j in rest.pending && !Later(EntryOf(rest, other), EntryOf(rest, j)); }
      }
    }
  }

  lemma {:induction false} FireFirst<C>(t: Timers<C>, id: nat, more: seq<nat>, env: (C, nat) -> seq<Command<C>>, n: nat)
    ensures After(t, [id] + more, env, n) == After(Fire(t, id, env, n), more, env, n + 1)
    decreases |more|
  {
    hide Fire;
    var all := [id] + more;
    if more == [] {
      assert all[..0] == [];
    } else {
      var last := |more| - 1;
      assert all[..|all| - 1] == [id] + more[..last];
      FireFirst(t, id, more[..last], env, n);
    }
  }

  /** A pass that fires the least due timer first and then completes is complete. */
  lemma OneMoreFirst<C>(t: Timers<C>, id: nat, more: seq<nat>, env: (C, nat) -> seq<Command<C>>, n: nat, now: int)
    requires FiredWell(t, id, now) && Completes(Fire(t, id, env, n), more, env, n + 1, now)
    ensures Completes(t, [id] + more, env, n, now)
  {
    hide Fire, After, FiredWell;
    var all := [id] + more;
    FireFirst(t, id, more, env, n);
    forall k | 0 <= k < |all|
      ensures FiredWell(After(t, all[..k], env, n), all[k], now)
    {
      if k == 0 {
        NoneFiredYet(t, all, env, n);
      } else {
        assert all[..k] == [id] + more[..k - 1];
        FireFirst(t, id, more[..k - 1], env, n);
        assert FiredWell(After(Fire(t, id, env, n), more[..k - 1], env, n + 1), more[k - 1], now);
      }
    }
  }

  lemma NoneFiredYet<C>(t: Timers<C>, fired: seq<nat>, env: (C, nat) -> seq<Command<C>>, n: nat)
    ensures After(t, fired[..0], env, n) == t
  {
  }

  /** From the given callback on, callbacks add only timers later than `now`. */
  ghost predicate QuietFrom<C(!new)>(env: (C, nat) -> seq<Command<C>>, from: nat, now: int) {
    forall c: C, k: nat :: k >= from ==> OnlyLater(env(c, k), now)
  }

  /** A pass ends as soon as callbacks stop adding due timers. */
  lemma {:induction false} QuietEnds<C(!new)>(t: Timers<C>, env: (C, nat) -> seq<Command<C>>, n: nat, quiet: nat,
      now: int)
    requires QuietFrom(env, n + quiet, now)
    ensures Ends(t, env, n, now)
    decreases quiet, |DueIds(t, now)|
  {
    hide After, Obey, IsLeast, QuietFrom, Completes;
    if t.pending.Keys == {} {
      NothingToFire(t, env, n, now);
    } else {
      var id := LeastExists(t);
      LeastDue(t, id, now);
      if t.pending[id].deadline > now {
        NothingToFire(t, env, n, now);
      } else {
        var r := Fire(t, id, env, n);
        if quiet > 0 {
          QuietEnds(r, env, n + 1, quiet - 1, now);
        } else {
          FewerDue(t, id, env, n, now);
          QuietLater(env, n, n + 1, now);
          QuietEnds(r, env, n + 1, 0, now);
        }
        var more :| Completes(r, more, env, n + 1, now);
        OneMoreFirst(t, id, more, env, n, now);
      }
    }
  }

  lemma LeastDue<C>(t: Timers<C>, id: nat, now: int)
    requires IsLeast(t, id)
    ensures id in t.pending
    ensures t.pending[id].deadline > now ==> forall j :: j in t.pending ==> !IsDue(t, j, now)
  {
    if t.pending[id].deadline > now {
      forall j | j in t.pending
        ensures !IsDue(t, j, now)
      {
        assert !Later(EntryOf(t, id), EntryOf(t, j));
      }
    }
  }

  lemma NothingToFire<C>(t: Timers<C>, env: (C, nat) -> seq<Command<C>>, n: nat, now: int)
    requires forall j :: j in t.pending ==> !IsDue(t, j, now)
    ensures Ends(t, env, n, now)
  {
    assert Completes(t, [], env, n, now);
  }

  lemma FewerDue<C(!new)>(t: Timers<C>, id: nat, env: (C, nat) -> seq<Command<C>>, n: nat, now: int)
    requires QuietFrom(env, n, now) && IsDue(t, id, now)
    ensures |DueIds(Fire(t, id, env, n), now)| < |DueIds(t, now)|
  {
    var callback := t.pending[id].callback;
    assert OnlyLater(env(callback, n), now);
    ObeyLater(Removed(t, id), env(callback, n), now);
    assert DueIds(Removed(t, id), now) <= DueIds(t, now) - {id};
    SmallerSet(DueIds(Fire(t, id, env, n), now), DueIds(t, now), id);
  }

  lemma QuietLater<C(!new)>(env: (C, nat) -> seq<Command<C>>, from: nat, later: nat, now: int)
    requires QuietFrom(env, from, now) && from <= later
    ensures QuietFrom(env, later, now)
  {
  }

  lemma SmallerSet(a: set<nat>, b: set<nat>, x: nat)
    requires a <= b - {x} && x in b
    ensures |a| < |b|
  {
    SubsetCard(a, b - {x});
  }

  lemma {:induction false} SubsetCard(a: set<nat>, b: set<nat>)
    requires a <= b
    ensures |a| <= |b|
    decreases b
  {
    if b != {} {
      var x :| x in b;
      SubsetCard(a - {x}, b - {x});
    }
  }

  /** A timer that re-adds itself no later than `now` keeps every pass going: no finite pass exists. */
  lemma SelfReaddNeverEnds(now: int, fired: seq<nat>)
    ensures var t := Timers(map[1 := Timer(now, 0)], 2);
            var env := (c: int, n: nat) => [Schedule(now, 0)];
            forall r :: !Pass(t, fired, env, 0, now, r)
  {
    var t := Timers(map[1 := Timer(now, 0)], 2);
    var env := (c: int, n: nat) => [Schedule(now, 0)];
    if LeastFirst(t, fired, env, 0, now) {
      OneForever(now, fired, env);
      var r := After(t, fired, env, 0);
      assert IsDue(r, |fired| + 1, now);
    }
  }

  lemma {:induction false} OneForever(now: int, fired: seq<nat>, env: (int, nat) -> seq<Command<int>>)
    requires forall c, n :: env(c, n) == [Schedule(now, 0)]
    requires LeastFirst(Timers(map[1 := Timer(now, 0)], 2), fired, env, 0, now)
    ensures After(Timers(map[1 := Timer(now, 0)], 2), fired, env, 0) ==
            Timers(map[|fired| + 1 := Timer(now, 0)], |fired| + 2)
    decreases |fired|
  {
    var t := Timers(map[1 := Timer(now, 0)], 2);
    if fired != [] {
      var last := |fired| - 1;
      var front := fired[..last];
      forall k | 0 <= k < |front|
        ensures FiredWell(After(t, front[..k], env, 0), front[k], now)
      {
        assert front[..k] == fired[..k];
      }
      OneForever(now, front, env);
      var s := After(t, front, env, 0);
      assert FiredWell(s, fired[last], now);
      assert fired[last] == last + 1;
      var cut := Removed(s, fired[last]);
      assert cut.pending == map[];
      assert env(0, last)[..0] == [];
      assert Obey(cut, env(0, last)) == Added(cut, now, 0);
    }
  }
}
