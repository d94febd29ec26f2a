/**
 Run queues of the GPU scheduler: drm_sched_rq_add_entity, drm_sched_rq_remove_entity,
 drm_sched_rq_select_entity and drm_sched_select_entity (scheduler/sched_main.c).
 */
module RunQueue {
  import opened JobDeps

  // ---------------------------------------------------------------- round robin

  ghost predicate Distinct(s: seq<nat>) {
    forall i, j :: 0 <= i < j < |s| ==> s[i] != s[j]
  }

  /** The first entity that is ready. */
  function FirstReady(s: seq<nat>, ready: set<nat>): Option<nat> {
    if s == [] then None else if s[0] in ready then Some(s[0]) else FirstReady(s[1..], ready)
  }

  function IndexOf(s: seq<nat>, e: nat): (i: nat)
    requires e in s
    ensures i < |s| && s[i] == e && forall k :: 0 <= k < i ==> s[k] != e
  {
    if s[0] == e then 0 else 1 + IndexOf(s[1..], e)
  }

  /** The order in which a queue is searched: from behind the current entity all around to it. */
  function SearchOrder(entities: seq<nat>, current: Option<nat>): seq<nat>
    requires current.Some? ==> current.value in entities
  {
    if current == None then entities
    else
      var k := IndexOf(entities, current.value);
      entities[k + 1..] + entities[..k + 1]
  }

  lemma {:induction false} FirstReadyIs(s: seq<nat>, ready: set<nat>)
    ensures FirstReady(s, ready) == None <==> forall i :: 0 <= i < |s| ==> s[i] !in ready
    ensures FirstReady(s, ready).Some? ==>
              exists i :: 0 <= i < |s| && s[i] == FirstReady(s, ready).value && s[i] in ready
                          && forall k :: 0 <= k < i ==> s[k] !in ready
  {
    if s != [] && s[0] !in ready {
      FirstReadyIs(s[1..], ready);
      if FirstReady(s, ready).Some? {
        var i :| 0 <= i < |s[1..]| && s[1..][i] == FirstReady(s, ready).value && s[1..][i] in ready
                 && forall k :: 0 <= k < i ==> s[1..][k] !in ready;
        assert s[i + 1] == FirstReady(s, ready).value;
        forall k | 0 <= k < i + 1 ensures s[k] !in ready {
          if k > 0 {
            assert s[k] == s[1..][k - 1];
          }
        }
      }
    }
  }

  lemma {:induction false} FirstReadyJoin(a: seq<nat>, b: seq<nat>, ready: set<nat>)
    ensures FirstReady(a + b, ready) ==
            if FirstReady(a, ready).Some? then FirstReady(a, ready) else FirstReady(b, ready)
  {
    if a == [] {
      assert a + b == b;
    } else {
      assert (a + b)[1..] == a[1..] + b;
      FirstReadyJoin(a[1..], b, ready);
    }
  }

  lemma SearchOrderHasAll(entities: seq<nat>, current: Option<nat>, e: nat)
    requires current.Some? ==> current.value in entities
    ensures e in SearchOrder(entities, current) <==> e in entities
  {
    if current.Some? {
      var k := IndexOf(entities, current.value);
      assert entities == entities[..k + 1] + entities[k + 1..];
    }
  }

  /** Selection returns none only if no listed entity is ready. */
  lemma SelectionIsComplete(entities: seq<nat>, current: Option<nat>, ready: set<nat>)
    requires current.Some? ==> current.value in entities
    ensures var chosen := FirstReady(SearchOrder(entities, current), ready);
            && (chosen == None <==> forall e :: e in entities ==> e !in ready)
            && (chosen.Some? ==> chosen.value in entities && chosen.value in ready)
  {
    var order := SearchOrder(entities, current);
    FirstReadyIs(order, ready);
    forall e ensures e in order <==> e in entities {
      SearchOrderHasAll(entities, current, e);
    }
    if FirstReady(order, ready).None? {
      forall e | e in entities ensures e !in ready {
        assert e in order;
        var i :| 0 <= i < |order| && order[i] == e;
      }
    }
  }

  // ---------------------------------------------------------------- fairness

  /** How many entities are looked at before `e`. */
  function Distance(entities: seq<nat>, current: Option<nat>, e: nat): nat
    requires e in entities && (current.Some? ==> current.value in entities)
  {
    SearchOrderHasAll(entities, current, e);
    IndexOf(SearchOrder(entities, current), e)
  }

  /** The current entity after a selection. */
  function Selected(entities: seq<nat>, current: Option<nat>, ready: set<nat>): Option<nat>
    requires current.Some? ==> current.value in entities
  {
    var chosen := FirstReady(SearchOrder(entities, current), ready);
    if chosen.Some? then chosen else current
  }

  lemma DistinctIndex(s: seq<nat>, i: nat)
    requires Distinct(s) && i < |s|
    ensures IndexOf(s, s[i]) == i
  {
  }

  lemma SearchOrderDistinct(entities: seq<nat>, current: Option<nat>)
    requires Distinct(entities) && (current.Some? ==> current.value in entities)
    ensures Distinct(SearchOrder(entities, current)) && |SearchOrder(entities, current)| == |entities|
  {
  }

  /** The position before the one searched first. */
  function Position(entities: seq<nat>, current: Option<nat>): int
    requires current.Some? ==> current.value in entities
  {
    if current == None then -1 else IndexOf(entities, current.value)
  }

  /** The `q`-th position to be searched, in a queue of `n`. */
  function Around(k: int, q: nat, n: nat): int {
    if k + 1 + q < n then k + 1 + q else k + 1 + q - n
  }

  lemma SearchOrderAt(entities: seq<nat>, current: Option<nat>, q: nat)
    requires (current.Some? ==> current.value in entities) && q < |entities|
    ensures |SearchOrder(entities, current)| == |entities|
    ensures 0 <= Around(Position(entities, current), q, |entities|) < |entities|
    ensures SearchOrder(entities, current)[q] == entities[Around(Position(entities, current), q, |entities|)]
  {
  }

  lemma AroundTwice(k: int, i: nat, p: nat, n: nat)
    requires -1 <= k < n && i < p < n
    ensures Around(Around(k, i, n), p - i - 1, n) == Around(k, p, n)
  {
  }

  lemma SearchIndex(entities: seq<nat>, current: Option<nat>, i: nat)
    requires Distinct(entities) && (current.Some? ==> current.value in entities)
    requires i < |entities| == |SearchOrder(entities, current)|
    ensures SearchOrder(entities, current)[i] in entities
    ensures Position(entities, Some(SearchOrder(entities, current)[i])) ==
            Around(Position(entities, current), i, |entities|)
  {
    SearchOrderAt(entities, current, i);
    DistinctIndex(entities, Around(Position(entities, current), i, |entities|));
  }

  /** The search order after choosing the entity at `i` starts where the old one was left. */
  lemma SearchOrderRotates(entities: seq<nat>, current: Option<nat>, c: nat, i: nat, p: nat)
    requires (current.Some? ==> current.value in entities) && c in entities && i < p < |entities|
    requires Position(entities, Some(c)) == Around(Position(entities, current), i, |entities|)
    ensures |SearchOrder(entities, Some(c))| == |entities| == |SearchOrder(entities, current)|
    ensures SearchOrder(entities, Some(c))[p - i - 1] == SearchOrder(entities, current)[p]
  {
    var n := |entities|;
    SearchOrderAt(entities, current, p);
    SearchOrderAt(entities, Some(c), p - i - 1);
    AroundTwice(Position(entities, current), i, p, n);
  }

  lemma ChosenIsBefore(order: seq<nat>, ready: set<nat>, e: nat) returns (i: nat)
    requires e in order && e in ready
    ensures FirstReady(order, ready).Some? && i < |order|
    ensures order[i] == FirstReady(order, ready).value && order[i] in ready
    ensures i <= IndexOf(order, e)
  {
    FirstReadyIs(order, ready);
    assert order[IndexOf(order, e)] in ready;
    i :| 0 <= i < |order| && order[i] == FirstReady(order, ready).value && order[i] in ready
         && forall k :: 0 <= k < i ==> order[k] !in ready;
  }

  lemma ComesCloser(entities: seq<nat>, current: Option<nat>, c: nat, i: nat, p: nat)
    requires Distinct(entities) && (current.Some? ==> current.value in entities) && c in entities
    requires i < p < |SearchOrder(entities, current)| && SearchOrder(entities, current)[i] == c
    ensures SearchOrder(entities, current)[p] in SearchOrder(entities, Some(c))
    ensures IndexOf(SearchOrder(entities, Some(c)), SearchOrder(entities, current)[p]) == p - i - 1
  {
    SearchOrderDistinct(entities, current);
    SearchOrderDistinct(entities, Some(c));
    SearchIndex(entities, current, i);
    SearchOrderRotates(entities, current, c, i, p);
    DistinctIndex(SearchOrder(entities, Some(c)), p - i - 1);
  }

  /** While `e` is ready it is chosen, or somebody before it is and its distance shrinks. */
  lemma ReadyComesCloser(entities: seq<nat>, current: Option<nat>, ready: set<nat>, e: nat)
    requires Distinct(entities) && (current.Some? ==> current.value in entities) && e in entities && e in ready
    ensures var next := Selected(entities, current, ready);
            && next.Some? && next.value in entities && next.value in ready
            && (next == Some(e) || Distance(entities, next, e) < Distance(entities, current, e))
  {
    SearchOrderHasAll(entities, current, e);
    var order := SearchOrder(entities, current);
    var i := ChosenIsBefore(order, ready, e);
    var c, p := order[i], IndexOf(order, e);
    SearchOrderHasAll(entities, current, c);
    if c != e {
      ComesCloser(entities, current, c, i, p);
    }
  }

  /** The current entity after each of a series of selections. */
  function Currents(entities: seq<nat>, current: Option<nat>, readies: seq<set<nat>>): (r: seq<Option<nat>>)
    requires current.Some? ==> current.value in entities
    ensures |r| == |readies|
    decreases |readies|
  {
    if readies == [] then []
    else
      SelectionIsComplete(entities, current, readies[0]);
      var next := Selected(entities, current, readies[0]);
      [next] + Currents(entities, next, readies[1..])
  }

  lemma {:induction false} ChosenWithinDistance(
      entities: seq<nat>, current: Option<nat>, readies: seq<set<nat>>, e: nat)
    requires Distinct(entities) && (current.Some? ==> current.value in entities) && e in entities
    requires forall i :: 0 <= i < |readies| ==> e in readies[i]
    requires |readies| > Distance(entities, current, e)
    ensures Some(e) in Currents(entities, current, readies)
    decreases |readies|
  {
    ReadyComesCloser(entities, current, readies[0], e);
    var next := Selected(entities, current, readies[0]);
    var rest := Currents(entities, next, readies[1..]);
    assert Currents(entities, current, readies) == [next] + rest;
    if next != Some(e) {
      ChosenWithinDistance(entities, next, readies[1..], e);
      assert Some(e) in rest;
    }
  }

  /** Fairness: with n fixed members, an entity that stays ready is chosen within n selections,
      whatever else becomes ready or stops being so. */
  lemma ReadyIsChosenWithinN(entities: seq<nat>, current: Option<nat>, readies: seq<set<nat>>, e: nat)
    requires Distinct(entities) && (current.Some? ==> current.value in entities) && e in entities
    requires |readies| == |entities| && forall i :: 0 <= i < |readies| ==> e in readies[i]
    ensures exists i :: 0 <= i < |readies| && Currents(entities, current, readies)[i] == Some(e)
  {
    SearchOrderDistinct(entities, current);
    ChosenWithinDistance(entities, current, readies, e);
    var r := Currents(entities, current, readies);
    var i :| 0 <= i < |r| && r[i] == Some(e);
  }

  // ---------------------------------------------------------------- queues by priority

  /** A run queue as a value. */
  datatype Rq = Rq(entities: seq<nat>, current: Option<nat>)

  ghost predicate RqOk(q: Rq) {
    Distinct(q.entities) && (q.current.Some? ==> q.current.value in q.entities)
  }

  ghost predicate RqsOk(rqs: seq<Rq>) {
    forall i :: 0 <= i < |rqs| ==> RqOk(rqs[i])
  }

  predicate AnyReady(entities: seq<nat>, ready: set<nat>) {
    exists e :: e in entities && e in ready
  }

  /** One call of drm_sched_select_entity: which entities are ready, and whether drm_sched_ready says
      that the hardware can take a job. */
  datatype Call = Call(ready: set<nat>, canPush: bool)

  /** The highest of the first `n` queues that has a ready entity, -1 for none. */
  function TopReady(rqs: seq<Rq>, call: Call, n: nat): (level: int)
    requires n <= |rqs|
    ensures -1 <= level < n
  {
    if n == 0 || !call.canPush then -1
    else if AnyReady(rqs[n - 1].entities, call.ready) then n - 1
    else TopReady(rqs, call, n - 1)
  }

  ghost function Choose(rqs: seq<Rq>, call: Call): Option<nat>
    requires RqsOk(rqs)
  {
    var l := TopReady(rqs, call, |rqs|);
    if l < 0 then None else FirstReady(SearchOrder(rqs[l].entities, rqs[l].current), call.ready)
  }

  /** The chosen entity becomes the current one of its queue. */
  ghost function AfterChoice(rqs: seq<Rq>, call: Call): seq<Rq>
    requires RqsOk(rqs)
  {
    var l := TopReady(rqs, call, |rqs|);
    if l < 0 then rqs else rqs[l := rqs[l].(current := Choose(rqs, call))]
  }

  lemma {:induction false} TopReadyIs(rqs: seq<Rq>, call: Call, n: nat)
    requires n <= |rqs|
    ensures var l := TopReady(rqs, call, n);
            && (l >= 0 ==> call.canPush && AnyReady(rqs[l].entities, call.ready))
            && forall k :: 0 <= l < k < n ==> !AnyReady(rqs[k].entities, call.ready)
    ensures TopReady(rqs, call, n) < 0 <==>
              !call.canPush || forall k :: 0 <= k < n ==> !AnyReady(rqs[k].entities, call.ready)
  {
    if n > 0 && call.canPush && !AnyReady(rqs[n - 1].entities, call.ready) {
      TopReadyIs(rqs, call, n - 1);
    }
  }

  lemma ChoiceIsSound(rqs: seq<Rq>, call: Call)
    requires RqsOk(rqs)
    ensures var l := TopReady(rqs, call, |rqs|);
            && (Choose(rqs, call).Some? <==> l >= 0)
            && (l >= 0 ==> Choose(rqs, call).value in rqs[l].entities && Choose(rqs, call).value in call.ready)
    ensures RqsOk(AfterChoice(rqs, call)) && |AfterChoice(rqs, call)| == |rqs|
    ensures forall i :: 0 <= i < |rqs| ==> AfterChoice(rqs, call)[i].entities == rqs[i].entities
  {
    var l := TopReady(rqs, call, |rqs|);
    TopReadyIs(rqs, call, |rqs|);
    if l >= 0 {
      SelectionIsComplete(rqs[l].entities, rqs[l].current, call.ready);
    }
  }

  /** What a series of calls chooses. */
  ghost function Choices(rqs: seq<Rq>, calls: seq<Call>): seq<Option<nat>>
    requires RqsOk(rqs)
    decreases |calls|
  {
    if calls == [] then []
    else
      ChoiceIsSound(rqs, calls[0]);
      [Choose(rqs, calls[0])] + Choices(AfterChoice(rqs, calls[0]), calls[1..])
  }

  /** How many of the calls choose from queue `l`. */
  ghost function Served(rqs: seq<Rq>, calls: seq<Call>, l: nat): nat
    requires RqsOk(rqs)
    decreases |calls|
  {
    if calls == [] then 0
    else
      ChoiceIsSound(rqs, calls[0]);
      (if TopReady(rqs, calls[0], |rqs|) == l then 1 else 0) + Served(AfterChoice(rqs, calls[0]), calls[1..], l)
  }

  lemma {:induction false} ChosenAmongQueues(rqs: seq<Rq>, calls: seq<Call>, l: nat, e: nat)
    requires RqsOk(rqs) && l < |rqs| && e in rqs[l].entities
    requires forall i :: 0 <= i < |calls| ==> e in calls[i].ready
    requires Served(rqs, calls, l) > Distance(rqs[l].entities, rqs[l].current, e)
    ensures Some(e) in Choices(rqs, calls)
    decreases |calls|
  {
    var rqs' := AfterChoice(rqs, calls[0]);
    ChoiceIsSound(rqs, calls[0]);
    assert e in calls[0].ready;
    assert Choices(rqs, calls) == [Choose(rqs, calls[0])] + Choices(rqs', calls[1..]);
    if TopReady(rqs, calls[0], |rqs|) == l {
      ReadyComesCloser(rqs[l].entities, rqs[l].current, calls[0].ready, e);
    }
    if Choose(rqs, calls[0]) != Some(e) {
      ChosenAmongQueues(rqs', calls[1..], l, e);
      assert Some(e) in Choices(rqs', calls[1..]);
    }
  }

  /** Fairness of drm_sched_select_entity: an entity that stays ready in a queue of n is chosen within n
      of the calls that get down to its queue. */
  lemma ServedWithinN(rqs: seq<Rq>, calls: seq<Call>, l: nat, e: nat)
    requires RqsOk(rqs) && l < |rqs| && e in rqs[l].entities
    requires forall i :: 0 <= i < |calls| ==> e in calls[i].ready
    requires Served(rqs, calls, l) >= |rqs[l].entities|
    ensures Some(e) in Choices(rqs, calls)
  {
    SearchOrderDistinct(rqs[l].entities, rqs[l].current);
    ChosenAmongQueues(rqs, calls, l, e);
  }

  /** If no queue above its own ever has anything ready, those are just the next n calls. */
  lemma {:induction false} HighestIsServed(rqs: seq<Rq>, calls: seq<Call>, l: nat, e: nat)
    requires RqsOk(rqs) && l < |rqs| && e in rqs[l].entities
    requires forall i :: 0 <= i < |calls| ==> e in calls[i].ready && calls[i].canPush
    requires forall i, k :: 0 <= i < |calls| && l < k < |rqs| ==> !AnyReady(rqs[k].entities, calls[i].ready)
    ensures Served(rqs, calls, l) == |calls|
    decreases |calls|
  {
    if calls != [] {
      ChoiceIsSound(rqs, calls[0]);
      TopReadyIs(rqs, calls[0], |rqs|);
      assert e in calls[0].ready && AnyReady(rqs[l].entities, calls[0].ready);
      var rqs' := AfterChoice(rqs, calls[0]);
      forall i, k | 0 <= i < |calls[1..]| && l < k < |rqs'| ensures !AnyReady(rqs'[k].entities, calls[1..][i].ready) {
        assert !AnyReady(rqs[k].entities, calls[i + 1].ready);
      }
      HighestIsServed(rqs', calls[1..], l, e);
    }
  }

  /** The list without `e`, in the same order. */
  function Without(s: seq<nat>, e: nat): seq<nat> {
    if s == [] then [] else if s[0] == e then Without(s[1..], e) else [s[0]] + Without(s[1..], e)
  }

  lemma {:induction false} WithoutAbsent(s: seq<nat>, e: nat)
    requires e !in s
    ensures Without(s, e) == s
  {
    if s != [] {
      WithoutAbsent(s[1..], e);
    }
  }

  lemma {:induction false} WithoutCuts(s: seq<nat>, e: nat)
    requires Distinct(s) && e in s
    ensures Without(s, e) == s[..IndexOf(s, e)] + s[IndexOf(s, e) + 1..]
  {
    if s[0] == e {
      WithoutAbsent(s[1..], e);
    } else {
      WithoutCuts(s[1..], e);
      var i := IndexOf(s[1..], e);
      assert s[..i + 1] == [s[0]] + s[1..][..i] && s[i + 2..] == s[1..][i + 1..];
    }
  }

  lemma {:induction false} WithoutHas(s: seq<nat>, e: nat, x: nat)
    ensures x in Without(s, e) <==> x in s && x != e
  {
    if s != [] {
      WithoutHas(s[1..], e, x);
    }
  }

  lemma {:induction false} WithoutDistinct(s: seq<nat>, e: nat)
    requires Distinct(s)
    ensures Distinct(Without(s, e))
  {
    if s != [] {
      WithoutDistinct(s[1..], e);
      WithoutHas(s[1..], e, s[0]);
    }
  }

  // ---------------------------------------------------------------- the queue

  class Queue {
    var entities: seq<nat>
    var current: Option<nat>

    /** No entity is listed twice, and the current entity, if any, is listed. */
    ghost predicate Valid()
      reads this
    {
      Distinct(entities) && (current.Some? ==> current.value in entities)
    }

    constructor ()
      ensures Valid() && entities == [] && current == None
    {
      entities, current := [], None;
    }

    /** drm_sched_rq_add_entity. */
    method AddEntity(e: nat)
      requires Valid()
      modifies this
      ensures Valid() && current == old(current)
      ensures entities == if e in old(entities) then old(entities) else old(entities) + [e]
    {
      if e !in entities {
        entities := entities + [e];
      }
    }

    /** drm_sched_rq_remove_entity. */
    method RemoveEntity(e: nat)
      requires Valid()
      modifies this
      ensures Valid() && entities == Without(old(entities), e)
      ensures current == if old(current) == Some(e) then None else old(current)
    {
      WithoutDistinct(entities, e);
      if e !in entities {
        WithoutAbsent(entities, e);
        return;
      }
      WithoutCuts(entities, e);
      if current.Some? {
        WithoutHas(entities, e, current.value);
      }
      var i := IndexOf(entities, e);
      entities := entities[..i] + entities[i + 1..];
      if current == Some(e) {
        current := None;
      }
    }

    /** drm_sched_rq_select_entity. */
    method Select(ready: set<nat>) returns (chosen: Option<nat>)
      requires Valid()
      modifies `current
      ensures Valid()
      ensures chosen == FirstReady(SearchOrder(entities, old(current)), ready)
      ensures chosen == None <==> forall e :: e in entities ==> e !in ready
      ensures current == if chosen.Some? then chosen else old(current)
    {
      SelectionIsComplete(entities, current, ready);
      var k := 0;
      if current.Some? {
        k := IndexOf(entities, current.value) + 1;
        FirstReadyJoin(entities[k..], entities[..k], ready);
        var i := k;
        while i < |entities|
          invariant k <= i <= |entities|
          invariant FirstReady(entities[k..], ready) == FirstReady(entities[i..], ready)
        {
          assert entities[i..][1..] == entities[i + 1..];
          if entities[i] in ready {
            chosen := Some(entities[i]);
            current := chosen;
            return;
          }
          i := i + 1;
        }
      } else {
        k := |entities|;
        assert entities[..k] == entities;
      }
      var i := 0;
      assert entities[..k][0..] == entities[..k];
      while i < k
        invariant 0 <= i <= k
        invariant FirstReady(entities[..k], ready) == FirstReady(entities[..k][i..], ready)
      {
        assert entities[..k][i..][1..] == entities[..k][i + 1..];
        if entities[i] in ready {
          chosen := Some(entities[i]);
          current := chosen;
          return;
        }
        i := i + 1;
      }
      return None;
    }
  }

  ghost function Values(rqs: seq<Queue>): (r: seq<Rq>)
    reads rqs
    ensures |r| == |rqs| && forall i :: 0 <= i < |r| ==> r[i] == Rq(rqs[i].entities, rqs[i].current)
  {
    seq(|rqs|, i requires 0 <= i < |rqs| reads rqs => Rq(rqs[i].entities, rqs[i].current))
  }

  /** A turn of the loop. */
  method TryQueue(rqs: seq<Queue>, i: nat, ready: set<nat>) returns (chosen: Option<nat>)
    requires i < |rqs| && forall k :: 0 <= k < |rqs| ==> rqs[k].Valid()
    requires forall k, m :: 0 <= k < m < |rqs| ==> rqs[k] != rqs[m]
    modifies rqs
    ensures forall k :: 0 <= k < |rqs| ==> rqs[k].Valid()
    ensures RqOk(old(Values(rqs))[i])
    ensures var q := old(Values(rqs))[i];
            && chosen == FirstReady(SearchOrder(q.entities, q.current), ready)
            && (chosen.Some? <==> AnyReady(q.entities, ready))
            && Values(rqs) == if chosen.Some? then old(Values(rqs))[i := q.(current := chosen)] else old(Values(rqs))
  {
    chosen := rqs[i].Select(ready);
  }

  /** drm_sched_select_entity: from the highest queue that has a ready entity, the one that comes first
      behind the queue's current entity; only the current entity of that queue changes. */
  method SelectEntity(rqs: seq<Queue>, ready: set<nat>, canPush: bool) returns (chosen: Option<nat>)
    requires forall i :: 0 <= i < |rqs| ==> rqs[i].Valid()
    requires forall i, j :: 0 <= i < j < |rqs| ==> rqs[i] != rqs[j]
    modifies rqs
    ensures forall i :: 0 <= i < |rqs| ==> rqs[i].Valid()
    ensures RqsOk(old(Values(rqs))) && chosen == Choose(old(Values(rqs)), Call(ready, canPush))
    ensures Values(rqs) == AfterChoice(old(Values(rqs)), Call(ready, canPush))
  {
    ghost var was := Values(rqs);
    ghost var call := Call(ready, canPush);
    ChoiceIsSound(was, call);
    TopReadyIs(was, call, |rqs|);
    if !canPush {
      return None;
    }
    var i := |rqs|;
    while i > 0
      invariant 0 <= i <= |rqs| && Values(rqs) == was
      invariant TopReady(was, call, i) == TopReady(was, call, |rqs|)
    {
      i := i - 1;
      chosen := TryQueue(rqs, i, ready);
      if chosen.Some? {
        return;
      }
    }
    return None;
  }
}
