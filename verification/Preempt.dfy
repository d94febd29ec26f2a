/**
 The lock-free preemption state machine of the a5xx: msm/adreno/a5xx_preempt.c and the states of
 msm/adreno/a5xx_gpu.h, between two hardware resets.

 Any number of threads run a5xx_preempt_trigger, a5xx_preempt_irq and a5xx_preempt_timer. A step is
 one atomic access to the state word, or one write to cur_ring, next_ring or the timer. The timer may
 fire at any time: del_timer does not wait for a callback that has begun.
 */
module Preempt {
  import opened JobDeps

  datatype Word = NONE | START | ABORT | TRIGGERED | FAULTED | PENDING

  /** Where a thread is. The comment says what it does next. */
  datatype Place =
    | Outside
    | Evaluating           // get_next_ring and compare with cur_ring
    | GivingUp             // set ABORT
    | UpdatingWptr         // update the write pointer, then set NONE
    | Chosen(ring: nat)    // write next_ring
    | NextWritten          // start the timer
    | TimerStarted         // set TRIGGERED
    | Pressing             // write the register that starts the switch
    | Interrupted          // delete the timer
    | Checking             // read the status register
    | Failing              // set FAULTED
    | Switching            // cur_ring := next_ring
    | Switched             // next_ring := NULL
    | Finishing            // update the write pointer, then set NONE

  datatype Edge = Edge(from: Word, to: Word)

  /** `edges` are the changes of the state word so far. `triggered` counts how often it became
      TRIGGERED, `byIrq` and `byTimer` how often the interrupt and the timer took it from there. */
  datatype State = State(
    word: Word, cur: Option<nat>, next: Option<nat>, threads: seq<Place>,
    edges: set<Edge>, triggered: nat, byIrq: nat, byTimer: nat)

  /** What thread `t` does; `ring` is what get_next_ring returns, `bad` the status it reads. */
  datatype Step =
    | TryStart(t: nat)
    | Evaluate(t: nat, ring: Option<nat>)
    | SetAbort(t: nat)
    | AbortDone(t: nat)
    | WriteNext(t: nat)
    | StartTimer(t: nat)
    | SetTriggered(t: nat)
    | Press(t: nat)
    | TryPending(t: nat)
    | DeleteTimer(t: nat)
    | ReadStatus(t: nat, bad: bool)
    | SetFaulted(t: nat)
    | WriteCur(t: nat)
    | ClearNext(t: nat)
    | SwitchDone(t: nat)
    | TimerFires

  predicate At(st: State, t: nat, place: Place) {
    t < |st.threads| && st.threads[t] == place
  }

  predicate Enabled(st: State, step: Step) {
    match step
    case TryStart(t) => At(st, t, Outside)
    case Evaluate(t, ring) => At(st, t, Evaluating)
    case SetAbort(t) => At(st, t, GivingUp)
    case AbortDone(t) => At(st, t, UpdatingWptr)
    case WriteNext(t) => t < |st.threads| && st.threads[t].Chosen?
    case StartTimer(t) => At(st, t, NextWritten)
    case SetTriggered(t) => At(st, t, TimerStarted)
    case Press(t) => At(st, t, Pressing)
    case TryPending(t) => At(st, t, Outside)
    case DeleteTimer(t) => At(st, t, Interrupted)
    case ReadStatus(t, bad) => At(st, t, Checking)
    case SetFaulted(t) => At(st, t, Failing)
    case WriteCur(t) => At(st, t, Switching)
    case ClearNext(t) => At(st, t, Switched)
    case SwitchDone(t) => At(st, t, Finishing)
    case TimerFires => true
  }

  function Go(st: State, t: nat, place: Place): State
    requires t < |st.threads|
  {
    st.(threads := st.threads[t := place])
  }

  /** set_preempt_state, or a successful try_preempt_state. */
  function Set(st: State, to: Word): State {
    st.(word := to, edges := st.edges + {Edge(st.word, to)})
  }

  function Apply(st: State, step: Step): State
    requires Enabled(st, step)
  {
    match step
    case TryStart(t) => if st.word == NONE then Go(Set(st, START), t, Evaluating) else st
    case Evaluate(t, ring) =>
      Go(st, t, if ring == None || ring == st.cur then GivingUp else Chosen(ring.value))
    case SetAbort(t) => Go(Set(st, ABORT), t, UpdatingWptr)
    case AbortDone(t) => Go(Set(st, NONE), t, Outside)
    case WriteNext(t) => Go(st, t, NextWritten).(next := Some(st.threads[t].ring))
    case StartTimer(t) => Go(st, t, TimerStarted)
    case SetTriggered(t) => Go(Set(st, TRIGGERED), t, Pressing).(triggered := st.triggered + 1)
    case Press(t) => Go(st, t, Outside)
    case TryPending(t) =>
      if st.word == TRIGGERED then Go(Set(st, PENDING), t, Interrupted).(byIrq := st.byIrq + 1) else st
    case DeleteTimer(t) => Go(st, t, Checking)
    case ReadStatus(t, bad) => Go(st, t, if bad then Failing else Switching)
    case SetFaulted(t) => Go(Set(st, FAULTED), t, Outside)
    case WriteCur(t) => Go(st, t, Switched).(cur := st.next)
    case ClearNext(t) => Go(st, t, Finishing).(next := None)
    case SwitchDone(t) => Go(Set(st, NONE), t, Outside)
    case TimerFires =>
      if st.word == TRIGGERED then Set(st, FAULTED).(byTimer := st.byTimer + 1) else st
  }

  // ---------------------------------------------------------------- ownership

  /** The state word that a thread at this place owns, if any. */
  function Owned(place: Place): Option<Word> {
    match place
    case Outside => None
    case Pressing => None
    case Evaluating => Some(START)
    case GivingUp => Some(START)
    case Chosen(_) => Some(START)
    case NextWritten => Some(START)
    case TimerStarted => Some(START)
    case UpdatingWptr => Some(ABORT)
    case _ => Some(PENDING)
  }

  /** What the owner may rely on. */
  predicate PlaceOk(st: State, place: Place) {
    && (Owned(place).Some? ==> st.word == Owned(place).value)
    && (place.Chosen? ==> Some(place.ring) != st.cur)
    && (place == NextWritten || place == TimerStarted ==> st.next.Some? && st.next != st.cur)
    && (place == Interrupted || place == Checking || place == Failing || place == Switching ==>
          st.next.Some? && st.next != st.cur)
    && (place == Evaluating || place == GivingUp || place == UpdatingWptr || place.Chosen? || place == Finishing ==>
          st.next == None)
  }

  predicate IsEdge(e: Edge) {
    match e.from
    case NONE => e.to == START
    case START => e.to == ABORT || e.to == TRIGGERED
    case ABORT => e.to == NONE
    case TRIGGERED => e.to == FAULTED || e.to == PENDING
    case FAULTED => false
    case PENDING => e.to == FAULTED || e.to == NONE
  }

  ghost predicate PlacesOk(st: State) {
    forall t :: 0 <= t < |st.threads| ==> PlaceOk(st, st.threads[t])
  }

  ghost predicate OneOwner(st: State) {
    forall t, u :: 0 <= t < u < |st.threads| ==> Owned(st.threads[t]) == None || Owned(st.threads[u]) == None
  }

  predicate RingsOk(st: State) {
    && st.cur.Some? && (st.word == TRIGGERED ==> st.next.Some? && st.next != st.cur)
    && (st.word == NONE ==> st.next == None)
  }

  ghost predicate HistoryOk(st: State) {
    && (forall e :: e in st.edges ==> IsEdge(e))
    && st.triggered == st.byIrq + st.byTimer + if st.word == TRIGGERED then 1 else 0
  }

  ghost predicate Inv(st: State) {
    PlacesOk(st) && OneOwner(st) && RingsOk(st) && HistoryOk(st)
  }

  /** Steps of a5xx_preempt_trigger. */
  predicate ByTrigger(step: Step) {
    || step.TryStart? || step.Evaluate? || step.SetAbort? || step.AbortDone? || step.WriteNext?
    || step.StartTimer? || step.SetTriggered? || step.Press?
  }

  lemma PlacesKeptByTrigger(st: State, step: Step)
    requires PlacesOk(st) && OneOwner(st) && RingsOk(st) && Enabled(st, step) && ByTrigger(step)
    ensures PlacesOk(Apply(st, step))
  {
    var st' := Apply(st, step);
    forall t | 0 <= t < |st'.threads| ensures PlaceOk(st', st'.threads[t]) {
      assert PlaceOk(st, st.threads[t]);
    }
  }

  lemma PlacesKeptByOthers(st: State, step: Step)
    requires PlacesOk(st) && OneOwner(st) && RingsOk(st) && Enabled(st, step) && !ByTrigger(step)
    ensures PlacesOk(Apply(st, step))
  {
    var st' := Apply(st, step);
    forall t | 0 <= t < |st'.threads| ensures PlaceOk(st', st'.threads[t]) {
      assert PlaceOk(st, st.threads[t]);
    }
  }

  lemma OwnersKept(st: State, step: Step)
    requires PlacesOk(st) && OneOwner(st) && Enabled(st, step)
    ensures OneOwner(Apply(st, step))
  {
    var st' := Apply(st, step);
    forall t, u | 0 <= t < u < |st'.threads|
      ensures Owned(st'.threads[t]) == None || Owned(st'.threads[u]) == None
    {
      assert PlaceOk(st, st.threads[t]) && PlaceOk(st, st.threads[u]);
    }
  }

  lemma RestKept(st: State, step: Step)
    requires Inv(st) && Enabled(st, step)
    ensures RingsOk(Apply(st, step)) && HistoryOk(Apply(st, step))
  {
    if !step.TimerFires? {
      assert PlaceOk(st, st.threads[step.t]);
    }
  }

  lemma InvKept(st: State, step: Step)
    requires Inv(st) && Enabled(st, step)
    ensures Inv(Apply(st, step))
  {
    if ByTrigger(step) {
      PlacesKeptByTrigger(st, step);
    } else {
      PlacesKeptByOthers(st, step);
    }
    OwnersKept(st, step);
    RestKept(st, step);
  }

  // ---------------------------------------------------------------- runs

  /** After a5xx_preempt_hw_init. */
  predicate Init(st: State) {
    && st.word == NONE && st.cur == Some(0) && st.next == None && st.edges == {}
    && st.triggered == st.byIrq == st.byTimer == 0
    && forall t :: 0 <= t < |st.threads| ==> st.threads[t] == Outside
  }

  predicate StepsTo(st: State, step: Step, st': State) {
    Enabled(st, step) && st' == Apply(st, step)
  }

  ghost predicate IsRun(states: seq<State>, steps: seq<Step>) {
    && |states| == |steps| + 1 && Init(states[0])
    && forall i :: 0 <= i < |steps| ==> StepsTo(states[i], steps[i], states[i + 1])
  }

  lemma {:induction false} InvAlways(states: seq<State>, steps: seq<Step>, n: nat)
    requires IsRun(states, steps) && n < |states|
    ensures Inv(states[n])
  {
    if n > 0 {
      InvAlways(states, steps, n - 1);
      assert StepsTo(states[n - 1], steps[n - 1], states[n]);
      InvKept(states[n - 1], steps[n - 1]);
    }
  }

  /** The state that a forced set_preempt_state finds. */
  function Expected(step: Step): Option<Word> {
    match step
    case SetAbort(_) => Some(START)
    case AbortDone(_) => Some(ABORT)
    case SetTriggered(_) => Some(START)
    case SetFaulted(_) => Some(PENDING)
    case SwitchDone(_) => Some(PENDING)
    case _ => None
  }

  /** Every forced change happens from the state that its caller owns, and nobody else owns it. */
  lemma ForcedFromOwnedState(states: seq<State>, steps: seq<Step>, n: nat)
    requires IsRun(states, steps) && n < |steps| && Expected(steps[n]).Some?
    ensures Some(states[n].word) == Expected(steps[n])
    ensures steps[n].t < |states[n].threads|
    ensures forall u :: 0 <= u < |states[n].threads| && u != steps[n].t ==> Owned(states[n].threads[u]) == None
  {
    InvAlways(states, steps, n);
    assert StepsTo(states[n], steps[n], states[n + 1]);
    assert PlaceOk(states[n], states[n].threads[steps[n].t]);
  }

  /** Only the edges of the state machine occur; START is left by ABORT or TRIGGERED, never
      directly to NONE. */
  lemma OnlyEdgesOccur(states: seq<State>, steps: seq<Step>, n: nat)
    requires IsRun(states, steps) && n < |states|
    ensures forall e :: e in states[n].edges ==> IsEdge(e)
    ensures Edge(START, NONE) !in states[n].edges
  {
    InvAlways(states, steps, n);
  }

  /** A change of the word is recorded as an edge. */
  lemma ChangesAreRecorded(states: seq<State>, steps: seq<Step>, n: nat)
    requires IsRun(states, steps) && n < |steps|
    ensures states[n + 1].word == states[n].word || Edge(states[n].word, states[n + 1].word) in states[n + 1].edges
    ensures states[n].edges <= states[n + 1].edges
  {
    assert StepsTo(states[n], steps[n], states[n + 1]);
  }

  /** Each time the state becomes TRIGGERED it is left by exactly one of interrupt and timer. */
  lemma TriggeredIsLeftOnce(states: seq<State>, steps: seq<Step>, n: nat)
    requires IsRun(states, steps) && n < |states|
    ensures states[n].triggered == states[n].byIrq + states[n].byTimer + (if states[n].word == TRIGGERED then 1 else 0)
  {
    InvAlways(states, steps, n);
  }

  /** cur_ring is never null; while TRIGGERED next_ring is not null and is another ring, and between
      preemptions it is null; and a switch makes cur_ring the ring that was chosen. */
  lemma RingsAreSound(states: seq<State>, steps: seq<Step>, n: nat)
    requires IsRun(states, steps) && n < |states|
    ensures states[n].cur.Some?
    ensures states[n].word == TRIGGERED ==> states[n].next.Some? && states[n].next != states[n].cur
    ensures states[n].word == NONE ==> states[n].next == None
    ensures n < |steps| && steps[n].WriteCur? ==> states[n + 1].cur == states[n].next != states[n].cur
    ensures n < |steps| && !steps[n].WriteCur? ==> states[n + 1].cur == states[n].cur
  {
    InvAlways(states, steps, n);
    if n < |steps| {
      assert StepsTo(states[n], steps[n], states[n + 1]);
      if steps[n].WriteCur? {
        assert PlaceOk(states[n], states[n].threads[steps[n].t]);
      }
    }
  }

  // ---------------------------------------------------------------- what a switch is about

  predicate Transient(word: Word) {
    word == START || word == ABORT || word == PENDING
  }

  ghost predicate SomebodyOwns(st: State) {
    Transient(st.word) ==> exists t :: 0 <= t < |st.threads| && Owned(st.threads[t]) == Some(st.word)
  }

  lemma OwnerStays(st: State, step: Step)
    requires Inv(st) && SomebodyOwns(st) && Enabled(st, step)
    ensures SomebodyOwns(Apply(st, step))
  {
    var st' := Apply(st, step);
    if Transient(st'.word) {
      if !step.TimerFires? && Owned(st'.threads[step.t]) == Some(st'.word) {
      } else {
        var t :| 0 <= t < |st.threads| && Owned(st.threads[t]) == Some(st.word);
        if !step.TimerFires? {
          assert PlaceOk(st, st.threads[step.t]) && PlaceOk(st, st.threads[t]);
        }
        assert Owned(st'.threads[t]) == Some(st'.word);
      }
    }
  }

  /** START, ABORT and PENDING are never left behind: somebody is about to go on from there. */
  lemma {:induction false} TransientHasOwner(states: seq<State>, steps: seq<Step>, n: nat)
    requires IsRun(states, steps) && n < |states|
    ensures SomebodyOwns(states[n])
  {
    if n > 0 {
      TransientHasOwner(states, steps, n - 1);
      InvAlways(states, steps, n - 1);
      assert StepsTo(states[n - 1], steps[n - 1], states[n]);
      OwnerStays(states[n - 1], steps[n - 1]);
    }
  }

  /** The status that thread `t` read last. */
  function LastStatus(steps: seq<Step>, t: nat, n: nat): Option<bool>
    requires n <= |steps|
  {
    if n == 0 then None else StatusAfter(LastStatus(steps, t, n - 1), steps[n - 1], t)
  }

  function StatusAfter(status: Option<bool>, step: Step, t: nat): Option<bool> {
    match step
    case ReadStatus(u, bad) => if u == t then Some(bad) else status
    case _ => status
  }

  predicate ActsOnStatus(place: Place, status: Option<bool>) {
    && (place == Switching || place == Switched || place == Finishing ==> status == Some(false))
    && (place == Failing ==> status == Some(true))
  }

  lemma StepDecides(st: State, step: Step, st': State, t: nat, status: Option<bool>)
    requires StepsTo(st, step, st') && (t < |st.threads| ==> ActsOnStatus(st.threads[t], status))
    ensures t < |st'.threads| ==> ActsOnStatus(st'.threads[t], StatusAfter(status, step, t))
  {
  }

  lemma {:induction false} StatusDecides(states: seq<State>, steps: seq<Step>, n: nat, t: nat)
    requires IsRun(states, steps) && n < |states|
    ensures t < |states[n].threads| ==> ActsOnStatus(states[n].threads[t], LastStatus(steps, t, n))
  {
    if n > 0 {
      StatusDecides(states, steps, n - 1, t);
      StepDecides(states[n - 1], steps[n - 1], states[n], t, LastStatus(steps, t, n - 1));
    }
  }

  /** A switch is completed only if the status read was good, and given up by the interrupt only if it
      was bad. */
  lemma SwitchOnlyOnGoodStatus(states: seq<State>, steps: seq<Step>, n: nat)
    requires IsRun(states, steps) && n < |steps|
    ensures steps[n].WriteCur? || steps[n].SwitchDone? ==> LastStatus(steps, steps[n].t, n) == Some(false)
    ensures steps[n].SetFaulted? ==> LastStatus(steps, steps[n].t, n) == Some(true)
  {
    assert StepsTo(states[n], steps[n], states[n + 1]);
    if !steps[n].TimerFires? {
      StatusDecides(states, steps, n, steps[n].t);
    }
  }

  /** The ring chosen by the last get_next_ring that did not come up with the current one. */
  function LastChoice(states: seq<State>, steps: seq<Step>, n: nat): Option<nat>
    requires n <= |states| && n <= |steps|
  {
    if n == 0 then None else ChoiceAfter(LastChoice(states, steps, n - 1), states[n - 1], steps[n - 1])
  }

  function ChoiceAfter(choice: Option<nat>, st: State, step: Step): Option<nat> {
    match step
    case Evaluate(_, ring) => if ring != None && ring != st.cur then ring else choice
    case _ => choice
  }

  predicate PlaceChose(st: State, place: Place, choice: Option<nat>) {
    && (place.Chosen? ==> choice == Some(place.ring))
    && (place == NextWritten || place == TimerStarted ==> st.next == choice)
    && (place == Interrupted || place == Checking || place == Failing || place == Switching ==> st.next == choice)
    && (place == Switched ==> st.cur == choice)
  }

  ghost predicate ChoiceKept(st: State, choice: Option<nat>) {
    && (st.word == TRIGGERED ==> st.next == choice)
    && forall t :: 0 <= t < |st.threads| ==> PlaceChose(st, st.threads[t], choice)
  }

  lemma ChoiceStays(st: State, step: Step, st': State, choice: Option<nat>)
    requires Inv(st) && ChoiceKept(st, choice) && StepsTo(st, step, st')
    ensures ChoiceKept(st', ChoiceAfter(choice, st, step))
  {
    var choice' := ChoiceAfter(choice, st, step);
    forall t | 0 <= t < |st'.threads| ensures PlaceChose(st', st'.threads[t], choice') {
      assert PlaceOk(st, st.threads[t]) && PlaceChose(st, st.threads[t], choice);
      if !step.TimerFires? {
        assert PlaceOk(st, st.threads[step.t]) && PlaceChose(st, st.threads[step.t], choice);
      }
    }
    if !step.TimerFires? {
      assert PlaceOk(st, st.threads[step.t]) && PlaceChose(st, st.threads[step.t], choice);
    }
  }

  lemma {:induction false} ChoiceAlways(states: seq<State>, steps: seq<Step>, n: nat)
    requires IsRun(states, steps) && n < |states|
    ensures ChoiceKept(states[n], LastChoice(states, steps, n))
  {
    if n > 0 {
      ChoiceAlways(states, steps, n - 1);
      InvAlways(states, steps, n - 1);
      ChoiceStays(states[n - 1], steps[n - 1], states[n], LastChoice(states, steps, n - 1));
    }
  }

  /** What the switch goes to is the ring that the trigger chose. */
  lemma SwitchesToTheChoice(states: seq<State>, steps: seq<Step>, n: nat)
    requires IsRun(states, steps) && n < |steps| && steps[n].WriteCur?
    ensures states[n + 1].cur == LastChoice(states, steps, n) != None
  {
    InvAlways(states, steps, n);
    ChoiceAlways(states, steps, n);
    assert StepsTo(states[n], steps[n], states[n + 1]);
    assert PlaceOk(states[n], states[n].threads[steps[n].t]);
    assert PlaceChose(states[n], states[n].threads[steps[n].t], LastChoice(states, steps, n));
  }

  // ---------------------------------------------------------------- nothing gets in the way

  /** A stretch of a run, from any state. */
  datatype Trace = Trace(states: seq<State>, steps: seq<Step>) {
    ghost predicate Valid() {
      && |states| == |steps| + 1
      && forall i :: 0 <= i < |steps| ==> StepsTo(states[i], steps[i], states[i + 1])
    }

    function Last(): State
      requires states != []
    {
      states[|states| - 1]
    }

    ghost function Then(step: Step): (tr: Trace)
      requires Valid() && Enabled(Last(), step)
      ensures tr.Valid() && tr.states[0] == states[0] && tr.Last() == Apply(Last(), step)
    {
      Trace(states + [Apply(Last(), step)], steps + [step])
    }
  }

  /** From `st` to `st'`. */
  ghost predicate Leads(tr: Trace, st: State, st': State) {
    tr.Valid() && tr.states[0] == st && tr.Last() == st'
  }

  lemma RingChosen(st: State, t: nat, r: nat) returns (tr: Trace)
    requires st.word == NONE && At(st, t, Outside) && st.cur != Some(r)
    ensures Leads(tr, st, st.(word := START, threads := st.threads[t := NextWritten], next := Some(r),
                              edges := st.edges + {Edge(NONE, START)}))
  {
    tr := Trace([st], []).Then(TryStart(t)).Then(Evaluate(t, Some(r))).Then(WriteNext(t));
    assert tr.Last().threads == st.threads[t := NextWritten];
  }

  /** A trigger that finds a ring to switch to gets as far as TRIGGERED. */
  lemma TriggerGetsThrough(st: State, t: nat, r: nat) returns (tr: Trace)
    requires st.word == NONE && At(st, t, Outside) && st.cur != Some(r)
    ensures Leads(tr, st, st.(word := TRIGGERED, next := Some(r), triggered := st.triggered + 1,
                              edges := st.edges + {Edge(NONE, START)} + {Edge(START, TRIGGERED)}))
  {
    tr := RingChosen(st, t, r);
    tr := tr.Then(StartTimer(t)).Then(SetTriggered(t)).Then(Press(t));
    assert tr.Last().threads == st.threads;
  }

  lemma NothingChosen(st: State, t: nat, ring: Option<nat>) returns (tr: Trace)
    requires st.word == NONE && At(st, t, Outside) && (ring == None || ring == st.cur)
    ensures Leads(tr, st, st.(word := START, threads := st.threads[t := GivingUp],
                              edges := st.edges + {Edge(NONE, START)}))
  {
    tr := Trace([st], []).Then(TryStart(t)).Then(Evaluate(t, ring));
    assert tr.Last().threads == st.threads[t := GivingUp];
  }

  /** One that finds none, or the current one, leaves things as they were. */
  lemma AbortGetsThrough(st: State, t: nat, ring: Option<nat>) returns (tr: Trace)
    requires st.word == NONE && At(st, t, Outside) && (ring == None || ring == st.cur)
    ensures Leads(tr, st, st.(edges := st.edges + {Edge(NONE, START)} + {Edge(START, ABORT)} + {Edge(ABORT, NONE)}))
  {
    tr := NothingChosen(st, t, ring);
    tr := tr.Then(SetAbort(t)).Then(AbortDone(t));
    assert tr.Last().threads == st.threads;
  }

  lemma TakenByInterrupt(st: State, t: nat) returns (tr: Trace)
    requires st.word == TRIGGERED && At(st, t, Outside)
    ensures Leads(tr, st, st.(word := PENDING, threads := st.threads[t := Checking],
                              byIrq := st.byIrq + 1, edges := st.edges + {Edge(TRIGGERED, PENDING)}))
  {
    tr := Trace([st], []).Then(TryPending(t)).Then(DeleteTimer(t));
    assert tr.Last().threads == st.threads[t := Checking];
  }

  lemma StatusRead(st: State, t: nat, bad: bool) returns (tr: Trace)
    requires st.word == TRIGGERED && At(st, t, Outside)
    ensures Leads(tr, st, st.(word := PENDING, threads := st.threads[t := if bad then Failing else Switching],
                              byIrq := st.byIrq + 1, edges := st.edges + {Edge(TRIGGERED, PENDING)}))
  {
    tr := TakenByInterrupt(st, t);
    tr := tr.Then(ReadStatus(t, bad));
    assert tr.Last().threads == st.threads[t := if bad then Failing else Switching];
  }

  /** An interrupt with a good status completes the switch. */
  lemma SwitchGetsThrough(st: State, t: nat) returns (tr: Trace)
    requires st.word == TRIGGERED && At(st, t, Outside)
    ensures Leads(tr, st, st.(word := NONE, cur := st.next, next := None, byIrq := st.byIrq + 1,
                              edges := st.edges + {Edge(TRIGGERED, PENDING)} + {Edge(PENDING, NONE)}))
  {
    tr := StatusRead(st, t, false);
    tr := tr.Then(WriteCur(t)).Then(ClearNext(t)).Then(SwitchDone(t));
    assert tr.Last().threads == st.threads;
  }

  /** One with a bad status ends in FAULTED, and so does the timer; neither changes the rings. */
  lemma FaultGetsThrough(st: State, t: nat) returns (tr: Trace)
    requires st.word == TRIGGERED && At(st, t, Outside)
    ensures Leads(tr, st, st.(word := FAULTED, byIrq := st.byIrq + 1,
                              edges := st.edges + {Edge(TRIGGERED, PENDING)} + {Edge(PENDING, FAULTED)}))
  {
    tr := StatusRead(st, t, true);
    tr := tr.Then(SetFaulted(t));
    assert tr.Last().threads == st.threads;
  }

  lemma TimeoutGetsThrough(st: State) returns (tr: Trace)
    requires st.word == TRIGGERED
    ensures Leads(tr, st, st.(word := FAULTED, byTimer := st.byTimer + 1,
                              edges := st.edges + {Edge(TRIGGERED, FAULTED)}))
  {
    tr := Trace([st], []).Then(TimerFires);
  }
}
