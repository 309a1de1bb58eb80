/**
 * `codegen/dispatchers.rs`: for every priority level that has software
 * tasks, the generator emits a tag enum (one variant per task), a ready
 * queue of `(tag, slot index)` pairs, and an interrupt handler that drains
 * that queue. `Codegen` models the generator; the class `Handler` models
 * what the emitted handler does when its interrupt fires.
 */
module Dispatchers {
  import opened Text
  import opened Tracing
  import opened Steps

  /** `analysis.channels[level]`: the software tasks dispatched at one level, in order. */
  datatype Channel = Channel(level: u8, capacity: nat, tasks: seq<string>)

  /** One arm of the handler's `match task`: the task it calls and the events around the call. */
  datatype Arm = Arm(task: string, enter: TracePoint, exit: TracePoint)

  /** The items the generator emits for one level. */
  datatype Item =
    | TagEnum(level: u8, variants: seq<string>)       // `enum #t { #(#variants,)* }`
    | ReadyQueue(level: u8, n: nat)                   // `static #rq: SCRQ<#t, #n>`, initially empty
    | HandlerFn(level: u8, interrupt: string, enter: TracePoint, arms: seq<Arm>, exit: TracePoint)

  /** A ready-queue entry: the variant of the tag enum and the input slot. */
  datatype Entry = Entry(tag: nat, index: nat)

  // ---------------------------------------------------------------------------
  // The generator

  /** `pats.len() as u8`: the cast keeps the low eight bits. */
  function ArgCount(inputs: nat): (c: u8)
    ensures inputs < 256 ==> c == inputs
    ensures c == inputs % 256
  {
    inputs % 256
  }

  function MakeArm(task: string, inputs: nat, level: u8, interrupt: string): Arm {
    Arm(task, SwTaskEnter(task, level, interrupt, ArgCount(inputs)), TaskExit())
  }

  /** Every task of the channel names its entry in the application's software tasks. */
  predicate Known(ch: Channel, inputs: map<string, nat>) {
    forall k :: 0 <= k < |ch.tasks| ==> ch.tasks[k] in inputs
  }

  /** The arms of one handler, in channel order. */
  function Arms(ch: Channel, interrupt: string, inputs: map<string, nat>): (arms: seq<Arm>)
    requires Known(ch, inputs)
  {
    seq(|ch.tasks|, t requires 0 <= t < |ch.tasks| =>
      MakeArm(ch.tasks[t], inputs[ch.tasks[t]], ch.level, interrupt))
  }

  /** The three items of one level, in the order the loop body pushes them. */
  function LevelItems(ch: Channel, interrupt: string, inputs: map<string, nat>): seq<Item>
    requires Known(ch, inputs)
  {
    [TagEnum(ch.level, ch.tasks),
     ReadyQueue(ch.level, ch.capacity + 1),
     HandlerFn(ch.level, interrupt, InterruptEnter(ch.level, interrupt),
               Arms(ch, interrupt, inputs), InterruptExit())]
  }

  /** The inputs the generator looks up exist: a dispatcher interrupt per level, a task per name. */
  predicate Resolved(channels: seq<Channel>, interrupts: map<u8, string>, inputs: map<string, nat>) {
    forall k :: 0 <= k < |channels| ==> channels[k].level in interrupts && Known(channels[k], inputs)
  }

  function AllItems(channels: seq<Channel>, interrupts: map<u8, string>, inputs: map<string, nat>): seq<Item>
    requires Resolved(channels, interrupts, inputs)
  {
    if channels == [] then []
    else
      var last := channels[|channels| - 1];
      AllItems(channels[..|channels| - 1], interrupts, inputs)
        + LevelItems(last, interrupts[last.level], inputs)
  }

  /**
   * The `for` loop over `analysis.channels` (a map ordered by level). `inputs`
   * gives each software task's number of input patterns; `interrupts` the
   * (already suffixed) dispatcher interrupt of each level.
   */
  method Codegen(channels: seq<Channel>, interrupts: map<u8, string>, inputs: map<string, nat>)
    returns (items: seq<Item>)
    requires Resolved(channels, interrupts, inputs)
    ensures items == AllItems(channels, interrupts, inputs)
  {
    items := [];
    for k := 0 to |channels|
      invariant items == AllItems(channels[..k], interrupts, inputs)
    {
      var ch := channels[k];
      var interrupt := interrupts[ch.level];
      items := items + [TagEnum(ch.level, ch.tasks)];
      items := items + [ReadyQueue(ch.level, ch.capacity + 1)];
      var arms := Arms(ch, interrupt, inputs);
      items := items + [HandlerFn(ch.level, interrupt, InterruptEnter(ch.level, interrupt),
                                  arms, InterruptExit())];
      assert channels[..k + 1][..k] == channels[..k];
    }
    assert channels[..|channels|] == channels;
  }

  /** `analysis.channels` is keyed by level, so its levels are distinct and ascending. */
  predicate Ascending(channels: seq<Channel>) {
    forall i, j :: 0 <= i < j < |channels| ==> channels[i].level < channels[j].level
  }

  /**
   * Level `k` contributes items `3k`, `3k+1`, `3k+2`: its tag enum with one
   * variant per task in channel order, its ready queue declared with
   * `capacity + 1`, and its handler, whose arms follow the channel's tasks.
   */
  lemma {:induction false} ItemsOfLevel(channels: seq<Channel>, interrupts: map<u8, string>,
                                        inputs: map<string, nat>, k: nat)
    requires Resolved(channels, interrupts, inputs) && k < |channels|
    ensures |AllItems(channels, interrupts, inputs)| == 3 * |channels|
    ensures AllItems(channels, interrupts, inputs)[3 * k .. 3 * k + 3]
         == LevelItems(channels[k], interrupts[channels[k].level], inputs)
    decreases |channels|
  {
    var n := |channels|;
    var init := channels[..n - 1];
    var last := channels[n - 1];
    assert Resolved(init, interrupts, inputs) by {
      assert forall i :: 0 <= i < n - 1 ==> init[i] == channels[i];
    }
    var a := AllItems(init, interrupts, inputs);
    var li := LevelItems(last, interrupts[last.level], inputs);
    assert AllItems(channels, interrupts, inputs) == a + li;
    if k < n - 1 {
      ItemsOfLevel(init, interrupts, inputs, k);
      assert init[k] == channels[k];
      assert (a + li)[3 * k .. 3 * k + 3] == a[3 * k .. 3 * k + 3];
    } else {
      if n > 1 {
        ItemsOfLevel(init, interrupts, inputs, 0);
      }
      assert |a| == 3 * k;
      assert (a + li)[3 * k .. 3 * k + 3] == li;
    }
  }

  /** What the three items of a level say. */
  lemma LevelItemsMeaning(ch: Channel, interrupt: string, inputs: map<string, nat>)
    requires Known(ch, inputs)
    ensures var items := LevelItems(ch, interrupt, inputs);
            && items[0] == TagEnum(ch.level, ch.tasks)
            && items[1] == ReadyQueue(ch.level, ch.capacity + 1)
            && items[2].HandlerFn? && items[2].level == ch.level && items[2].interrupt == interrupt
            && items[2].enter == InterruptEnter(ch.level, interrupt)
            && items[2].exit == InterruptExit()
            && |items[2].arms| == |ch.tasks|
            && forall t :: 0 <= t < |ch.tasks| ==>
                 && items[2].arms[t].task == ch.tasks[t]
                 && items[2].arms[t].enter
                    == SwTaskEnter(ch.tasks[t], ch.level, interrupt, ArgCount(inputs[ch.tasks[t]]))
                 && items[2].arms[t].exit == TaskExit()
  {
  }

  /** The levels that have a handler, in item order. */
  function HandlerLevels(items: seq<Item>): seq<u8> {
    if items == [] then []
    else HandlerLevels(items[..|items| - 1])
         + (if items[|items| - 1].HandlerFn? then [items[|items| - 1].level] else [])
  }

  /** The levels of the channels, in order. */
  function Levels(channels: seq<Channel>): seq<u8> {
    seq(|channels|, k requires 0 <= k < |channels| => channels[k].level)
  }

  lemma HandlerLevelsAppend(a: seq<Item>, b: seq<Item>)
    ensures HandlerLevels(a + b) == HandlerLevels(a) + HandlerLevels(b)
    decreases |b|
  {
    if b == [] {
      assert a + b == a;
    } else {
      var b' := b[..|b| - 1];
      assert (a + b)[..|a + b| - 1] == a + b';
      HandlerLevelsAppend(a, b');
    }
  }

  lemma LevelHandlers(ch: Channel, interrupt: string, inputs: map<string, nat>)
    requires Known(ch, inputs)
    ensures HandlerLevels(LevelItems(ch, interrupt, inputs)) == [ch.level]
  {
    var li := LevelItems(ch, interrupt, inputs);
    var a := [li[0]];
    assert a[..0] == [];
    assert HandlerLevels(a) == [];
    var ab := [li[0], li[1]];
    assert ab[..1] == a;
    assert HandlerLevels(ab) == [];
    assert li[..2] == ab;
  }

  /** Exactly one handler per channel, at the channel's level, in channel order. */
  lemma {:induction false} OneHandlerPerLevel(channels: seq<Channel>, interrupts: map<u8, string>,
                                              inputs: map<string, nat>)
    requires Resolved(channels, interrupts, inputs)
    ensures HandlerLevels(AllItems(channels, interrupts, inputs)) == Levels(channels)
    decreases |channels|
  {
    if channels != [] {
      var n := |channels|;
      var init := channels[..n - 1];
      var last := channels[n - 1];
      assert Resolved(init, interrupts, inputs) by {
        assert forall i :: 0 <= i < n - 1 ==> init[i] == channels[i];
      }
      OneHandlerPerLevel(init, interrupts, inputs);
      var li := LevelItems(last, interrupts[last.level], inputs);
      HandlerLevelsAppend(AllItems(init, interrupts, inputs), li);
      LevelHandlers(last, interrupts[last.level], inputs);
      assert Levels(channels) == Levels(init) + [last.level];
    }
  }

  /**
   * Since `analysis.channels` is keyed by level, no level gets two handlers:
   * the handlers' levels strictly ascend, one per channel.
   */
  lemma HandlersAscending(channels: seq<Channel>, interrupts: map<u8, string>, inputs: map<string, nat>)
    requires Resolved(channels, interrupts, inputs) && Ascending(channels)
    ensures var hs := HandlerLevels(AllItems(channels, interrupts, inputs));
            && |hs| == |channels|
            && (forall k :: 0 <= k < |hs| ==> hs[k] == channels[k].level)
            && (forall i, j :: 0 <= i < j < |hs| ==> hs[i] < hs[j])
  {
    OneHandlerPerLevel(channels, interrupts, inputs);
  }

  // ---------------------------------------------------------------------------
  // What the emitted handler does

  /** The steps of one arm: read the slot, free it, then call the task between its events. */
  function ArmSteps(level: u8, arm: Arm, e: Entry, input: Input): seq<Step> {
    [Read(arm.task, e.index), Release(arm.task, e.index),
     Trace(arm.enter), Call(arm.task, level, input), Trace(arm.exit)]
  }

  /** Every entry names an arm and a slot of that arm's task. */
  predicate EntriesOk(es: seq<Entry>, slots: seq<seq<Input>>) {
    forall k :: 0 <= k < |es| ==> es[k].tag < |slots| && es[k].index < |slots[es[k].tag]|
  }

  /** The steps of dispatching `es`, in dequeue order. */
  function Dispatched(level: u8, arms: seq<Arm>, slots: seq<seq<Input>>, es: seq<Entry>): seq<Step>
    requires |arms| == |slots| && EntriesOk(es, slots)
  {
    if es == [] then []
    else
      var e := es[|es| - 1];
      Dispatched(level, arms, slots, es[..|es| - 1])
        + ArmSteps(level, arms[e.tag], e, slots[e.tag][e.index])
  }

  /** One run of the handler: enter, drain, exit. */
  function RunSteps(level: u8, interrupt: string, arms: seq<Arm>, slots: seq<seq<Input>>, es: seq<Entry>): seq<Step>
    requires |arms| == |slots| && EntriesOk(es, slots)
  {
    [Trace(InterruptEnter(level, interrupt))] + Dispatched(level, arms, slots, es) + [Trace(InterruptExit())]
  }

  /** The free queues after every entry of `es` has been released, in dequeue order. */
  function Released(free: seq<seq<nat>>, es: seq<Entry>): (r: seq<seq<nat>>)
    requires forall k :: 0 <= k < |es| ==> es[k].tag < |free|
    ensures |r| == |free|
  {
    if es == [] then free
    else
      var e := es[|es| - 1];
      var r := Released(free, es[..|es| - 1]);
      r[e.tag := r[e.tag] + [e.index]]
  }

  /** The slot indices of the entries for task `t`, in queue order. */
  function IndicesOf(es: seq<Entry>, t: nat): seq<nat> {
    if es == [] then []
    else
      var e := es[|es| - 1];
      IndicesOf(es[..|es| - 1], t) + (if e.tag == t then [e.index] else [])
  }

  /** The number of entries for task `t`. */
  function CountTag(es: seq<Entry>, t: nat): nat {
    if es == [] then 0 else (if es[0].tag == t then 1 else 0) + CountTag(es[1..], t)
  }

  lemma CountTagAppend(a: seq<Entry>, b: seq<Entry>, t: nat)
    ensures CountTag(a + b, t) == CountTag(a, t) + CountTag(b, t)
  {
    if a == [] {
      assert a + b == b;
    } else {
      assert (a + b)[1..] == a[1..] + b;
      CountTagAppend(a[1..], b, t);
    }
  }

  lemma {:induction false} IndicesOfCount(es: seq<Entry>, t: nat)
    ensures |IndicesOf(es, t)| == CountTag(es, t)
    decreases |es|
  {
    if es != [] {
      var init := es[..|es| - 1];
      IndicesOfCount(init, t);
      CountTagAppend(init, [es[|es| - 1]], t);
      assert init + [es[|es| - 1]] == es;
    }
  }

  /** Draining appends to each free queue exactly the indices its task had in the ready queue. */
  lemma {:induction false} ReleasedContents(free: seq<seq<nat>>, es: seq<Entry>, t: nat)
    requires forall k :: 0 <= k < |es| ==> es[k].tag < |free|
    requires t < |free|
    ensures Released(free, es)[t] == free[t] + IndicesOf(es, t)
    decreases |es|
  {
    if es != [] {
      ReleasedContents(free, es[..|es| - 1], t);
    }
  }

  /**
   * Slot conservation across a drain: for each task, the number of its
   * indices in the ready queue plus in its free queue does not change.
   */
  lemma Conservation(free: seq<seq<nat>>, es: seq<Entry>, t: nat)
    requires forall k :: 0 <= k < |es| ==> es[k].tag < |free|
    requires t < |free|
    ensures |Released(free, es)[t]| + CountTag([], t) == |free[t]| + CountTag(es, t)
  {
    ReleasedContents(free, es, t);
    IndicesOfCount(es, t);
  }

  /**
   * FIFO: the `i`-th dequeued entry produces steps `5i .. 5i+5`, and they
   * are exactly the arm of that entry's tag, reading that entry's slot.
   */
  lemma {:induction false} DispatchedShape(level: u8, arms: seq<Arm>, slots: seq<seq<Input>>, es: seq<Entry>)
    requires |arms| == |slots| && EntriesOk(es, slots)
    ensures |Dispatched(level, arms, slots, es)| == 5 * |es|
    ensures forall i :: 0 <= i < |es| ==>
              Dispatched(level, arms, slots, es)[5 * i .. 5 * i + 5]
              == ArmSteps(level, arms[es[i].tag], es[i], slots[es[i].tag][es[i].index])
    decreases |es|
  {
    if es != [] {
      var n := |es|;
      var init := es[..n - 1];
      assert EntriesOk(init, slots) by {
        assert forall k :: 0 <= k < n - 1 ==> init[k] == es[k];
      }
      DispatchedShape(level, arms, slots, init);
      var d := Dispatched(level, arms, slots, es);
      var d0 := Dispatched(level, arms, slots, init);
      var e := es[n - 1];
      var tail := ArmSteps(level, arms[e.tag], e, slots[e.tag][e.index]);
      assert d == d0 + tail;
      forall i | 0 <= i < n
        ensures d[5 * i .. 5 * i + 5] == ArmSteps(level, arms[es[i].tag], es[i], slots[es[i].tag][es[i].index])
      {
        if i < n - 1 {
          assert init[i] == es[i];
          assert d[5 * i .. 5 * i + 5] == d0[5 * i .. 5 * i + 5];
        } else {
          assert d[5 * i .. 5 * i + 5] == tail;
        }
      }
    }
  }

  /**
   * The call at `p` took its inputs from a slot that was read and then
   * released just before it, runs with a Context at `level`, and sits
   * between two trace events.
   */
  predicate Dispatch(log: seq<Step>, p: int, level: u8) {
    && 3 <= p < |log| - 1
    && log[p].Call? && log[p].priority == level
    && log[p - 3].Read? && log[p - 3].task == log[p].task
    && log[p - 2] == Release(log[p].task, log[p - 3].index)
    && log[p - 1].Trace? && log[p + 1].Trace?
  }

  /** A call in the dispatched steps sits at offset 3 of its entry's arm. */
  lemma CallInArm(level: u8, arms: seq<Arm>, slots: seq<seq<Input>>, es: seq<Entry>, p: int)
    requires |arms| == |slots| && EntriesOk(es, slots)
    requires CallAt(Dispatched(level, arms, slots, es), p)
    ensures Dispatch(Dispatched(level, arms, slots, es), p, level)
  {
    var d := Dispatched(level, arms, slots, es);
    DispatchedShape(level, arms, slots, es);
    var i := p / 5;
    var j := p % 5;
    assert p == 5 * i + j;
    var e := es[i];
    var steps := ArmSteps(level, arms[e.tag], e, slots[e.tag][e.index]);
    assert d[5 * i .. 5 * i + 5] == steps;
    assert d[p] == steps[j];
    assert j == 3;
    assert d[p - 3] == steps[0] && d[p - 2] == steps[1] && d[p - 1] == steps[2] && d[p + 1] == steps[4];
  }

  /** One call of a run, seen from the whole log. */
  lemma RunCall(level: u8, interrupt: string, arms: seq<Arm>, slots: seq<seq<Input>>, es: seq<Entry>, p: int)
    requires |arms| == |slots| && EntriesOk(es, slots)
    requires CallAt(RunSteps(level, interrupt, arms, slots, es), p)
    ensures Dispatch(RunSteps(level, interrupt, arms, slots, es), p, level)
  {
    var log := RunSteps(level, interrupt, arms, slots, es);
    var d := Dispatched(level, arms, slots, es);
    assert log == [Trace(InterruptEnter(level, interrupt))] + d + [Trace(InterruptExit())];
    assert 1 <= p < |log| - 1;
    assert log[p] == d[p - 1];
    CallInArm(level, arms, slots, es, p - 1);
    assert log[p - 3] == d[p - 4] && log[p - 2] == d[p - 3];
    assert log[p - 1] == d[p - 2] && log[p + 1] == d[p];
  }

  /**
   * A run starts with `INTERRUPT_ENTER`, ends with `INTERRUPT_EXIT`, has
   * five steps per dispatched entry, and every task call in it is a
   * `Dispatch`: slot read, then released, then the call at the handler's
   * level between two trace events.
   */
  lemma RunTrace(level: u8, interrupt: string, arms: seq<Arm>, slots: seq<seq<Input>>, es: seq<Entry>)
    requires |arms| == |slots| && EntriesOk(es, slots)
    ensures var log := RunSteps(level, interrupt, arms, slots, es);
            && |log| == 5 * |es| + 2
            && log[0] == Trace(InterruptEnter(level, interrupt))
            && log[|log| - 1] == Trace(InterruptExit())
            && forall p :: CallAt(log, p) ==> Dispatch(log, p, level)
  {
    var log := RunSteps(level, interrupt, arms, slots, es);
    DispatchedShape(level, arms, slots, es);
    forall p | CallAt(log, p)
      ensures Dispatch(log, p, level)
    {
      RunCall(level, interrupt, arms, slots, es, p);
    }
  }

  /**
   * Queue state a handler can be in: every queued entry names a task and one
   * of its slots; per task, free plus queued indices never exceed its slots,
   * and free indices are slots of that task.
   */
  predicate Consistent(capacity: nat, ready: seq<Entry>, free: seq<seq<nat>>, slots: seq<seq<Input>>) {
    && |free| == |slots|
    && |ready| <= capacity
    && EntriesOk(ready, slots)
    && (forall t :: 0 <= t < |slots| ==> |free[t]| + CountTag(ready, t) <= |slots[t]|)
    && (forall t, k :: 0 <= t < |slots| && 0 <= k < |free[t]| ==> free[t][k] < |slots[t]|)
  }

  /** Taking the head entry off the ready queue and freeing its slot keeps the state consistent. */
  lemma DequeueKeeps(capacity: nat, ready: seq<Entry>, free: seq<seq<nat>>, slots: seq<seq<Input>>)
    requires Consistent(capacity, ready, free, slots) && ready != []
    ensures var e := ready[0];
            Consistent(capacity, ready[1..], free[e.tag := free[e.tag] + [e.index]], slots)
  {
    var e := ready[0];
    var free' := free[e.tag := free[e.tag] + [e.index]];
    assert EntriesOk(ready[1..], slots) by {
      assert forall k :: 0 <= k < |ready| - 1 ==> ready[1..][k] == ready[k + 1];
    }
    forall t | 0 <= t < |slots|
      ensures |free'[t]| + CountTag(ready[1..], t) <= |slots[t]|
    {
      assert CountTag(ready, t) == (if e.tag == t then 1 else 0) + CountTag(ready[1..], t);
    }
  }

  /**
   * The `while let Some((task, index)) = rq.dequeue()` loop of a handler:
   * each dequeued entry moves its task's inputs out of slot `index`, puts
   * `index` back on the task's free queue and calls the task between its
   * enter and exit events.
   */
  method Drain(level: u8, arms: seq<Arm>, capacity: nat, slots: seq<seq<Input>>, ready: seq<Entry>, free: seq<seq<nat>>)
    returns (rq: seq<Entry>, fq: seq<seq<nat>>, steps: seq<Step>)
    requires |arms| == |slots| && Consistent(capacity, ready, free, slots)
    ensures rq == [] && Consistent(capacity, rq, fq, slots)
    ensures fq == Released(free, ready)
    ensures steps == Dispatched(level, arms, slots, ready)
  {
    rq, fq, steps := ready, free, [];
    ghost var m := 0;
    while rq != []
      invariant Consistent(capacity, rq, fq, slots)
      invariant 0 <= m <= |ready| && rq == ready[m..]
      invariant fq == Released(free, ready[..m])
      invariant steps == Dispatched(level, arms, slots, ready[..m])
      decreases |rq|
    {
      var e := rq[0];
      DequeueKeeps(capacity, rq, fq, slots);
      Advance(level, arms, free, slots, ready, m);
      rq := rq[1..];
      var arm := arms[e.tag];
      var input := slots[e.tag][e.index];
      steps := steps + [Read(arm.task, e.index)];
      fq := fq[e.tag := fq[e.tag] + [e.index]];
      steps := steps + [Release(arm.task, e.index)];
      steps := steps + [Trace(arm.enter)];
      steps := steps + [Call(arm.task, level, input)];
      steps := steps + [Trace(arm.exit)];
      AppendArm(Dispatched(level, arms, slots, ready[..m]), ArmSteps(level, arm, e, input), steps);
      m := m + 1;
    }
    assert ready[..m] == ready;
  }

  /** The handler of one level, at run time. */
  class Handler {
    const level: u8
    const interrupt: string
    const arms: seq<Arm>
    /** The usable entries of the ready queue, declared as `SCRQ<_, capacity + 1>`. */
    const capacity: nat
    var ready: seq<Entry>
    var free: seq<seq<nat>>
    var slots: seq<seq<Input>>
    var log: seq<Step>

    /**
     * Every queued entry names an arm and one of its task's slots; per task,
     * free plus queued indices never exceed its slots.
     */
    ghost predicate Valid()
      reads this
    {
      |arms| == |slots| && Consistent(capacity, ready, free, slots)
    }

    /** The handler a `HandlerFn` item describes, with its empty ready queue and all slots free. */
    constructor (item: Item, capacity: nat, slots: seq<seq<Input>>)
      requires item.HandlerFn? && |slots| == |item.arms|
      ensures level == item.level && interrupt == item.interrupt && arms == item.arms
      ensures this.capacity == capacity && this.slots == slots
      ensures ready == [] && log == []
      ensures |free| == |slots|
      ensures forall t :: 0 <= t < |slots| ==> free[t] == AllSlots(|slots[t]|)
      ensures Valid()
    {
      level := item.level;
      interrupt := item.interrupt;
      arms := item.arms;
      this.capacity := capacity;
      this.slots := slots;
      ready := [];
      free := seq(|slots|, t requires 0 <= t < |slots| => AllSlots(|slots[t]|));
      log := [];
    }

    /**
     * The emitted `unsafe fn #interrupt()`: trace the interrupt entry, then
     * `while let Some((task, index)) = rq.dequeue()` run the arm of `task`,
     * then trace the exit.
     */
    method Run()
      requires Valid()
      modifies this
      ensures Valid()
      ensures ready == []
      ensures slots == old(slots)
      ensures free == Released(old(free), old(ready))
      ensures forall t :: 0 <= t < |arms| ==> free[t] == old(free)[t] + IndicesOf(old(ready), t)
      ensures log == old(log) + RunSteps(level, interrupt, arms, slots, old(ready))
    {
      var steps;
      ready, free, steps := Drain(level, arms, capacity, slots, ready, free);
      log := log + ([Trace(InterruptEnter(level, interrupt))] + steps + [Trace(InterruptExit())]);
      forall t | 0 <= t < |arms|
        ensures free[t] == old(free)[t] + IndicesOf(old(ready), t)
      {
        ReleasedContents(old(free), old(ready), t);
      }
    }
  }

  /** The five appends of one arm, regrouped as one. */
  lemma AppendArm(d: seq<Step>, a: seq<Step>, log: seq<Step>)
    requires |a| == 5
    requires log == (((((d + [a[0]]) + [a[1]]) + [a[2]]) + [a[3]]) + [a[4]])
    ensures log == d + a
  {
    assert a == [a[0], a[1], a[2], a[3], a[4]];
  }

  /** One more entry of `es` dispatched: what the loop body adds to the log and the free queues. */
  lemma Advance(level: u8, arms: seq<Arm>, free: seq<seq<nat>>, slots: seq<seq<Input>>, es: seq<Entry>, m: nat)
    requires |arms| == |slots| == |free| && EntriesOk(es, slots) && m < |es|
    ensures EntriesOk(es[..m], slots) && EntriesOk(es[..m + 1], slots)
    ensures var e := es[m];
            Dispatched(level, arms, slots, es[..m + 1])
            == Dispatched(level, arms, slots, es[..m]) + ArmSteps(level, arms[e.tag], e, slots[e.tag][e.index])
    ensures var e := es[m];
            var r := Released(free, es[..m]);
            Released(free, es[..m + 1]) == r[e.tag := r[e.tag] + [e.index]]
  {
    assert es[..m + 1][..m] == es[..m];
    assert forall k :: 0 <= k < m + 1 ==> es[..m + 1][k] == es[k];
  }

  /** `0, 1, …, n-1`: the indices a free queue holds before any spawn. */
  function AllSlots(n: nat): seq<nat> {
    seq(n, k requires 0 <= k < n => k)
  }
}
