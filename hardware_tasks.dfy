/**
 * `codegen/hardware_tasks.rs`: for every hardware task (a task bound to an
 * interrupt or exception) the generator emits an interrupt trampoline and,
 * depending on the task's resources, a locals and a shared-resources
 * struct with their constructors, always a task module, and the user's
 * task function unless the task is `extern`.
 */
module HardwareTasks {
  import opened Text
  import opened Tracing
  import opened Steps

  /**
   * One entry of `app.hardware_tasks`. `localsNeedLt` and `sharedNeedLt`
   * are what the struct generators (not part of this model) report through
   * their `needs_lt` out-parameter.
   */
  datatype HwTask = HwTask(name: string, binds: string, priority: u8,
                           locals: seq<string>, shared: seq<string>, isExtern: bool,
                           localsNeedLt: bool, sharedNeedLt: bool)

  /**
   * The emitted `unsafe fn #symbol()`: its `PRIORITY` constant and the task
   * it calls (the trace points around the call are built from these, see `Fire`).
   */
  datatype Trampoline = Trampoline(symbol: string, priority: u8, task: string)

  /** Items of `mod_app`: trampolines and struct constructors. */
  datatype ModAppItem = Isr(tr: Trampoline) | LocalsCtor(task: string) | SharedCtor(task: string)

  /** Items placed in the crate root. */
  datatype RootItem =
    | LocalsStruct(task: string)
    | SharedStruct(task: string)
    | TaskModule(task: string, sharedNeedsLt: bool, localNeedsLt: bool)

  /** A `#[task]` function written by the user, re-emitted. */
  datatype UserItem = UserFn(task: string)

  // ---------------------------------------------------------------------------
  // Sequences built per element, and the elements of one kind in them

  /** The concatenation of `per(x)` over `xs`, in order. */
  function Flat<T, U>(xs: seq<T>, per: T -> seq<U>): seq<U> {
    if xs == [] then [] else Flat(xs[..|xs| - 1], per) + per(xs[|xs| - 1])
  }

  lemma FlatSnoc<T, U>(xs: seq<T>, per: T -> seq<U>, k: nat)
    requires k < |xs|
    ensures Flat(xs[..k + 1], per) == Flat(xs[..k], per) + per(xs[k])
  {
    assert xs[..k + 1][..k] == xs[..k];
  }

  lemma Push3<T>(a: seq<T>, x: seq<T>, y: seq<T>, z: seq<T>)
    ensures a + x + y + z == a + (x + y + z)
  {
  }

  /** The values `f` selects from `xs`, in order. */
  function Pick<T, U>(xs: seq<T>, f: T -> Option<U>): seq<U> {
    if xs == [] then []
    else Pick(xs[..|xs| - 1], f) + (match f(xs[|xs| - 1]) case Some(u) => [u] case None => [])
  }

  lemma {:induction false} PickAppend<T, U>(a: seq<T>, b: seq<T>, f: T -> Option<U>)
    ensures Pick(a + b, f) == Pick(a, f) + Pick(b, f)
    decreases |b|
  {
    if b == [] {
      assert a + b == a;
    } else {
      var b0 := b[..|b| - 1];
      assert (a + b)[..|a + b| - 1] == a + b0;
      assert (a + b)[|a + b| - 1] == b[|b| - 1];
      PickAppend(a, b0, f);
    }
  }

  lemma PickOne<T, U>(x: T, f: T -> Option<U>)
    ensures Pick([x], f) == (match f(x) case Some(u) => [u] case None => [])
  {
    assert [x][..0] == [];
  }

  /**
   * When each element's own items select exactly what `g` selects from that
   * element, selecting from the concatenation selects what `g` selects from
   * the elements, in the same order.
   */
  lemma {:induction false} PickFlat<T, U, V>(xs: seq<T>, per: T -> seq<U>, f: U -> Option<V>, g: T -> Option<V>)
    requires forall t :: Pick(per(t), f) == Pick([t], g)
    ensures Pick(Flat(xs, per), f) == Pick(xs, g)
    decreases |xs|
  {
    if xs != [] {
      var init := xs[..|xs| - 1];
      var last := xs[|xs| - 1];
      PickFlat(init, per, f, g);
      PickAppend(Flat(init, per), per(last), f);
      PickAppend(init, [last], g);
      assert init + [last] == xs;
    }
  }

  /** A selector that keeps every element keeps them all, in order. */
  lemma {:induction false} PickAll<T, U>(xs: seq<T>, g: T -> Option<U>)
    requires forall t :: g(t).Some?
    ensures |Pick(xs, g)| == |xs|
    ensures forall k :: 0 <= k < |xs| ==> Pick(xs, g)[k] == g(xs[k]).value
    decreases |xs|
  {
    if xs != [] {
      var init := xs[..|xs| - 1];
      PickAll(init, g);
      assert forall k :: 0 <= k < |init| ==> init[k] == xs[k];
    }
  }

  /** Names are keys of `app.hardware_tasks`, hence distinct. */
  predicate DistinctNames(tasks: seq<HwTask>) {
    forall i, j :: 0 <= i < j < |tasks| ==> tasks[i].name != tasks[j].name
  }

  /**
   * With distinct names, a selector that yields a task's own name or
   * nothing selects task `k`'s name exactly when it selects task `k`.
   */
  lemma {:induction false} NameSelected(tasks: seq<HwTask>, g: HwTask -> Option<string>, k: nat)
    requires forall t :: g(t) == None || g(t) == Some(t.name)
    requires DistinctNames(tasks) && k < |tasks|
    ensures tasks[k].name in Pick(tasks, g) <==> g(tasks[k]).Some?
    decreases |tasks|
  {
    var n := |tasks|;
    var init := tasks[..n - 1];
    var last := tasks[n - 1];
    assert DistinctNames(init) by {
      assert forall i :: 0 <= i < n - 1 ==> init[i] == tasks[i];
    }
    if k < n - 1 {
      NameSelected(init, g, k);
      assert init[k] == tasks[k];
      assert tasks[k].name != last.name;
    } else {
      // No earlier task shares the last task's name.
      forall x | x in Pick(init, g)
        ensures x != last.name
      {
        InPick(init, g, x);
      }
    }
  }

  /** Everything a name selector picks is the name of one of the tasks. */
  lemma {:induction false} InPick(tasks: seq<HwTask>, g: HwTask -> Option<string>, x: string)
    requires forall t :: g(t) == None || g(t) == Some(t.name)
    requires x in Pick(tasks, g)
    ensures exists i :: 0 <= i < |tasks| && tasks[i].name == x
    decreases |tasks|
  {
    var n := |tasks|;
    var init := tasks[..n - 1];
    if x in Pick(init, g) {
      InPick(init, g, x);
      var i :| 0 <= i < |init| && init[i].name == x;
      assert tasks[i] == init[i];
    } else {
      assert tasks[n - 1].name == x;
    }
  }

  // ---------------------------------------------------------------------------
  // What one task contributes

  function MakeTrampoline(t: HwTask): Trampoline {
    Trampoline(t.binds, t.priority, t.name)
  }

  /** The task module; each lifetime flag stays `false` when its struct is not generated. */
  function MakeModule(t: HwTask): RootItem {
    TaskModule(t.name, t.shared != [] && t.sharedNeedLt, t.locals != [] && t.localsNeedLt)
  }

  function TaskModApp(t: HwTask): seq<ModAppItem> {
    [Isr(MakeTrampoline(t))]
      + (if t.locals != [] then [LocalsCtor(t.name)] else [])
      + (if t.shared != [] then [SharedCtor(t.name)] else [])
  }

  function TaskRoot(t: HwTask): seq<RootItem> {
    (if t.locals != [] then [LocalsStruct(t.name)] else [])
      + (if t.shared != [] then [SharedStruct(t.name)] else [])
      + [MakeModule(t)]
  }

  function TaskUser(t: HwTask): seq<UserItem> {
    if t.isExtern then [] else [UserFn(t.name)]
  }

  /**
   * The `for` loop over `app.hardware_tasks`, pushing onto `mod_app`,
   * `root` and `user_tasks`.
   */
  method Codegen(tasks: seq<HwTask>) returns (modApp: seq<ModAppItem>, root: seq<RootItem>, userTasks: seq<UserItem>)
    ensures modApp == Flat(tasks, TaskModApp)
    ensures root == Flat(tasks, TaskRoot)
    ensures userTasks == Flat(tasks, TaskUser)
  {
    modApp, root, userTasks := [], [], [];
    for k := 0 to |tasks|
      invariant modApp == Flat(tasks[..k], TaskModApp)
      invariant root == Flat(tasks[..k], TaskRoot)
      invariant userTasks == Flat(tasks[..k], TaskUser)
    {
      var t := tasks[k];
      ghost var modApp0, root0 := modApp, root;
      ghost var lc: seq<ModAppItem>, sc: seq<ModAppItem>, ls: seq<RootItem>, ss: seq<RootItem> := [], [], [], [];
      var symbol := t.binds;
      var priority := t.priority;
      modApp := modApp + [Isr(Trampoline(symbol, priority, t.name))];
      var sharedNeedsLt := false;
      var localNeedsLt := false;
      ghost var modApp1 := modApp;
      if t.locals != [] {
        localNeedsLt := t.localsNeedLt;
        root := root + [LocalsStruct(t.name)];
        modApp := modApp + [LocalsCtor(t.name)];
        ls, lc := [LocalsStruct(t.name)], [LocalsCtor(t.name)];
      }
      assert modApp == modApp1 + lc && root == root0 + ls;
      ghost var modApp2, root2 := modApp, root;
      if t.shared != [] {
        sharedNeedsLt := t.sharedNeedLt;
        root := root + [SharedStruct(t.name)];
        modApp := modApp + [SharedCtor(t.name)];
        ss, sc := [SharedStruct(t.name)], [SharedCtor(t.name)];
      }
      assert modApp == modApp2 + sc && root == root2 + ss;
      root := root + [TaskModule(t.name, sharedNeedsLt, localNeedsLt)];
      if !t.isExtern {
        userTasks := userTasks + [UserFn(t.name)];
      }
      PushedTask(tasks, k, lc, sc, ls, ss);
    }
    assert tasks[..|tasks|] == tasks;
  }

  /** What one iteration of `Codegen` appends to each list, with the optional items spelled out. */
  lemma PushedTask(tasks: seq<HwTask>, k: nat, lc: seq<ModAppItem>, sc: seq<ModAppItem>,
                   ls: seq<RootItem>, ss: seq<RootItem>)
    requires k < |tasks|
    requires lc == (if tasks[k].locals != [] then [LocalsCtor(tasks[k].name)] else [])
    requires sc == (if tasks[k].shared != [] then [SharedCtor(tasks[k].name)] else [])
    requires ls == (if tasks[k].locals != [] then [LocalsStruct(tasks[k].name)] else [])
    requires ss == (if tasks[k].shared != [] then [SharedStruct(tasks[k].name)] else [])
    ensures var t := tasks[k];
            Flat(tasks[..k + 1], TaskModApp)
            == Flat(tasks[..k], TaskModApp) + [Isr(Trampoline(t.binds, t.priority, t.name))] + lc + sc
    ensures var t := tasks[k];
            Flat(tasks[..k + 1], TaskRoot)
            == Flat(tasks[..k], TaskRoot) + ls + ss
               + [TaskModule(t.name, t.shared != [] && t.sharedNeedLt, t.locals != [] && t.localsNeedLt)]
    ensures var t := tasks[k];
            Flat(tasks[..k + 1], TaskUser)
            == Flat(tasks[..k], TaskUser) + (if t.isExtern then [] else [UserFn(t.name)])
  {
    var t := tasks[k];
    FlatSnoc(tasks, TaskModApp, k);
    FlatSnoc(tasks, TaskRoot, k);
    FlatSnoc(tasks, TaskUser, k);
    Push3(Flat(tasks[..k], TaskModApp), [Isr(MakeTrampoline(t))], lc, sc);
    Push3(Flat(tasks[..k], TaskRoot), ls, ss, [MakeModule(t)]);
  }

  // ---------------------------------------------------------------------------
  // The emitted trampoline at run time

  /**
   * What `unsafe fn #symbol()` does when its interrupt fires: trace the
   * interrupt entry, then inside `run(PRIORITY, …)` trace the task entry,
   * call the task with a Context at `PRIORITY` and trace the task exit,
   * then trace the interrupt exit.
   */
  function Fire(tr: Trampoline): seq<Step> {
    [Trace(InterruptEnter(tr.priority, tr.symbol)), Trace(HwTaskEnter(tr.task, tr.priority, tr.symbol)),
     Call(tr.task, tr.priority, []), Trace(TaskExit()), Trace(InterruptExit())]
  }

  /** A trampoline calls its task exactly once, with a Context at the task's declared priority. */
  lemma TrampolineCalls(t: HwTask)
    ensures var s := Fire(MakeTrampoline(t));
            && |s| == 5
            && (forall p :: CallAt(s, p) <==> p == 2)
            && s[2] == Call(t.name, t.priority, [])
  {
    var s := Fire(MakeTrampoline(t));
    assert s[0].Trace? && s[1].Trace? && s[2].Call? && s[3].Trace? && s[4].Trace?;
    forall p | CallAt(s, p)
      ensures p == 2
    {
      assert p == 0 || p == 1 || p == 2 || p == 3 || p == 4;
    }
  }

  /** Step `s` is a trace point the collector reads as event `e`. */
  predicate Shows(s: Step, e: Event) {
    s.Trace? && Parse(s.tp.fmt) == Some(e)
  }

  /** Before the call, the collector sees `INTERRUPT_ENTER` and then `TASK_ENTER`. */
  lemma TrampolineEnters(t: HwTask)
    requires Plain(t.name) && Plain(t.binds)
    ensures var s := Fire(MakeTrampoline(t));
            && Shows(s[0], InterruptEnterEvent(t.priority, t.binds))
            && Shows(s[1], HwTaskEnterEvent(t.name, t.priority, t.binds))
  {
    InterruptEnterParsed(t.priority, t.binds);
    HwTaskEnterParsed(t.name, t.priority, t.binds);
  }

  /** After the call, the collector sees `TASK_EXIT` and then `INTERRUPT_EXIT`. */
  lemma TrampolineExits(tr: Trampoline)
    ensures Shows(Fire(tr)[3], TaskExitEvent())
    ensures Shows(Fire(tr)[4], InterruptExitEvent())
  {
    ExitsParsed();
  }

  lemma InterruptEnterParsed(priority: u8, interrupt: string)
    requires Plain(interrupt)
    ensures Parse(InterruptEnter(priority, interrupt).fmt) == Some(InterruptEnterEvent(priority, interrupt))
  {
    InterruptEnterLayout(priority, interrupt);
    Collected(InterruptEnter(priority, interrupt), InterruptEnterEvent(priority, interrupt));
  }

  lemma HwTaskEnterParsed(task: string, priority: u8, interrupt: string)
    requires Plain(task) && Plain(interrupt)
    ensures Parse(HwTaskEnter(task, priority, interrupt).fmt) == Some(HwTaskEnterEvent(task, priority, interrupt))
  {
    HwTaskEnterLayout(task, priority, interrupt);
    Collected(HwTaskEnter(task, priority, interrupt), HwTaskEnterEvent(task, priority, interrupt));
  }

  lemma ExitsParsed()
    ensures Parse(TaskExit().fmt) == Some(TaskExitEvent())
    ensures Parse(InterruptExit().fmt) == Some(InterruptExitEvent())
  {
    TaskExitLayout();
    Collected(TaskExit(), TaskExitEvent());
    InterruptExitLayout();
    Collected(InterruptExit(), InterruptExitEvent());
  }

  // ---------------------------------------------------------------------------
  // The three output lists

  function IsrOf(i: ModAppItem): Option<Trampoline> {
    if i.Isr? then Some(i.tr) else None
  }

  function LocalsCtorOf(i: ModAppItem): Option<string> {
    if i.LocalsCtor? then Some(i.task) else None
  }

  function SharedCtorOf(i: ModAppItem): Option<string> {
    if i.SharedCtor? then Some(i.task) else None
  }

  function LocalsStructOf(i: RootItem): Option<string> {
    if i.LocalsStruct? then Some(i.task) else None
  }

  function SharedStructOf(i: RootItem): Option<string> {
    if i.SharedStruct? then Some(i.task) else None
  }

  function ModuleOf(i: RootItem): Option<RootItem> {
    if i.TaskModule? then Some(i) else None
  }

  function UserFnOf(i: UserItem): Option<string> {
    Some(i.task)
  }

  function TrampolineOf(t: HwTask): Option<Trampoline> {
    Some(MakeTrampoline(t))
  }

  function ModuleOfTask(t: HwTask): Option<RootItem> {
    Some(MakeModule(t))
  }

  function WithLocals(t: HwTask): Option<string> {
    if t.locals != [] then Some(t.name) else None
  }

  function WithShared(t: HwTask): Option<string> {
    if t.shared != [] then Some(t.name) else None
  }

  function NotExtern(t: HwTask): Option<string> {
    if t.isExtern then None else Some(t.name)
  }

  /**
   * `mod_app` holds exactly one trampoline per hardware task, in task
   * order, named after the interrupt the task binds and running at the
   * task's priority.
   */
  lemma Trampolines(tasks: seq<HwTask>)
    ensures var isrs := Pick(Flat(tasks, TaskModApp), IsrOf);
            && |isrs| == |tasks|
            && forall k :: 0 <= k < |tasks| ==>
                 && isrs[k] == MakeTrampoline(tasks[k])
                 && isrs[k].symbol == tasks[k].binds
                 && isrs[k].task == tasks[k].name
                 && isrs[k].priority == tasks[k].priority
  {
    forall t: HwTask
      ensures Pick(TaskModApp(t), IsrOf) == Pick([t], TrampolineOf)
    {
      ModAppOfTask(t);
    }
    PickFlat(tasks, TaskModApp, IsrOf, TrampolineOf);
    PickAll(tasks, TrampolineOf);
  }

  /** Locals and shared constructors in `mod_app`: one for each task whose list is non-empty, in task order. */
  lemma Constructors(tasks: seq<HwTask>)
    ensures Pick(Flat(tasks, TaskModApp), LocalsCtorOf) == Pick(tasks, WithLocals)
    ensures Pick(Flat(tasks, TaskModApp), SharedCtorOf) == Pick(tasks, WithShared)
  {
    forall t: HwTask
      ensures Pick(TaskModApp(t), LocalsCtorOf) == Pick([t], WithLocals)
      ensures Pick(TaskModApp(t), SharedCtorOf) == Pick([t], WithShared)
    {
      ModAppOfTask(t);
    }
    PickFlat(tasks, TaskModApp, LocalsCtorOf, WithLocals);
    PickFlat(tasks, TaskModApp, SharedCtorOf, WithShared);
  }

  /**
   * Root items: a locals struct for each task with local resources, a
   * shared struct for each task with shared resources (both in task order),
   * and one module per task, in task order, whose lifetime flags are set
   * only when the corresponding struct was generated.
   */
  lemma RootStructs(tasks: seq<HwTask>)
    ensures Pick(Flat(tasks, TaskRoot), LocalsStructOf) == Pick(tasks, WithLocals)
    ensures Pick(Flat(tasks, TaskRoot), SharedStructOf) == Pick(tasks, WithShared)
    ensures var mods := Pick(Flat(tasks, TaskRoot), ModuleOf);
            && |mods| == |tasks|
            && forall k :: 0 <= k < |tasks| ==>
                 && mods[k].TaskModule? && mods[k].task == tasks[k].name
                 && (mods[k].localNeedsLt ==> tasks[k].locals != [])
                 && (mods[k].sharedNeedsLt ==> tasks[k].shared != [])
  {
    forall t: HwTask
      ensures Pick(TaskRoot(t), LocalsStructOf) == Pick([t], WithLocals)
      ensures Pick(TaskRoot(t), SharedStructOf) == Pick([t], WithShared)
      ensures Pick(TaskRoot(t), ModuleOf) == Pick([t], ModuleOfTask)
    {
      RootOfTask(t);
    }
    PickFlat(tasks, TaskRoot, LocalsStructOf, WithLocals);
    PickFlat(tasks, TaskRoot, SharedStructOf, WithShared);
    PickFlat(tasks, TaskRoot, ModuleOf, ModuleOfTask);
    PickAll(tasks, ModuleOfTask);
  }

  lemma ModAppOfTask(t: HwTask)
    ensures Pick(TaskModApp(t), IsrOf) == Pick([t], TrampolineOf)
    ensures Pick(TaskModApp(t), LocalsCtorOf) == Pick([t], WithLocals)
    ensures Pick(TaskModApp(t), SharedCtorOf) == Pick([t], WithShared)
  {
    var a := [Isr(MakeTrampoline(t))];
    var b := if t.locals != [] then [LocalsCtor(t.name)] else [];
    var c := if t.shared != [] then [SharedCtor(t.name)] else [];
    PickThree(a, b, c, IsrOf);
    PickThree(a, b, c, LocalsCtorOf);
    PickThree(a, b, c, SharedCtorOf);
    PickOne(t, TrampolineOf);
    PickOne(t, WithLocals);
    PickOne(t, WithShared);
  }

  /** Selecting from three pieces of at most one item each. */
  lemma PickThree<T, U>(a: seq<T>, b: seq<T>, c: seq<T>, f: T -> Option<U>)
    requires |a| <= 1 && |b| <= 1 && |c| <= 1
    ensures Pick(a + b + c, f)
            == (if a == [] then [] else Pick([a[0]], f))
               + (if b == [] then [] else Pick([b[0]], f))
               + (if c == [] then [] else Pick([c[0]], f))
  {
    PickAppend(a + b, c, f);
    PickAppend(a, b, f);
    if a != [] { assert a == [a[0]]; }
    if b != [] { assert b == [b[0]]; }
    if c != [] { assert c == [c[0]]; }
  }

  lemma RootOfTask(t: HwTask)
    ensures Pick(TaskRoot(t), LocalsStructOf) == Pick([t], WithLocals)
    ensures Pick(TaskRoot(t), SharedStructOf) == Pick([t], WithShared)
    ensures Pick(TaskRoot(t), ModuleOf) == Pick([t], ModuleOfTask)
  {
    LocalsStructOfTask(t);
    SharedStructOfTask(t);
    ModuleOfTaskItems(t);
  }

  lemma LocalsStructOfTask(t: HwTask)
    ensures Pick(TaskRoot(t), LocalsStructOf) == Pick([t], WithLocals)
  {
    var a := if t.locals != [] then [LocalsStruct(t.name)] else [];
    var b := if t.shared != [] then [SharedStruct(t.name)] else [];
    PickThree(a, b, [MakeModule(t)], LocalsStructOf);
    PickOne(t, WithLocals);
  }

  lemma SharedStructOfTask(t: HwTask)
    ensures Pick(TaskRoot(t), SharedStructOf) == Pick([t], WithShared)
  {
    var a := if t.locals != [] then [LocalsStruct(t.name)] else [];
    var b := if t.shared != [] then [SharedStruct(t.name)] else [];
    PickThree(a, b, [MakeModule(t)], SharedStructOf);
    PickOne(t, WithShared);
  }

  lemma ModuleOfTaskItems(t: HwTask)
    ensures Pick(TaskRoot(t), ModuleOf) == Pick([t], ModuleOfTask)
  {
    var a := if t.locals != [] then [LocalsStruct(t.name)] else [];
    var b := if t.shared != [] then [SharedStruct(t.name)] else [];
    PickThree(a, b, [MakeModule(t)], ModuleOf);
    PickOne(t, ModuleOfTask);
  }

  lemma RootLength(t: HwTask)
    ensures |TaskRoot(t)| == 1 + |Pick([t], WithLocals)| + |Pick([t], WithShared)|
  {
    PickOne(t, WithLocals);
    PickOne(t, WithShared);
  }

  /** Each task contributes `1 + [has locals] + [has shared]` root items. */
  lemma {:induction false} RootCount(tasks: seq<HwTask>)
    ensures |Flat(tasks, TaskRoot)| == |tasks| + |Pick(tasks, WithLocals)| + |Pick(tasks, WithShared)|
    decreases |tasks|
  {
    if tasks != [] {
      var init := tasks[..|tasks| - 1];
      var last := tasks[|tasks| - 1];
      RootCount(init);
      RootLength(last);
      PickAppend(init, [last], WithLocals);
      PickAppend(init, [last], WithShared);
      assert init + [last] == tasks;
    }
  }

  /** `user_tasks`: one function per non-`extern` task, in task order. */
  lemma UserFunctions(tasks: seq<HwTask>)
    ensures |Flat(tasks, TaskUser)| == |Pick(tasks, NotExtern)|
    ensures Pick(Flat(tasks, TaskUser), UserFnOf) == Pick(tasks, NotExtern)
  {
    forall t: HwTask
      ensures Pick(TaskUser(t), UserFnOf) == Pick([t], NotExtern)
    {
      if !t.isExtern { PickOne(UserFn(t.name), UserFnOf); }
      PickOne(t, NotExtern);
    }
    PickFlat(tasks, TaskUser, UserFnOf, NotExtern);
    PickAll(Flat(tasks, TaskUser), UserFnOf);
  }

  /**
   * For a task of the application: its locals struct and constructor exist
   * iff it has local resources, its shared struct and constructor iff it
   * has shared resources, and its user function iff it is not `extern`.
   */
  lemma ItemsIff(tasks: seq<HwTask>, k: nat)
    requires DistinctNames(tasks) && k < |tasks|
    ensures var n := tasks[k].name;
            var modApp, root, user := Flat(tasks, TaskModApp), Flat(tasks, TaskRoot), Flat(tasks, TaskUser);
            && (n in Pick(root, LocalsStructOf) <==> tasks[k].locals != [])
            && (n in Pick(modApp, LocalsCtorOf) <==> tasks[k].locals != [])
            && (n in Pick(root, SharedStructOf) <==> tasks[k].shared != [])
            && (n in Pick(modApp, SharedCtorOf) <==> tasks[k].shared != [])
            && (n in Pick(user, UserFnOf) <==> !tasks[k].isExtern)
  {
    Constructors(tasks);
    RootStructs(tasks);
    UserFunctions(tasks);
    NameSelected(tasks, WithLocals, k);
    NameSelected(tasks, WithShared, k);
    NameSelected(tasks, NotExtern, k);
  }
}
