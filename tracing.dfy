/**
 * The trace-point generators of `codegen/tracing.rs`. Each one produces a
 * `defmt::trace!` call: a format string with a fixed, ordered key/value
 * layout that an external collector parses, and the run-time arguments that
 * fill its `{=T}` placeholders.
 *
 * The layout is stated once, by `Render` (and read back by `Parse`): the
 * text `AUXON_`, the event name, and, when the event has fields, `::`
 * followed by the `key=value` fields joined with `,`. Each generator is
 * written as its format string reads in the source, and a `...Layout` lemma
 * proves that it is exactly the rendering of the documented field list
 * (`...Event`), and that its arguments fill the placeholders in order.
 */
module Tracing {
  import opened Text

  /** A run-time value passed to `defmt::trace!` after the format string. */
  datatype Arg =
    | InterruptNumber(isr: string)   // `#device::Interrupt::#isr as u32`
    | QueueIndex                     // the slot `index` in scope
    | InstantTicks                   // `instant.ticks()`
    | DurationTicks                  // `duration.ticks()`

  /** The `defmt::trace!(fmt, args...)` statement a generator emits. */
  datatype TracePoint = TracePoint(fmt: string, args: seq<Arg>)

  /** The integer types a `{=T}` placeholder can announce. */
  datatype Width = U8 | U32 | U64

  /** A field value: literal text, or a placeholder that a run-time argument fills. */
  datatype Value = Text(text: string) | Hole(width: Width)

  datatype Field = Field(key: string, value: Value)

  /** The structured content of one format string. */
  datatype Event = Event(name: string, fields: seq<Field>)

  const Prefix: string := "AUXON_"

  // ---------------------------------------------------------------------------
  // The wire layout

  function HoleText(w: Width): string {
    match w
    case U8 => "{=u8}"
    case U32 => "{=u32}"
    case U64 => "{=u64}"
  }

  function ValueText(v: Value): string {
    match v
    case Text(s) => s
    case Hole(w) => HoleText(w)
  }

  function FieldText(f: Field): string {
    f.key + "=" + ValueText(f.value)
  }

  function FieldTexts(fs: seq<Field>): (ts: seq<string>)
    ensures |ts| == |fs|
    ensures forall k :: 0 <= k < |fs| ==> ts[k] == FieldText(fs[k])
  {
    seq(|fs|, k requires 0 <= k < |fs| => FieldText(fs[k]))
  }

  /**
   * `AUXON_<name>`, then `::` and the fields joined by `,` when there are any;
   * built left to right, the way the generators' format strings read.
   */
  function Render(e: Event): string
    decreases |e.fields|
  {
    var fs := e.fields;
    if |fs| == 0 then Prefix + e.name
    else if |fs| == 1 then Prefix + e.name + "::" + FieldText(fs[0])
    else Render(Event(e.name, fs[..|fs| - 1])) + "," + FieldText(fs[|fs| - 1])
  }

  /** A field the layout carries without ambiguity. */
  predicate FieldOk(f: Field) {
    && '=' !in f.key && ',' !in f.key
    && (f.value.Text? ==> ',' !in f.value.text && '{' !in f.value.text)
  }

  /** Names, keys and values the layout can carry without ambiguity. */
  predicate WellFormed(e: Event) {
    && ':' !in e.name
    && forall k :: 0 <= k < |e.fields| ==> FieldOk(e.fields[k])
  }

  function ParseValue(s: string): Value {
    if s == "{=u8}" then Hole(U8)
    else if s == "{=u32}" then Hole(U32)
    else if s == "{=u64}" then Hole(U64)
    else Text(s)
  }

  function ParseField(s: string): Option<Field> {
    var i := FindChar(s, '=');
    if i == |s| then None else Some(Field(s[..i], ParseValue(s[i + 1..])))
  }

  function ParseFields(parts: seq<string>): (r: Option<seq<Field>>)
    ensures r.Some? ==> |r.value| == |parts|
  {
    if parts == [] then Some([])
    else match (ParseField(parts[0]), ParseFields(parts[1..]))
      case (Some(f), Some(fs)) => Some([f] + fs)
      case _ => None
  }

  /** What the external collector does with a format string. */
  function Parse(s: string): Option<Event> {
    if |s| < |Prefix| || s[..|Prefix|] != Prefix then None
    else
      var rest := s[|Prefix|..];
      var i := FindChar(rest, ':');
      if i == |rest| then Some(Event(rest, []))
      else if i + 1 < |rest| && rest[i + 1] == ':' then
        match ParseFields(Split(rest[i + 2..], ','))
        case None => None
        case Some(fs) => Some(Event(rest[..i], fs))
      else None
  }

  // ---------------------------------------------------------------------------
  // Regrouping concatenations (each stated in the exact shape its callers use)

  lemma Regroup3(a: string, b: string, c: string)
    ensures (a + b) + c == a + (b + c)
  {
  }

  lemma Regroup4(h: string, b: string, c: string, l: string)
    ensures ((h + b) + c) + l == h + ((b + c) + l)
  {
  }

  lemma RegroupField(a: string, k: string, e: string, x: string)
    ensures a + ((k + e) + x) == ((a + k) + e) + x
  {
  }

  lemma RegroupNext(r: string, c: string, k: string, e: string, x: string)
    ensures (r + c) + ((k + e) + x) == (r + ((c + k) + e)) + x
  {
  }

  /** Two literal pieces written after a prefix read as their concatenation. */
  lemma Merge2(r: string, a: string, b: string, ab: string)
    requires ab == a + b
    ensures (r + a) + b == r + ab
  {
  }

  lemma Merge3(r: string, a: string, b: string, c: string, abc: string)
    requires abc == a + b + c
    ensures ((r + a) + b) + c == r + abc
  {
  }

  // ---------------------------------------------------------------------------
  // Rendering, one field at a time

  lemma RenderOne(name: string, f: Field)
    ensures Render(Event(name, [f])) == ((Prefix + name) + "::") + FieldText(f)
  {
  }

  lemma RenderSnoc(name: string, fs: seq<Field>, f: Field)
    requires fs != []
    ensures Render(Event(name, fs + [f])) == (Render(Event(name, fs)) + ",") + FieldText(f)
  {
    var g := fs + [f];
    assert g[..|g| - 1] == fs;
  }

  lemma FieldTextsSnoc(fs: seq<Field>)
    requires fs != []
    ensures FieldTexts(fs[..|fs| - 1]) + [FieldText(fs[|fs| - 1])] == FieldTexts(fs)
  {
    var a := FieldTexts(fs[..|fs| - 1]) + [FieldText(fs[|fs| - 1])];
    assert forall k :: 0 <= k < |fs| ==> a[k] == FieldTexts(fs)[k];
  }

  /** `Render` is the prefix, the name, `::` and the joined fields. */
  lemma {:induction false} RenderJoin(e: Event)
    requires e.fields != []
    ensures Render(e) == ((Prefix + e.name) + "::") + Join(FieldTexts(e.fields), ',')
    decreases |e.fields|
  {
    var fs := e.fields;
    if |fs| == 1 {
      assert Join(FieldTexts(fs), ',') == FieldText(fs[0]);
    } else {
      var init := fs[..|fs| - 1];
      var last := FieldText(fs[|fs| - 1]);
      var head := (Prefix + e.name) + "::";
      var body := Join(FieldTexts(init), ',');
      RenderJoin(Event(e.name, init));
      assert init + [fs[|fs| - 1]] == fs;
      RenderSnoc(e.name, init, fs[|fs| - 1]);
      JoinSnoc(FieldTexts(init), last, ',');
      FieldTextsSnoc(fs);
      Regroup4(head, body, ",", last);
    }
  }

  // ---------------------------------------------------------------------------
  // Reading a rendered event back

  lemma ParseValueText(v: Value)
    requires v.Text? ==> '{' !in v.text
    ensures ParseValue(ValueText(v)) == v
  {
    assert "{=u8}"[0] == '{' && "{=u32}"[0] == '{' && "{=u64}"[0] == '{';
  }

  lemma CutAt(a: string, c: char, b: string)
    ensures (a + [c] + b)[..|a|] == a
    ensures (a + [c] + b)[|a| + 1..] == b
  {
  }

  lemma ParseFieldText(f: Field)
    requires FieldOk(f)
    ensures ParseField(FieldText(f)) == Some(f)
  {
    var v := ValueText(f.value);
    FindCharAfter(f.key, '=', v);
    CutAt(f.key, '=', v);
    ParseValueText(f.value);
  }

  lemma {:induction false} ParseFieldTexts(fs: seq<Field>)
    requires forall k :: 0 <= k < |fs| ==> FieldOk(fs[k])
    ensures ParseFields(FieldTexts(fs)) == Some(fs)
  {
    if fs != [] {
      ParseFieldText(fs[0]);
      ParseFieldTexts(fs[1..]);
      assert FieldTexts(fs)[1..] == FieldTexts(fs[1..]);
      assert [fs[0]] + fs[1..] == fs;
    }
  }

  lemma NoCommaInField(f: Field)
    requires FieldOk(f)
    ensures ',' !in FieldText(f)
  {
    var v := ValueText(f.value);
    assert FieldText(f) == f.key + ['='] + v;
    if f.value.Hole? {
      match f.value.width
      case U8 => assert v == "{=u8}";
      case U32 => assert v == "{=u32}";
      case U64 => assert v == "{=u64}";
    }
  }

  lemma NoCommaInFields(fs: seq<Field>)
    requires forall k :: 0 <= k < |fs| ==> FieldOk(fs[k])
    ensures forall k :: 0 <= k < |fs| ==> ',' !in FieldTexts(fs)[k]
  {
    forall k | 0 <= k < |fs|
      ensures ',' !in FieldTexts(fs)[k]
    {
      NoCommaInField(fs[k]);
    }
  }

  /** The pieces of a rendered string the collector cuts apart. */
  lemma HeadSlices(name: string, body: string)
    ensures var s := ((Prefix + name) + "::") + body;
            && |s| >= |Prefix| && s[..|Prefix|] == Prefix
            && s[|Prefix|..] == name + [':'] + ([':'] + body)
  {
  }

  lemma ParseWithFields(name: string, fs: seq<Field>)
    requires ':' !in name
    requires forall k :: 0 <= k < |fs| ==> FieldOk(fs[k])
    requires fs != []
    ensures Parse(((Prefix + name) + "::") + Join(FieldTexts(fs), ',')) == Some(Event(name, fs))
  {
    var body := Join(FieldTexts(fs), ',');
    var s := ((Prefix + name) + "::") + body;
    HeadSlices(name, body);
    var rest := name + [':'] + ([':'] + body);
    assert s[|Prefix|..] == rest;
    FindCharAfter(name, ':', [':'] + body);
    CutAt(name, ':', [':'] + body);
    assert rest[|name| + 1] == ':';
    assert rest[|name| + 2..] == body by {
      assert rest[|name| + 1..] == [':'] + body;
    }
    NoCommaInFields(fs);
    SplitJoin(FieldTexts(fs), ',');
    ParseFieldTexts(fs);
  }

  lemma ParseNoFields(name: string)
    requires ':' !in name
    ensures Parse(Prefix + name) == Some(Event(name, []))
  {
    var s := Prefix + name;
    assert s[..|Prefix|] == Prefix;
    assert s[|Prefix|..] == name;
    FindCharAbsent(name, ':');
  }

  /** The layout is unambiguous: the collector recovers every well-formed event exactly. */
  lemma RoundTrip(e: Event)
    requires WellFormed(e)
    ensures Parse(Render(e)) == Some(e)
  {
    if e.fields == [] {
      ParseNoFields(e.name);
    } else {
      RenderJoin(e);
      ParseWithFields(e.name, e.fields);
    }
  }

  lemma RenderInjective(e1: Event, e2: Event)
    requires WellFormed(e1) && WellFormed(e2)
    requires Render(e1) == Render(e2)
    ensures e1 == e2
  {
    RoundTrip(e1);
    RoundTrip(e2);
  }

  /** Every rendered event starts with `AUXON_` followed by its name. */
  lemma RenderPrefix(e: Event)
    ensures |Render(e)| >= |Prefix| + |e.name|
    ensures Render(e)[..|Prefix| + |e.name|] == Prefix + e.name
  {
    if e.fields != [] {
      RenderJoin(e);
      Regroup3(Prefix + e.name, "::", Join(FieldTexts(e.fields), ','));
    }
  }

  // ---------------------------------------------------------------------------
  // Placeholders and arguments

  function HolesOf(v: Value): seq<Width> {
    match v
    case Hole(w) => [w]
    case Text(_) => []
  }

  /** The placeholder types of the fields' values, in field order. */
  function Holes(fs: seq<Field>): seq<Width> {
    if fs == [] then [] else Holes(fs[..|fs| - 1]) + HolesOf(fs[|fs| - 1].value)
  }

  function ArgWidth(a: Arg): Width {
    match a
    case InterruptNumber(_) => U32
    case QueueIndex => U8
    case InstantTicks => U64
    case DurationTicks => U64
  }

  function ArgWidths(args: seq<Arg>): seq<Width> {
    seq(|args|, k requires 0 <= k < |args| => ArgWidth(args[k]))
  }

  /**
   * `tp` emits the event `e`: its format string is the rendering of `e`, and
   * its arguments fill the placeholders of `e`'s fields in order.
   */
  predicate Emits(tp: TracePoint, e: Event) {
    && tp.fmt == Render(e)
    && WellFormed(e)
    && Holes(e.fields) == ArgWidths(tp.args)
  }

  /** The collector reads back exactly the event a trace point emits. */
  lemma Collected(tp: TracePoint, e: Event)
    requires Emits(tp, e)
    ensures Parse(tp.fmt) == Some(e)
  {
    RoundTrip(e);
  }

  // ---------------------------------------------------------------------------
  // The generators, as their `format!` strings are written

  function TraceStart(task: string): TracePoint {
    TracePoint("AUXON_TRACE_START::version=1,task=" + task, [])
  }

  function IdleTaskEnter(task: string): TracePoint {
    TracePoint("AUXON_TASK_ENTER::task=" + task + ",priority=0", [])
  }

  function InterruptEnter(priority: u8, interrupt: string): TracePoint {
    TracePoint("AUXON_INTERRUPT_ENTER::interrupt={=u32},priority=" + Decimal(priority)
               + ",isr=" + interrupt, [InterruptNumber(interrupt)])
  }

  function InterruptExit(): TracePoint {
    TracePoint("AUXON_INTERRUPT_EXIT", [])
  }

  function SwTaskEnter(task: string, priority: u8, dispatcher: string, argCnt: u8): TracePoint {
    TracePoint("AUXON_TASK_ENTER::task=" + task + ",priority=" + Decimal(priority)
               + ",dispatcher=" + dispatcher + ",arg_cnt=" + Decimal(argCnt)
               + ",queue_index={=u8}", [QueueIndex])
  }

  function HwTaskEnter(task: string, priority: u8, interrupt: string): TracePoint {
    TracePoint("AUXON_TASK_ENTER::task=" + task + ",priority=" + Decimal(priority)
               + ",isr=" + interrupt, [])
  }

  function TaskExit(): TracePoint {
    TracePoint("AUXON_TASK_EXIT", [])
  }

  function TaskSpawn(task: string, interrupt: string, argCnt: u8): TracePoint {
    TracePoint("AUXON_TASK_SPAWN::task=" + task + ",interrupt={=u32},isr=" + interrupt
               + ",arg_cnt=" + Decimal(argCnt) + ",queue_index={=u8}",
               [InterruptNumber(interrupt), QueueIndex])
  }

  function TaskSpawnFailed(task: string, interrupt: string, argCnt: u8): TracePoint {
    TracePoint("AUXON_TASK_SPAWN_FAILED::task=" + task + ",interrupt={=u32},isr=" + interrupt
               + ",arg_cnt=" + Decimal(argCnt), [InterruptNumber(interrupt)])
  }

  function TaskSpawnAfter(task: string): TracePoint {
    TracePoint("AUXON_TASK_SPAWN_AFTER::task=" + task + ",instant={=u64},duration={=u64}",
               [InstantTicks, DurationTicks])
  }

  function TaskSpawnAt(task: string, argCnt: u8): TracePoint {
    TracePoint("AUXON_TASK_SPAWN_AT::task=" + task + ",instant={=u64},arg_cnt=" + Decimal(argCnt)
               + ",queue_index={=u8}", [InstantTicks, QueueIndex])
  }

  function TaskSpawnAtFailed(task: string, argCnt: u8): TracePoint {
    TracePoint("AUXON_TASK_SPAWN_AT_FAILED::task=" + task + ",instant={=u64},arg_cnt="
               + Decimal(argCnt), [InstantTicks])
  }

  function TaskCancel(task: string): TracePoint {
    TracePoint("AUXON_TASK_CANCEL::task=" + task, [])
  }

  function TaskRescheduleAfter(task: string): TracePoint {
    TracePoint("AUXON_TASK_RESCHEDULE_AFTER::task=" + task + ",duration={=u64}", [DurationTicks])
  }

  function TaskRescheduleAt(task: string): TracePoint {
    TracePoint("AUXON_TASK_RESCHEDULE_AT::task=" + task + ",instant={=u64}", [InstantTicks])
  }

  // ---------------------------------------------------------------------------
  // The documented field list of every event

  function TraceStartEvent(task: string): Event {
    Event("TRACE_START", [Field("version", Text("1")), Field("task", Text(task))])
  }

  function IdleTaskEnterEvent(task: string): Event {
    Event("TASK_ENTER", [Field("task", Text(task)), Field("priority", Text("0"))])
  }

  function InterruptEnterEvent(priority: u8, interrupt: string): Event {
    Event("INTERRUPT_ENTER", [Field("interrupt", Hole(U32)),
                              Field("priority", Text(Decimal(priority))),
                              Field("isr", Text(interrupt))])
  }

  function SwTaskEnterEvent(task: string, priority: u8, dispatcher: string, argCnt: u8): Event {
    Event("TASK_ENTER", [Field("task", Text(task)),
                         Field("priority", Text(Decimal(priority))),
                         Field("dispatcher", Text(dispatcher)),
                         Field("arg_cnt", Text(Decimal(argCnt))),
                         Field("queue_index", Hole(U8))])
  }

  function HwTaskEnterEvent(task: string, priority: u8, interrupt: string): Event {
    Event("TASK_ENTER", [Field("task", Text(task)),
                         Field("priority", Text(Decimal(priority))),
                         Field("isr", Text(interrupt))])
  }

  /** The fields a spawn event and a failed spawn event share, in order. */
  function SpawnFields(task: string, interrupt: string, argCnt: u8): seq<Field> {
    [Field("task", Text(task)), Field("interrupt", Hole(U32)),
     Field("isr", Text(interrupt)), Field("arg_cnt", Text(Decimal(argCnt)))]
  }

  /** The fields a "spawn at" event and a failed one share, in order. */
  function SpawnAtFields(task: string, argCnt: u8): seq<Field> {
    [Field("task", Text(task)), Field("instant", Hole(U64)), Field("arg_cnt", Text(Decimal(argCnt)))]
  }

  const QueueIndexField: Field := Field("queue_index", Hole(U8))

  function InterruptExitEvent(): Event {
    Event("INTERRUPT_EXIT", [])
  }

  function TaskExitEvent(): Event {
    Event("TASK_EXIT", [])
  }

  function TaskSpawnEvent(task: string, interrupt: string, argCnt: u8): Event {
    Event("TASK_SPAWN", SpawnFields(task, interrupt, argCnt) + [QueueIndexField])
  }

  function TaskSpawnFailedEvent(task: string, interrupt: string, argCnt: u8): Event {
    Event("TASK_SPAWN_FAILED", SpawnFields(task, interrupt, argCnt))
  }

  function TaskSpawnAtEvent(task: string, argCnt: u8): Event {
    Event("TASK_SPAWN_AT", SpawnAtFields(task, argCnt) + [QueueIndexField])
  }

  function TaskSpawnAtFailedEvent(task: string, argCnt: u8): Event {
    Event("TASK_SPAWN_AT_FAILED", SpawnAtFields(task, argCnt))
  }

  function TaskSpawnAfterEvent(task: string): Event {
    Event("TASK_SPAWN_AFTER", [Field("task", Text(task)), Field("instant", Hole(U64)),
                               Field("duration", Hole(U64))])
  }

  function TaskCancelEvent(task: string): Event {
    Event("TASK_CANCEL", [Field("task", Text(task))])
  }

  function TaskRescheduleAfterEvent(task: string): Event {
    Event("TASK_RESCHEDULE_AFTER", [Field("task", Text(task)), Field("duration", Hole(U64))])
  }

  function TaskRescheduleAtEvent(task: string): Event {
    Event("TASK_RESCHEDULE_AT", [Field("task", Text(task)), Field("instant", Hole(U64))])
  }

  // ---------------------------------------------------------------------------
  // Building blocks of the layout proofs

  /**
   * Text that cannot break the layout: no separator and no placeholder
   * brace. Every Rust identifier is such text, Unicode and raw (`r#name`)
   * identifiers included.
   */
  predicate Plain(s: string) {
    ',' !in s && '=' !in s && ':' !in s && '{' !in s
  }

  /** A key the layout can carry. */
  predicate Key(k: string) {
    '=' !in k && ',' !in k
  }

  lemma DecimalPlain(n: nat)
    ensures Plain(Decimal(n))
  {
    var d := Decimal(n);
    assert forall i :: 0 <= i < |d| ==> '0' <= d[i] <= '9';
  }

  lemma Keys1()
    ensures Key("version") && Key("task") && Key("priority")
  {
  }

  lemma Keys2()
    ensures Key("dispatcher") && Key("arg_cnt")
  {
  }

  lemma Keys3()
    ensures Key("queue_index") && Key("interrupt")
  {
  }

  lemma Keys4()
    ensures Key("isr") && Key("instant") && Key("duration")
  {
  }

  lemma Keys()
    ensures Key("version") && Key("task") && Key("priority") && Key("dispatcher")
    ensures Key("arg_cnt") && Key("queue_index") && Key("interrupt") && Key("isr")
    ensures Key("instant") && Key("duration")
    ensures Plain("0") && Plain("1")
  {
    Keys1();
    Keys2();
    Keys3();
    Keys4();
  }

  lemma Separators1()
    ensures ",task=" == "," + "task" + "="
    ensures ",priority=" == "," + "priority" + "="
    ensures ",dispatcher=" == "," + "dispatcher" + "="
  {
  }

  lemma Separators2()
    ensures ",arg_cnt=" == "," + "arg_cnt" + "="
    ensures ",queue_index=" == "," + "queue_index" + "="
    ensures ",isr=" == "," + "isr" + "="
  {
  }

  lemma Separators3()
    ensures ",interrupt=" == "," + "interrupt" + "="
    ensures ",instant=" == "," + "instant" + "="
    ensures ",duration=" == "," + "duration" + "="
  {
  }

  lemma Separators()
    ensures ",task=" == "," + "task" + "="
    ensures ",priority=" == "," + "priority" + "="
    ensures ",dispatcher=" == "," + "dispatcher" + "="
    ensures ",arg_cnt=" == "," + "arg_cnt" + "="
    ensures ",queue_index=" == "," + "queue_index" + "="
    ensures ",isr=" == "," + "isr" + "="
    ensures ",interrupt=" == "," + "interrupt" + "="
    ensures ",instant=" == "," + "instant" + "="
    ensures ",duration=" == "," + "duration" + "="
  {
    Separators1();
    Separators2();
    Separators3();
  }

  /** The first field, written after the head literal `AUXON_<name>::<key>=`. */
  lemma RenderFirst(name: string, key: string, lit: string, v: Value)
    requires lit == Prefix + name + "::" + key + "="
    ensures Render(Event(name, [Field(key, v)])) == lit + ValueText(v)
  {
    RenderOne(name, Field(key, v));
    RegroupField((Prefix + name) + "::", key, "=", ValueText(v));
  }

  /** One more field, with its separator, key and `=` spelled as one literal. */
  lemma Next(r: string, key: string, lit: string, v: Value)
    requires lit == "," + key + "="
    ensures (r + ",") + FieldText(Field(key, v)) == (r + lit) + ValueText(v)
  {
    RegroupNext(r, ",", key, "=", ValueText(v));
  }

  lemma HolesSnoc(fs: seq<Field>, f: Field)
    ensures Holes(fs + [f]) == Holes(fs) + HolesOf(f.value)
  {
    var g := fs + [f];
    assert g[..|g| - 1] == fs;
  }

  lemma WellFormedSnoc(name: string, fs: seq<Field>, f: Field)
    requires WellFormed(Event(name, fs)) && FieldOk(f)
    ensures WellFormed(Event(name, fs + [f]))
  {
    var g := fs + [f];
    assert forall k :: 0 <= k < |fs| ==> g[k] == fs[k];
  }

  /** An event with one field. */
  lemma Grow1(n: string, a: Field)
    ensures Render(Event(n, [a])) == ((Prefix + n) + "::") + FieldText(a)
    ensures Holes([a]) == HolesOf(a.value)
    ensures ':' !in n && FieldOk(a) ==> WellFormed(Event(n, [a]))
  {
    RenderOne(n, a);
    HolesSnoc([], a);
  }

  /** An event with one field more than `pre`. */
  lemma Grow(n: string, pre: seq<Field>, f: Field)
    requires pre != []
    ensures Render(Event(n, pre + [f])) == (Render(Event(n, pre)) + ",") + FieldText(f)
    ensures Holes(pre + [f]) == Holes(pre) + HolesOf(f.value)
    ensures WellFormed(Event(n, pre)) && FieldOk(f) ==> WellFormed(Event(n, pre + [f]))
  {
    RenderSnoc(n, pre, f);
    HolesSnoc(pre, f);
    if WellFormed(Event(n, pre)) && FieldOk(f) {
      WellFormedSnoc(n, pre, f);
    }
  }

  lemma Grow2(n: string, a: Field, b: Field)
    ensures Render(Event(n, [a, b])) == (Render(Event(n, [a])) + ",") + FieldText(b)
    ensures Holes([a, b]) == Holes([a]) + HolesOf(b.value)
    ensures WellFormed(Event(n, [a])) && FieldOk(b) ==> WellFormed(Event(n, [a, b]))
  {
    assert [a] + [b] == [a, b];
    Grow(n, [a], b);
  }

  lemma Grow3(n: string, a: Field, b: Field, c: Field)
    ensures Render(Event(n, [a, b, c])) == (Render(Event(n, [a, b])) + ",") + FieldText(c)
    ensures Holes([a, b, c]) == Holes([a, b]) + HolesOf(c.value)
    ensures WellFormed(Event(n, [a, b])) && FieldOk(c) ==> WellFormed(Event(n, [a, b, c]))
  {
    assert [a, b] + [c] == [a, b, c];
    Grow(n, [a, b], c);
  }

  lemma Grow4(n: string, a: Field, b: Field, c: Field, d: Field)
    ensures Render(Event(n, [a, b, c, d])) == (Render(Event(n, [a, b, c])) + ",") + FieldText(d)
    ensures Holes([a, b, c, d]) == Holes([a, b, c]) + HolesOf(d.value)
    ensures WellFormed(Event(n, [a, b, c])) && FieldOk(d) ==> WellFormed(Event(n, [a, b, c, d]))
  {
    assert [a, b, c] + [d] == [a, b, c, d];
    Grow(n, [a, b, c], d);
  }

  lemma Grow5(n: string, a: Field, b: Field, c: Field, d: Field, e: Field)
    ensures Render(Event(n, [a, b, c, d, e])) == (Render(Event(n, [a, b, c, d])) + ",") + FieldText(e)
    ensures Holes([a, b, c, d, e]) == Holes([a, b, c, d]) + HolesOf(e.value)
    ensures WellFormed(Event(n, [a, b, c, d])) && FieldOk(e) ==> WellFormed(Event(n, [a, b, c, d, e]))
  {
    assert [a, b, c, d] + [e] == [a, b, c, d, e];
    Grow(n, [a, b, c, d], e);
  }

  lemma Merge4(r: string, a: string, b: string, c: string, d: string, abcd: string)
    requires abcd == a + b + c + d
    ensures (((r + a) + b) + c) + d == r + abcd
  {
  }

  // ---------------------------------------------------------------------------
  // The layout of every generator

  lemma TailLiterals1()
    ensures ",queue_index={=u8}" == ",queue_index=" + "{=u8}"
    ensures ",priority=0" == ",priority=" + "0"
  {
  }

  lemma TailLiterals2()
    ensures ",duration={=u64}" == ",duration=" + "{=u64}"
    ensures ",instant={=u64}" == ",instant=" + "{=u64}"
  {
  }

  lemma TailLiterals3()
    ensures ",interrupt={=u32},isr=" == ",interrupt=" + "{=u32}" + ",isr="
    ensures ",instant={=u64},arg_cnt=" == ",instant=" + "{=u64}" + ",arg_cnt="
  {
  }

  lemma TailLiterals()
    ensures ",queue_index={=u8}" == ",queue_index=" + "{=u8}"
    ensures ",priority=0" == ",priority=" + "0"
    ensures ",duration={=u64}" == ",duration=" + "{=u64}"
    ensures ",instant={=u64}" == ",instant=" + "{=u64}"
    ensures ",interrupt={=u32},isr=" == ",interrupt=" + "{=u32}" + ",isr="
    ensures ",instant={=u64},arg_cnt=" == ",instant=" + "{=u64}" + ",arg_cnt="
  {
    TailLiterals1();
    TailLiterals2();
    TailLiterals3();
  }

  lemma TraceStartLiterals()
    ensures "AUXON_TRACE_START::version=" == Prefix + "TRACE_START" + "::" + "version" + "="
    ensures "AUXON_TRACE_START::version=1,task=" == ("AUXON_TRACE_START::version=" + "1") + ",task="
    ensures ':' !in "TRACE_START"
  {
  }

  lemma TraceStartLayout(task: string)
    requires Plain(task)
    ensures Emits(TraceStart(task), TraceStartEvent(task))
  {
    var n := "TRACE_START";
    var a := Field("version", Text("1"));
    var b := Field("task", Text(task));
    TraceStartLiterals();
    Separators();
    Keys();
    RenderFirst(n, "version", "AUXON_TRACE_START::version=", Text("1"));
    Grow1(n, a);
    Grow2(n, a, b);
    Next(Render(Event(n, [a])), "task", ",task=", Text(task));
  }

  lemma TaskEnterLiterals()
    ensures "AUXON_TASK_ENTER::task=" == Prefix + "TASK_ENTER" + "::" + "task" + "="
    ensures ':' !in "TASK_ENTER"
  {
  }

  lemma IdleTaskEnterLayout(task: string)
    requires Plain(task)
    ensures Emits(IdleTaskEnter(task), IdleTaskEnterEvent(task))
  {
    var n := "TASK_ENTER";
    var a := Field("task", Text(task));
    var b := Field("priority", Text("0"));
    TaskEnterLiterals();
    TailLiterals();
    Separators();
    Keys();
    RenderFirst(n, "task", "AUXON_TASK_ENTER::task=", Text(task));
    Grow1(n, a);
    Grow2(n, a, b);
    Next(Render(Event(n, [a])), "priority", ",priority=", Text("0"));
    Merge2(Render(Event(n, [a])), ",priority=", "0", ",priority=0");
  }

  lemma InterruptEnterLiterals1()
    ensures "AUXON_INTERRUPT_ENTER::interrupt="
         == Prefix + "INTERRUPT_ENTER" + "::" + "interrupt" + "="
  {
  }

  lemma InterruptEnterLiterals2()
    ensures "AUXON_INTERRUPT_ENTER::interrupt={=u32},priority="
         == ("AUXON_INTERRUPT_ENTER::interrupt=" + "{=u32}") + ",priority="
    ensures ':' !in "INTERRUPT_ENTER"
  {
  }

  lemma InterruptEnterLayout(priority: u8, interrupt: string)
    requires Plain(interrupt)
    ensures Emits(InterruptEnter(priority, interrupt), InterruptEnterEvent(priority, interrupt))
  {
    assert ArgWidths(InterruptEnter(priority, interrupt).args) == [U32];
    var n := "INTERRUPT_ENTER";
    var a := Field("interrupt", Hole(U32));
    var b := Field("priority", Text(Decimal(priority)));
    var c := Field("isr", Text(interrupt));
    InterruptEnterLiterals1();
    InterruptEnterLiterals2();
    Separators();
    Keys();
    DecimalPlain(priority);
    RenderFirst(n, "interrupt", "AUXON_INTERRUPT_ENTER::interrupt=", Hole(U32));
    Grow1(n, a);
    Grow2(n, a, b);
    Next(Render(Event(n, [a])), "priority", ",priority=", Text(Decimal(priority)));
    Grow3(n, a, b, c);
    Next(Render(Event(n, [a, b])), "isr", ",isr=", Text(interrupt));
  }

  lemma InterruptExitLayout()
    ensures Emits(InterruptExit(), InterruptExitEvent())
  {
    assert "AUXON_INTERRUPT_EXIT" == Prefix + "INTERRUPT_EXIT";
  }

  lemma TaskExitLayout()
    ensures Emits(TaskExit(), TaskExitEvent())
  {
    assert "AUXON_TASK_EXIT" == Prefix + "TASK_EXIT";
  }

  lemma SwTaskEnterLayout(task: string, priority: u8, dispatcher: string, argCnt: u8)
    requires Plain(task) && Plain(dispatcher)
    ensures Emits(SwTaskEnter(task, priority, dispatcher, argCnt),
                  SwTaskEnterEvent(task, priority, dispatcher, argCnt))
  {
    assert ArgWidths(SwTaskEnter(task, priority, dispatcher, argCnt).args) == [U8];
    var n := "TASK_ENTER";
    var a := Field("task", Text(task));
    var b := Field("priority", Text(Decimal(priority)));
    var c := Field("dispatcher", Text(dispatcher));
    var d := Field("arg_cnt", Text(Decimal(argCnt)));
    var q := Field("queue_index", Hole(U8));
    TaskEnterLiterals();
    TailLiterals();
    Separators();
    Keys();
    DecimalPlain(priority);
    DecimalPlain(argCnt);
    RenderFirst(n, "task", "AUXON_TASK_ENTER::task=", Text(task));
    Grow1(n, a);
    Grow2(n, a, b);
    Next(Render(Event(n, [a])), "priority", ",priority=", Text(Decimal(priority)));
    Grow3(n, a, b, c);
    Next(Render(Event(n, [a, b])), "dispatcher", ",dispatcher=", Text(dispatcher));
    Grow4(n, a, b, c, d);
    Next(Render(Event(n, [a, b, c])), "arg_cnt", ",arg_cnt=", Text(Decimal(argCnt)));
    Grow5(n, a, b, c, d, q);
    Next(Render(Event(n, [a, b, c, d])), "queue_index", ",queue_index=", Hole(U8));
    Merge2(Render(Event(n, [a, b, c, d])), ",queue_index=", "{=u8}", ",queue_index={=u8}");
  }

  lemma HwTaskEnterLayout(task: string, priority: u8, interrupt: string)
    requires Plain(task) && Plain(interrupt)
    ensures Emits(HwTaskEnter(task, priority, interrupt), HwTaskEnterEvent(task, priority, interrupt))
  {
    assert ArgWidths(HwTaskEnter(task, priority, interrupt).args) == [];
    var n := "TASK_ENTER";
    var a := Field("task", Text(task));
    var b := Field("priority", Text(Decimal(priority)));
    var c := Field("isr", Text(interrupt));
    TaskEnterLiterals();
    Separators();
    Keys();
    DecimalPlain(priority);
    RenderFirst(n, "task", "AUXON_TASK_ENTER::task=", Text(task));
    Grow1(n, a);
    Grow2(n, a, b);
    Next(Render(Event(n, [a])), "priority", ",priority=", Text(Decimal(priority)));
    Grow3(n, a, b, c);
    Next(Render(Event(n, [a, b])), "isr", ",isr=", Text(interrupt));
  }

  /** The four fields a spawn and a failed spawn share, rendered after `head`. */
  lemma SpawnFieldsLayout(n: string, head: string, task: string, interrupt: string, argCnt: u8)
    requires head == Prefix + n + "::" + "task" + "="
    requires ':' !in n && Plain(task) && Plain(interrupt)
    ensures Render(Event(n, SpawnFields(task, interrupt, argCnt)))
         == (((head + task) + ",interrupt={=u32},isr=") + interrupt) + ",arg_cnt=" + Decimal(argCnt)
    ensures WellFormed(Event(n, SpawnFields(task, interrupt, argCnt)))
    ensures Holes(SpawnFields(task, interrupt, argCnt)) == [U32]
  {
    var a := Field("task", Text(task));
    var b := Field("interrupt", Hole(U32));
    var c := Field("isr", Text(interrupt));
    var d := Field("arg_cnt", Text(Decimal(argCnt)));
    TailLiterals();
    Separators();
    Keys();
    DecimalPlain(argCnt);
    RenderFirst(n, "task", head, Text(task));
    Grow1(n, a);
    Grow2(n, a, b);
    Next(Render(Event(n, [a])), "interrupt", ",interrupt=", Hole(U32));
    Grow3(n, a, b, c);
    Next(Render(Event(n, [a, b])), "isr", ",isr=", Text(interrupt));
    Merge3(Render(Event(n, [a])), ",interrupt=", "{=u32}", ",isr=", ",interrupt={=u32},isr=");
    Grow4(n, a, b, c, d);
    Next(Render(Event(n, [a, b, c])), "arg_cnt", ",arg_cnt=", Text(Decimal(argCnt)));
  }

  lemma TaskSpawnLiterals()
    ensures "AUXON_TASK_SPAWN::task=" == Prefix + "TASK_SPAWN" + "::" + "task" + "="
    ensures ':' !in "TASK_SPAWN"
  {
  }

  lemma TaskSpawnLayout(task: string, interrupt: string, argCnt: u8)
    requires Plain(task) && Plain(interrupt)
    ensures Emits(TaskSpawn(task, interrupt, argCnt), TaskSpawnEvent(task, interrupt, argCnt))
  {
    var n := "TASK_SPAWN";
    var fs := SpawnFields(task, interrupt, argCnt);
    TaskSpawnLiterals();
    TailLiterals();
    Separators();
    Keys();
    SpawnFieldsLayout(n, "AUXON_TASK_SPAWN::task=", task, interrupt, argCnt);
    assert ArgWidths(TaskSpawn(task, interrupt, argCnt).args) == [U32, U8];
    Grow(n, fs, QueueIndexField);
    Next(Render(Event(n, fs)), "queue_index", ",queue_index=", Hole(U8));
    Merge2(Render(Event(n, fs)), ",queue_index=", "{=u8}", ",queue_index={=u8}");
  }

  lemma TaskSpawnFailedLiterals()
    ensures "AUXON_TASK_SPAWN_FAILED::task=" == Prefix + "TASK_SPAWN_FAILED" + "::" + "task" + "="
    ensures ':' !in "TASK_SPAWN_FAILED"
  {
  }

  lemma TaskSpawnFailedLayout(task: string, interrupt: string, argCnt: u8)
    requires Plain(task) && Plain(interrupt)
    ensures Emits(TaskSpawnFailed(task, interrupt, argCnt), TaskSpawnFailedEvent(task, interrupt, argCnt))
  {
    TaskSpawnFailedLiterals();
    SpawnFieldsLayout("TASK_SPAWN_FAILED", "AUXON_TASK_SPAWN_FAILED::task=", task, interrupt, argCnt);
  }

  lemma TaskSpawnAfterLiterals1()
    ensures "AUXON_TASK_SPAWN_AFTER::task=" == Prefix + "TASK_SPAWN_AFTER" + "::" + "task" + "="
  {
  }

  lemma TaskSpawnAfterLiterals2()
    ensures ",instant={=u64},duration={=u64}" == ",instant=" + "{=u64}" + ",duration=" + "{=u64}"
    ensures ':' !in "TASK_SPAWN_AFTER"
  {
  }

  lemma TaskSpawnAfterLayout(task: string)
    requires Plain(task)
    ensures Emits(TaskSpawnAfter(task), TaskSpawnAfterEvent(task))
  {
    assert ArgWidths(TaskSpawnAfter(task).args) == [U64, U64];
    var n := "TASK_SPAWN_AFTER";
    var a := Field("task", Text(task));
    var b := Field("instant", Hole(U64));
    var c := Field("duration", Hole(U64));
    TaskSpawnAfterLiterals1();
    TaskSpawnAfterLiterals2();
    Separators();
    Keys();
    RenderFirst(n, "task", "AUXON_TASK_SPAWN_AFTER::task=", Text(task));
    Grow1(n, a);
    Grow2(n, a, b);
    Next(Render(Event(n, [a])), "instant", ",instant=", Hole(U64));
    Grow3(n, a, b, c);
    Next(Render(Event(n, [a, b])), "duration", ",duration=", Hole(U64));
    Merge4(Render(Event(n, [a])), ",instant=", "{=u64}", ",duration=", "{=u64}",
           ",instant={=u64},duration={=u64}");
  }

  /** The three fields a "spawn at" and a failed one share, rendered after `head`. */
  lemma SpawnAtFieldsLayout(n: string, head: string, task: string, argCnt: u8)
    requires head == Prefix + n + "::" + "task" + "="
    requires ':' !in n && Plain(task)
    ensures Render(Event(n, SpawnAtFields(task, argCnt)))
         == ((head + task) + ",instant={=u64},arg_cnt=") + Decimal(argCnt)
    ensures WellFormed(Event(n, SpawnAtFields(task, argCnt)))
    ensures Holes(SpawnAtFields(task, argCnt)) == [U64]
  {
    var a := Field("task", Text(task));
    var b := Field("instant", Hole(U64));
    var c := Field("arg_cnt", Text(Decimal(argCnt)));
    TailLiterals();
    Separators();
    Keys();
    DecimalPlain(argCnt);
    RenderFirst(n, "task", head, Text(task));
    Grow1(n, a);
    Grow2(n, a, b);
    Next(Render(Event(n, [a])), "instant", ",instant=", Hole(U64));
    Grow3(n, a, b, c);
    Next(Render(Event(n, [a, b])), "arg_cnt", ",arg_cnt=", Text(Decimal(argCnt)));
    Merge3(Render(Event(n, [a])), ",instant=", "{=u64}", ",arg_cnt=", ",instant={=u64},arg_cnt=");
  }

  lemma TaskSpawnAtLiterals()
    ensures "AUXON_TASK_SPAWN_AT::task=" == Prefix + "TASK_SPAWN_AT" + "::" + "task" + "="
    ensures ':' !in "TASK_SPAWN_AT"
  {
  }

  lemma TaskSpawnAtLayout(task: string, argCnt: u8)
    requires Plain(task)
    ensures Emits(TaskSpawnAt(task, argCnt), TaskSpawnAtEvent(task, argCnt))
  {
    var n := "TASK_SPAWN_AT";
    var fs := SpawnAtFields(task, argCnt);
    TaskSpawnAtLiterals();
    TailLiterals();
    Separators();
    Keys();
    SpawnAtFieldsLayout(n, "AUXON_TASK_SPAWN_AT::task=", task, argCnt);
    assert ArgWidths(TaskSpawnAt(task, argCnt).args) == [U64, U8];
    Grow(n, fs, QueueIndexField);
    Next(Render(Event(n, fs)), "queue_index", ",queue_index=", Hole(U8));
    Merge2(Render(Event(n, fs)), ",queue_index=", "{=u8}", ",queue_index={=u8}");
  }

  lemma TaskSpawnAtFailedLiterals()
    ensures "AUXON_TASK_SPAWN_AT_FAILED::task=" == Prefix + "TASK_SPAWN_AT_FAILED" + "::" + "task" + "="
  {
  }

  lemma TaskSpawnAtFailedName()
    ensures ':' !in "TASK_SPAWN_AT_FAILED"
  {
  }

  lemma TaskSpawnAtFailedLayout(task: string, argCnt: u8)
    requires Plain(task)
    ensures Emits(TaskSpawnAtFailed(task, argCnt), TaskSpawnAtFailedEvent(task, argCnt))
  {
    TaskSpawnAtFailedLiterals();
    TaskSpawnAtFailedName();
    SpawnAtFieldsLayout("TASK_SPAWN_AT_FAILED", "AUXON_TASK_SPAWN_AT_FAILED::task=", task, argCnt);
  }

  lemma TaskCancelLiterals()
    ensures "AUXON_TASK_CANCEL::task=" == Prefix + "TASK_CANCEL" + "::" + "task" + "="
    ensures ':' !in "TASK_CANCEL"
  {
  }

  lemma TaskCancelLayout(task: string)
    requires Plain(task)
    ensures Emits(TaskCancel(task), TaskCancelEvent(task))
  {
    var n := "TASK_CANCEL";
    TaskCancelLiterals();
    Keys();
    RenderFirst(n, "task", "AUXON_TASK_CANCEL::task=", Text(task));
    Grow1(n, Field("task", Text(task)));
  }

  lemma TaskRescheduleAfterLiterals()
    ensures "AUXON_TASK_RESCHEDULE_AFTER::task=" == Prefix + "TASK_RESCHEDULE_AFTER" + "::" + "task" + "="
  {
  }

  lemma TaskRescheduleAtLiterals()
    ensures "AUXON_TASK_RESCHEDULE_AT::task=" == Prefix + "TASK_RESCHEDULE_AT" + "::" + "task" + "="
  {
  }

  lemma TaskRescheduleNames()
    ensures ':' !in "TASK_RESCHEDULE_AFTER" && ':' !in "TASK_RESCHEDULE_AT"
  {
  }

  lemma TaskRescheduleAfterLayout(task: string)
    requires Plain(task)
    ensures Emits(TaskRescheduleAfter(task), TaskRescheduleAfterEvent(task))
  {
    assert ArgWidths(TaskRescheduleAfter(task).args) == [U64];
    var n := "TASK_RESCHEDULE_AFTER";
    var a := Field("task", Text(task));
    var b := Field("duration", Hole(U64));
    TaskRescheduleAfterLiterals();
    TaskRescheduleNames();
    TailLiterals();
    Separators();
    Keys();
    RenderFirst(n, "task", "AUXON_TASK_RESCHEDULE_AFTER::task=", Text(task));
    Grow1(n, a);
    Grow2(n, a, b);
    Next(Render(Event(n, [a])), "duration", ",duration=", Hole(U64));
    Merge2(Render(Event(n, [a])), ",duration=", "{=u64}", ",duration={=u64}");
  }

  lemma TaskRescheduleAtLayout(task: string)
    requires Plain(task)
    ensures Emits(TaskRescheduleAt(task), TaskRescheduleAtEvent(task))
  {
    assert ArgWidths(TaskRescheduleAt(task).args) == [U64];
    var n := "TASK_RESCHEDULE_AT";
    var a := Field("task", Text(task));
    var b := Field("instant", Hole(U64));
    TaskRescheduleAtLiterals();
    TaskRescheduleNames();
    TailLiterals();
    Separators();
    Keys();
    RenderFirst(n, "task", "AUXON_TASK_RESCHEDULE_AT::task=", Text(task));
    Grow1(n, a);
    Grow2(n, a, b);
    Next(Render(Event(n, [a])), "instant", ",instant=", Hole(U64));
    Merge2(Render(Event(n, [a])), ",instant=", "{=u64}", ",instant={=u64}");
  }

  /**
   * The collector reads a failed spawn as the spawn event without its
   * trailing `queue_index` placeholder (no slot was taken).
   */
  lemma SpawnFailedOmitsQueueIndex(task: string, interrupt: string, argCnt: u8)
    requires Plain(task) && Plain(interrupt)
    ensures Parse(TaskSpawnFailed(task, interrupt, argCnt).fmt)
         == Some(TaskSpawnFailedEvent(task, interrupt, argCnt))
    ensures Parse(TaskSpawn(task, interrupt, argCnt).fmt)
         == Some(Event("TASK_SPAWN", TaskSpawnFailedEvent(task, interrupt, argCnt).fields
                                     + [Field("queue_index", Hole(U8))]))
  {
    TaskSpawnLayout(task, interrupt, argCnt);
    TaskSpawnFailedLayout(task, interrupt, argCnt);
    Collected(TaskSpawn(task, interrupt, argCnt), TaskSpawnEvent(task, interrupt, argCnt));
    Collected(TaskSpawnFailed(task, interrupt, argCnt), TaskSpawnFailedEvent(task, interrupt, argCnt));
  }

  /** The same relation between a "spawn at" and a failed one. */
  lemma SpawnAtFailedOmitsQueueIndex(task: string, argCnt: u8)
    requires Plain(task)
    ensures Parse(TaskSpawnAtFailed(task, argCnt).fmt) == Some(TaskSpawnAtFailedEvent(task, argCnt))
    ensures Parse(TaskSpawnAt(task, argCnt).fmt)
         == Some(Event("TASK_SPAWN_AT", TaskSpawnAtFailedEvent(task, argCnt).fields
                                        + [Field("queue_index", Hole(U8))]))
  {
    TaskSpawnAtLayout(task, argCnt);
    TaskSpawnAtFailedLayout(task, argCnt);
    Collected(TaskSpawnAt(task, argCnt), TaskSpawnAtEvent(task, argCnt));
    Collected(TaskSpawnAtFailed(task, argCnt), TaskSpawnAtFailedEvent(task, argCnt));
  }
}
