/**
 * `codegen/init.rs`: the items generated for the `#[init]` function — the
 * user's Shared and Local structs (one field per resource), the optional
 * locals struct and its constructor, the init module, the user's init
 * function with its return triple, and `call_init`, the statements that
 * run init.
 */
module Init {
  import opened Text
  import opened Tracing

  /** A resource of `app.shared_resources` or `app.local_resources`: its name and its type. */
  datatype Resource = Resource(name: string, ty: string)

  /** One `#k: #ty,` field of a generated struct. */
  datatype StructField = StructField(name: string, ty: string)

  /** The `#[init]` function: its name, its Shared and Local struct names and its own `local` list. */
  datatype InitFn = InitFn(name: string, sharedStruct: string, localStruct: string,
                           localArgs: seq<string>, localsNeedLt: bool)

  datatype RootItem =
    | ResourceStructs(shared: string, sharedFields: seq<StructField>,
                      local: string, localFields: seq<StructField>)
    | LocalsStruct(init: string)
    | InitModule(init: string, sharedNeedsLt: bool, localNeedsLt: bool)

  /** The locals constructor placed in `mod_app`. */
  datatype ModAppItem = LocalsCtor(init: string)

  /** `fn #name(#context: #name::Context) -> (#shared, #local, #name::Monotonics)`. */
  datatype UserInit = UserInit(name: string, result: seq<string>)

  /** The statements of `call_init`. */
  datatype Stmt =
    | TraceStmt(tp: TracePoint)
    | BindInit(init: string, bindings: seq<string>)   // `let (a, b, mut c) = #name(...)`

  const Bindings: seq<string> := ["shared_resources", "local_resources", "monotonics"]

  /** The `map`/`collect` of one resource list into struct fields. */
  function Fields(rs: seq<Resource>): (fs: seq<StructField>)
    ensures |fs| == |rs|
  {
    seq(|rs|, k requires 0 <= k < |rs| => StructField(rs[k].name, rs[k].ty))
  }

  /** A struct's resources, read back from its fields. */
  function ResourcesOf(fs: seq<StructField>): (rs: seq<Resource>)
    ensures |rs| == |fs|
  {
    seq(|fs|, k requires 0 <= k < |fs| => Resource(fs[k].name, fs[k].ty))
  }

  /**
   * A struct has exactly one field per resource, with its name and type, in
   * the application's order: the resources can be read back from the fields.
   */
  lemma FieldsRoundTrip(rs: seq<Resource>)
    ensures ResourcesOf(Fields(rs)) == rs
  {
    assert forall k :: 0 <= k < |rs| ==> ResourcesOf(Fields(rs))[k] == rs[k];
  }

  /** Different resource lists give different field lists. */
  lemma FieldsInjective(a: seq<Resource>, b: seq<Resource>)
    requires Fields(a) == Fields(b)
    ensures a == b
  {
    FieldsRoundTrip(a);
    FieldsRoundTrip(b);
  }

  /** `#name::Monotonics`. */
  function MonotonicsType(name: string): string {
    name + "::Monotonics"
  }

  /**
   * The whole generator. `mod_app` starts as `None` and is reassigned only
   * when init has local resources; `root_init` is pushed step by step.
   */
  method Codegen(init: InitFn, shared: seq<Resource>, local: seq<Resource>)
    returns (modApp: Option<ModAppItem>, rootInit: seq<RootItem>, userInit: UserInit, callInit: seq<Stmt>)
    ensures modApp.Some? <==> init.localArgs != []
    ensures modApp.Some? ==> modApp.value == LocalsCtor(init.name)
    ensures |rootInit| == (if init.localArgs != [] then 3 else 2)
    ensures rootInit[0] == ResourceStructs(init.sharedStruct, Fields(shared), init.localStruct, Fields(local))
    ensures init.localArgs != [] ==> rootInit[1] == LocalsStruct(init.name)
    ensures rootInit[|rootInit| - 1] == InitModule(init.name, false, init.localArgs != [] && init.localsNeedLt)
    ensures userInit.name == init.name
    ensures userInit.result == [init.sharedStruct, init.localStruct, MonotonicsType(init.name)]
    ensures |callInit| == 2
    ensures callInit[0] == TraceStmt(TraceStart(init.name))
    ensures callInit[1] == BindInit(init.name, Bindings)
  {
    var localNeedsLt := false;
    rootInit := [];
    var sharedFields := Fields(shared);
    var localFields := Fields(local);
    rootInit := rootInit + [ResourceStructs(init.sharedStruct, sharedFields, init.localStruct, localFields)];
    var userInitReturn := [init.sharedStruct, init.localStruct, MonotonicsType(init.name)];
    userInit := UserInit(init.name, userInitReturn);
    modApp := None;
    if init.localArgs != [] {
      localNeedsLt := init.localsNeedLt;
      rootInit := rootInit + [LocalsStruct(init.name)];
      modApp := Some(LocalsCtor(init.name));
    }
    var tpTraceStart := TraceStart(init.name);
    callInit := [TraceStmt(tpTraceStart), BindInit(init.name, Bindings)];
    rootInit := rootInit + [InitModule(init.name, false, localNeedsLt)];
  }

  /**
   * `call_init` first emits `TRACE_START` for the init function, which the
   * collector reads as `TRACE_START` with `version=1` and the init's name,
   * and only then runs init, binding its triple.
   */
  lemma CallInitTraced(name: string)
    requires Plain(name)
    ensures Parse(TraceStart(name).fmt) == Some(TraceStartEvent(name))
  {
    TraceStartLayout(name);
    Collected(TraceStart(name), TraceStartEvent(name));
  }
}
