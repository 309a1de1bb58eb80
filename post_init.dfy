/**
 * `codegen/post_init.rs`: the statements that run after `#[init]` returns
 * and before the application goes live — resource writes, probe
 * construction, monotonic reset and store, and the interrupt enable.
 */
module PostInit {
  import opened Text

  /** A modality probe of `app.modality_probes()`, keyed by its task. */
  datatype Probe = Probe(task: string, name: string, localName: string, storageName: string)

  datatype Stmt =
    | WriteShared(name: string)          // `#mangled.get_mut_unchecked().as_mut_ptr().write(shared_resources.#name)`
    | WriteLocal(name: string)           // the same from `local_resources`
    | InitProbe(task: string, probe: string, storage: string, idConst: string)
    | Reset(index: nat)                  // `monotonics.#i.reset()`
    | Store(index: nat, monotonic: string) // `*#name.get_mut_unchecked() = Some(monotonics.#i)`
    | EnableInterrupts                   // `rtic::export::interrupt::enable()`

  /** The names of `names` that have an entry in `locations`, in order. */
  function Live(names: seq<string>, locations: set<string>): seq<string> {
    if names == [] then []
    else Live(names[..|names| - 1], locations)
           + (if names[|names| - 1] in locations then [names[|names| - 1]] else [])
  }

  /** The probe construction statement; the id constant is the probe's name upper-cased. */
  function ProbeStmt(p: Probe): Stmt {
    InitProbe(p.task, p.localName, p.storageName, ToUpper(p.name))
  }

  function SharedWrites(names: seq<string>): seq<Stmt> {
    seq(|names|, k requires 0 <= k < |names| => WriteShared(names[k]))
  }

  function LocalWrites(names: seq<string>): seq<Stmt> {
    seq(|names|, k requires 0 <= k < |names| => WriteLocal(names[k]))
  }

  function ProbeInits(probes: seq<Probe>): seq<Stmt> {
    seq(|probes|, k requires 0 <= k < |probes| => ProbeStmt(probes[k]))
  }

  /** Reset then store, for each monotonic in index order. */
  function MonotonicStmts(monotonics: seq<string>): seq<Stmt> {
    seq(2 * |monotonics|, j requires 0 <= j < 2 * |monotonics| =>
      if j % 2 == 0 then Reset(j / 2) else Store(j / 2, monotonics[j / 2]))
  }

  /** The whole statement list, group after group. */
  function Statements(shared: seq<string>, sharedLocations: set<string>,
                      local: seq<string>, localLocations: set<string>,
                      probes: seq<Probe>, monotonics: seq<string>): seq<Stmt>
  {
    SharedWrites(Live(shared, sharedLocations))
      + LocalWrites(Live(local, localLocations))
      + ProbeInits(probes)
      + MonotonicStmts(monotonics)
      + [EnableInterrupts]
  }

  lemma LiveSnoc(names: seq<string>, locations: set<string>, k: nat)
    requires k < |names|
    ensures Live(names[..k + 1], locations)
            == Live(names[..k], locations) + (if names[k] in locations then [names[k]] else [])
  {
    assert names[..k + 1][..k] == names[..k];
  }

  lemma MonotonicSnoc(monotonics: seq<string>, i: nat)
    requires i < |monotonics|
    ensures MonotonicStmts(monotonics[..i + 1]) == MonotonicStmts(monotonics[..i]) + [Reset(i), Store(i, monotonics[i])]
  {
    var a := MonotonicStmts(monotonics[..i + 1]);
    var b := MonotonicStmts(monotonics[..i]) + [Reset(i), Store(i, monotonics[i])];
    assert |a| == |b|;
    forall j | 0 <= j < |a|
      ensures a[j] == b[j]
    {
      if j < 2 * i {
        assert monotonics[..i + 1][j / 2] == monotonics[..i][j / 2];
      } else if j == 2 * i {
      } else {
        assert j / 2 == i;
      }
    }
  }

  /**
   * The generator: four loops appending to `stmts`, then the enable.
   * `sharedLocations` and `localLocations` are the resources that
   * `shared_resource_locations` and `local_resource_locations` list.
   */
  method Codegen(shared: seq<string>, sharedLocations: set<string>,
                 local: seq<string>, localLocations: set<string>,
                 probes: seq<Probe>, monotonics: seq<string>)
    returns (stmts: seq<Stmt>)
    ensures stmts == Statements(shared, sharedLocations, local, localLocations, probes, monotonics)
  {
    stmts := [];
    for k := 0 to |shared|
      invariant stmts == SharedWrites(Live(shared[..k], sharedLocations))
    {
      LiveSnoc(shared, sharedLocations, k);
      if shared[k] in sharedLocations {
        stmts := stmts + [WriteShared(shared[k])];
      }
    }
    assert shared[..|shared|] == shared;
    ghost var s1 := stmts;
    for k := 0 to |local|
      invariant stmts == s1 + LocalWrites(Live(local[..k], localLocations))
    {
      LiveSnoc(local, localLocations, k);
      if local[k] in localLocations {
        stmts := stmts + [WriteLocal(local[k])];
      }
    }
    assert local[..|local|] == local;
    ghost var s2 := stmts;
    for k := 0 to |probes|
      invariant stmts == s2 + ProbeInits(probes[..k])
    {
      var probeIdConst := ToUpper(probes[k].name);
      stmts := stmts + [InitProbe(probes[k].task, probes[k].localName, probes[k].storageName, probeIdConst)];
    }
    assert probes[..|probes|] == probes;
    ghost var s3 := stmts;
    for i := 0 to |monotonics|
      invariant stmts == s3 + MonotonicStmts(monotonics[..i])
    {
      MonotonicSnoc(monotonics, i);
      stmts := stmts + [Reset(i)];
      stmts := stmts + [Store(i, monotonics[i])];
    }
    assert monotonics[..|monotonics|] == monotonics;
    stmts := stmts + [EnableInterrupts];
  }

  // ---------------------------------------------------------------------------
  // What the statement list guarantees

  /** A name is live iff it is one of the names and has a location. */
  lemma {:induction false} LiveMembers(names: seq<string>, locations: set<string>, n: string)
    ensures n in Live(names, locations) <==> n in names && n in locations
    decreases |names|
  {
    if names != [] {
      var init := names[..|names| - 1];
      LiveMembers(init, locations, n);
      assert names == init + [names[|names| - 1]];
    }
  }

  /** Resource names are map keys; the live ones are then distinct too. */
  predicate Distinct(names: seq<string>) {
    forall i, j :: 0 <= i < j < |names| ==> names[i] != names[j]
  }

  lemma {:induction false} LiveDistinct(names: seq<string>, locations: set<string>)
    requires Distinct(names)
    ensures Distinct(Live(names, locations))
    decreases |names|
  {
    if names != [] {
      var n := |names|;
      var init := names[..n - 1];
      var last := names[n - 1];
      assert Distinct(init) by {
        assert forall i :: 0 <= i < n - 1 ==> init[i] == names[i];
      }
      LiveDistinct(init, locations);
      if last in locations {
        var l := Live(init, locations);
        forall i | 0 <= i < |l|
          ensures l[i] != last
        {
          LiveMembers(init, locations, l[i]);
          var j :| 0 <= j < |init| && init[j] == l[i];
          assert names[j] == init[j];
        }
      }
    }
  }

  /** How many times `s` occurs in `ss`. */
  function Occurrences(ss: seq<Stmt>, s: Stmt): nat {
    multiset(ss)[s]
  }

  /** In a list without repeats, an element occurs once if present and never otherwise. */
  lemma {:induction false} OnceIfPresent(names: seq<string>, n: string)
    requires Distinct(names)
    ensures multiset(names)[n] == (if n in names then 1 else 0)
    decreases |names|
  {
    if names != [] {
      var m := |names|;
      var init := names[..m - 1];
      assert Distinct(init) by {
        assert forall i :: 0 <= i < m - 1 ==> init[i] == names[i];
      }
      OnceIfPresent(init, n);
      assert names == init + [names[m - 1]];
      if names[m - 1] == n {
        assert n !in init by {
          forall i | 0 <= i < m - 1 ensures init[i] != n {
            assert init[i] == names[i];
          }
        }
      }
    }
  }

  /** A resource is written as often as its name occurs among the written names. */
  lemma {:induction false} SharedWritesCount(names: seq<string>, n: string)
    ensures multiset(SharedWrites(names))[WriteShared(n)] == multiset(names)[n]
    decreases |names|
  {
    if names != [] {
      var init := names[..|names| - 1];
      SharedWritesCount(init, n);
      assert SharedWrites(names) == SharedWrites(init) + [WriteShared(names[|names| - 1])];
      assert names == init + [names[|names| - 1]];
    }
  }

  lemma {:induction false} LocalWritesCount(names: seq<string>, n: string)
    ensures multiset(LocalWrites(names))[WriteLocal(n)] == multiset(names)[n]
    decreases |names|
  {
    if names != [] {
      var init := names[..|names| - 1];
      LocalWritesCount(init, n);
      assert LocalWrites(names) == LocalWrites(init) + [WriteLocal(names[|names| - 1])];
      assert names == init + [names[|names| - 1]];
    }
  }

  /** Which group a statement belongs to, in the order the groups are emitted. */
  function Group(s: Stmt): nat {
    match s
    case WriteShared(_) => 0
    case WriteLocal(_) => 1
    case InitProbe(_, _, _, _) => 2
    case Reset(_) => 3
    case Store(_, _) => 3
    case EnableInterrupts => 4
  }

  /** A statement occurs nowhere in a list made only of other groups. */
  lemma OtherGroups(ss: seq<Stmt>, s: Stmt)
    requires forall i :: 0 <= i < |ss| ==> Group(ss[i]) != Group(s)
    ensures multiset(ss)[s] == 0
  {
    assert s !in ss;
  }

  /** Each shared resource is written exactly once if it has a location, and never otherwise. */
  lemma SharedWrittenOnce(shared: seq<string>, sharedLocations: set<string>,
                          local: seq<string>, localLocations: set<string>,
                          probes: seq<Probe>, monotonics: seq<string>, n: string)
    requires Distinct(shared)
    ensures Occurrences(Statements(shared, sharedLocations, local, localLocations, probes, monotonics), WriteShared(n))
            == (if n in shared && n in sharedLocations then 1 else 0)
  {
    var ls := Live(shared, sharedLocations);
    LiveDistinct(shared, sharedLocations);
    LiveMembers(shared, sharedLocations, n);
    OnceIfPresent(ls, n);
    SharedWritesCount(ls, n);
    var lw, pi, ms := LocalWrites(Live(local, localLocations)), ProbeInits(probes), MonotonicStmts(monotonics);
    OtherGroups(lw, WriteShared(n));
    OtherGroups(pi, WriteShared(n));
    OtherGroups(ms, WriteShared(n));
    var stmts := Statements(shared, sharedLocations, local, localLocations, probes, monotonics);
    assert multiset(stmts) == multiset(SharedWrites(ls)) + multiset(lw) + multiset(pi) + multiset(ms) + multiset{EnableInterrupts};
  }

  /** Each local resource is written exactly once if it has a location, and never otherwise. */
  lemma LocalWrittenOnce(shared: seq<string>, sharedLocations: set<string>,
                         local: seq<string>, localLocations: set<string>,
                         probes: seq<Probe>, monotonics: seq<string>, n: string)
    requires Distinct(local)
    ensures Occurrences(Statements(shared, sharedLocations, local, localLocations, probes, monotonics), WriteLocal(n))
            == (if n in local && n in localLocations then 1 else 0)
  {
    var ls := SharedWrites(Live(shared, sharedLocations));
    var ll := Live(local, localLocations);
    LiveDistinct(local, localLocations);
    LiveMembers(local, localLocations, n);
    OnceIfPresent(ll, n);
    LocalWritesCount(ll, n);
    var pi, ms := ProbeInits(probes), MonotonicStmts(monotonics);
    OtherGroups(ls, WriteLocal(n));
    OtherGroups(pi, WriteLocal(n));
    OtherGroups(ms, WriteLocal(n));
    var stmts := Statements(shared, sharedLocations, local, localLocations, probes, monotonics);
    assert multiset(stmts) == multiset(ls) + multiset(LocalWrites(ll)) + multiset(pi) + multiset(ms) + multiset{EnableInterrupts};
  }

  /**
   * Groups come in the order shared writes, local writes, probe inits,
   * monotonics, enable; the enable is the last statement and occurs once;
   * and the length is live shared + live local + probes + 2·monotonics + 1.
   */
  lemma Layout(shared: seq<string>, sharedLocations: set<string>,
               local: seq<string>, localLocations: set<string>,
               probes: seq<Probe>, monotonics: seq<string>)
    ensures var stmts := Statements(shared, sharedLocations, local, localLocations, probes, monotonics);
            && |stmts| == |Live(shared, sharedLocations)| + |Live(local, localLocations)|
                          + |probes| + 2 * |monotonics| + 1
            && (forall i, j :: 0 <= i < j < |stmts| ==> Group(stmts[i]) <= Group(stmts[j]))
            && stmts[|stmts| - 1] == EnableInterrupts
            && (forall i :: 0 <= i < |stmts| - 1 ==> stmts[i] != EnableInterrupts)
  {
    var stmts := Statements(shared, sharedLocations, local, localLocations, probes, monotonics);
    var a := |Live(shared, sharedLocations)|;
    var b := a + |Live(local, localLocations)|;
    var c := b + |probes|;
    var d := c + 2 * |monotonics|;
    assert |stmts| == d + 1;
    assert forall i :: 0 <= i < |stmts| ==>
      Group(stmts[i]) == (if i < a then 0 else if i < b then 1 else if i < c then 2 else if i < d then 3 else 4);
  }

  /** Monotonic `i` is reset and then immediately stored, in index order. */
  lemma MonotonicPairs(monotonics: seq<string>, i: nat)
    requires i < |monotonics|
    ensures MonotonicStmts(monotonics)[2 * i] == Reset(i)
    ensures MonotonicStmts(monotonics)[2 * i + 1] == Store(i, monotonics[i])
  {
    assert (2 * i + 1) / 2 == i && (2 * i + 1) % 2 == 1;
  }

  /** Each probe gets one construction statement whose id constant is its upper-cased name. */
  lemma ProbeIds(probes: seq<Probe>, k: nat)
    requires k < |probes|
    ensures ProbeInits(probes)[k].InitProbe?
    ensures ProbeInits(probes)[k].idConst == ToUpper(probes[k].name)
    ensures IsUpper(ProbeInits(probes)[k].idConst)
  {
    ToUpperIsUpper(probes[k].name);
  }
}
