/**
 * `modality_probe/manifest_gen.rs`: the application's modality probes are
 * merged into the component's `probes.csv` — an existing probe of the same
 * (upper-cased) name only gets its description refreshed, a new one is
 * appended with a freshly generated id — and the list is then stably
 * sorted by id. The merge only happens when `Component.toml` exists.
 * Files, environment variables, the CSV/TOML libraries and the external
 * `modality-probe` tool are not modelled: their contents are parameters.
 */
module Manifest {
  import opened Text

  /** A row of `probes.csv`. */
  datatype Probe = Probe(componentId: string, id: u32, name: string, description: string,
                         tags: string, file: string, line: string)

  /** `Component.toml`: only its id is used. */
  datatype Component = Component(name: string, id: string)

  /** A probe declared in the application: its task, name and optional description. */
  datatype AppProbe = AppProbe(task: string, name: string, description: Option<string>)

  // ---------------------------------------------------------------------------
  // Loading

  /** The names of a probe list, as a set. */
  function NameSet(ps: seq<Probe>): set<string> {
    set i | 0 <= i < |ps| :: ps[i].name
  }

  /**
   * `Probes::from_csv`: no file gives no probes; otherwise every row, with its
   * name upper-cased and every other field as read.
   */
  function FromCsv(exists_: bool, rows: seq<Probe>): (ps: seq<Probe>)
    ensures !exists_ ==> ps == []
    ensures exists_ ==> |ps| == |rows|
    ensures exists_ ==> forall i :: 0 <= i < |rows| ==>
              ps[i] == rows[i].(name := ToUpper(rows[i].name)) && IsUpper(ps[i].name)
  {
    if !exists_ then []
    else seq(|rows|, i requires 0 <= i < |rows| => rows[i].(name := ToUpper(rows[i].name)))
  }

  // ---------------------------------------------------------------------------
  // The upsert of one application probe

  /** `description.unwrap_or_else(|| format!("Probe for task {}", task_name))`. */
  function Description(ap: AppProbe): string {
    match ap.description
    case Some(d) => d
    case None => "Probe for task " + ap.task
  }

  /** `iter().position(|p| p.name == name)`: the first probe with that name. */
  function Position(ps: seq<Probe>, name: string): (r: Option<nat>)
    ensures r.None? <==> name !in NameSet(ps)
    ensures r.Some? ==> r.value < |ps| && ps[r.value].name == name
                        && forall j :: 0 <= j < r.value ==> ps[j].name != name
  {
    if ps == [] then None
    else if ps[0].name == name then Some(0)
    else match Position(ps[1..], name)
         case None => (assert NameSet(ps) == NameSet(ps[1..]) + {ps[0].name}; None)
         case Some(i) => Some(i + 1)
  }

  /** The probe appended for an application probe not yet in the list. */
  function NewProbe(componentId: string, id: u32, ap: AppProbe): Probe {
    Probe(componentId, id, ToUpper(ap.name), Description(ap), "RTIC;task", "", "")
  }

  /** One iteration of the merge loop, as a function of the list before it. */
  function Upsert(ps: seq<Probe>, componentId: string, id: u32, ap: AppProbe): seq<Probe> {
    match Position(ps, ToUpper(ap.name))
    case Some(i) => ps[i := ps[i].(description := Description(ap))]
    case None => ps + [NewProbe(componentId, id, ap)]
  }

  /** The merge loop over the application's probes; `ids[k]` is what `id_gen` yields for probe `k`. */
  function MergeAll(ps: seq<Probe>, componentId: string, aps: seq<AppProbe>, ids: seq<u32>): seq<Probe>
    requires |ids| == |aps|
  {
    if aps == [] then ps
    else Upsert(MergeAll(ps, componentId, aps[..|aps| - 1], ids[..|ids| - 1]),
                componentId, ids[|ids| - 1], aps[|aps| - 1])
  }

  // ---------------------------------------------------------------------------
  // The stable sort by id

  predicate SortedById(ps: seq<Probe>) {
    forall i, j :: 0 <= i < j < |ps| ==> ps[i].id <= ps[j].id
  }

  /** The probes of `ps` with id `k`, in order. */
  function WithId(ps: seq<Probe>, k: u32): seq<Probe> {
    if ps == [] then []
    else WithId(ps[..|ps| - 1], k) + (if ps[|ps| - 1].id == k then [ps[|ps| - 1]] else [])
  }

  /** `x` placed after every probe whose id is not larger than its own. */
  function Insert(ps: seq<Probe>, x: Probe): seq<Probe> {
    if ps == [] || ps[|ps| - 1].id <= x.id then ps + [x]
    else Insert(ps[..|ps| - 1], x) + [ps[|ps| - 1]]
  }

  /** `sort_by_key(|p| p.id)`: a stable sort, here as insertion of each probe in turn. */
  function SortById(ps: seq<Probe>): seq<Probe> {
    if ps == [] then [] else Insert(SortById(ps[..|ps| - 1]), ps[|ps| - 1])
  }

  lemma {:induction false} InsertPermutes(ps: seq<Probe>, x: Probe)
    ensures multiset(Insert(ps, x)) == multiset(ps) + multiset{x}
    decreases |ps|
  {
    if ps != [] && ps[|ps| - 1].id > x.id {
      var init := ps[..|ps| - 1];
      InsertPermutes(init, x);
      assert ps == init + [ps[|ps| - 1]];
    }
  }

  lemma {:induction false} InsertSorted(ps: seq<Probe>, x: Probe)
    requires SortedById(ps)
    ensures SortedById(Insert(ps, x))
    decreases |ps|
  {
    if ps != [] && ps[|ps| - 1].id > x.id {
      var init := ps[..|ps| - 1];
      var last := ps[|ps| - 1];
      InsertSorted(init, x);
      InsertPermutes(init, x);
      var r := Insert(init, x);
      forall i | 0 <= i < |r|
        ensures r[i].id <= last.id
      {
        assert r[i] in multiset(r);
        if r[i] != x {
          assert r[i] in multiset(init);
          var j :| 0 <= j < |init| && init[j] == r[i];
          assert ps[j] == init[j];
        }
      }
    }
  }

  lemma WithIdSnoc(ps: seq<Probe>, y: Probe, k: u32)
    ensures WithId(ps + [y], k) == WithId(ps, k) + (if y.id == k then [y] else [])
  {
    assert (ps + [y])[..|ps|] == ps;
  }

  /** Inserting keeps the order among equal ids: `x` comes after those already there. */
  lemma {:induction false} InsertStable(ps: seq<Probe>, x: Probe, k: u32)
    ensures WithId(Insert(ps, x), k) == WithId(ps, k) + (if x.id == k then [x] else [])
    decreases |ps|
  {
    if ps == [] || ps[|ps| - 1].id <= x.id {
      WithIdSnoc(ps, x, k);
    } else {
      var init := ps[..|ps| - 1];
      var last := ps[|ps| - 1];
      var r := Insert(init, x);
      assert Insert(ps, x) == r + [last];
      InsertStable(init, x, k);
      WithIdSnoc(r, last, k);
      var a, xs, ls := WithId(init, k), (if x.id == k then [x] else []), (if last.id == k then [last] else []);
      assert WithId(r + [last], k) == a + xs + ls;
      assert WithId(ps, k) == a + ls;
      assert xs == [] || ls == [];
    }
  }

  /**
   * The sort yields the probes sorted by id, as a permutation of the input,
   * and keeps the input order among probes of equal id.
   */
  lemma {:induction false} SortByIdCorrect(ps: seq<Probe>)
    ensures SortedById(SortById(ps))
    ensures multiset(SortById(ps)) == multiset(ps)
    ensures forall k: u32 :: WithId(SortById(ps), k) == WithId(ps, k)
    decreases |ps|
  {
    if ps != [] {
      var init := ps[..|ps| - 1];
      var last := ps[|ps| - 1];
      SortByIdCorrect(init);
      InsertSorted(SortById(init), last);
      InsertPermutes(SortById(init), last);
      assert ps == init + [last];
      forall k: u32
        ensures WithId(SortById(ps), k) == WithId(ps, k)
      {
        InsertStable(SortById(init), last, k);
      }
    }
  }

  // ---------------------------------------------------------------------------
  // `manifest_gen`

  /** `Path::join` with a relative file name. */
  function PathJoin(dir: string, file: string): string {
    if dir == [] || dir[|dir| - 1] == '/' then dir + file else dir + "/" + file
  }

  function ComponentManifestPath(dir: string): string {
    PathJoin(dir, "Component.toml")
  }

  function ProbesManifestPath(dir: string): string {
    PathJoin(dir, "probes.csv")
  }

  /** Both manifests sit in the component directory, under their fixed names, and differ. */
  lemma ManifestPaths(dir: string)
    ensures var c, p := ComponentManifestPath(dir), ProbesManifestPath(dir);
            && c[|c| - 14..] == "Component.toml"
            && p[|p| - 10..] == "probes.csv"
            && c[..|dir|] == dir && p[..|dir|] == dir
            && c != p
  {
    var c, p := ComponentManifestPath(dir), ProbesManifestPath(dir);
    assert c[|c| - 14..] == "Component.toml";
    assert p[|p| - 10..] == "probes.csv";
    assert c[|c| - 1] == 'l' && p[|p| - 1] == 'v';
  }

  /**
   * The merge of `manifest_gen`: when `Component.toml` exists, load
   * `probes.csv`, upsert each application probe, sort by id, and return the
   * list written back; otherwise nothing is written.
   */
  method MergeManifest(componentExists: bool, component: Component,
                       csvExists: bool, rows: seq<Probe>,
                       appProbes: seq<AppProbe>, ids: seq<u32>)
    returns (written: Option<seq<Probe>>)
    requires |ids| == |appProbes|
    ensures written.Some? <==> componentExists
    ensures componentExists ==>
              written.value == SortById(MergeAll(FromCsv(csvExists, rows), component.id, appProbes, ids))
  {
    if !componentExists {
      return None;
    }
    var probes := FromCsv(csvExists, rows);
    ghost var loaded := probes;
    for k := 0 to |appProbes|
      invariant probes == MergeAll(loaded, component.id, appProbes[..k], ids[..k])
    {
      var ap := appProbes[k];
      var name := ToUpper(ap.name);
      var pos := Position(probes, name);
      if pos.Some? {
        probes := probes[pos.value := probes[pos.value].(description := Description(ap))];
      } else {
        var probeId := ids[k];
        probes := probes + [Probe(component.id, probeId, ToUpper(ap.name), Description(ap), "RTIC;task", "", "")];
      }
      assert appProbes[..k + 1][..k] == appProbes[..k];
      assert ids[..k + 1][..k] == ids[..k];
    }
    assert appProbes[..|appProbes|] == appProbes;
    assert ids[..|ids|] == ids;
    probes := SortById(probes);
    written := Some(probes);
  }

  // ---------------------------------------------------------------------------
  // What the merge guarantees

  /** Two probes agree on everything but the description. */
  predicate SameButDescription(p: Probe, q: Probe) {
    p.(description := q.description) == q
  }

  /**
   * An existing probe of that name only gets its description replaced (by
   * the declared one, or `Probe for task <task>`); a new name appends a
   * probe with the component's id, the upper-cased name, tags `RTIC;task`
   * and empty file and line.
   */
  lemma UpsertEffect(ps: seq<Probe>, componentId: string, id: u32, ap: AppProbe)
    ensures var r, n := Upsert(ps, componentId, id, ap), ToUpper(ap.name);
            && (n in NameSet(ps) ==>
                  && |r| == |ps|
                  && exists i :: 0 <= i < |ps| && ps[i].name == n
                       && r[i].description == Description(ap) && SameButDescription(r[i], ps[i])
                       && forall j :: 0 <= j < |ps| && j != i ==> r[j] == ps[j])
            && (n !in NameSet(ps) ==>
                  && r == ps + [NewProbe(componentId, id, ap)]
                  && r[|ps|].componentId == componentId && r[|ps|].name == n
                  && r[|ps|].tags == "RTIC;task" && r[|ps|].file == "" && r[|ps|].line == ""
                  && r[|ps|].description == Description(ap))
  {
    var n := ToUpper(ap.name);
    if n in NameSet(ps) {
      var i := Position(ps, n).value;
      assert ps[i].name == n;
    }
  }

  /**
   * Nothing is removed and nothing but descriptions changes: the loaded
   * probes keep their places and every field but the description.
   */
  lemma {:induction false} MergeKeeps(ps: seq<Probe>, componentId: string, aps: seq<AppProbe>, ids: seq<u32>)
    requires |ids| == |aps|
    ensures var r := MergeAll(ps, componentId, aps, ids);
            && |r| >= |ps|
            && forall i :: 0 <= i < |ps| ==> SameButDescription(r[i], ps[i])
    decreases |aps|
  {
    if aps != [] {
      var r0 := MergeAll(ps, componentId, aps[..|aps| - 1], ids[..|ids| - 1]);
      MergeKeeps(ps, componentId, aps[..|aps| - 1], ids[..|ids| - 1]);
      UpsertEffect(r0, componentId, ids[|ids| - 1], aps[|aps| - 1]);
    }
  }

  /** The upper-cased names of the application probes. */
  function AppNames(aps: seq<AppProbe>): set<string> {
    set k | 0 <= k < |aps| :: ToUpper(aps[k].name)
  }

  /** One upsert adds the probe's upper-cased name and grows the list exactly when the name is new. */
  lemma UpsertNames(ps: seq<Probe>, componentId: string, id: u32, ap: AppProbe)
    ensures var r, n := Upsert(ps, componentId, id, ap), ToUpper(ap.name);
            && NameSet(r) == NameSet(ps) + {n}
            && |r| == |ps| + (if n in NameSet(ps) then 0 else 1)
  {
    var r, n := Upsert(ps, componentId, id, ap), ToUpper(ap.name);
    match Position(ps, n)
    case Some(i) =>
      assert forall j :: 0 <= j < |ps| ==> r[j].name == ps[j].name;
      assert NameSet(r) == NameSet(ps);
    case None =>
      assert forall j :: 0 <= j < |ps| ==> r[j] == ps[j];
      assert r[|ps|].name == n;
      assert NameSet(r) == NameSet(ps) + {n};
  }

  lemma AppNamesSnoc(aps: seq<AppProbe>)
    requires aps != []
    ensures AppNames(aps) == AppNames(aps[..|aps| - 1]) + {ToUpper(aps[|aps| - 1].name)}
  {
    var init := aps[..|aps| - 1];
    assert forall k :: 0 <= k < |init| ==> init[k] == aps[k];
  }

  /** After the merge the names are those loaded plus those of the application. */
  lemma {:induction false} MergeNames(ps: seq<Probe>, componentId: string, aps: seq<AppProbe>, ids: seq<u32>)
    requires |ids| == |aps|
    ensures NameSet(MergeAll(ps, componentId, aps, ids)) == NameSet(ps) + AppNames(aps)
    decreases |aps|
  {
    if aps != [] {
      MergeNames(ps, componentId, aps[..|aps| - 1], ids[..|ids| - 1]);
      UpsertNames(MergeAll(ps, componentId, aps[..|aps| - 1], ids[..|ids| - 1]),
                  componentId, ids[|ids| - 1], aps[|aps| - 1]);
      AppNamesSnoc(aps);
    }
  }

  /**
   * The list grows by exactly the number of distinct application names that
   * were not loaded: a name repeated among the application's probes is
   * appended once.
   */
  lemma {:induction false} MergeGrowth(ps: seq<Probe>, componentId: string, aps: seq<AppProbe>, ids: seq<u32>)
    requires |ids| == |aps|
    ensures |MergeAll(ps, componentId, aps, ids)| == |ps| + |AppNames(aps) - NameSet(ps)|
    decreases |aps|
  {
    if aps != [] {
      var init := aps[..|aps| - 1];
      var r0 := MergeAll(ps, componentId, init, ids[..|ids| - 1]);
      var n := ToUpper(aps[|aps| - 1].name);
      MergeGrowth(ps, componentId, init, ids[..|ids| - 1]);
      MergeNames(ps, componentId, init, ids[..|ids| - 1]);
      UpsertNames(r0, componentId, ids[|ids| - 1], aps[|aps| - 1]);
      AppNamesSnoc(aps);
      if n in NameSet(r0) {
        assert AppNames(aps) - NameSet(ps) == AppNames(init) - NameSet(ps);
      } else {
        assert AppNames(aps) - NameSet(ps) == (AppNames(init) - NameSet(ps)) + {n};
      }
    }
  }

  /** Sorting keeps every probe, so the written list holds every application probe's name. */
  lemma WrittenNames(ps: seq<Probe>, componentId: string, aps: seq<AppProbe>, ids: seq<u32>)
    requires |ids| == |aps|
    ensures NameSet(SortById(MergeAll(ps, componentId, aps, ids))) == NameSet(ps) + AppNames(aps)
  {
    var m := MergeAll(ps, componentId, aps, ids);
    MergeNames(ps, componentId, aps, ids);
    SortByIdCorrect(m);
    var s := SortById(m);
    forall n | n in NameSet(s) ensures n in NameSet(m) {
      var i :| 0 <= i < |s| && s[i].name == n;
      assert s[i] in multiset(m);
    }
    forall n | n in NameSet(m) ensures n in NameSet(s) {
      var i :| 0 <= i < |m| && m[i].name == n;
      assert m[i] in multiset(s);
    }
  }
}
