/**
 Which binaries `daemon update` installs and which processes it restarts: one swap for each
 binary, however many processes run from it.
 */
module UpdatePlan {
  import opened Basics
  import V = Versions

  /** A binary, by its path. */
  datatype Exe = Exe(path: string)
  datatype Proc = Proc(exe: Exe, pid: nat, version: string)
  datatype Action = Install(exe: Exe) | Restart(pid: nat)

  /** The binaries, and the processes that run from them. */
  datatype World = World(disk: Disk, procs: seq<Proc>)

  /** What the binaries on disk report. */
  type Disk = map<Exe, string>

  function VersionOf(disk: Disk, exe: Exe): string {
    if exe in disk then disk[exe] else ""
  }

  // ---- Grouping ----

  function RunsFrom(procs: seq<Proc>, exe: Exe): seq<Proc> {
    if procs == [] then []
    else
      var n := |procs| - 1;
      RunsFrom(procs[..n], exe) + if procs[n].exe == exe then [procs[n]] else []
  }

  function Gathered(procs: seq<Proc>, order: seq<Exe>): seq<Proc> {
    if order == [] then [] else Gathered(procs, order[..|order| - 1]) + RunsFrom(procs, order[|order| - 1])
  }

  /** `order` names each binary that a process runs from, once. */
  ghost predicate Orders(procs: seq<Proc>, order: seq<Exe>) {
    Distinct(order) && forall e :: e in order <==> RunsFrom(procs, e) != []
  }

  ghost predicate Grouped(procs: seq<Proc>, order: seq<Exe>, byExe: map<Exe, seq<Proc>>) {
    Orders(procs, order) && (forall e :: e in byExe <==> e in order) && forall e :: e in byExe ==> byExe[e] == RunsFrom(procs, e)
  }

  function AddTo(byExe: map<Exe, seq<Proc>>, p: Proc): map<Exe, seq<Proc>> {
    byExe[p.exe := (if p.exe in byExe then byExe[p.exe] else []) + [p]]
  }

  lemma RunsFromAppend(procs: seq<Proc>, p: Proc, e: Exe)
    ensures RunsFrom(procs + [p], e) == if p.exe == e then RunsFrom(procs, e) + [p] else RunsFrom(procs, e)
  {
    assert (procs + [p])[..|procs|] == procs;
  }

  lemma OrdersNext(procs: seq<Proc>, order: seq<Exe>, p: Proc)
    requires Orders(procs, order)
    ensures Orders(procs + [p], if p.exe in order then order else order + [p.exe])
  {
    hide RunsFrom;
    forall e ensures RunsFrom(procs + [p], e) != [] <==> RunsFrom(procs, e) != [] || p.exe == e { RunsFromAppend(procs, p, e); }
  }

  lemma GroupedNext(procs: seq<Proc>, order: seq<Exe>, byExe: map<Exe, seq<Proc>>, p: Proc)
    requires Grouped(procs, order, byExe)
    ensures Grouped(procs + [p], if p.exe in byExe then order else order + [p.exe], AddTo(byExe, p))
  {
    hide RunsFrom, Distinct;
    OrdersNext(procs, order, p);
    if p.exe !in byExe { NotOrdered(procs, order, p.exe); }
    var more := AddTo(byExe, p);
    hide Orders;
    forall e | e in more ensures more[e] == RunsFrom(procs + [p], e) { RunsFromAppend(procs, p, e); }
  }

  lemma NotOrdered(procs: seq<Proc>, order: seq<Exe>, e: Exe)
    requires Orders(procs, order) && e !in order
    ensures RunsFrom(procs, e) == []
  {
  }

  method GroupByExe(procs: seq<Proc>) returns (order: seq<Exe>, byExe: map<Exe, seq<Proc>>)
    ensures Orders(procs, order) && Grouped(procs, order, byExe)
  {
    hide Grouped, RunsFrom, Orders, AddTo;
    order, byExe := [], map[];
    var i := 0;
    NoneGrouped();
    assert procs[..0] == [];
    while i < |procs|
      invariant 0 <= i <= |procs| && Grouped(procs[..i], order, byExe)
    {
      var p := procs[i];
      GroupedNext(procs[..i], order, byExe, p);
      assert procs[..i + 1] == procs[..i] + [p];
      if p.exe !in byExe { order := order + [p.exe]; }
      byExe := AddTo(byExe, p);
      i := i + 1;
    }
    assert procs[..i] == procs;
    GroupedOrders(procs, order, byExe);
  }

  lemma NoneGrouped()
    ensures Grouped([], [], map[])
  {
  }

  lemma GroupedOrders(procs: seq<Proc>, order: seq<Exe>, byExe: map<Exe, seq<Proc>>)
    requires Grouped(procs, order, byExe)
    ensures Orders(procs, order)
  {
  }

  lemma GroupIs(procs: seq<Proc>, order: seq<Exe>, byExe: map<Exe, seq<Proc>>, i: nat)
    requires Grouped(procs, order, byExe) && i < |order|
    ensures order[i] in byExe && byExe[order[i]] == RunsFrom(procs, order[i])
  {
    hide RunsFrom;
  }

  lemma {:induction false} CountInGroup(procs: seq<Proc>, e: Exe, p: Proc)
    ensures multiset(RunsFrom(procs, e))[p] == if p.exe == e then multiset(procs)[p] else 0
  {
    if procs != [] {
      var n := |procs| - 1;
      CountInGroup(procs[..n], e, p);
      assert procs == procs[..n] + [procs[n]];
    }
  }

  lemma {:induction false} CountInGroups(procs: seq<Proc>, order: seq<Exe>, p: Proc)
    requires Distinct(order)
    ensures multiset(Gathered(procs, order))[p] == if p.exe in order then multiset(procs)[p] else 0
    decreases |order|
  {
    if order != [] {
      var n := |order| - 1;
      CountInGroups(procs, order[..n], p);
      CountInGroup(procs, order[n], p);
      assert order == order[..n] + [order[n]];
    }
  }

  /** The groups together hold each process exactly once. */
  lemma GatheringPermutes(procs: seq<Proc>, order: seq<Exe>)
    requires Orders(procs, order)
    ensures multiset(Gathered(procs, order)) == multiset(procs)
  {
    forall p ensures multiset(Gathered(procs, order))[p] == multiset(procs)[p] {
      CountInGroups(procs, order, p);
      CountInGroup(procs, p.exe, p);
    }
  }

  // ---- The plan ----

  predicate NeedsInstall(onDisk: string, latest: string, force: bool) {
    force || V.Less(onDisk, latest)
  }

  /** What the binary will report once it is installed, if it is. */
  function Goal(onDisk: string, latest: string, force: bool): string {
    if NeedsInstall(onDisk, latest, force) then latest else onDisk
  }

  predicate NeedsRestart(p: Proc, onDisk: string, latest: string, force: bool) {
    NeedsInstall(onDisk, latest, force) || p.version != Goal(onDisk, latest, force)
  }

  function ToRestart(group: seq<Proc>, onDisk: string, latest: string, force: bool): seq<Proc> {
    if group == [] then []
    else
      var n := |group| - 1;
      ToRestart(group[..n], onDisk, latest, force) + if NeedsRestart(group[n], onDisk, latest, force) then [group[n]] else []
  }

  function Restarts(procs: seq<Proc>): seq<Action> {
    seq(|procs|, i requires 0 <= i < |procs| => Restart(procs[i].pid))
  }

  function ForBinary(procs: seq<Proc>, disk: Disk, exe: Exe, latest: string, force: bool): seq<Action> {
    var onDisk := VersionOf(disk, exe);
    (if NeedsInstall(onDisk, latest, force) then [Install(exe)] else [])
    + Restarts(ToRestart(RunsFrom(procs, exe), onDisk, latest, force))
  }

  /** What is to be done for the first n binaries. */
  function PlanFirst(w: World, order: seq<Exe>, n: nat, latest: string, force: bool): seq<Action>
    requires n <= |order|
  {
    if n == 0 then []
    else PlanFirst(w, order, n - 1, latest, force) + ForBinary(w.procs, w.disk, order[n - 1], latest, force)
  }

  function Plan(w: World, order: seq<Exe>, latest: string, force: bool): seq<Action> {
    PlanFirst(w, order, |order|, latest, force)
  }

  // ---- What actions do ----

  /** What a run meets: the release that is installed, and which restarts succeed. A process
      whose restart fails goes on as it was. */
  datatype Outside = Outside(latest: string, restarts: nat -> bool)

  function RestartOne(p: Proc, disk: Disk, pid: nat, out: Outside): Proc {
    if p.pid == pid && out.restarts(pid) then p.(version := VersionOf(disk, p.exe)) else p
  }

  function RestartIn(procs: seq<Proc>, disk: Disk, pid: nat, out: Outside): seq<Proc> {
    seq(|procs|, i requires 0 <= i < |procs| => RestartOne(procs[i], disk, pid, out))
  }

  function Do(w: World, a: Action, out: Outside): World {
    match a
    case Install(exe) => w.(disk := w.disk[exe := out.latest])
    case Restart(pid) => w.(procs := RestartIn(w.procs, w.disk, pid, out))
  }

  function Apply(w: World, actions: seq<Action>, out: Outside): World {
    if actions == [] then w
    else
      var n := |actions| - 1;
      Do(Apply(w, actions[..n], out), actions[n], out)
  }

  lemma ApplyNone(w: World, out: Outside)
    ensures Apply(w, [], out) == w
  {
  }

  lemma ApplyOne(w: World, actions: seq<Action>, a: Action, out: Outside)
    ensures Apply(w, actions + [a], out) == Do(Apply(w, actions, out), a, out)
  {
    assert (actions + [a])[..|actions|] == actions;
  }

  lemma {:induction false} ApplyConcat(w: World, a: seq<Action>, b: seq<Action>, out: Outside)
    ensures Apply(w, a + b, out) == Apply(Apply(w, a, out), b, out)
    decreases |b|
  {
    if b == [] {
      assert a + b == a;
    } else {
      var n := |b| - 1;
      ApplyConcat(w, a, b[..n], out);
      assert (a + b)[..|a + b| - 1] == a + b[..n];
    }
  }

  /** Whatever is done, a binary is the release if it was installed and what it was if not,
      and processes keep their binary and number. */
  lemma {:induction false} BinariesAre(w: World, actions: seq<Action>, out: Outside)
    ensures var w' := Apply(w, actions, out);
      && |w'.procs| == |w.procs|
      && (forall j :: 0 <= j < |w.procs| ==> w'.procs[j].exe == w.procs[j].exe && w'.procs[j].pid == w.procs[j].pid)
      && forall e :: VersionOf(w'.disk, e) == if Install(e) in actions then out.latest else VersionOf(w.disk, e)
  {
    if actions != [] {
      var n := |actions| - 1;
      BinariesAre(w, actions[..n], out);
      assert actions == actions[..n] + [actions[n]];
    }
  }

  // ---- The loop ----

  method PlanRestarts(group: seq<Proc>, onDisk: string, latest: string, force: bool) returns (toRestart: seq<Proc>)
    ensures toRestart == ToRestart(group, onDisk, latest, force)
  {
    var needInstall := V.VersionLess(onDisk, latest);
    needInstall := force || needInstall;
    var target := onDisk;
    if needInstall { target := latest; }
    toRestart := [];
    for i := 0 to |group|
      invariant toRestart == ToRestart(group[..i], onDisk, latest, force)
    {
      assert group[..i + 1][..i] == group[..i];
      if force || needInstall || group[i].version != target { toRestart := toRestart + [group[i]]; }
    }
    assert group[..|group|] == group;
  }

  /** The machine that is updated. */
  class Machine {
    var disk: Disk
    var procs: seq<Proc>

    constructor (disk: Disk, procs: seq<Proc>)
      ensures View() == World(disk, procs)
    {
      this.disk, this.procs := disk, procs;
    }

    function View(): World
      reads this
    {
      World(disk, procs)
    }

    method InstallRelease(exe: Exe, out: Outside)
      modifies this
      ensures View() == Do(old(View()), Install(exe), out)
    {
      disk := disk[exe := out.latest];
    }

    method RestartProc(p: Proc, out: Outside) returns (ok: bool)
      modifies this
      ensures View() == Do(old(View()), Restart(p.pid), out) && ok == out.restarts(p.pid)
    {
      ok := out.restarts(p.pid);
      procs := RestartIn(procs, disk, p.pid, out);
    }

    method RestartAll(toRestart: seq<Proc>, out: Outside) returns (allOK: bool)
      modifies this
      ensures View() == Apply(old(View()), Restarts(toRestart), out)
      ensures allOK <==> forall p :: p in toRestart ==> out.restarts(p.pid)
    {
      hide Do;
      allOK := true;
      ghost var w := View();
      for i := 0 to |toRestart|
        invariant View() == Apply(w, Restarts(toRestart[..i]), out)
        invariant allOK <==> forall p :: p in toRestart[..i] ==> out.restarts(p.pid)
      {
        var ok := RestartProc(toRestart[i], out);
        allOK := allOK && ok;
        ApplyOne(w, Restarts(toRestart[..i]), Restart(toRestart[i].pid), out);
        assert Restarts(toRestart[..i + 1]) == Restarts(toRestart[..i]) + [Restart(toRestart[i].pid)];
        assert toRestart[..i + 1] == toRestart[..i] + [toRestart[i]];
      }
      assert toRestart[..|toRestart|] == toRestart;
    }

    /** A real run's part for one binary. */
    method RunBinary(exe: Exe, install: bool, toRestart: seq<Proc>, installs: Exe -> bool, out: Outside)
      returns (failed: bool, allOK: bool)
      modifies this
      ensures failed <==> install && !installs(exe)
      ensures failed ==> View() == old(View())
      ensures !failed ==> View() == Apply(old(View()), (if install then [Install(exe)] else []) + Restarts(toRestart), out)
      ensures !failed ==> (allOK <==> forall p :: p in toRestart ==> out.restarts(p.pid))
    {
      failed, allOK := false, true;
      ghost var w := View();
      ApplyConcat(w, if install then [Install(exe)] else [], Restarts(toRestart), out);
      ApplyOne(w, [], Install(exe), out);
      assert [] + [Install(exe)] == [Install(exe)];
      hide Do;
      if install {
        if !installs(exe) { return true, true; }
        InstallRelease(exe, out);
      }
      allOK := RestartAll(toRestart, out);
    }

    /**
     handleProcUpdate: a check only says whether there is anything to do; a real run does it,
     binary by binary, and gives up at the first install that fails. `n` counts the binaries
     that it is done with.
     */
    method ProcUpdate(force: bool, check: bool, installs: Exe -> bool, out: Outside)
      returns (order: seq<Exe>, pending: bool, failed: bool, allOK: bool, n: nat)
      modifies this
      ensures Orders(old(procs), order) && n <= |order|
      ensures check ==> View() == old(View()) && !failed && (pending <==> Plan(old(View()), order, out.latest, force) != [])
      ensures !check ==> View() == Apply(old(View()), PlanFirst(old(View()), order, n, out.latest, force), out)
      ensures !check && !failed ==> n == |order|
      ensures !check && !failed ==> (allOK <==> AllRestart(Plan(old(View()), order, out.latest, force), out))
      ensures failed ==> n < |order| && !installs(order[n]) && NeedsInstall(VersionOf(old(disk), order[n]), out.latest, force)
    {
      hide ForBinary, RunsFrom, Orders, Grouped, PlanFirst, Apply, V.Less, AllRestart;
      ghost var w := View();
      var byExe: map<Exe, seq<Proc>>;
      order, byExe := GroupByExe(procs);
      pending, failed, allOK, n := false, false, true, 0;
      PlanStarts(w, order, out, force);
      while n < |order|
        invariant n <= |order| && !failed
        invariant pending <==> PlanFirst(w, order, n, out.latest, force) != []
        invariant View() == if check then w else Apply(w, PlanFirst(w, order, n, out.latest, force), out)
        invariant allOK <==> (check || AllRestart(PlanFirst(w, order, n, out.latest, force), out))
      {
        GroupIs(w.procs, order, byExe, n);
        NotYetInstalled(w, order, n, out, force);
        var exe := order[n];
        var onDisk := VersionOf(disk, exe);
        var install := V.VersionLess(onDisk, out.latest);
        install := force || install;
        var toRestart := PlanRestarts(byExe[exe], onDisk, out.latest, force);
        if install || |toRestart| > 0 { pending := true; }
        PlanStep(w, order, n, install, toRestart, out, force);
        if !check {
          var restarted;
          failed, restarted := RunBinary(exe, install, toRestart, installs, out);
          if failed { return; }
          allOK := allOK && restarted;
        }
        n := n + 1;
      }
    }
  }

  ghost predicate AllRestart(actions: seq<Action>, out: Outside) {
    forall a :: a in actions && a.Restart? ==> out.restarts(a.pid)
  }

  lemma PlanStarts(w: World, order: seq<Exe>, out: Outside, force: bool)
    ensures PlanFirst(w, order, 0, out.latest, force) == [] && Apply(w, [], out) == w && AllRestart([], out)
  {
  }

  lemma PlanStep(w: World, order: seq<Exe>, n: nat, install: bool, toRestart: seq<Proc>, out: Outside, force: bool)
    requires n < |order|
    requires install == NeedsInstall(VersionOf(w.disk, order[n]), out.latest, force)
    requires toRestart == ToRestart(RunsFrom(w.procs, order[n]), VersionOf(w.disk, order[n]), out.latest, force)
    ensures var before, after, more := PlanFirst(w, order, n, out.latest, force), PlanFirst(w, order, n + 1, out.latest, force),
        (if install then [Install(order[n])] else []) + Restarts(toRestart);
      && after == before + more
      && Apply(w, after, out) == Apply(Apply(w, before, out), more, out)
      && (after != [] <==> before != [] || install || |toRestart| > 0)
      && (AllRestart(after, out) <==> AllRestart(before, out) && forall p :: p in toRestart ==> out.restarts(p.pid))
  {
    hide Apply, NeedsInstall, ToRestart, RunsFrom, PlanFirst, Restarts, VersionOf, AllRestart;
    var before, more := PlanFirst(w, order, n, out.latest, force), (if install then [Install(order[n])] else []) + Restarts(toRestart);
    MoreForBinary(w, order, n, install, toRestart, out, force);
    ApplyConcat(w, before, more, out);
    RestartsSucceed(toRestart, out);
    RestartsAre(toRestart);
    AllRestartConcat(before, more, out);
    AllRestartConcat(if install then [Install(order[n])] else [], Restarts(toRestart), out);
    InstallsNeedNoRestart(order[n], out);
  }

  lemma InstallsNeedNoRestart(exe: Exe, out: Outside)
    ensures AllRestart([Install(exe)], out) && AllRestart([], out)
  {
  }

  lemma MoreForBinary(w: World, order: seq<Exe>, n: nat, install: bool, toRestart: seq<Proc>, out: Outside, force: bool)
    requires n < |order|
    requires install == NeedsInstall(VersionOf(w.disk, order[n]), out.latest, force)
    requires toRestart == ToRestart(RunsFrom(w.procs, order[n]), VersionOf(w.disk, order[n]), out.latest, force)
    ensures PlanFirst(w, order, n + 1, out.latest, force)
         == PlanFirst(w, order, n, out.latest, force) + ((if install then [Install(order[n])] else []) + Restarts(toRestart))
  {
    hide NeedsInstall, ToRestart, RunsFrom, Restarts;
  }

  lemma RestartsAre(procs: seq<Proc>)
    ensures |Restarts(procs)| == |procs|
  {
  }

  lemma AllRestartConcat(a: seq<Action>, b: seq<Action>, out: Outside)
    ensures AllRestart(a + b, out) <==> AllRestart(a, out) && AllRestart(b, out)
  {
    if AllRestart(a + b, out) {
      forall x | x in a && x.Restart? ensures out.restarts(x.pid) { assert x in a + b; }
      forall x | x in b && x.Restart? ensures out.restarts(x.pid) { assert x in a + b; }
    }
  }

  lemma RestartsSucceed(toRestart: seq<Proc>, out: Outside)
    ensures AllRestart(Restarts(toRestart), out) <==> forall p :: p in toRestart ==> out.restarts(p.pid)
  {
    forall p | p in toRestart ensures Restart(p.pid) in Restarts(toRestart) {
      var i :| 0 <= i < |toRestart| && toRestart[i] == p;
      assert Restarts(toRestart)[i] == Restart(p.pid);
    }
    if !AllRestart(Restarts(toRestart), out) {
      var a :| a in Restarts(toRestart) && !out.restarts(a.pid);
      var i :| 0 <= i < |toRestart| && Restarts(toRestart)[i] == a;
      assert toRestart[i] in toRestart;
    }
  }

  lemma {:induction false} InstallsPlanned(w: World, order: seq<Exe>, n: nat, latest: string, force: bool, e: Exe)
    requires n <= |order|
    ensures Install(e) in PlanFirst(w, order, n, latest, force) <==> e in order[..n] && NeedsInstall(VersionOf(w.disk, e), latest, force)
  {
    hide NeedsInstall, ToRestart, RunsFrom;
    if n > 0 {
      InstallsPlanned(w, order, n - 1, latest, force, e);
      assert order[..n] == order[..n - 1] + [order[n - 1]];
    }
  }

  lemma NotYetInstalled(w: World, order: seq<Exe>, n: nat, out: Outside, force: bool)
    requires Orders(w.procs, order) && n < |order|
    ensures VersionOf(Apply(w, PlanFirst(w, order, n, out.latest, force), out).disk, order[n]) == VersionOf(w.disk, order[n])
  {
    hide NeedsInstall, RunsFrom;
    InstallsPlanned(w, order, n, out.latest, force, order[n]);
    BinariesAre(w, PlanFirst(w, order, n, out.latest, force), out);
  }

  // ---- When there is nothing to do ----

  lemma {:induction false} NothingToRestartIff(group: seq<Proc>, onDisk: string, latest: string, force: bool)
    ensures ToRestart(group, onDisk, latest, force) == [] <==> forall p :: p in group ==> !NeedsRestart(p, onDisk, latest, force)
  {
    hide NeedsRestart;
    if group != [] {
      var n := |group| - 1;
      NothingToRestartIff(group[..n], onDisk, latest, force);
      assert group == group[..n] + [group[n]];
    }
  }

  lemma {:induction false} RunsFromMembers(procs: seq<Proc>, exe: Exe)
    ensures forall p :: p in RunsFrom(procs, exe) <==> p in procs && p.exe == exe
  {
    if procs != [] {
      var n := |procs| - 1;
      RunsFromMembers(procs[..n], exe);
      assert procs == procs[..n] + [procs[n]];
    }
  }

  /** A process is up to date: its binary is not older than the release, and is what it runs. */
  predicate UpToDate(p: Proc, disk: Disk, latest: string) {
    !V.Less(VersionOf(disk, p.exe), latest) && p.version == VersionOf(disk, p.exe)
  }

  lemma NothingForBinaryIff(procs: seq<Proc>, disk: Disk, exe: Exe, latest: string, force: bool)
    requires RunsFrom(procs, exe) != []
    ensures ForBinary(procs, disk, exe, latest, force) == []
      <==> !force && forall p :: p in procs && p.exe == exe ==> UpToDate(p, disk, latest)
  {
    var group, onDisk := RunsFrom(procs, exe), VersionOf(disk, exe);
    RunsFromMembers(procs, exe);
    NothingToRestartIff(group, onDisk, latest, force);
    hide RunsFrom, ToRestart, V.Less;
    assert group[0] in group;
    if !NeedsInstall(onDisk, latest, force) {
      assert |Restarts(ToRestart(group, onDisk, latest, force))| == |ToRestart(group, onDisk, latest, force)|;
    }
  }

  lemma {:induction false} NothingInFirstIff(w: World, order: seq<Exe>, n: nat, latest: string, force: bool)
    requires Orders(w.procs, order) && n <= |order|
    ensures PlanFirst(w, order, n, latest, force) == []
      <==> n == 0 || (!force && forall p :: p in w.procs && p.exe in order[..n] ==> UpToDate(p, w.disk, latest))
  {
    hide RunsFrom, ForBinary, UpToDate;
    if n > 0 {
      NothingInFirstIff(w, order, n - 1, latest, force);
      assert order[n - 1] in order;
      NothingForBinaryIff(w.procs, w.disk, order[n - 1], latest, force);
      assert order[..n] == order[..n - 1] + [order[n - 1]];
    }
  }

  /** There is nothing to do exactly if no process runs at all, or the run is not forced and
      all are up to date. */
  lemma NothingToDoIff(w: World, order: seq<Exe>, latest: string, force: bool)
    requires Orders(w.procs, order)
    ensures Plan(w, order, latest, force) == []
      <==> w.procs == [] || (!force && forall p :: p in w.procs ==> UpToDate(p, w.disk, latest))
  {
    NothingInFirstIff(w, order, |order|, latest, force);
    assert order[..|order|] == order;
    AllAreOrdered(w.procs, order);
    hide Orders, UpToDate, PlanFirst;
    if w.procs != [] { assert w.procs[0] in w.procs; }
  }

  lemma AllAreOrdered(procs: seq<Proc>, order: seq<Exe>)
    requires Orders(procs, order)
    ensures forall p :: p in procs ==> p.exe in order
    ensures procs == [] ==> order == []
  {
    forall p | p in procs ensures p.exe in order {
      RunsFromMembers(procs, p.exe);
      assert p in RunsFrom(procs, p.exe);
    }
    if order != [] {
      assert order[0] in order;
    }
  }

  // ---- After a run ----

  ghost predicate DistinctPids(procs: seq<Proc>) {
    forall i, j :: 0 <= i < j < |procs| ==> procs[i].pid != procs[j].pid
  }

  /** A process after a run that came to its binary: once it is restarted it runs what is then
      on disk. */
  function ProcAfter(p: Proc, disk: Disk, out: Outside, force: bool): Proc {
    var onDisk := VersionOf(disk, p.exe);
    if NeedsRestart(p, onDisk, out.latest, force) && out.restarts(p.pid) then p.(version := Goal(onDisk, out.latest, force)) else p
  }

  /** What restarts do: each named process, if it restarts, runs its binary as it is on disk. */
  lemma {:induction false} RestartsApply(w: World, actions: seq<Action>, out: Outside)
    requires forall a :: a in actions ==> a.Restart?
    ensures var w' := Apply(w, actions, out);
      && w'.disk == w.disk && |w'.procs| == |w.procs|
      && forall j :: 0 <= j < |w.procs| ==>
           w'.procs[j] == if Restart(w.procs[j].pid) in actions then RestartOne(w.procs[j], w.disk, w.procs[j].pid, out) else w.procs[j]
  {
    hide Apply, VersionOf;
    if actions == [] {
      ApplyNone(w, out);
    } else {
      var n := |actions| - 1;
      RestartsApply(w, actions[..n], out);
      assert actions == actions[..n] + [actions[n]] && actions[n] in actions;
      ApplyOne(w, actions[..n], actions[n], out);
    }
  }

  lemma {:induction false} ToRestartMembers(group: seq<Proc>, onDisk: string, latest: string, force: bool)
    ensures forall p :: p in ToRestart(group, onDisk, latest, force) <==> p in group && NeedsRestart(p, onDisk, latest, force)
  {
    hide NeedsRestart;
    if group != [] {
      var n := |group| - 1;
      ToRestartMembers(group[..n], onDisk, latest, force);
      assert group == group[..n] + [group[n]];
    }
  }

  lemma RestartPlannedIff(procs: seq<Proc>, exe: Exe, onDisk: string, latest: string, force: bool, j: nat)
    requires DistinctPids(procs) && j < |procs|
    ensures Restart(procs[j].pid) in Restarts(ToRestart(RunsFrom(procs, exe), onDisk, latest, force))
      <==> procs[j].exe == exe && NeedsRestart(procs[j], onDisk, latest, force)
  {
    var p, chosen := procs[j], ToRestart(RunsFrom(procs, exe), onDisk, latest, force);
    RunsFromMembers(procs, exe);
    ToRestartMembers(RunsFrom(procs, exe), onDisk, latest, force);
    hide RunsFrom, ToRestart, NeedsRestart;
    if Restart(p.pid) in Restarts(chosen) {
      var i :| 0 <= i < |chosen| && Restarts(chosen)[i] == Restart(p.pid);
      assert chosen[i] in chosen;
      var k :| 0 <= k < |procs| && procs[k] == chosen[i];
      assert k == j;
    }
    if p in chosen {
      var i :| 0 <= i < |chosen| && chosen[i] == p;
      assert Restarts(chosen)[i] == Restart(p.pid);
    }
  }

  /** What the run does to the processes of one binary. */
  lemma BinaryDone(procs: seq<Proc>, disk: Disk, w: World, exe: Exe, out: Outside, force: bool, j: nat)
    requires DistinctPids(procs) && |w.procs| == |procs| && j < |procs| && w.procs[j].pid == procs[j].pid && w.procs[j].exe == procs[j].exe
    requires VersionOf(w.disk, exe) == VersionOf(disk, exe) && (procs[j].exe == exe ==> w.procs[j] == procs[j])
    ensures var w' := Apply(w, ForBinary(procs, disk, exe, out.latest, force), out);
      && |w'.procs| == |procs|
      && w'.procs[j] == if procs[j].exe == exe then ProcAfter(procs[j], disk, out, force) else w.procs[j]
  {
    var onDisk := VersionOf(disk, exe);
    var swap := if NeedsInstall(onDisk, out.latest, force) then [Install(exe)] else [];
    var restarts := Restarts(ToRestart(RunsFrom(procs, exe), onDisk, out.latest, force));
    ApplyConcat(w, swap, restarts, out);
    ApplyOne(w, [], Install(exe), out);
    assert [] + [Install(exe)] == [Install(exe)];
    RestartsApply(Apply(w, swap, out), restarts, out);
    RestartPlannedIff(procs, exe, onDisk, out.latest, force, j);
    hide ToRestart, RunsFrom, V.Less, Restarts;
  }

  /** After the first n binaries of a plan every process of theirs is as ProcAfter says, and the
      others are untouched. */
  lemma {:induction false} PlanDone(w: World, order: seq<Exe>, n: nat, out: Outside, force: bool, j: nat)
    requires Orders(w.procs, order) && n <= |order| && DistinctPids(w.procs) && j < |w.procs|
    ensures var w' := Apply(w, PlanFirst(w, order, n, out.latest, force), out);
      && |w'.procs| == |w.procs|
      && w'.procs[j] == if w.procs[j].exe in order[..n] then ProcAfter(w.procs[j], w.disk, out, force) else w.procs[j]
  {
    hide ForBinary, ProcAfter, RunsFrom, Apply, PlanFirst, VersionOf, DistinctPids;
    if n == 0 {
      PlanStarts(w, order, out, force);
      ApplyNone(w, out);
    } else {
      var before := PlanFirst(w, order, n - 1, out.latest, force);
      PlanDone(w, order, n - 1, out, force, j);
      BinariesAre(w, before, out);
      NotYetInstalled(w, order, n - 1, out, force);
      ApplyFirst(w, order, n, out, force);
      assert order[..n] == order[..n - 1] + [order[n - 1]];
      BinaryDone(w.procs, w.disk, Apply(w, before, out), order[n - 1], out, force, j);
    }
  }

  lemma ApplyFirst(w: World, order: seq<Exe>, n: nat, out: Outside, force: bool)
    requires 0 < n <= |order|
    ensures Apply(w, PlanFirst(w, order, n, out.latest, force), out)
         == Apply(Apply(w, PlanFirst(w, order, n - 1, out.latest, force), out), ForBinary(w.procs, w.disk, order[n - 1], out.latest, force), out)
  {
    hide ForBinary, Apply;
    ApplyConcat(w, PlanFirst(w, order, n - 1, out.latest, force), ForBinary(w.procs, w.disk, order[n - 1], out.latest, force), out);
  }

  /** What a binary reports after the first n binaries of a plan. */
  lemma DiskDone(w: World, order: seq<Exe>, n: nat, out: Outside, force: bool, e: Exe)
    requires n <= |order|
    ensures VersionOf(Apply(w, PlanFirst(w, order, n, out.latest, force), out).disk, e)
         == if e in order[..n] then Goal(VersionOf(w.disk, e), out.latest, force) else VersionOf(w.disk, e)
  {
    InstallsPlanned(w, order, n, out.latest, force, e);
    BinariesAre(w, PlanFirst(w, order, n, out.latest, force), out);
    hide V.Less;
  }

  lemma NeverLessThanItself(v: string)
    ensures !V.Less(v, v)
  {
  }

  /** The same processes run from the same binaries after any actions. */
  lemma StillOrders(w: World, actions: seq<Action>, order: seq<Exe>, out: Outside)
    requires Orders(w.procs, order)
    ensures Orders(Apply(w, actions, out).procs, order)
  {
    var procs := Apply(w, actions, out).procs;
    BinariesAre(w, actions, out);
    hide Apply;
    forall e ensures RunsFrom(procs, e) != [] <==> RunsFrom(w.procs, e) != [] {
      SameGroups(w.procs, procs, e);
    }
  }

  lemma {:induction false} SameGroups(a: seq<Proc>, b: seq<Proc>, e: Exe)
    requires |a| == |b| && forall j :: 0 <= j < |a| ==> a[j].exe == b[j].exe
    ensures RunsFrom(a, e) != [] <==> RunsFrom(b, e) != []
    ensures (forall j :: 0 <= j < |a| && a[j].exe == e ==> a[j] == b[j]) ==> RunsFrom(a, e) == RunsFrom(b, e)
  {
    if a != [] {
      var n := |a| - 1;
      SameGroups(a[..n], b[..n], e);
    }
  }

  /**
   A second run, not forced, after a whole run, forced or not, has nothing to do if and only if
   every process whose restart was tried and failed runs what is on disk all the same.
   */
  lemma SecondRunIsEmptyIff(w: World, order: seq<Exe>, out: Outside, force: bool)
    requires Orders(w.procs, order) && DistinctPids(w.procs)
    ensures var w' := Apply(w, Plan(w, order, out.latest, force), out);
      && Orders(w'.procs, order)
      && (Plan(w', order, out.latest, false) == [] <==>
            forall p :: p in w.procs ==> !LeftBehind(p, w.disk, out, force))
  {
    hide V.Less, PlanFirst, Apply, UpToDate, Orders, RunsFrom, DistinctPids, NeedsRestart, Goal;
    var plan := Plan(w, order, out.latest, force);
    var w' := Apply(w, plan, out);
    StillOrders(w, plan, order, out);
    NothingToDoIff(w', order, out.latest, false);
    BinariesAre(w, plan, out);
    forall j | 0 <= j < |w.procs| ensures UpToDate(w'.procs[j], w'.disk, out.latest) <==> !LeftBehind(w.procs[j], w.disk, out, force) {
      UpToDateAfterIff(w, order, out, force, j);
    }
    hide Plan, LeftBehind;
    assert forall j :: 0 <= j < |w.procs| ==> w.procs[j] in w.procs && w'.procs[j] in w'.procs;
  }

  /** A process whose restart is tried and fails, and that does not run what is then on disk. */
  predicate LeftBehind(p: Proc, disk: Disk, out: Outside, force: bool) {
    var onDisk := VersionOf(disk, p.exe);
    NeedsRestart(p, onDisk, out.latest, force) && !out.restarts(p.pid) && p.version != Goal(onDisk, out.latest, force)
  }

  lemma UpToDateAfterIff(w: World, order: seq<Exe>, out: Outside, force: bool, j: nat)
    requires Orders(w.procs, order) && DistinctPids(w.procs) && j < |w.procs|
    ensures var w' := Apply(w, Plan(w, order, out.latest, force), out);
      && |w'.procs| == |w.procs|
      && (UpToDate(w'.procs[j], w'.disk, out.latest) <==> !LeftBehind(w.procs[j], w.disk, out, force))
  {
    hide V.Less, PlanFirst, Apply, Orders, RunsFrom, DistinctPids, VersionOf;
    AllAreOrdered(w.procs, order);
    assert order[..|order|] == order;
    assert w.procs[j] in w.procs;
    PlanDone(w, order, |order|, out, force, j);
    DiskDone(w, order, |order|, out, force, w.procs[j].exe);
    NeverLessThanItself(out.latest);
  }

  /** If all that it restarts comes up, a run that is not forced and gives up at an install is
      taken up by the next exactly where it stopped: the two together do the first one's plan. */
  lemma {:induction false} StoppedRunIsResumed(w: World, order: seq<Exe>, n: nat, k: nat, out: Outside)
    requires Orders(w.procs, order) && DistinctPids(w.procs) && n <= k <= |order|
    requires forall pid :: out.restarts(pid)
    ensures var done := PlanFirst(w, order, n, out.latest, false);
      done + PlanFirst(Apply(w, done, out), order, k, out.latest, false) == PlanFirst(w, order, k, out.latest, false)
    decreases k
  {
    hide ForBinary, Apply, Orders, RunsFrom, PlanFirst, DistinctPids;
    var done := PlanFirst(w, order, n, out.latest, false);
    var w' := Apply(w, done, out);
    if k == n {
      NothingLeft(w, order, n, out);
    } else {
      StoppedRunIsResumed(w, order, n, k - 1, out);
      UntouchedBinary(w, order, n, k - 1, out);
      OneMoreBinary(w, order, k, out.latest, false);
      OneMoreBinary(w', order, k, out.latest, false);
    }
  }

  lemma OneMoreBinary(w: World, order: seq<Exe>, n: nat, latest: string, force: bool)
    requires 0 < n <= |order|
    ensures PlanFirst(w, order, n, latest, force)
         == PlanFirst(w, order, n - 1, latest, force) + ForBinary(w.procs, w.disk, order[n - 1], latest, force)
  {
  }

  lemma NothingLeft(w: World, order: seq<Exe>, n: nat, out: Outside)
    requires Orders(w.procs, order) && DistinctPids(w.procs) && n <= |order| && forall pid :: out.restarts(pid)
    ensures PlanFirst(Apply(w, PlanFirst(w, order, n, out.latest, false), out), order, n, out.latest, false) == []
  {
    hide V.Less, PlanFirst, Apply, Orders, RunsFrom, DistinctPids, VersionOf;
    var done := PlanFirst(w, order, n, out.latest, false);
    var w' := Apply(w, done, out);
    StillOrders(w, done, order, out);
    NothingInFirstIff(w', order, n, out.latest, false);
    BinariesAre(w, done, out);
    forall p | p in w'.procs && p.exe in order[..n] ensures UpToDate(p, w'.disk, out.latest) {
      var j :| 0 <= j < |w'.procs| && w'.procs[j] == p;
      PlanDone(w, order, n, out, false, j);
      DiskDone(w, order, n, out, false, p.exe);
      NeverLessThanItself(out.latest);
    }
  }

  lemma UntouchedBinary(w: World, order: seq<Exe>, n: nat, k: nat, out: Outside)
    requires Orders(w.procs, order) && DistinctPids(w.procs) && n <= k < |order|
    ensures var w' := Apply(w, PlanFirst(w, order, n, out.latest, false), out);
      ForBinary(w'.procs, w'.disk, order[k], out.latest, false) == ForBinary(w.procs, w.disk, order[k], out.latest, false)
  {
    var done := PlanFirst(w, order, n, out.latest, false);
    var w' := Apply(w, done, out);
    BinariesAre(w, done, out);
    DiskDone(w, order, n, out, false, order[k]);
    hide V.Less, PlanFirst, Apply, ProcAfter;
    forall j | 0 <= j < |w.procs| && w.procs[j].exe == order[k] ensures w'.procs[j] == w.procs[j] {
      PlanDone(w, order, n, out, false, j);
    }
    SameGroups(w.procs, w'.procs, order[k]);
    hide RunsFrom;
  }

  /** However far a run comes: a binary moves backwards exactly if the run is forced, comes to
      it, and installs a release that is older; otherwise it stays or moves forwards. */
  lemma BackwardsOnlyByForce(w: World, order: seq<Exe>, n: nat, out: Outside, force: bool, e: Exe)
    requires n <= |order|
    ensures var before, after := VersionOf(w.disk, e), VersionOf(Apply(w, PlanFirst(w, order, n, out.latest, force), out).disk, e);
      && (V.Less(after, before) <==> force && e in order[..n] && V.Less(out.latest, before))
      && (after != before ==> after == out.latest && (force || V.Less(before, after)))
  {
    var before := VersionOf(w.disk, e);
    DiskDone(w, order, n, out, force, e);
    NeverLessThanItself(before);
    if V.Less(before, out.latest) && V.Less(out.latest, before) {
      V.StrictWeakOrder(before, out.latest, before);
    }
    hide V.Less, Apply, PlanFirst;
  }

  /** A process that a run restarts moves backwards exactly if it ran something later than what
      the run leaves on disk. */
  lemma ProcessBackwardsIff(w: World, order: seq<Exe>, n: nat, out: Outside, force: bool, j: nat)
    requires Orders(w.procs, order) && n <= |order| && DistinctPids(w.procs) && j < |w.procs|
    ensures var w' := Apply(w, PlanFirst(w, order, n, out.latest, force), out);
      && |w'.procs| == |w.procs|
      && (V.Less(w'.procs[j].version, w.procs[j].version) <==>
            w.procs[j].exe in order[..n] && out.restarts(w.procs[j].pid) && V.Less(VersionOf(w'.disk, w.procs[j].exe), w.procs[j].version))
  {
    PlanDone(w, order, n, out, force, j);
    DiskDone(w, order, n, out, force, w.procs[j].exe);
    NeverLessThanItself(w.procs[j].version);
    hide V.Less, Apply, PlanFirst;
  }
}
