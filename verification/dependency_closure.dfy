/**
 `collect_closure` of `package-linux-gpu-stack.py` and the two passes of its
 `main`: which shared libraries are shipped. ELF files, host libraries and the
 RPM tree are a `World` of functions over finitely many files.
 */
module DependencyClosure {
  import opened Basics

  datatype Soname = Soname(text: string)
  datatype Path = Path(text: string)
  datatype Group = Client | Graphics

  /**
   `files` are the files there are, by resolved name; `needed` is a file's
   DT_NEEDED list; `library` finds a soname for the target machine, `driver` a
   DRI driver by file name.
   */
  datatype World = World(
    files: set<Path>,
    canonical: Path -> Path,
    machineFits: Path -> bool,
    needed: Path -> seq<Soname>,
    library: Soname -> Option<Path>,
    driver: string -> Option<Path>,
    hostProvided: Soname -> bool,
    hostDesktop: Soname -> bool)

  /** What is found exists. */
  ghost predicate WorldOk(w: World) {
    && (forall s :: w.library(s).Some? ==> w.canonical(w.library(s).value) in w.files)
    && (forall d :: w.driver(d).Some? ==> w.canonical(w.driver(d).value) in w.files)
  }

  datatype Entry = Entry(source: Path, group: Group)

  datatype Failure =
    | WrongMachine(file: Path)
    | MissingLibrary(soname: Soname, consumer: Path)
    | MissingEntry(soname: Soname)
    | MissingDriver(name: string)

  datatype Root = Root(path: Path, group: Group)

  // ----- reachability -----

  /** Neither found on every host nor left to the desktop. */
  predicate Shipped(w: World, s: Soname) {
    !w.hostProvided(s) && !w.hostDesktop(s)
  }

  /** `path` is a root, or where a soname of the set is found, as a resolved file. */
  ghost predicate IsRoot(w: World, roots: seq<Root>, file: Path) {
    exists i :: 0 <= i < |roots| && file == w.canonical(roots[i].path)
  }

  ghost predicate IsSource(w: World, s: Soname, file: Path) {
    w.library(s).Some? && file == w.canonical(w.library(s).value)
  }

  /** Shipped sonames, the first needed by a root, each next one by the library before it. */
  ghost predicate Chain(w: World, roots: seq<Root>, chain: seq<Soname>) {
    chain != [] && Shipped(w, chain[|chain| - 1]) &&
    var s := chain[|chain| - 1];
    if |chain| == 1 then exists f :: IsRoot(w, roots, f) && s in w.needed(f)
    else
      Chain(w, roots, chain[..|chain| - 1]) &&
      exists f :: IsSource(w, chain[|chain| - 2], f) && s in w.needed(f)
  }

  ghost predicate Reachable(w: World, roots: seq<Root>, s: Soname) {
    exists chain :: Chain(w, roots, chain) && chain[|chain| - 1] == s
  }

  /** A file whose needs count: a root or the source of a reachable soname. */
  ghost predicate Consumer(w: World, roots: seq<Root>, file: Path) {
    IsRoot(w, roots, file) || exists s :: Reachable(w, roots, s) && IsSource(w, s, file)
  }

  lemma NeededIsReachable(w: World, roots: seq<Root>, file: Path, s: Soname)
    requires Consumer(w, roots, file) && s in w.needed(file) && Shipped(w, s)
    ensures Reachable(w, roots, s)
  {
    if IsRoot(w, roots, file) {
      assert Chain(w, roots, [s]);
      assert [s][|[s]| - 1] == s;
    } else {
      var t :| Reachable(w, roots, t) && IsSource(w, t, file);
      var chain :| Chain(w, roots, chain) && chain[|chain| - 1] == t;
      var longer := chain + [s];
      assert longer[..|longer| - 1] == chain;
      assert Chain(w, roots, longer) && longer[|longer| - 1] == s;
    }
  }

  /** A set that holds what its consumers need holds everything reachable. */
  ghost predicate ClosedUnderNeed(w: World, roots: seq<Root>, names: set<Soname>) {
    && (forall f, s :: IsRoot(w, roots, f) && s in w.needed(f) && Shipped(w, s) ==> s in names)
    && (forall t, f, s :: t in names && IsSource(w, t, f) && s in w.needed(f) && Shipped(w, s) ==> s in names)
  }

  lemma {:induction false} ChainStays(w: World, roots: seq<Root>, names: set<Soname>, chain: seq<Soname>)
    requires ClosedUnderNeed(w, roots, names) && Chain(w, roots, chain)
    ensures chain[|chain| - 1] in names
  {
    if |chain| > 1 {
      ChainStays(w, roots, names, chain[..|chain| - 1]);
    }
  }

  lemma ReachableStays(w: World, roots: seq<Root>, names: set<Soname>, s: Soname)
    requires ClosedUnderNeed(w, roots, names) && Reachable(w, roots, s)
    ensures s in names
  {
    var chain :| Chain(w, roots, chain) && chain[|chain| - 1] == s;
    ChainStays(w, roots, names, chain);
  }

  // ----- one closure -----

  /** The desktop sonames the host must bring, each with a file that asked for it. */
  type HostNeeds = map<Soname, Path>

  predicate AsksHost(w: World, s: Soname) {
    w.hostDesktop(s) && !w.hostProvided(s)
  }

  /** What a scanned file needs is provided, left to the desktop, or collected. */
  ghost predicate Settled(w: World, s: Soname, collected: map<Soname, Entry>, host: HostNeeds) {
    w.hostProvided(s) || (w.hostDesktop(s) && s in host) || s in collected
  }

  ghost predicate AllSettled(w: World, needed: seq<Soname>, collected: map<Soname, Entry>, host: HostNeeds) {
    forall i :: 0 <= i < |needed| ==> Settled(w, needed[i], collected, host)
  }

  /** Collected libraries are reachable, shipped, and come from where they resolve. */
  ghost predicate Justified(w: World, roots: seq<Root>, collected: map<Soname, Entry>) {
    forall s :: s in collected ==>
      Shipped(w, s) && Reachable(w, roots, s) && w.library(s) == Some(collected[s].source)
  }

  /** New host needs were asked for by a consumer; old ones are untouched. */
  ghost predicate HostJustified(w: World, roots: seq<Root>, before: HostNeeds, host: HostNeeds) {
    && (forall s :: s in before ==> s in host && host[s] == before[s])
    && (forall s :: s in host && s !in before ==>
          AsksHost(w, s) && Consumer(w, roots, host[s]) && s in w.needed(host[s]))
  }

  /** The queue holds consumers still to be looked at. */
  ghost predicate QueueOk(w: World, roots: seq<Root>, queue: seq<Root>) {
    forall i :: 0 <= i < |queue| ==>
      var f := w.canonical(queue[i].path);
      f in w.files && Consumer(w, roots, f)
  }

  ghost predicate Waiting(w: World, queue: seq<Root>, file: Path) {
    exists i :: 0 <= i < |queue| && w.canonical(queue[i].path) == file
  }

  /** Every consumer known so far was scanned or waits in the queue. */
  ghost predicate NothingForgotten(
    w: World, roots: seq<Root>, collected: map<Soname, Entry>, scanned: set<Path>, queue: seq<Root>)
  {
    && (forall f :: IsRoot(w, roots, f) ==> f in scanned || Waiting(w, queue, f))
    && (forall s, f :: s in collected && IsSource(w, s, f) ==> f in scanned || Waiting(w, queue, f))
  }

  ghost predicate OneGroup(collected: map<Soname, Entry>, queue: seq<Root>, group: Group) {
    && (forall s :: s in collected ==> collected[s].group == group)
    && (forall i :: 0 <= i < |queue| ==> queue[i].group == group)
  }

  /** What scanning a file has added so far. */
  ghost predicate Scanning(w: World, roots: seq<Root>, group: Group, c0: map<Soname, Entry>, q0: seq<Root>,
                           before: HostNeeds, h0: HostNeeds,
                           c: map<Soname, Entry>, q: seq<Root>, h: HostNeeds)
  {
    && Justified(w, roots, c) && QueueOk(w, roots, q) && HostJustified(w, roots, before, h)
    && (forall s :: s in c0 ==> s in c && c[s] == c0[s])
    && (forall s :: s in h0 ==> s in h)
    && q0 <= q
    && (forall s, f :: s in c && s !in c0 && IsSource(w, s, f) ==> Waiting(w, q, f))
    && (OneGroup(c0, q0, group) ==> OneGroup(c, q, group))
  }

  lemma HostAsked(w: World, roots: seq<Root>, group: Group, c0: map<Soname, Entry>, q0: seq<Root>,
                  before: HostNeeds, h0: HostNeeds, c: map<Soname, Entry>, q: seq<Root>, h: HostNeeds,
                  file: Path, s: Soname)
    requires Scanning(w, roots, group, c0, q0, before, h0, c, q, h)
    requires Consumer(w, roots, file) && s in w.needed(file) && AsksHost(w, s) && s !in h
    ensures Scanning(w, roots, group, c0, q0, before, h0, c, q, h[s := file])
  {
  }

  lemma LibraryJustified(w: World, roots: seq<Root>, c: map<Soname, Entry>, s: Soname, entry: Entry)
    requires Justified(w, roots, c)
    requires Shipped(w, s) && Reachable(w, roots, s) && w.library(s) == Some(entry.source)
    ensures Justified(w, roots, c[s := entry])
  {
  }

  lemma LibraryQueued(w: World, roots: seq<Root>, q: seq<Root>, s: Soname, root: Root)
    requires WorldOk(w) && QueueOk(w, roots, q)
    requires Reachable(w, roots, s) && w.library(s) == Some(root.path)
    ensures QueueOk(w, roots, q + [root])
    ensures forall f :: IsSource(w, s, f) ==> Waiting(w, q + [root], f)
    ensures forall f :: Waiting(w, q, f) ==> Waiting(w, q + [root], f)
  {
    var next := q + [root];
    assert IsSource(w, s, w.canonical(root.path));
    assert w.canonical(next[|q|].path) == w.canonical(root.path);
    StillWaiting(w, q, next);
  }

  lemma LibraryCollected(w: World, roots: seq<Root>, group: Group, c0: map<Soname, Entry>, q0: seq<Root>,
                         before: HostNeeds, h0: HostNeeds, c: map<Soname, Entry>, q: seq<Root>, h: HostNeeds,
                         s: Soname, source: Path)
    requires WorldOk(w) && Scanning(w, roots, group, c0, q0, before, h0, c, q, h)
    requires Shipped(w, s) && Reachable(w, roots, s) && w.library(s) == Some(source) && s !in c
    ensures Scanning(w, roots, group, c0, q0, before, h0, c[s := Entry(source, group)], q + [Root(source, group)], h)
  {
    LibraryJustified(w, roots, c, s, Entry(source, group));
    LibraryQueued(w, roots, q, s, Root(source, group));
  }

  lemma SettledGrows(w: World, needed: seq<Soname>, c0: map<Soname, Entry>, h0: HostNeeds,
                     c1: map<Soname, Entry>, h1: HostNeeds)
    requires AllSettled(w, needed, c0, h0) && c0.Keys <= c1.Keys && h0.Keys <= h1.Keys
    ensures AllSettled(w, needed, c1, h1)
  {
    forall i | 0 <= i < |needed| ensures Settled(w, needed[i], c1, h1) {
      assert Settled(w, needed[i], c0, h0);
    }
  }

  lemma SettledSnoc(w: World, needed: seq<Soname>, i: nat, c: map<Soname, Entry>, h: HostNeeds)
    requires i < |needed| && AllSettled(w, needed[..i], c, h) && Settled(w, needed[i], c, h)
    ensures AllSettled(w, needed[..i + 1], c, h)
  {
    assert needed[..i + 1] == needed[..i] + [needed[i]];
  }

  /** The DT_NEEDED loop for one file. */
  method ScanFile(w: World, ghost roots: seq<Root>, file: Path, group: Group,
                  collected0: map<Soname, Entry>, queue0: seq<Root>, ghost before: HostNeeds, host0: HostNeeds)
    returns (failure: Option<Failure>, collected: map<Soname, Entry>, queue: seq<Root>, host: HostNeeds)
    requires WorldOk(w) && Consumer(w, roots, file)
    requires Justified(w, roots, collected0) && QueueOk(w, roots, queue0)
    requires HostJustified(w, roots, before, host0)
    ensures failure.None? ==>
              && Scanning(w, roots, group, collected0, queue0, before, host0, collected, queue, host)
              && AllSettled(w, w.needed(file), collected, host)
    ensures failure.Some? ==>
              failure.value.MissingLibrary? && failure.value.consumer == file && failure.value.soname in w.needed(file)
              && Reachable(w, roots, failure.value.soname) && w.library(failure.value.soname).None?
  {
    collected, queue, host := collected0, queue0, host0;
    var needed := w.needed(file);
    for i := 0 to |needed|
      invariant Scanning(w, roots, group, collected0, queue0, before, host0, collected, queue, host)
      invariant AllSettled(w, needed[..i], collected, host)
    {
      var s := needed[i];
      assert s in needed;
      ghost var c, h := collected, host;
      if w.hostProvided(s) || s in collected {
        SettledSnoc(w, needed, i, collected, host);
        continue;
      }
      if w.hostDesktop(s) {
        if s !in host {
          HostAsked(w, roots, group, collected0, queue0, before, host0, collected, queue, host, file, s);
          host := host[s := file];
        }
        SettledGrows(w, needed[..i], c, h, collected, host);
        SettledSnoc(w, needed, i, collected, host);
        continue;
      }
      NeededIsReachable(w, roots, file, s);
      var source := w.library(s);
      if source.None? {
        return Some(MissingLibrary(s, file)), collected, queue, host;
      }
      LibraryCollected(w, roots, group, collected0, queue0, before, host0, collected, queue, host, s, source.value);
      collected := collected[s := Entry(source.value, group)];
      queue := queue + [Root(source.value, group)];
      SettledGrows(w, needed[..i], c, h, collected, host);
      SettledSnoc(w, needed, i, collected, host);
    }
    assert needed[..|needed|] == needed;
    failure := None;
  }

  /** A reason why the closure cannot be built. */
  ghost predicate Broken(w: World, roots: seq<Root>, failure: Failure) {
    || (failure.WrongMachine? && Consumer(w, roots, failure.file) && !w.machineFits(failure.file))
    || (failure.MissingLibrary? && Reachable(w, roots, failure.soname) && w.library(failure.soname).None?
        && Consumer(w, roots, failure.consumer) && failure.soname in w.needed(failure.consumer))
  }

  /** A reachable library that is not there is missing for someone. */
  lemma MissingIsBroken(w: World, roots: seq<Root>, s: Soname)
    requires Reachable(w, roots, s) && w.library(s).None?
    ensures exists consumer :: Broken(w, roots, MissingLibrary(s, consumer))
  {
    var chain :| Chain(w, roots, chain) && chain[|chain| - 1] == s;
    if |chain| == 1 {
      var f :| IsRoot(w, roots, f) && s in w.needed(f);
      assert Broken(w, roots, MissingLibrary(s, f));
    } else {
      var before := chain[..|chain| - 1];
      assert Reachable(w, roots, before[|before| - 1]);
      var f :| IsSource(w, chain[|chain| - 2], f) && s in w.needed(f);
      assert Broken(w, roots, MissingLibrary(s, f));
    }
  }

  /** Every scanned file fits, and what it needs is settled. */
  ghost predicate ScannedOk(w: World, roots: seq<Root>, scanned: set<Path>,
                            collected: map<Soname, Entry>, host: HostNeeds)
  {
    forall f :: f in scanned ==>
      && f in w.files && Consumer(w, roots, f) && w.machineFits(f)
      && AllSettled(w, w.needed(f), collected, host)
  }

  lemma StillSettled(w: World, roots: seq<Root>, scanned: set<Path>, c0: map<Soname, Entry>, h0: HostNeeds,
                     c1: map<Soname, Entry>, h1: HostNeeds)
    requires ScannedOk(w, roots, scanned, c0, h0)
    requires forall s :: s in c0 ==> s in c1
    requires forall s :: s in h0 ==> s in h1
    ensures ScannedOk(w, roots, scanned, c1, h1)
  {
    forall f | f in scanned ensures AllSettled(w, w.needed(f), c1, h1) {
      assert AllSettled(w, w.needed(f), c0, h0);
      forall i | 0 <= i < |w.needed(f)| ensures Settled(w, w.needed(f)[i], c1, h1) {
        assert Settled(w, w.needed(f)[i], c0, h0);
      }
    }
  }

  lemma ScannedMakesClosed(w: World, roots: seq<Root>, scanned: set<Path>, collected: map<Soname, Entry>,
                           host: HostNeeds)
    requires ScannedOk(w, roots, scanned, collected, host)
    requires NothingForgotten(w, roots, collected, scanned, [])
    ensures ClosedUnderNeed(w, roots, collected.Keys)
  {
    forall f, s | f in scanned && s in w.needed(f) && Shipped(w, s) ensures s in collected {
      var i :| 0 <= i < |w.needed(f)| && w.needed(f)[i] == s;
      assert Settled(w, s, collected, host);
    }
  }

  /** What a successful closure is: exactly the reachable libraries, each from where it resolves. */
  ghost predicate IsClosure(w: World, roots: seq<Root>, collected: map<Soname, Entry>) {
    && (forall s :: s in collected <==> Reachable(w, roots, s))
    && (forall s :: s in collected ==> w.library(s) == Some(collected[s].source))
  }

  /** The new host needs are exactly the desktop sonames some consumer asks for. */
  ghost predicate IsHostNeeds(w: World, roots: seq<Root>, before: HostNeeds, host: HostNeeds) {
    && HostJustified(w, roots, before, host)
    && (forall f, s :: Consumer(w, roots, f) && s in w.needed(f) && AsksHost(w, s) ==> s in host)
  }

  /** The files in `log` are the consumers, each once. */
  ghost predicate IsScanLog(w: World, roots: seq<Root>, log: seq<Path>) {
    && (forall i, j :: 0 <= i < j < |log| ==> log[i] != log[j])
    && (forall f :: f in log <==> Consumer(w, roots, f))
  }

  lemma ClosureComplete(w: World, roots: seq<Root>, scanned: set<Path>, collected: map<Soname, Entry>,
                        before: HostNeeds, host: HostNeeds)
    requires Justified(w, roots, collected) && HostJustified(w, roots, before, host)
    requires ScannedOk(w, roots, scanned, collected, host)
    requires NothingForgotten(w, roots, collected, scanned, [])
    ensures IsClosure(w, roots, collected) && IsHostNeeds(w, roots, before, host)
    ensures forall f :: f in scanned <==> Consumer(w, roots, f)
    ensures forall failure :: !Broken(w, roots, failure)
  {
    ScannedMakesClosed(w, roots, scanned, collected, host);
    forall s | Reachable(w, roots, s) ensures s in collected {
      ReachableStays(w, roots, collected.Keys, s);
    }
    forall f | Consumer(w, roots, f) ensures f in scanned {
      if !IsRoot(w, roots, f) {
        var t :| Reachable(w, roots, t) && IsSource(w, t, f);
        assert t in collected;
      }
    }
    forall f, s | Consumer(w, roots, f) && s in w.needed(f) && AsksHost(w, s) ensures s in host {
      var i :| 0 <= i < |w.needed(f)| && w.needed(f)[i] == s;
      assert Settled(w, s, collected, host);
    }
  }

  lemma RootsAreConsumers(w: World, roots: seq<Root>)
    requires forall i :: 0 <= i < |roots| ==> w.canonical(roots[i].path) in w.files
    ensures QueueOk(w, roots, roots)
    ensures NothingForgotten(w, roots, map[], {}, roots)
  {
    forall i | 0 <= i < |roots| ensures Consumer(w, roots, w.canonical(roots[i].path)) {
      assert IsRoot(w, roots, w.canonical(roots[i].path));
    }
    forall f | IsRoot(w, roots, f) ensures Waiting(w, roots, f) {
    }
  }

  lemma Popped(w: World, queue: seq<Root>)
    requires queue != []
    ensures forall f :: Waiting(w, queue, f) ==> f == w.canonical(queue[0].path) || Waiting(w, queue[1..], f)
  {
    forall f | Waiting(w, queue, f) && f != w.canonical(queue[0].path) ensures Waiting(w, queue[1..], f) {
      var i :| 0 <= i < |queue| && w.canonical(queue[i].path) == f;
      assert queue[1..][i - 1] == queue[i];
    }
  }

  lemma StillWaiting(w: World, queue: seq<Root>, longer: seq<Root>)
    requires queue <= longer
    ensures forall f :: Waiting(w, queue, f) ==> Waiting(w, longer, f)
  {
    forall f | Waiting(w, queue, f) ensures Waiting(w, longer, f) {
      var i :| 0 <= i < |queue| && w.canonical(queue[i].path) == f;
      assert longer[i] == queue[i];
    }
  }

  /** What holds between two rounds of the worklist. */
  ghost predicate Working(w: World, roots: seq<Root>, before: HostNeeds, collected: map<Soname, Entry>,
                          host: HostNeeds, scanned: set<Path>, queue: seq<Root>)
  {
    && QueueOk(w, roots, queue)
    && Justified(w, roots, collected) && HostJustified(w, roots, before, host)
    && ScannedOk(w, roots, scanned, collected, host)
    && NothingForgotten(w, roots, collected, scanned, queue)
  }

  lemma PopKeepsQueue(w: World, roots: seq<Root>, queue: seq<Root>)
    requires queue != [] && QueueOk(w, roots, queue)
    ensures QueueOk(w, roots, queue[1..])
  {
    forall i | 0 <= i < |queue| - 1 ensures queue[1..][i] == queue[i + 1] {
    }
  }

  lemma SkipKeeps(w: World, roots: seq<Root>, before: HostNeeds, collected: map<Soname, Entry>,
                  host: HostNeeds, scanned: set<Path>, queue: seq<Root>)
    requires Working(w, roots, before, collected, host, scanned, queue)
    requires queue != [] && w.canonical(queue[0].path) in scanned
    ensures Working(w, roots, before, collected, host, scanned, queue[1..])
  {
    PopKeepsQueue(w, roots, queue);
    Popped(w, queue);
  }

  lemma ScanKeeps(w: World, roots: seq<Root>, before: HostNeeds, c0: map<Soname, Entry>, h0: HostNeeds,
                  scanned: set<Path>, queue: seq<Root>, c1: map<Soname, Entry>, h1: HostNeeds, longer: seq<Root>)
    requires Working(w, roots, before, c0, h0, scanned, queue) && queue != []
    requires var f := w.canonical(queue[0].path);
             w.machineFits(f) && AllSettled(w, w.needed(f), c1, h1)
    requires Scanning(w, roots, queue[0].group, c0, queue[1..], before, h0, c1, longer, h1)
    ensures Working(w, roots, before, c1, h1, scanned + {w.canonical(queue[0].path)}, longer)
  {
    StillSettled(w, roots, scanned, c0, h0, c1, h1);
    Popped(w, queue);
    StillWaiting(w, queue[1..], longer);
  }

  /** The groups are the roots' groups when those agree. */
  ghost predicate GroupsKept(roots: seq<Root>, collected: map<Soname, Entry>, queue: seq<Root>) {
    && (OneGroup(map[], roots, Client) ==> OneGroup(collected, queue, Client))
    && (OneGroup(map[], roots, Graphics) ==> OneGroup(collected, queue, Graphics))
  }

  lemma GroupsPopped(roots: seq<Root>, collected: map<Soname, Entry>, queue: seq<Root>)
    requires GroupsKept(roots, collected, queue) && queue != []
    ensures GroupsKept(roots, collected, queue[1..])
    ensures OneGroup(map[], roots, Client) ==> queue[0].group == Client
    ensures OneGroup(map[], roots, Graphics) ==> queue[0].group == Graphics
  {
  }

  /** After a scan the groups are still kept, and the round's invariant holds again. */
  lemma ScanKeepsGroups(w: World, roots: seq<Root>, before: HostNeeds, c0: map<Soname, Entry>, h0: HostNeeds,
                        queue: seq<Root>, c1: map<Soname, Entry>, h1: HostNeeds, longer: seq<Root>)
    requires queue != [] && GroupsKept(roots, c0, queue)
    requires Scanning(w, roots, queue[0].group, c0, queue[1..], before, h0, c1, longer, h1)
    ensures GroupsKept(roots, c1, longer)
  {
    GroupsPopped(roots, c0, queue);
  }

  /** Each scanned file stands in the log once. */
  ghost predicate LogOf(log: seq<Path>, scanned: set<Path>) {
    && (forall i, j :: 0 <= i < j < |log| ==> log[i] != log[j])
    && (forall f :: f in log <==> f in scanned)
  }

  lemma LogGrows(log: seq<Path>, scanned: set<Path>, file: Path)
    requires LogOf(log, scanned) && file !in scanned
    ensures LogOf(log + [file], scanned + {file})
  {
  }

  lemma FrontIsConsumer(w: World, roots: seq<Root>, queue: seq<Root>)
    requires queue != [] && QueueOk(w, roots, queue)
    ensures var f := w.canonical(queue[0].path); f in w.files && Consumer(w, roots, f)
  {
  }

  /**
   The worklist. It ends, scans every consumer once, and either collects exactly
   the reachable libraries or names a consumer of the wrong machine or a reachable
   library that is not there; it fails only when there is one.
   */
  method CollectClosure(w: World, roots: seq<Root>, before: HostNeeds)
    returns (failure: Option<Failure>, collected: map<Soname, Entry>, host: HostNeeds, ghost log: seq<Path>)
    requires WorldOk(w)
    requires forall i :: 0 <= i < |roots| ==> w.canonical(roots[i].path) in w.files
    ensures failure.Some? ==> Broken(w, roots, failure.value)
    ensures failure.None? ==>
              && IsClosure(w, roots, collected) && IsHostNeeds(w, roots, before, host)
              && IsScanLog(w, roots, log) && (forall broken :: !Broken(w, roots, broken))
              && GroupsKept(roots, collected, [])
  {
    collected, host, log := map[], before, [];
    var scanned: set<Path> := {};
    var queue := roots;
    RootsAreConsumers(w, roots);
    while queue != []
      invariant Working(w, roots, before, collected, host, scanned, queue)
      invariant GroupsKept(roots, collected, queue) && LogOf(log, scanned)
      decreases w.files - scanned, |queue|
    {
      var consumer, group := queue[0].path, queue[0].group;
      ghost var was, c0, h0 := queue, collected, host;
      FrontIsConsumer(w, roots, was);
      queue := queue[1..];
      PopKeepsQueue(w, roots, was);
      var file := w.canonical(consumer);
      if file in scanned {
        SkipKeeps(w, roots, before, collected, host, scanned, was);
        GroupsPopped(roots, collected, was);
        continue;
      }
      if !w.machineFits(file) {
        failure := Some(WrongMachine(file));
        return;
      }
      failure, collected, queue, host := ScanFile(w, roots, file, group, collected, queue, before, host);
      if failure.Some? {
        return;
      }
      ScanKeeps(w, roots, before, c0, h0, scanned, was, collected, host, queue);
      ScanKeepsGroups(w, roots, before, c0, h0, was, collected, host, queue);
      LogGrows(log, scanned, file);
      scanned := scanned + {file};
      log := log + [file];
    }
    failure := None;
    ClosureComplete(w, roots, scanned, collected, before, host);
  }

  // ----- the two passes -----

  const GPU_STACK_ENTRY_LIBRARIES := [Soname("libEGL.so.1"), Soname("libEGL_mesa.so.0")]
  const GPU_STACK_DRI_DRIVERS := ["swrast_dri.so", "kms_swrast_dri.so"]

  ghost predicate EntryRoot(w: World, client: map<Soname, Entry>, path: Path) {
    exists s :: s in GPU_STACK_ENTRY_LIBRARIES && s !in client && w.library(s) == Some(path)
  }

  ghost predicate DriverRoot(drivers: map<string, Path>, path: Path) {
    exists d :: d in drivers && drivers[d] == path
  }

  /** The roots of the second pass: entry libraries the binary does not reach, and the drivers found. */
  ghost predicate GraphicsRoots(w: World, client: map<Soname, Entry>, roots: seq<Root>, drivers: map<string, Path>) {
    && (forall i :: 0 <= i < |roots| ==>
          && roots[i].group == Graphics && w.canonical(roots[i].path) in w.files
          && (EntryRoot(w, client, roots[i].path) || DriverRoot(drivers, roots[i].path)))
    && (forall s :: s in GPU_STACK_ENTRY_LIBRARIES && s !in client ==>
          w.library(s).Some? && IsRoot(w, roots, w.canonical(w.library(s).value)))
    && (forall d :: d in drivers ==> w.driver(d) == Some(drivers[d]) && IsRoot(w, roots, w.canonical(drivers[d])))
  }

  lemma RootsGrow(w: World, roots: seq<Root>, root: Root)
    ensures IsRoot(w, roots + [root], w.canonical(root.path))
    ensures forall f :: IsRoot(w, roots, f) ==> IsRoot(w, roots + [root], f)
  {
    var more := roots + [root];
    assert more[|roots|] == root;
    forall f | IsRoot(w, roots, f) ensures IsRoot(w, more, f) {
      var i :| 0 <= i < |roots| && f == w.canonical(roots[i].path);
      assert more[i] == roots[i];
    }
  }

  method FindGraphicsRoots(w: World, client: map<Soname, Entry>)
    returns (failure: Option<Failure>, entries: map<Soname, Path>, drivers: map<string, Path>, roots: seq<Root>)
    requires WorldOk(w)
    ensures failure.Some? ==>
              || (failure.value.MissingEntry? && failure.value.soname in GPU_STACK_ENTRY_LIBRARIES
                  && failure.value.soname !in client && w.library(failure.value.soname).None?)
              || (failure.value == MissingDriver(GPU_STACK_DRI_DRIVERS[0])
                  && w.driver(GPU_STACK_DRI_DRIVERS[0]).None?)
    ensures failure.None? ==>
              && GraphicsRoots(w, client, roots, drivers)
              && (forall s :: s in entries <==> s in GPU_STACK_ENTRY_LIBRARIES && s !in client)
              && (forall s :: s in entries ==> w.library(s) == Some(entries[s]))
              && (forall d :: d in drivers <==> d in GPU_STACK_DRI_DRIVERS && w.driver(d).Some?)
              && GPU_STACK_DRI_DRIVERS[0] in drivers
  {
    entries, drivers, roots := map[], map[], [];
    for i := 0 to |GPU_STACK_ENTRY_LIBRARIES|
      invariant forall s :: s in entries <==> s in GPU_STACK_ENTRY_LIBRARIES[..i] && s !in client
      invariant forall s :: s in entries ==>
                  w.library(s) == Some(entries[s]) && IsRoot(w, roots, w.canonical(entries[s]))
      invariant forall k :: 0 <= k < |roots| ==>
                  && roots[k].group == Graphics && w.canonical(roots[k].path) in w.files
                  && EntryRoot(w, client, roots[k].path)
    {
      var soname := GPU_STACK_ENTRY_LIBRARIES[i];
      assert GPU_STACK_ENTRY_LIBRARIES[..i + 1] == GPU_STACK_ENTRY_LIBRARIES[..i] + [soname];
      if soname in client {
        continue;
      }
      var source := w.library(soname);
      if source.None? {
        return Some(MissingEntry(soname)), entries, drivers, roots;
      }
      RootsGrow(w, roots, Root(source.value, Graphics));
      entries := entries[soname := source.value];
      roots := roots + [Root(source.value, Graphics)];
    }
    assert GPU_STACK_ENTRY_LIBRARIES[..|GPU_STACK_ENTRY_LIBRARIES|] == GPU_STACK_ENTRY_LIBRARIES;
    ghost var entryRoots := roots;
    for i := 0 to |GPU_STACK_DRI_DRIVERS|
      invariant forall d :: d in drivers <==> d in GPU_STACK_DRI_DRIVERS[..i] && w.driver(d).Some?
      invariant forall d :: d in drivers ==>
                  w.driver(d) == Some(drivers[d]) && IsRoot(w, roots, w.canonical(drivers[d]))
      invariant i > 0 ==> GPU_STACK_DRI_DRIVERS[0] in drivers
      invariant forall s :: s in entries ==> IsRoot(w, roots, w.canonical(entries[s]))
      invariant forall k :: 0 <= k < |roots| ==>
                  && roots[k].group == Graphics && w.canonical(roots[k].path) in w.files
                  && (EntryRoot(w, client, roots[k].path) || DriverRoot(drivers, roots[k].path))
    {
      var name := GPU_STACK_DRI_DRIVERS[i];
      assert GPU_STACK_DRI_DRIVERS[..i + 1] == GPU_STACK_DRI_DRIVERS[..i] + [name];
      var source := w.driver(name);
      if source.None? {
        if name == GPU_STACK_DRI_DRIVERS[0] {
          return Some(MissingDriver(name)), entries, drivers, roots;
        }
        continue;
      }
      RootsGrow(w, roots, Root(source.value, Graphics));
      drivers := drivers[name := source.value];
      assert drivers[name] == source.value;
      roots := roots + [Root(source.value, Graphics)];
    }
    assert GPU_STACK_DRI_DRIVERS[..|GPU_STACK_DRI_DRIVERS|] == GPU_STACK_DRI_DRIVERS;
    failure := None;
  }

  /** What a shipped file needs is provided by every host, asked of the desktop, or shipped. */
  ghost predicate NeedsCovered(w: World, file: Path, libraries: map<Soname, Entry>, host: HostNeeds) {
    forall s :: s in w.needed(file) ==>
      w.hostProvided(s) || (w.hostDesktop(s) && s in host) || s in libraries
  }

  lemma ConsumerCovered(w: World, roots: seq<Root>, file: Path, collected: map<Soname, Entry>,
                        before: HostNeeds, host: HostNeeds)
    requires Consumer(w, roots, file)
    requires IsClosure(w, roots, collected) && IsHostNeeds(w, roots, before, host)
    ensures NeedsCovered(w, file, collected, host)
  {
    forall s | s in w.needed(file) && Shipped(w, s) ensures s in collected {
      NeededIsReachable(w, roots, file, s);
    }
  }

  /** The payload of both passes: where a library is in both, the client's entry stands. */
  ghost predicate IsPayload(w: World, binary: Path, graphics: seq<Root>, libraries: map<Soname, Entry>,
                            drivers: map<string, Path>, host: HostNeeds)
  {
    var client := [Root(binary, Client)];
    && (forall s :: s in libraries <==>
          Reachable(w, client, s) || Reachable(w, graphics, s) || s in GPU_STACK_ENTRY_LIBRARIES)
    && (forall s :: s in libraries ==>
          && w.library(s) == Some(libraries[s].source)
          && (libraries[s].group == Client <==> Reachable(w, client, s)))
    && NeedsCovered(w, w.canonical(binary), libraries, host)
    && (forall s :: s in libraries ==> NeedsCovered(w, w.canonical(libraries[s].source), libraries, host))
    && (forall d :: d in drivers ==> NeedsCovered(w, w.canonical(drivers[d]), libraries, host))
  }

  /** What both passes found, and the merge: the first pass wins, entries come last. */
  ghost predicate Merged(w: World, first: map<Soname, Entry>, second: map<Soname, Entry>,
                         entries: map<Soname, Path>, libraries: map<Soname, Entry>)
  {
    && (forall s :: s in libraries <==> s in first || s in second || s in entries)
    && (forall s :: s in first ==> libraries[s] == first[s] && first[s].group == Client)
    && (forall s :: s in second && s !in first ==> libraries[s] == second[s] && second[s].group == Graphics)
    && (forall s :: s in entries && s !in first && s !in second ==> libraries[s] == Entry(entries[s], Graphics))
    && (forall s :: s in entries ==> w.library(s) == Some(entries[s]))
    && (forall s :: s in entries <==> s in GPU_STACK_ENTRY_LIBRARIES && s !in first)
  }

  /** Both closures, one after the other, over the same host needs. */
  ghost predicate TwoPasses(w: World, client: seq<Root>, graphics: seq<Root>, first: map<Soname, Entry>,
                            hostFirst: HostNeeds, second: map<Soname, Entry>, host: HostNeeds)
  {
    && IsClosure(w, client, first) && IsHostNeeds(w, client, map[], hostFirst)
    && IsClosure(w, graphics, second) && IsHostNeeds(w, graphics, hostFirst, host)
  }

  lemma CoveredByFirst(w: World, client: seq<Root>, graphics: seq<Root>, first: map<Soname, Entry>,
                       hostFirst: HostNeeds, second: map<Soname, Entry>, host: HostNeeds,
                       libraries: map<Soname, Entry>, file: Path)
    requires TwoPasses(w, client, graphics, first, hostFirst, second, host) && Consumer(w, client, file)
    requires forall s :: s in first ==> s in libraries
    ensures NeedsCovered(w, file, libraries, host)
  {
    ConsumerCovered(w, client, file, first, map[], hostFirst);
  }

  lemma CoveredBySecond(w: World, client: seq<Root>, graphics: seq<Root>, first: map<Soname, Entry>,
                        hostFirst: HostNeeds, second: map<Soname, Entry>, host: HostNeeds,
                        libraries: map<Soname, Entry>, file: Path)
    requires TwoPasses(w, client, graphics, first, hostFirst, second, host) && Consumer(w, graphics, file)
    requires forall s :: s in second ==> s in libraries
    ensures NeedsCovered(w, file, libraries, host)
  {
    ConsumerCovered(w, graphics, file, second, hostFirst, host);
  }

  lemma PayloadClosed(w: World, binary: Path, graphics: seq<Root>, first: map<Soname, Entry>, hostFirst: HostNeeds,
                      second: map<Soname, Entry>, host: HostNeeds, entries: map<Soname, Path>,
                      drivers: map<string, Path>, libraries: map<Soname, Entry>)
    requires TwoPasses(w, [Root(binary, Client)], graphics, first, hostFirst, second, host)
    requires Merged(w, first, second, entries, libraries)
    requires GraphicsRoots(w, first, graphics, drivers)
    ensures IsPayload(w, binary, graphics, libraries, drivers, host)
  {
    hide Reachable, NeedsCovered, IsHostNeeds, Chain;
    var client := [Root(binary, Client)];
    assert IsRoot(w, client, w.canonical(binary)) by {
      assert client[0] == Root(binary, Client);
    }
    CoveredByFirst(w, client, graphics, first, hostFirst, second, host, libraries, w.canonical(binary));
    forall s | s in libraries ensures NeedsCovered(w, w.canonical(libraries[s].source), libraries, host) {
      var file := w.canonical(libraries[s].source);
      assert IsSource(w, s, file);
      if s in first {
        CoveredByFirst(w, client, graphics, first, hostFirst, second, host, libraries, file);
      } else {
        CoveredBySecond(w, client, graphics, first, hostFirst, second, host, libraries, file);
      }
    }
    forall d | d in drivers ensures NeedsCovered(w, w.canonical(drivers[d]), libraries, host) {
      CoveredBySecond(w, client, graphics, first, hostFirst, second, host, libraries, w.canonical(drivers[d]));
    }
  }

  /**
   Where the graphics stack is entered: an entry library that the binary does not
   reach, or a DRI driver that is there.
   */
  ghost predicate StackRoot(w: World, binary: Path, file: Path) {
    || (exists s :: s in GPU_STACK_ENTRY_LIBRARIES && !Reachable(w, [Root(binary, Client)], s) && IsSource(w, s, file))
    || (exists d :: d in GPU_STACK_DRI_DRIVERS && w.driver(d).Some? && file == w.canonical(w.driver(d).value))
  }

  /** The roots are the files the graphics stack is entered by, all of them and no others. */
  ghost predicate IsStack(w: World, binary: Path, graphics: seq<Root>) {
    && (forall i :: 0 <= i < |graphics| ==> graphics[i].group == Graphics)
    && (forall f :: IsRoot(w, graphics, f) <==> StackRoot(w, binary, f))
  }

  ghost predicate DriversFound(w: World, drivers: map<string, Path>) {
    && (forall d :: d in drivers <==> d in GPU_STACK_DRI_DRIVERS && w.driver(d).Some?)
    && (forall d :: d in drivers ==> w.driver(d) == Some(drivers[d]))
    && GPU_STACK_DRI_DRIVERS[0] in drivers
  }

  lemma RootsAreStack(w: World, binary: Path, first: map<Soname, Entry>, graphics: seq<Root>,
                      drivers: map<string, Path>)
    requires IsClosure(w, [Root(binary, Client)], first)
    requires GraphicsRoots(w, first, graphics, drivers) && DriversFound(w, drivers)
    ensures IsStack(w, binary, graphics)
  {
    hide Reachable;
    forall f | IsRoot(w, graphics, f) ensures StackRoot(w, binary, f) {
      var i :| 0 <= i < |graphics| && f == w.canonical(graphics[i].path);
      if EntryRoot(w, first, graphics[i].path) {
        var s :| s in GPU_STACK_ENTRY_LIBRARIES && s !in first && w.library(s) == Some(graphics[i].path);
        assert IsSource(w, s, f);
      } else {
        var d :| d in drivers && drivers[d] == graphics[i].path;
        assert d in GPU_STACK_DRI_DRIVERS;
      }
    }
    forall f | StackRoot(w, binary, f) ensures IsRoot(w, graphics, f) {
      if s :| s in GPU_STACK_ENTRY_LIBRARIES && !Reachable(w, [Root(binary, Client)], s) && IsSource(w, s, f) {
        assert s !in first;
      } else {
        var d :| d in GPU_STACK_DRI_DRIVERS && w.driver(d).Some? && f == w.canonical(w.driver(d).value);
        assert d in drivers;
      }
    }
  }

  /** Why there is no payload: a broken closure of either pass, or an entry or the software driver is missing. */
  ghost predicate NoPayload(w: World, binary: Path, graphics: seq<Root>, failure: Failure) {
    || Broken(w, [Root(binary, Client)], failure)
    || (IsStack(w, binary, graphics) && Broken(w, graphics, failure))
    || (failure.MissingEntry? && failure.soname in GPU_STACK_ENTRY_LIBRARIES
        && w.library(failure.soname).None? && !Reachable(w, [Root(binary, Client)], failure.soname))
    || (failure == MissingDriver(GPU_STACK_DRI_DRIVERS[0]) && w.driver(GPU_STACK_DRI_DRIVERS[0]).None?)
  }

  lemma MergeIs(w: World, first: map<Soname, Entry>, second: map<Soname, Entry>, entries: map<Soname, Path>,
                client: seq<Root>, graphics: seq<Root>)
    requires GroupsKept(client, first, []) && OneGroup(map[], client, Client)
    requires GroupsKept(graphics, second, []) && OneGroup(map[], graphics, Graphics)
    requires forall s :: s in entries ==> w.library(s) == Some(entries[s])
    requires forall s :: s in entries <==> s in GPU_STACK_ENTRY_LIBRARIES && s !in first
    ensures Merged(w, first, second, entries, (map s | s in entries :: Entry(entries[s], Graphics)) + (second + first))
  {
  }

  lemma PayloadIsSound(w: World, binary: Path, graphics: seq<Root>, drivers: map<string, Path>, failure: Failure)
    requires IsStack(w, binary, graphics) && DriversFound(w, drivers)
    requires forall broken :: !Broken(w, [Root(binary, Client)], broken) && !Broken(w, graphics, broken)
    requires forall s :: s in GPU_STACK_ENTRY_LIBRARIES && !Reachable(w, [Root(binary, Client)], s) ==>
                           w.library(s).Some?
    ensures !NoPayload(w, binary, graphics, failure)
  {
    hide Reachable, IsStack, Broken;
  }

  ghost predicate NeededBySome(w: World, roots: seq<Root>, s: Soname) {
    exists f :: Consumer(w, roots, f) && s in w.needed(f)
  }

  /** The host is asked for the desktop sonames met in either pass, each for a file of the first pass that met it. */
  ghost predicate IsPayloadHost(w: World, client: seq<Root>, graphics: seq<Root>, host: HostNeeds) {
    && (forall s :: s in host <==>
          AsksHost(w, s) && (NeededBySome(w, client, s) || NeededBySome(w, graphics, s)))
    && (forall s :: s in host ==>
          && s in w.needed(host[s])
          && Consumer(w, if NeededBySome(w, client, s) then client else graphics, host[s]))
  }

  lemma HostOfPass(w: World, roots: seq<Root>, before: HostNeeds, host: HostNeeds, s: Soname)
    requires IsHostNeeds(w, roots, before, host)
    ensures s in host <==> s in before || (AsksHost(w, s) && NeededBySome(w, roots, s))
    ensures s in before ==> host[s] == before[s]
    ensures s in host && s !in before ==> Consumer(w, roots, host[s]) && s in w.needed(host[s])
  {
    hide Consumer;
  }

  lemma HostOfBoth(w: World, client: seq<Root>, graphics: seq<Root>, hostFirst: HostNeeds, host: HostNeeds)
    requires IsHostNeeds(w, client, map[], hostFirst) && IsHostNeeds(w, graphics, hostFirst, host)
    ensures IsPayloadHost(w, client, graphics, host)
  {
    hide Consumer, IsHostNeeds, NeededBySome, AsksHost;
    forall s
      ensures s in host <==> AsksHost(w, s) && (NeededBySome(w, client, s) || NeededBySome(w, graphics, s))
      ensures s in host ==>
                && s in w.needed(host[s])
                && Consumer(w, if NeededBySome(w, client, s) then client else graphics, host[s])
    {
      HostOfPass(w, client, map[], hostFirst, s);
      HostOfPass(w, graphics, hostFirst, host, s);
    }
  }

  /**
   The library part of `main`. On success the payload is what the binary or the
   graphics stack needs and no more, closed under need, with the client group for
   exactly what the binary reaches, and the host is asked for exactly the desktop
   libraries met on the way; it fails exactly when something of it is broken or missing.
   */
  method CollectPayload(w: World, binary: Path)
    returns (failure: Option<Failure>, libraries: map<Soname, Entry>, drivers: map<string, Path>,
             host: HostNeeds, graphics: seq<Root>)
    requires WorldOk(w) && w.canonical(binary) in w.files
    ensures failure.None? ==>
              && IsStack(w, binary, graphics) && DriversFound(w, drivers)
              && IsPayload(w, binary, graphics, libraries, drivers, host)
              && IsPayloadHost(w, [Root(binary, Client)], graphics, host)
              && (forall broken :: !NoPayload(w, binary, graphics, broken))
    ensures failure.Some? ==> NoPayload(w, binary, graphics, failure.value)
  {
    hide Reachable, Consumer, IsHostNeeds, IsScanLog, IsPayload, IsPayloadHost, Merged, IsRoot, StackRoot;
    libraries, drivers, host, graphics := map[], map[], map[], [];
    ghost var log;
    var client;
    failure, client, host, log := CollectClosure(w, [Root(binary, Client)], map[]);
    if failure.Some? {
      return;
    }
    ghost var hostFirst := host;
    var entries;
    failure, entries, drivers, graphics := FindGraphicsRoots(w, client);
    if failure.Some? {
      return;
    }
    RootsAreStack(w, binary, client, graphics, drivers);
    var second;
    failure, second, host, log := CollectClosure(w, graphics, host);
    if failure.Some? {
      return;
    }
    libraries := second + client;
    libraries := (map s | s in entries :: Entry(entries[s], Graphics)) + libraries;
    MergeIs(w, client, second, entries, [Root(binary, Client)], graphics);
    HostOfBoth(w, [Root(binary, Client)], graphics, hostFirst, host);
    PayloadClosed(w, binary, graphics, client, hostFirst, second, host, entries, drivers, libraries);
    forall broken ensures !NoPayload(w, binary, graphics, broken) {
      PayloadIsSound(w, binary, graphics, drivers, broken);
    }
  }
}
