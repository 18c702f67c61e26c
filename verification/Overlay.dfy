/**
 The generated overlay of a provider binding (`apps/daemon/src/generated-overlay-transaction.ts`): a tree of
 files and the ledger that names it, committed so that a crash anywhere leaves a complete overlay or the previous one.
 A tree is the map from relative paths to files; a hash is injective, so it stands for the content itself.
 */
module Overlay {
  import opened Wrappers

  type Bytes = seq<bv8>
  datatype Digest = Digest(content: Bytes)
  datatype Node = Regular(content: Bytes, mode: nat) | Ownership(entries: seq<Entry>) | Irregular
  type Tree = map<string, Node>

  datatype Root = Root(binding: string, revision: nat)
  datatype Entry = Entry(path: string, owner: nat, adapter: nat, hash: Digest, mode: nat)
  datatype Ledger = Ledger(revision: nat, root: Root, entries: seq<Entry>)
  datatype File = File(path: string, owner: nat, content: Bytes, mode: Option<nat>)

  const OWNERSHIP := "ownership.json"
  const FILE_MODE := 384
  const EXECUTABLE_MODE := 448
  const MAX_FILE_BYTES := 2097152
  const MAX_OVERLAY_BYTES := 8388608

  // ---------------------------------------------------------------- paths and requests

  function Segments(path: string): (s: seq<string>)
    ensures |s| > 0
  {
    if path == "" then [""]
    else
      var rest := Segments(path[1..]);
      if path[0] == '/' then [""] + rest else [[path[0]] + rest[0]] + rest[1..]
  }

  predicate Portable(path: string) {
    && path != "" && '\0' !in path && '\\' !in path && path[0] != '/'
    && forall i :: 0 <= i < |Segments(path)| ==> Segments(path)[i] != "" && Segments(path)[i] != "." && Segments(path)[i] != ".."
  }

  predicate PathSafe(binding: string) {
    1 <= |binding| <= 128 && (forall i :: 0 <= i < |binding| ==> Plain(binding[i]) || (i > 0 && binding[i] in "._-"))
  }

  predicate Plain(c: char) {
    'A' <= c <= 'Z' || 'a' <= c <= 'z' || '0' <= c <= '9'
  }

  function TotalBytes(files: seq<File>): nat {
    if files == [] then 0 else TotalBytes(files[..|files| - 1]) + |files[|files| - 1].content|
  }

  predicate Distinct(files: seq<File>) {
    forall i, j :: 0 <= i < j < |files| ==> files[i].path != files[j].path
  }

  function ModeOf(file: File): nat {
    if file.mode.Some? then file.mode.value else FILE_MODE
  }

  function EntryOf(file: File, adapter: nat): Entry {
    Entry(file.path, file.owner, adapter, Digest(file.content), ModeOf(file))
  }

  function EntriesOf(files: seq<File>, adapter: nat): (entries: seq<Entry>)
    ensures |entries| == |files| && forall i :: 0 <= i < |files| ==> entries[i] == EntryOf(files[i], adapter)
  {
    if files == [] then [] else EntriesOf(files[..|files| - 1], adapter) + [EntryOf(files[|files| - 1], adapter)]
  }

  /** A file and a directory cannot share a name. */
  predicate Clashes(a: string, b: string) {
    a == b || a + "/" <= b || b + "/" <= a
  }

  // ---------------------------------------------------------------- drift

  predicate Matches(entry: Entry, tree: Tree) {
    entry.path in tree && tree[entry.path].Regular? && Digest(tree[entry.path].content) == entry.hash && tree[entry.path].mode == entry.mode
  }

  predicate Expected(path: string, entries: seq<Entry>) {
    path == OWNERSHIP || exists i :: 0 <= i < |entries| && entries[i].path == path
  }

  /** The tree holds exactly the entries' files with their content and mode, the ownership file aside. */
  ghost predicate Exact(tree: Tree, entries: seq<Entry>) {
    && (forall i :: 0 <= i < |entries| ==> Matches(entries[i], tree))
    && (forall path :: path in tree ==> Expected(path, entries))
  }

  /** What makes a path drift. */
  ghost predicate Drifts(path: string, tree: Tree, entries: seq<Entry>) {
    || (exists i :: 0 <= i < |entries| && entries[i].path == path && !Matches(entries[i], tree))
    || (path in tree && !Expected(path, entries))
  }

  function TreeAt(generated: map<Root, Tree>, root: Root): Tree {
    if root in generated then generated[root] else map[]
  }

  /** Every file of the tree, in some order. */
  method Inventory(tree: Tree) returns (paths: seq<string>)
    ensures forall path :: path in paths <==> path in tree
  {
    paths := [];
    var left := tree.Keys;
    while left != {}
      invariant left <= tree.Keys
      invariant forall path :: path in paths <==> path in tree && path !in left
      decreases left
    {
      var path :| path in left;
      left := left - {path};
      paths := paths + [path];
    }
  }

  method DriftOf(tree: Tree, entries: seq<Entry>) returns (drift: seq<string>)
    ensures forall path :: path in drift <==> Drifts(path, tree, entries)
    ensures drift == [] <==> Exact(tree, entries)
  {
    drift := [];
    for i := 0 to |entries|
      invariant forall path :: path in drift <==> exists k :: 0 <= k < i && entries[k].path == path && !Matches(entries[k], tree)
    {
      if !Matches(entries[i], tree) { drift := drift + [entries[i].path]; }
    }
    var mismatched := drift;
    var paths := Inventory(tree);
    for i := 0 to |paths|
      invariant forall path :: path in drift <==> path in mismatched || (path in paths[..i] && !Expected(path, entries))
    {
      assert paths[..i + 1] == paths[..i] + [paths[i]];
      if !Expected(paths[i], entries) { drift := drift + [paths[i]]; }
    }
    assert paths[..|paths|] == paths;
    assert drift != [] ==> drift[0] in drift;
    if drift == [] {
      forall i | 0 <= i < |entries| ensures Matches(entries[i], tree) { assert !Drifts(entries[i].path, tree, entries); }
      forall path | path in tree ensures Expected(path, entries) { assert !Drifts(path, tree, entries); }
    }
  }

  // ---------------------------------------------------------------- the transaction

  datatype Rejection = BadBinding | BadRevision | NoFiles | BadPath | TooLarge | DriftDetected | AlreadyExists | OperationFailed
  datatype Result = Committed(ledger: Ledger) | Rejected(why: Rejection) | Died

  /** How a file operation ends. */
  datatype Outcome = Done | Fails | Dies
  {
    predicate IsFailure() { !Done? }
    function PropagateFailure(): Outcome { this }
  }

  /** A ledger names an overlay that is there, complete and without drift. */
  ghost predicate Complete(generated: map<Root, Tree>, ledger: Ledger) {
    ledger.root in generated && Exact(generated[ledger.root], ledger.entries)
  }

  ghost predicate AllComplete(generated: map<Root, Tree>, ledgers: map<string, Ledger>) {
    forall binding :: binding in ledgers ==> ledgers[binding].root.binding == binding && Complete(generated, ledgers[binding])
  }

  /** Overlays that stay, and at most one new ledger that is complete, leave every ledger complete. */
  lemma {:induction false} StillComplete(generated: map<Root, Tree>, ledgers: map<string, Ledger>, after: map<Root, Tree>, ledgersAfter: map<string, Ledger>, binding: string, ledger: Ledger)
    requires AllComplete(generated, ledgers) && forall root :: root in generated ==> root in after && after[root] == generated[root]
    requires ledgersAfter == ledgers || (ledgersAfter == ledgers[binding := ledger] && ledger.root.binding == binding && Complete(after, ledger))
    ensures AllComplete(after, ledgersAfter)
  {
  }

  /** A tree that lost files keeps what the entries say exactly when it lost none of theirs. */
  lemma {:induction false} LostExact(before: Tree, after: Tree, entries: seq<Entry>)
    requires Exact(before, entries) && forall path :: path in after ==> path in before && after[path] == before[path]
    ensures Exact(after, entries) <==> forall i :: 0 <= i < |entries| ==> entries[i].path in after
  {
    if forall i :: 0 <= i < |entries| ==> entries[i].path in after {
      forall i | 0 <= i < |entries| ensures Matches(entries[i], after) { assert Matches(entries[i], before); }
    } else {
      var i :| 0 <= i < |entries| && entries[i].path !in after;
      assert !Matches(entries[i], after);
    }
  }

  /** The smallest overlay a removal can leave behind: its one file is gone, and the ledger still names it. */
  lemma {:induction false} HalfRemovedIsIncomplete(root: Root, owner: nat, adapter: nat, content: Bytes)
    ensures var file := File("a", owner, content, None);
            var entries := EntriesOf([file], adapter);
            var whole: Tree := map["a" := Regular(content, FILE_MODE), OWNERSHIP := Ownership(entries)];
            && Complete(map[root := whole], Ledger(root.revision, root, entries))
            && !Complete(map[root := whole - {"a"}], Ledger(root.revision, root, entries))
            && Complete(map[root := whole - {OWNERSHIP}], Ledger(root.revision, root, entries))
  {
    var entries := EntriesOf([File("a", owner, content, None)], adapter);
    var whole: Tree := map["a" := Regular(content, FILE_MODE), OWNERSHIP := Ownership(entries)];
    assert "a" != OWNERSHIP && entries[0].path == "a" && Matches(entries[0], whole);
    LostExact(whole, whole - {"a"}, entries);
    LostExact(whole, whole - {OWNERSHIP}, entries);
  }

  /** The tree staged after the first `n` files. */
  ghost predicate Staged(tree: Tree, files: seq<File>, n: nat)
    requires n <= |files|
  {
    && (forall i :: 0 <= i < n ==> files[i].path in tree && tree[files[i].path] == Regular(files[i].content, ModeOf(files[i])))
    && (forall path :: path in tree ==> exists i :: 0 <= i < n && files[i].path == path)
  }

  /** The files can all be written beside each other and the ownership file. */
  ghost predicate Storable(files: seq<File>) {
    && (forall i :: 0 <= i < |files| ==> |files[i].content| <= MAX_FILE_BYTES && !Clashes(files[i].path, OWNERSHIP))
    && (forall i :: 0 <= i < |files| ==> ModeOf(files[i]) == FILE_MODE || ModeOf(files[i]) == EXECUTABLE_MODE)
    && (forall i, j :: 0 <= i < j < |files| ==> !Clashes(files[i].path, files[j].path))
  }

  class GeneratedOverlayTransaction {
    /** Which of the coming file operations fail. */
    const failures: nat -> bool
    var operations: nat
    /** File operations left before the daemon dies. */
    var life: nat
    var generated: map<Root, Tree>
    var ledgers: map<string, Ledger>
    var staging: Tree

    ghost predicate Valid()
      reads this
    {
      AllComplete(generated, ledgers)
    }

    /** Every overlay there was is still there. */
    ghost predicate Keeps(before: map<Root, Tree>)
      reads this
    {
      forall root :: root in before ==> root in generated && generated[root] == before[root]
    }

    constructor (failures: nat -> bool)
      ensures Valid() && generated == map[] && ledgers == map[]
    {
      this.failures := failures;
      operations, life, generated, ledgers, staging := 0, 0, map[], map[], map[];
    }

    /** One of the operations after the first `since` failed. */
    ghost predicate Failed(since: nat)
      reads this
    {
      exists n: nat :: since < n <= operations && failures(n)
    }

    /** One file operation: it happens, it fails, or the daemon is dead by then. */
    method Operate() returns (outcome: Outcome)
      modifies this`operations, this`life
      ensures old(operations) <= operations && (outcome.Fails? ==> Failed(old(operations))) && (outcome.Dies? ==> life == 0)
    {
      if life == 0 { return Dies; }
      life := life - 1;
      operations := operations + 1;
      outcome := if failures(operations) then Fails else Done;
    }

    method DetectDrift(binding: string) returns (drift: seq<string>)
      ensures binding !in ledgers ==> drift == []
      ensures binding in ledgers ==>
                (forall path :: path in drift <==> Drifts(path, TreeAt(generated, ledgers[binding].root), ledgers[binding].entries))
                && (drift == [] <==> Exact(TreeAt(generated, ledgers[binding].root), ledgers[binding].entries))
    {
      if binding !in ledgers { return []; }
      drift := DriftOf(TreeAt(generated, ledgers[binding].root), ledgers[binding].entries);
    }

    /** `writeSynced` with `wx`: never over something that is there. */
    method WriteFile(path: string, node: Node, bytes: nat) returns (outcome: Outcome)
      modifies this`operations, this`life, this`staging
      ensures outcome.Done? ==> bytes <= MAX_FILE_BYTES && path !in old(staging) && staging == old(staging)[path := node]
      ensures old(operations) <= operations && (outcome.Dies? ==> life == 0)
      ensures outcome.Fails? ==> bytes > MAX_FILE_BYTES || Failed(old(operations)) || exists other :: other in old(staging) && Clashes(other, path)
    {
      if bytes > MAX_FILE_BYTES { return Fails; }
      if exists other :: other in staging && Clashes(other, path) { return Fails; }
      :- Operate();
      staging := staging[path := node];
      outcome := Done;
    }

    method Stage(files: seq<File>, entries: seq<Entry>) returns (outcome: Outcome)
      requires Distinct(files)
      modifies this`operations, this`life, this`staging
      ensures outcome.Done? ==>
                && OWNERSHIP in staging && staging[OWNERSHIP] == Ownership(entries)
                && Staged(staging - {OWNERSHIP}, files, |files|) && (forall i :: 0 <= i < |files| ==> files[i].path != OWNERSHIP)
                && forall i :: 0 <= i < |files| ==> ModeOf(files[i]) == FILE_MODE || ModeOf(files[i]) == EXECUTABLE_MODE
      ensures old(operations) <= operations && (outcome.Dies? ==> life == 0)
      ensures outcome.Fails? ==> Failed(old(operations)) || !Storable(files)
    {
      staging := map[];
      :- Operate();
      for i := 0 to |files|
        invariant Staged(staging, files, i) && old(operations) <= operations
        invariant forall k :: 0 <= k < i ==> ModeOf(files[k]) == FILE_MODE || ModeOf(files[k]) == EXECUTABLE_MODE
      {
        var mode := ModeOf(files[i]);
        if mode != FILE_MODE && mode != EXECUTABLE_MODE { return Fails; }
        :- WriteFile(files[i].path, Regular(files[i].content, mode), |files[i].content|);
        assert files[i].path in staging;
      }
      ghost var was := staging;
      :- WriteFile(OWNERSHIP, Ownership(entries), 0);
      assert staging - {OWNERSHIP} == was;
      outcome := Operate();
    }

    /** `rmSync(root, { recursive: true })`: file by file, so a crash can leave part of it. */
    method RemoveTree(root: Root) returns (outcome: Outcome)
      modifies this`operations, this`life, this`generated
      ensures forall other :: other != root ==> (other in generated <==> other in old(generated))
      ensures forall other :: other != root && other in generated ==> generated[other] == old(generated)[other]
      ensures outcome.Done? ==> root !in generated
      ensures old(operations) <= operations && (outcome.Dies? ==> life == 0) && (outcome.Fails? ==> Failed(old(operations)))
      ensures root !in old(generated) ==> generated == old(generated)
      ensures root in generated ==> root in old(generated) && forall path :: path in generated[root] ==>
                path in old(generated)[root] && generated[root][path] == old(generated)[root][path]
    {
      if root !in generated { return Done; }
      var paths := Inventory(generated[root]);
      for i := 0 to |paths|
        invariant old(operations) <= operations
        invariant root in generated && forall path :: path in generated[root] ==>
                    path in old(generated)[root] && generated[root][path] == old(generated)[root][path]
        invariant forall other :: other != root ==> (other in generated <==> other in old(generated))
        invariant forall other :: other != root && other in generated ==> generated[other] == old(generated)[other]
      {
        :- Operate();
        generated := generated[root := generated[root] - {paths[i]}];
      }
      :- Operate();
      generated := generated - {root};
      outcome := Done;
    }

    /** The checks before anything is staged. */
    method Check(binding: string, revision: nat, files: seq<File>) returns (why: Option<Rejection>)
      ensures why.None? <==>
                && PathSafe(binding) && revision >= 1 && files != [] && Distinct(files) && TotalBytes(files) <= MAX_OVERLAY_BYTES
                && (forall i :: 0 <= i < |files| ==> Portable(files[i].path))
                && (binding in ledgers ==> Exact(TreeAt(generated, ledgers[binding].root), ledgers[binding].entries))
      ensures why != Some(OperationFailed)
    {
      if !PathSafe(binding) { return Some(BadBinding); }
      if files == [] { return Some(NoFiles); }
      var total := 0;
      for i := 0 to |files|
        invariant Distinct(files[..i]) && total == TotalBytes(files[..i])
        invariant forall k :: 0 <= k < i ==> Portable(files[k].path)
      {
        if !Portable(files[i].path) || exists k :: 0 <= k < i && files[k].path == files[i].path { return Some(BadPath); }
        assert files[..i + 1][..i] == files[..i];
        total := total + |files[i].content|;
      }
      assert files[..|files|] == files;
      if total > MAX_OVERLAY_BYTES { return Some(TooLarge); }
      var drift := DetectDrift(binding);
      if drift != [] { return Some(DriftDetected); }
      why := if revision < 1 then Some(BadRevision) else None;
    }

    /** From the staged tree to the ledger that names it; `moved` and `ledgered` say how far it came. */
    method Publish(binding: string, root: Root, ledger: Ledger) returns (outcome: Outcome, moved: bool, ledgered: bool)
      requires root !in generated && ledger.root == root
      modifies this`operations, this`life, this`generated, this`ledgers, this`staging
      ensures generated == if moved then old(generated)[root := old(staging)] else old(generated)
      ensures ledgers == if ledgered then old(ledgers)[binding := ledger] else old(ledgers)
      ensures (ledgered ==> moved) && (outcome.Done? ==> ledgered)
      ensures old(operations) <= operations && (outcome.Dies? ==> life == 0) && (outcome.Fails? ==> Failed(old(operations)))
    {
      moved, ledgered := false, false;
      outcome := Operate();
      if !outcome.Done? { return; }
      outcome := Operate();
      if !outcome.Done? { return; }
      outcome := Operate();
      if !outcome.Done? { return; }
      generated, staging, moved := generated[root := staging], map[], true;
      outcome := Operate();
      if !outcome.Done? { return; }
      outcome := Operate();
      if !outcome.Done? { return; }
      outcome := Operate();
      if !outcome.Done? { return; }
      ledgers, ledgered := ledgers[binding := ledger], true;
      outcome := Operate();
    }

    /** Stages and publishes a new overlay; an error before its ledger is in place takes the overlay away again. */
    method Install(binding: string, root: Root, adapter: nat, files: seq<File>) returns (result: Result)
      requires root !in generated && Distinct(files)
      modifies this`operations, this`life, this`generated, this`ledgers, this`staging
      ensures Keeps(old(generated)) && forall other :: other in generated && other !in old(generated) ==> other == root
      ensures ledgers == old(ledgers)
              || (ledgers == old(ledgers)[binding := Ledger(root.revision, root, EntriesOf(files, adapter))]
                  && root in generated && OWNERSHIP in generated[root] && Staged(generated[root] - {OWNERSHIP}, files, |files|))
      ensures result.Committed? ==> result.ledger == Ledger(root.revision, root, EntriesOf(files, adapter)) && ledgers == old(ledgers)[binding := result.ledger]
      ensures result.Rejected? ==> result.why == OperationFailed && (Failed(old(operations)) || !Storable(files))
      ensures old(operations) <= operations && (result.Died? ==> life == 0)
      ensures result.Committed? ==> root in generated && Staged(generated[root] - {OWNERSHIP}, files, |files|)
    {
      var entries := EntriesOf(files, adapter);
      var staged := Stage(files, entries);
      if staged.Dies? { return Died; }
      if staged.Fails? {
        staging := map[];
        return Rejected(OperationFailed);
      }
      var ledger := Ledger(root.revision, root, entries);
      var outcome, moved, ledgered := Publish(binding, root, ledger);
      if outcome.Dies? { return Died; }
      if outcome.Done? { return Committed(ledger); }
      staging := map[];
      if moved && !ledgered {
        var removed := RemoveTree(root);
        if removed.Dies? { return Died; }
      }
      result := Rejected(OperationFailed);
    }

    /**
     Whenever it ends or dies, every ledger still names a complete overlay without drift: the previous ones
     are untouched, and the new ledger appears only once its overlay is complete.
     */
    method Commit(binding: string, revision: nat, adapter: nat, files: seq<File>) returns (result: Result)
      modifies this`operations, this`life, this`generated, this`ledgers, this`staging
      ensures old(Valid()) ==> Valid()
      ensures Keeps(old(generated)) && forall root :: root in generated && root !in old(generated) ==> root == Root(binding, revision)
      ensures ledgers == old(ledgers) || ledgers == old(ledgers)[binding := Ledger(revision, Root(binding, revision), EntriesOf(files, adapter))]
      ensures result.Committed? ==> binding in ledgers && ledgers[binding] == result.ledger && result.ledger.revision == revision
      ensures result.Committed? && Root(binding, revision) in old(generated) ==> generated == old(generated) && ledgers == old(ledgers)
      ensures result.Committed? && Root(binding, revision) !in old(generated) ==>
                && result.ledger.root == Root(binding, revision) && result.ledger.root in generated
                && result.ledger.entries == EntriesOf(files, adapter) && Staged(generated[result.ledger.root] - {OWNERSHIP}, files, |files|)
      ensures result.Rejected? && result.why != OperationFailed ==> generated == old(generated) && ledgers == old(ledgers)
      ensures result.Rejected? && result.why == OperationFailed ==> Failed(old(operations)) || !Storable(files)
      ensures result.Died? ==> life == 0
      ensures Root(binding, revision) in old(generated) && (binding !in old(ledgers) || old(ledgers)[binding].revision != revision) ==> result.Rejected?
    {
      var why := Check(binding, revision, files);
      if why.Some? { return Rejected(why.value); }
      var root := Root(binding, revision);
      if root in generated {
        var drift := DetectDrift(binding);
        return if binding in ledgers && ledgers[binding].revision == revision && drift == [] then Committed(ledgers[binding]) else Rejected(AlreadyExists);
      }
      ghost var ledger := Ledger(revision, root, EntriesOf(files, adapter));
      result := Install(binding, root, adapter, files);
      if old(Valid()) {
        if ledgers != old(ledgers) { StagedExact(generated[root], files, adapter); }
        StillComplete(old(generated), old(ledgers), generated, ledgers, binding, ledger);
      }
    }

    /**
     Removes an overlay that has not drifted.  The ledger goes last: if the daemon dies in between, it names
     an overlay that is still complete exactly when none of the ledger's files is gone.
     */
    method RemoveConservatively(binding: string) returns (removed: bool, outcome: Outcome)
      modifies this`operations, this`life, this`generated, this`ledgers
      ensures removed ==> binding in old(ledgers) && ledgers == old(ledgers) - {binding} && old(ledgers)[binding].root !in generated
      ensures outcome.Done? && !removed ==> generated == old(generated) && ledgers == old(ledgers)
      ensures !outcome.Done? && !removed ==> ledgers == old(ledgers) && binding in ledgers
      ensures !outcome.Done? && !removed && ledgers[binding].root in old(generated) ==>
                (Complete(generated, ledgers[binding]) <==>
                 ledgers[binding].root in generated
                 && forall i :: 0 <= i < |ledgers[binding].entries| ==> ledgers[binding].entries[i].path in generated[ledgers[binding].root])
    {
      removed, outcome := false, Done;
      if binding !in ledgers { return; }
      var drift := DetectDrift(binding);
      if drift != [] { return; }
      var root := ledgers[binding].root;
      outcome := RemoveTree(root);
      if root in generated { LostExact(old(generated)[root], generated[root], ledgers[binding].entries); }
      if !outcome.Done? { return; }
      outcome := Operate();
      if !outcome.Done? { return; }
      ledgers := ledgers - {binding};
      removed := true;
      outcome := Operate();
    }
  }

  /** A fully staged tree is exactly what its entries say. */
  lemma {:induction false} StagedExact(tree: Tree, files: seq<File>, adapter: nat)
    requires Staged(tree - {OWNERSHIP}, files, |files|) && OWNERSHIP in tree
    ensures Exact(tree, EntriesOf(files, adapter))
  {
    var entries := EntriesOf(files, adapter);
    forall i | 0 <= i < |entries| ensures Matches(entries[i], tree) {
      assert files[i].path in tree - {OWNERSHIP};
    }
    forall path | path in tree ensures Expected(path, entries) {
      if path != OWNERSHIP {
        assert path in tree - {OWNERSHIP};
        var i :| 0 <= i < |files| && files[i].path == path;
        assert entries[i].path == path;
      }
    }
  }
}
