/** Removing plaintext worker state (detonation/cleanup.py), and starting over
    (rollback.py).  Paths are resolved, and no symbolic link is on the disk. */
module Cleanup {
  import opened Disk
  import opened Folders
  import opened Outcomes

  /** `_require_workspace_child`. */
  predicate InScope(p: Path, root: Option<Path>) { root.Some? ==> root.value < p }

  /** One of the paths that is not preserved is `p` or lies above it. */
  predicate Targeted(p: Path, paths: seq<Path>, preserve: set<Path>) {
    exists t | t in paths :: t !in preserve && Within(p, t)
  }

  /** Only targeted nodes are missing, and what is there is as it was. */
  ghost predicate OnlyTargetsGone(tree: Tree, before: Tree, paths: seq<Path>, preserve: set<Path>) {
    forall p :: NodeAt(tree, p) == NodeAt(before, p) || (NodeAt(tree, p) == None && Targeted(p, paths, preserve))
  }

  /** All targeted nodes are missing. */
  ghost predicate TargetsGone(tree: Tree, paths: seq<Path>, preserve: set<Path>) {
    forall p :: Targeted(p, paths, preserve) ==> p !in tree
  }

  /** The removal of one path. */
  method RemovePath(volume: Volume, t: Path, call: RemoveCall) returns (r: Fault)
    requires call.Proper() && t in volume.tree && WellFormed(volume.tree)
    modifies volume
    ensures SameOutside(volume.tree, old(volume.tree), t)
    ensures forall p :: NodeAt(volume.tree, p) == NodeAt(old(volume.tree), p) || NodeAt(volume.tree, p) == None
    ensures r.Fine? <==> call.RemovedAll?
    ensures r.Fine? ==> NothingWithin(volume.tree, t) && WellFormed(volume.tree)
  {
    ghost var before := volume.tree;
    if volume.tree[t].Directory? {
      r := volume.RemoveTree(t, call);
    } else {
      assert forall p :: Within(p, t) && p in before ==> p == t;
      r := volume.Unlink(t, if call.RemovedAll? then Fine else call.fault);
    }
    if r.Fine? {
      ShrunkStaysFormed(volume.tree, before, t);
    }
  }

  lemma ShrunkStaysFormed(after: Tree, before: Tree, t: Path)
    requires WellFormed(before) && SameOutside(after, before, t) && NothingWithin(after, t)
    ensures WellFormed(after)
  {
    forall p, q | p in after && Within(p, q) ensures q in after && (q != p ==> after[q].Directory?) {
      assert !Within(p, t);
      assert NodeAt(after, p) == NodeAt(before, p);
      assert !Within(q, t);
      assert NodeAt(after, q) == NodeAt(before, q);
    }
  }

  lemma OneMoreTargeted(p: Path, paths: seq<Path>, k: nat, preserve: set<Path>)
    requires k < |paths|
    ensures Targeted(p, paths[..k + 1], preserve) <==>
            Targeted(p, paths[..k], preserve) || (paths[k] !in preserve && Within(p, paths[k]))
    ensures Targeted(p, paths[..k], preserve) ==> Targeted(p, paths, preserve)
  {
    assert paths[..k + 1] == paths[..k] + [paths[k]];
    assert forall t :: t in paths[..k] ==> t in paths;
  }

  /** One more path, of which a part or all has gone. */
  lemma OneMoreTarget(after: Tree, tree: Tree, before: Tree, paths: seq<Path>, k: nat, preserve: set<Path>)
    requires k < |paths| && paths[k] !in preserve && SameOutside(after, tree, paths[k])
    requires forall p :: NodeAt(after, p) == NodeAt(tree, p) || NodeAt(after, p) == None
    requires OnlyTargetsGone(tree, before, paths[..k], preserve) && TargetsGone(tree, paths[..k], preserve)
    ensures OnlyTargetsGone(after, before, paths[..k + 1], preserve)
    ensures NothingWithin(after, paths[k]) ==> TargetsGone(after, paths[..k + 1], preserve)
  {
    hide Targeted, Within;
    forall p ensures NodeAt(after, p) == NodeAt(before, p)
      || (NodeAt(after, p) == None && Targeted(p, paths[..k + 1], preserve)) {
      OneMoreTargeted(p, paths, k, preserve);
    }
    forall p | Targeted(p, paths[..k + 1], preserve) && NothingWithin(after, paths[k]) ensures p !in after {
      OneMoreTargeted(p, paths, k, preserve);
      assert NodeAt(tree, p) == None ==> NodeAt(after, p) == None;
    }
  }

  /** One more path, which is preserved or is not there. */
  lemma SkippedTarget(tree: Tree, before: Tree, paths: seq<Path>, k: nat, preserve: set<Path>)
    requires k < |paths| && (paths[k] in preserve || paths[k] !in tree) && WellFormed(tree)
    requires OnlyTargetsGone(tree, before, paths[..k], preserve) && TargetsGone(tree, paths[..k], preserve)
    ensures OnlyTargetsGone(tree, before, paths[..k + 1], preserve) && TargetsGone(tree, paths[..k + 1], preserve)
  {
    hide Targeted;
    forall p ensures Targeted(p, paths[..k], preserve) ==> Targeted(p, paths[..k + 1], preserve)
             ensures Targeted(p, paths[..k + 1], preserve) ==> p !in tree
    {
      OneMoreTargeted(p, paths, k, preserve);
    }
  }

  /** What goes for the first paths goes for them all. */
  lemma PrefixTargets(tree: Tree, before: Tree, paths: seq<Path>, k: nat, preserve: set<Path>)
    requires k <= |paths| && OnlyTargetsGone(tree, before, paths[..k], preserve)
    ensures OnlyTargetsGone(tree, before, paths, preserve)
  {
    assert forall t :: t in paths[..k] ==> t in paths;
  }

  lemma ScopeKept(after: Tree, tree: Tree, before: Tree, t: Path, root: Option<Path>)
    requires SameOutside(after, tree, t) && InScope(t, root)
    requires root.Some? ==> forall p :: !(root.value < p) ==> NodeAt(tree, p) == NodeAt(before, p)
    ensures root.Some? ==> forall p :: !(root.value < p) ==> NodeAt(after, p) == NodeAt(before, p)
  {
  }

  lemma NewlyRemoved(after: Tree, tree: Tree, before: Tree, removed: seq<Path>, t: Path)
    requires SameOutside(after, tree, t) && NothingWithin(after, t)
    requires forall p :: NodeAt(after, p) == NodeAt(tree, p) || NodeAt(after, p) == None
    requires forall p :: p in before && p !in tree ==> Targeted(p, removed, {})
    ensures forall p :: p in before && p !in after ==> Targeted(p, removed + [t], {})
    ensures forall p :: p == t || p !in tree ==> p !in after
  {
    assert forall p :: p in after ==> NodeAt(after, p) == NodeAt(tree, p);
    forall p | p !in tree ensures p !in after {
      assert NodeAt(after, p) == NodeAt(tree, p) || NodeAt(after, p) == None;
    }
    assert Within(t, t);
    forall p | p in before && p !in after ensures Targeted(p, removed + [t], {}) {
      if Within(p, t) {
        assert t in removed + [t];
      } else {
        assert NodeAt(after, p) == NodeAt(tree, p);
        var u :| u in removed && Within(p, u);
        assert u in removed + [t];
      }
    }
  }

  /** `detonate`. */
  method Detonate(volume: Volume, paths: seq<Path>, preserve: set<Path>, root: Option<Path>, calls: nat -> RemoveCall)
    returns (r: Fault, removed: seq<Path>)
    requires WellFormed(volume.tree) && forall i: nat :: calls(i).Proper()
    modifies volume
    // whether or not it raises, only targeted nodes go
    ensures OnlyTargetsGone(volume.tree, old(volume.tree), paths, preserve)
    // and with a root nothing outside it changes, nor the root itself
    ensures root.Some? ==> forall p :: !(root.value < p) ==> NodeAt(volume.tree, p) == NodeAt(old(volume.tree), p)
    ensures r.Fine? ==> TargetsGone(volume.tree, paths, preserve) && forall t :: t in paths ==> InScope(t, root)
    ensures (forall i: nat :: calls(i).RemovedAll?) ==> (r.Fine? <==> forall t :: t in paths ==> InScope(t, root))
    // the report lists what was there and is gone
    ensures forall t :: t in removed ==> t in paths && t !in preserve && t in old(volume.tree) && t !in volume.tree
    ensures r.Fine? ==> forall t :: t in paths && t !in preserve && t in old(volume.tree) ==> Targeted(t, removed, {})
  {
    hide WellFormed, OnlyTargetsGone, TargetsGone, Targeted, Within, SameOutside, NothingWithin, InScope;
    ghost var before := volume.tree;
    removed := [];
    NothingTargeted(before, paths, preserve);
    for k := 0 to |paths|
      invariant WellFormed(volume.tree)
      invariant OnlyTargetsGone(volume.tree, before, paths[..k], preserve)
        && TargetsGone(volume.tree, paths[..k], preserve)
      invariant root.Some? ==> forall p :: !(root.value < p) ==> NodeAt(volume.tree, p) == NodeAt(before, p)
      invariant forall t :: t in paths[..k] ==> InScope(t, root)
      invariant forall p :: p in volume.tree ==> p in before
      invariant forall t :: t in removed ==> t in paths[..k] && t !in preserve && t in before && t !in volume.tree
      invariant forall p :: p in before && p !in volume.tree ==> Targeted(p, removed, {})
    {
      var t := paths[k];
      assert paths[..k + 1] == paths[..k] + [t];
      if !InScope(t, root) {
        PrefixTargets(volume.tree, before, paths, k, preserve);
        return OtherFault, removed;
      }
      ghost var tree := volume.tree;
      if t in preserve || t !in volume.tree {
        SkippedTarget(tree, before, paths, k, preserve);
        continue;
      }
      r := RemovePath(volume, t, calls(k));
      ScopeKept(volume.tree, tree, before, t, root);
      OneMoreTarget(volume.tree, tree, before, paths, k, preserve);
      if !r.Fine? {
        PrefixTargets(volume.tree, before, paths, k + 1, preserve);
        return;
      }
      NewlyRemoved(volume.tree, tree, before, removed, t);
      removed := removed + [t];
    }
    assert paths[..|paths|] == paths;
    TargetsAreTargeted(paths, preserve);
    assert forall t :: t in paths && t !in preserve ==>
      t !in volume.tree by { GoneIsGone(volume.tree, paths, preserve); }
    r := Fine;
  }

  lemma NothingTargeted(tree: Tree, paths: seq<Path>, preserve: set<Path>)
    ensures OnlyTargetsGone(tree, tree, paths[..0], preserve) && TargetsGone(tree, paths[..0], preserve)
  {
  }

  lemma TargetsAreTargeted(paths: seq<Path>, preserve: set<Path>)
    ensures forall t :: t in paths && t !in preserve ==> Targeted(t, paths, preserve)
  {
    assert forall t: Path :: Within(t, t);
  }

  lemma GoneIsGone(tree: Tree, paths: seq<Path>, preserve: set<Path>)
    requires TargetsGone(tree, paths, preserve)
    ensures forall p :: Targeted(p, paths, preserve) ==> p !in tree
  {
  }

  // ------------------------------------------------------- starting over

  const REMOVED_STATE: seq<string> := [
    "worker", "tmp", "job.json", "runner_plan.json", "oci_workspace.json", "control-room.html", "remote-artifacts"]

  const PRESERVED: seq<string> := ["fusekit.vault.json", "audit.jsonl", "setup_receipt.json", "setup_receipt.md"]

  function StatePath(app: Path, name: string): Path { app + [".fusekit", name] }

  function StatePaths(app: Path, names: seq<string>): (r: seq<Path>)
    ensures |r| == |names| && forall i :: 0 <= i < |names| ==> r[i] == StatePath(app, names[i])
  {
    seq(|names|, i requires 0 <= i < |names| => StatePath(app, names[i]))
  }

  /** Some of the removed state lies at `p` or above it. */
  ghost predicate Restartable(p: Path, app: Path) {
    exists i :: 0 <= i < |REMOVED_STATE| && Within(p, StatePath(app, REMOVED_STATE[i]))
  }

  /** `start_over`: whatever fails, nothing but the restartable state goes, so the vault, the
      audit log and the receipts are as they were; when nothing fails all of it goes. */
  method StartOver(volume: Volume, app: Path, calls: nat -> RemoveCall) returns (r: Fault, removed: seq<Path>)
    requires WellFormed(volume.tree) && forall i: nat :: calls(i).Proper()
    modifies volume
    ensures forall p :: !Restartable(p, app) ==> NodeAt(volume.tree, p) == NodeAt(old(volume.tree), p)
    ensures forall i :: 0 <= i < |PRESERVED| ==>
              NodeAt(volume.tree, StatePath(app, PRESERVED[i])) ==
                NodeAt(old(volume.tree), StatePath(app, PRESERVED[i]))
    ensures (forall i: nat :: calls(i).RemovedAll?) ==> r.Fine?
    ensures r.Fine? ==> forall p :: Restartable(p, app) ==> p !in volume.tree
    // told plainly: what goes, and what stays even when it raises
    ensures r.Fine? ==> forall p, name :: app + [".fusekit", name] <= p && MayGo(name) ==> p !in volume.tree
    ensures forall name :: name in {"fusekit.vault.json", "audit.jsonl", "setup_receipt.json", "setup_receipt.md"} ==>
              NodeAt(volume.tree, app + [".fusekit", name]) == NodeAt(old(volume.tree), app + [".fusekit", name])
  {
    StateByName(app);
    var targets, preserved := StatePaths(app, REMOVED_STATE), StatePaths(app, PRESERVED);
    StateIsInScope(app);
    hide StatePath;
    var preserve := set p | p in preserved;
    forall p ensures Targeted(p, targets, preserve) <==> Restartable(p, app) {
      TargetedIsRestartable(p, app);
    }
    r, removed := Detonate(volume, targets, preserve, Some(app), calls);
    forall i | 0 <= i < |PRESERVED|
      ensures NodeAt(volume.tree, StatePath(app, PRESERVED[i])) ==
        NodeAt(old(volume.tree), StatePath(app, PRESERVED[i]))
    {
      PreservedStays(app, i);
    }
  }

  predicate MayGo(name: string) {
    name in {"worker", "tmp", "job.json", "runner_plan.json", "oci_workspace.json", "control-room.html",
             "remote-artifacts"}
  }

  lemma StateByName(app: Path)
    ensures forall p, name :: app + [".fusekit", name] <= p && MayGo(name) ==> Restartable(p, app)
    ensures forall name :: name in {"fusekit.vault.json", "audit.jsonl", "setup_receipt.json", "setup_receipt.md"} ==>
              exists i :: 0 <= i < |PRESERVED| && StatePath(app, PRESERVED[i]) == app + [".fusekit", name]
  {
    forall p, name | app + [".fusekit", name] <= p && MayGo(name) ensures Restartable(p, app) {
      assert name in REMOVED_STATE;
      var i :| 0 <= i < |REMOVED_STATE| && REMOVED_STATE[i] == name;
      assert Within(p, StatePath(app, REMOVED_STATE[i]));
    }
    forall name | name in {"fusekit.vault.json", "audit.jsonl", "setup_receipt.json", "setup_receipt.md"}
      ensures exists i :: 0 <= i < |PRESERVED| && StatePath(app, PRESERVED[i]) == app + [".fusekit", name]
    {
      assert name in PRESERVED;
      var i :| 0 <= i < |PRESERVED| && PRESERVED[i] == name;
      assert StatePath(app, PRESERVED[i]) == app + [".fusekit", name];
    }
  }

  lemma StateIsInScope(app: Path)
    ensures forall t :: t in StatePaths(app, REMOVED_STATE) ==> InScope(t, Some(app))
  {
    hide REMOVED_STATE;
  }

  /** The names differ, so no preserved file is a target or lies below one. */
  lemma NamesDiffer(i: nat, j: nat)
    requires i < |PRESERVED| && j < |REMOVED_STATE|
    ensures PRESERVED[i] != REMOVED_STATE[j]
  {
    assert |PRESERVED[i]| in {18, 11, 18, 16};
    assert |REMOVED_STATE[j]| in {6, 3, 8, 16, 18, 17, 16};
    assert PRESERVED[i][0] in {'f', 'a', 's'} && REMOVED_STATE[j][0] in {'w', 't', 'j', 'r', 'o', 'c'};
  }

  lemma PreservedStays(app: Path, i: nat)
    requires i < |PRESERVED|
    ensures !Restartable(StatePath(app, PRESERVED[i]), app)
  {
    forall j | 0 <= j < |REMOVED_STATE|
      ensures !Within(StatePath(app, PRESERVED[i]), StatePath(app, REMOVED_STATE[j])) {
      NamesDiffer(i, j);
      DifferentNames(app, PRESERVED[i], REMOVED_STATE[j]);
    }
  }

  lemma DifferentNames(app: Path, a: string, b: string)
    requires a != b
    ensures !Within(StatePath(app, a), StatePath(app, b))
  {
    assert StatePath(app, a)[|app| + 1] == a && StatePath(app, b)[|app| + 1] == b;
  }

  lemma TargetedIsRestartable(p: Path, app: Path)
    ensures Targeted(p, StatePaths(app, REMOVED_STATE), set q | q in StatePaths(app, PRESERVED)) <==>
      Restartable(p, app)
  {
    var targets, preserve := StatePaths(app, REMOVED_STATE), set q | q in StatePaths(app, PRESERVED);
    forall j | 0 <= j < |REMOVED_STATE| ensures targets[j] !in preserve {
      forall i | 0 <= i < |PRESERVED| ensures StatePath(app, PRESERVED[i]) != targets[j] {
        NamesDiffer(i, j);
        DifferentNames(app, PRESERVED[i], REMOVED_STATE[j]);
      }
    }
    hide REMOVED_STATE, PRESERVED, StatePath;
    if Restartable(p, app) {
      var i :| 0 <= i < |REMOVED_STATE| && Within(p, StatePath(app, REMOVED_STATE[i]));
      assert targets[i] in targets;
    }
  }
}
