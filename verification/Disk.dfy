/** A disk as a map from absolute paths to nodes, without symbolic links, on which every
    operation may fail, and a recursive deletion or a move may fail half way. */
module Disk {
  import opened Folders
  import opened Outcomes

  /** The components of an absolute path. */
  type Path = seq<string>

  type Tree = map<Path, Node>

  function NodeAt(tree: Tree, p: Path): Option<Node> { if p in tree then Some(tree[p]) else None }

  predicate Within(p: Path, root: Path) { root <= p }

  /** What exists lies in directories that exist. */
  ghost predicate WellFormed(tree: Tree) {
    forall p, q :: p in tree && Within(p, q) ==> q in tree && (q != p ==> tree[q].Directory?)
  }

  /** The trees agree everywhere outside `root`. */
  ghost predicate SameOutside(a: Tree, b: Tree, root: Path) {
    forall p :: !Within(p, root) ==> NodeAt(a, p) == NodeAt(b, p)
  }

  ghost predicate SameWithin(a: Tree, b: Tree, root: Path) {
    forall p :: Within(p, root) ==> NodeAt(a, p) == NodeAt(b, p)
  }

  ghost predicate NothingWithin(tree: Tree, root: Path) {
    forall p :: Within(p, root) ==> p !in tree
  }

  function Without(tree: Tree, root: Path): (r: Tree)
    ensures forall p :: NodeAt(r, p) == if Within(p, root) then None else NodeAt(tree, p)
  {
    map p | p in tree && !Within(p, root) :: tree[p]
  }

  /** A deletion that fails leaves what it had not reached. */
  datatype RemoveCall = RemovedAll | RemoveFailed(fault: Fault, gone: set<Path>) {
    predicate Proper() { RemoveFailed? ==> !fault.Fine? }
  }

  /** A move that fails leaves any part of a copy behind. */
  datatype MoveCall = MovedAll | MoveFailed(fault: Fault, part: Tree) {
    predicate Proper() { MoveFailed? ==> !fault.Fine? }
  }

  /** What is at `p` once what was at `from` is at `to`. */
  function Relocated(tree: Tree, from: Path, to: Path, p: Path): Option<Node> {
    if Within(p, to) then NodeAt(tree, from + p[|to|..])
    else if Within(p, from) then None
    else NodeAt(tree, p)
  }

  function Moved(tree: Tree, from: Path, to: Path): (r: Tree)
    requires !Within(to, from)
    requires forall p :: Within(p, to) ==> p !in tree
    ensures forall p :: NodeAt(r, p) == Relocated(tree, from, to, p)
  {
    Without(tree, from) + map q | q in Arrivals(tree, from, to) :: tree[from + q[|to|..]]
  }

  /** Where the nodes under `from` arrive. */
  function Arrivals(tree: Tree, from: Path, to: Path): (r: set<Path>)
    ensures forall q :: q in r <==> Within(q, to) && from + q[|to|..] in tree
  {
    var r := set p | p in tree && Within(p, from) :: to + p[|from|..];
    assert forall q :: Within(q, to) && from + q[|to|..] in tree ==>
        Within(from + q[|to|..], from) && q == to + (from + q[|to|..])[|from|..];
    assert forall p :: Within(p, from) ==> p == from + (to + p[|from|..])[|to|..];
    r
  }

  /** The directories above `target`, from the top, at most `n` of them. */
  function Parents(target: Path, n: nat): (r: Tree)
    ensures forall p :: NodeAt(r, p) == if p < target && |p| < n then Some(Directory) else None
  {
    map p | p in Above(target, n) :: Directory
  }

  function Above(target: Path, n: nat): (r: set<Path>)
    ensures forall p :: p in r <==> p < target && |p| < n
  {
    var r := set i | 0 <= i < |target| && i < n :: target[..i];
    assert forall p :: p < target ==> p == target[..|p|];
    r
  }

  class Volume {
    var tree: Tree

    constructor (tree: Tree)
      ensures this.tree == tree
    {
      this.tree := tree;
    }

    /** `rmtree`. */
    method RemoveTree(root: Path, call: RemoveCall) returns (r: Fault)
      requires call.Proper()
      modifies this
      ensures SameOutside(tree, old(tree), root)
      ensures forall p :: p in tree ==> p in old(tree) && tree[p] == old(tree)[p]
      ensures r.Fine? <==> NodeAt(old(tree), root) == Some(Directory) && call.RemovedAll?
      ensures r.Fine? ==> NothingWithin(tree, root)
      ensures NodeAt(old(tree), root) != Some(Directory) ==> tree == old(tree)
      ensures NodeAt(old(tree), root) == Some(Directory) && call.RemoveFailed? ==>
        r == call.fault
        && forall p :: NodeAt(tree, p) == if Within(p, root) && p in call.gone then None else NodeAt(old(tree), p)
    {
      if NodeAt(tree, root) != Some(Directory) {
        return OsFault;
      }
      if call.RemoveFailed? {
        tree := map p | p in tree && !(Within(p, root) && p in call.gone) :: tree[p];
        return call.fault;
      }
      tree := Without(tree, root);
      return Fine;
    }

    /** `unlink`. */
    method Unlink(p: Path, call: Fault) returns (r: Fault)
      requires p in tree && tree[p].File?
      modifies this
      ensures r == call
      ensures tree == if call.Fine? then old(tree) - {p} else old(tree)
    {
      if call.Fine? {
        tree := tree - {p};
      }
      return call;
    }

    /** `mkdir(parents=True, exist_ok=True)` of the directory that holds `target`. */
    method MakeParents(target: Path, call: Fault, made: nat) returns (r: Fault)
      modifies this
      ensures r.Fine? <==> call.Fine? && forall p :: p < target && p in old(tree) ==> old(tree)[p].Directory?
      ensures forall p ::
                NodeAt(tree, p) == NodeAt(old(tree), p)
                || (p < target && p !in old(tree) && NodeAt(tree, p) == Some(Directory))
      ensures forall p, q :: q < p && p in tree && p !in old(tree) ==> NodeAt(tree, q) == Some(Directory)
      ensures r.Fine? ==> forall p :: NodeAt(tree, p) == if p < target then Some(Directory) else NodeAt(old(tree), p)
    {
      if exists i | 0 <= i < |target| :: target[..i] in tree && !tree[target[..i]].Directory? {
        return OsFault;
      }
      if !call.Fine? {
        tree := Parents(target, made) + tree;
        return call;
      }
      assert forall p :: p < target ==> 0 <= |p| < |target| && p == target[..|p|];
      tree := Parents(target, |target|) + tree;
      return Fine;
    }

    /** Opening a file for writing and filling it. */
    method WriteFile(target: Path, content: string, call: WriteCall) returns (r: Fault)
      requires call.WriteFailed? ==> !call.fault.Fine?
      modifies this
      ensures r.Fine? <==> call.Wrote? && NodeAt(old(tree), target) != Some(Directory)
      ensures r.Fine? ==> tree == old(tree)[target := File(content)]
      ensures tree == old(tree)
        || (NodeAt(old(tree), target) != Some(Directory) && exists c :: tree == old(tree)[target := File(c)])
    {
      if NodeAt(tree, target) == Some(Directory) {
        return OsFault;
      }
      if call.WriteFailed? {
        if call.created {
          tree := tree[target := File(call.torn)];
        }
        return call.fault;
      }
      tree := tree[target := File(content)];
      return Fine;
    }

    /** `shutil.move` to a name that nothing holds. */
    method Move(from: Path, to: Path, call: MoveCall) returns (r: Fault)
      requires call.Proper() && NothingWithin(tree, to)
      modifies this
      ensures r.Fine? <==> !Within(to, from) && call.MovedAll?
      ensures r.Fine? ==> forall p :: NodeAt(tree, p) == Relocated(old(tree), from, to, p)
      ensures !r.Fine? ==> SameOutside(tree, old(tree), to)
      ensures Within(to, from) ==> tree == old(tree)
      ensures !Within(to, from) && call.MoveFailed? ==>
        forall p :: Within(p, to) ==> NodeAt(tree, p) == NodeAt(call.part, p)
    {
      if Within(to, from) {
        return OsFault;
      }
      if call.MoveFailed? {
        tree := tree + map p | p in call.part && Within(p, to) :: call.part[p];
        return call.fault;
      }
      tree := Moved(tree, from, to);
      return Fine;
    }
  }
}
