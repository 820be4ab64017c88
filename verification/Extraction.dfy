/** Extracting a downloaded source archive beside its destination and swapping it in
    (source.py). */
module Extraction {
  import opened Disk
  import opened Folders
  import opened Outcomes
  import opened Text

  // ------------------------------------------------------- names

  function SlashAt(s: string): (i: nat)
    ensures i <= |s| && (i < |s| ==> s[i] == '/') && forall k :: 0 <= k < i ==> s[k] != '/'
  {
    if s == "" || s[0] == '/' then 0 else 1 + SlashAt(s[1..])
  }

  /** `s.split("/")`. */
  function Segments(s: string): (r: seq<string>)
    ensures r != [] && '/' !in r[0]
    decreases |s|
  {
    var i := SlashAt(s);
    if i == |s| then [s] else [s[..i]] + Segments(s[i + 1..])
  }

  /** The parts a pure path keeps: empty segments and dots are dropped. */
  function KeepParts(segments: seq<string>): seq<string> {
    if segments == [] then []
    else (if segments[0] == "" || segments[0] == "." then [] else [segments[0]]) + KeepParts(segments[1..])
  }

  function Parts(name: string): seq<string> { KeepParts(Segments(name)) }

  function Step(base: Path, part: string): Path {
    if part != ".." then base + [part] else if base == [] then [] else base[..|base| - 1]
  }

  /** `(base / name).resolve()` where no link is in the way. */
  function Resolve(base: Path, parts: seq<string>): Path
    decreases |parts|
  {
    if parts == [] then base else Resolve(Step(base, parts[0]), parts[1..])
  }

  // ------------------------------------------------------- which members are wanted

  const EXCLUDED: set<string> := {
    ".git", ".env", ".env.local", ".env.development", ".env.production", ".env.preview", ".npmrc", ".pypirc",
    ".vercel", ".fusekit", "node_modules", "__pycache__", ".cache", ".turbo", ".parcel-cache", ".vite",
    ".nyc_output", "coverage", ".pytest_cache", ".ruff_cache", ".mypy_cache"}

  predicate EndsWithAny(s: string, suffixes: seq<string>) {
    exists i | 0 <= i < |suffixes| :: EndsWith(s, suffixes[i])
  }

  /** `_should_extract_source_path`. */
  predicate ShouldExtract(path: seq<string>) {
    && (forall i :: 0 <= i < |path| ==> Lower(path[i]) !in EXCLUDED)
    && IsSafeName(Lower(if path == [] then "" else path[|path| - 1]))
  }

  predicate IsSafeName(name: string) {
    && !StartsWith(name, ".env.")
    && !EndsWith(name, ".tsbuildinfo")
    && name !in {"id_rsa", "id_ed25519", "id_ecdsa", "credentials.json"}
    && !EndsWithAny(name, [".vault", ".vault.json", ".pem", ".key", ".p12", ".pfx"])
    && !((Contains(name, "secret") || Contains(name, "credential") || Contains(name, "private_key"))
         && EndsWithAny(name, [".json", ".txt", ".env", ".yaml", ".yml"]))
  }

  // ------------------------------------------------------- the archive

  /** `special` marks links, devices, pipes and sockets. */
  datatype Member = Member(name: string, content: string, special: bool)

  predicate IsDirectory(m: Member) { EndsWith(m.name, "/") }

  /** `_validate_zip_member`. */
  predicate ValidMember(m: Member) {
    m.name != "" && '\0' !in m.name && '\\' !in m.name && m.name[0] != '/' && m.name[0] != '~' && !m.special
  }

  function FilesOf(members: seq<Member>): (r: seq<Member>)
    ensures forall m :: m in r ==> m in members
  {
    if members == [] then [] else (if IsDirectory(members[0]) then [] else [members[0]]) + FilesOf(members[1..])
  }

  function RootOf(files: seq<Member>): string
    requires files != []
  {
    Segments(files[0].name)[0]
  }

  /** `PurePosixPath(name).relative_to(root)`. */
  function Relative(name: string, root: string): seq<string> {
    var parts := Parts(name);
    if |KeepParts([root])| <= |parts| then parts[|KeepParts([root])|..] else []
  }

  function Kept(files: seq<Member>, root: string): (r: seq<Member>)
    ensures forall m :: m in r ==> m in files && ShouldExtract(Relative(m.name, root))
  {
    if files == [] then []
    else (if ShouldExtract(Relative(files[0].name, root)) then [files[0]] else []) + Kept(files[1..], root)
  }

  datatype Plan = Plan(root: string, kept: seq<Member>)

  /** Everything that is checked before the first write. */
  function PlanOf(parent: Path, members: seq<Member>): (r: Outcome<Plan>)
    ensures r.Returned? ==> r.value.kept != [] && forall m :: m in r.value.kept ==>
      StartsWith(m.name, r.value.root + "/")
    ensures r.Returned? ==> forall m :: m in r.value.kept ==> ShouldExtract(Relative(m.name, r.value.root))
    ensures r.Returned? ==> '/' !in r.value.root
    ensures r.Raised? ==> r.fault.FuseKitFault?
  {
    var files := FilesOf(members);
    if exists m | m in members :: !ValidMember(m) then Raised(FuseKitFault("unsafe paths or file types"))
    else if files == [] then Raised(FuseKitFault("archive was empty"))
    else
      var root := RootOf(files);
      if exists m | m in files :: !StartsWith(m.name, root + "/") then Raised(FuseKitFault("unexpected layout"))
      else if exists m | m in files :: !Within(Resolve(parent, Parts(m.name)), parent)
        then Raised(FuseKitFault("unsafe paths"))
      else if Kept(files, root) == [] then Raised(FuseKitFault("no includable app files"))
      else Returned(Plan(root, Kept(files, root)))
  }

  // ------------------------------------------------------- what a complete extraction holds

  function TargetOf(staging: Path, m: Member): Path { Resolve(staging, Parts(m.name)) }

  /** What the last of the first `k` members that go to `q` holds. */
  function LastWriter(staging: Path, kept: seq<Member>, k: nat, q: Path): (r: Option<string>)
    requires k <= |kept|
    ensures r.Some? <==> exists j :: 0 <= j < k && TargetOf(staging, kept[j]) == q
  {
    if k == 0 then None
    else if TargetOf(staging, kept[k - 1]) == q then Some(kept[k - 1].content)
    else LastWriter(staging, kept, k - 1, q)
  }

  /** One of the first `k` members lies below `q`. */
  ghost predicate Covers(staging: Path, kept: seq<Member>, k: nat, q: Path)
    requires k <= |kept|
  {
    exists j :: 0 <= j < k && q < TargetOf(staging, kept[j])
  }

  /** What should be at `q` after the first `k` members, given what was there before. */
  ghost function Expected(before: Tree, staging: Path, kept: seq<Member>, k: nat, q: Path): Option<Node>
    requires k <= |kept|
  {
    var writer := LastWriter(staging, kept, k, q);
    if writer.Some? then Some(File(writer.value))
    else if Covers(staging, kept, k, q) then Some(Directory)
    else NodeAt(before, q)
  }

  ghost predicate LaidOut(tree: Tree, before: Tree, staging: Path, kept: seq<Member>, k: nat)
    requires k <= |kept|
  {
    forall q :: NodeAt(tree, q) == Expected(before, staging, kept, k, q)
  }

  /** Outside `staging` the trees differ at most by directories above it that were missing. */
  ghost predicate OnlyParentsAdded(tree: Tree, before: Tree, staging: Path) {
    forall q :: !Within(q, staging) ==>
      NodeAt(tree, q) == NodeAt(before, q) || (q < staging && q !in before && NodeAt(tree, q) == Some(Directory))
  }

  /** Nothing lies below `root` unless `root` is a directory. */
  ghost predicate Rooted(tree: Tree, root: Path) {
    forall q :: root < q && q in tree ==> NodeAt(tree, root) == Some(Directory)
  }

  // ------------------------------------------------------- the extraction

  datatype ExtractCalls = ExtractCalls(
    clear: RemoveCall, mkdir: nat -> Fault, made: nat -> nat, write: nat -> WriteCall,
    clearDest: RemoveCall, move: MoveCall, sweep: RemoveCall)
  {
    ghost predicate Proper() {
      && clear.Proper() && clearDest.Proper() && move.Proper() && sweep.Proper()
      && forall i: nat :: write(i).WriteFailed? ==> !write(i).fault.Fine?
    }

    /** No call fails of itself; what clashes on disk may still make one fail. */
    ghost predicate AllFine() {
      && clear.RemovedAll? && clearDest.RemovedAll? && move.MovedAll? && sweep.RemovedAll?
      && forall i: nat :: mkdir(i).Fine? && write(i).Wrote?
    }
  }

  function DestOf(parent: Path, name: string): Path { parent + [name] }

  function StagingOf(parent: Path, name: string): Path { parent + [name + ".download"] }

  /** `staging / root`. */
  function RootPath(staging: Path, root: string): Path { Resolve(staging, KeepParts([root])) }

  lemma PrefixesCompare(p: Path, q: Path, t: Path)
    requires p <= t && q <= t
    ensures p <= q || q <= p
  {
    assert |p| <= |q| ==> p == t[..|p|] == q[..|p|];
    assert |q| <= |p| ==> q == t[..|q|] == p[..|q|];
  }

  ghost predicate IsFileAt(tree: Tree, p: Path) { p in tree && tree[p].File? }

  /** No file stands where a directory above `p` is needed. */
  ghost predicate ClearAbove(tree: Tree, p: Path) { forall q :: q < p && q in tree ==> tree[q].Directory? }

  /** Placing a member makes no directory of a file at `staging`, nor a file of a directory,
      and makes a new file there only for a member that goes there. */
  ghost predicate StagingStep(after: Tree, tree: Tree, staging: Path, target: Path) {
    && (NodeAt(tree, staging) == Some(Directory) ==> NodeAt(after, staging) == Some(Directory))
    && (target != staging && !IsFileAt(tree, staging) ==> !IsFileAt(after, staging))
    && (IsFileAt(tree, staging) ==> IsFileAt(after, staging))
  }

  /** What `staging` is after the first `k` members. */
  ghost predicate StagingKind(tree: Tree, staging: Path, kept: seq<Member>, k: nat)
    requires k <= |kept|
  {
    && (k == 0 ==> NodeAt(tree, staging) == None)
    && (k > 0 && TargetOf(staging, kept[0]) != staging ==> NodeAt(tree, staging) == Some(Directory))
    && (k > 0 && TargetOf(staging, kept[0]) == staging ==> IsFileAt(tree, staging))
  }

  /** The state once a member is in place. */
  ghost predicate Placed(after: Tree, tree: Tree, target: Path, content: string) {
    && (forall p :: p < target && p in tree ==> tree[p].Directory?)
    && forall p :: NodeAt(after, p) == if p == target then Some(File(content)) else if p < target then Some(Directory)
      else NodeAt(tree, p)
  }

  /** A file can be made at `target`: no file stands above it and no directory in its place. */
  ghost predicate Fits(tree: Tree, target: Path) { ClearAbove(tree, target) && NodeAt(tree, target) != Some(Directory) }

  /** `mkdir` of the parents, then the write, of one member. */
  method Place(volume: Volume, staging: Path, target: Path, content: string, mkdir: Fault, made: nat, write: WriteCall)
    returns (r: Fault)
    requires (write.WriteFailed? ==> !write.fault.Fine?) && Within(target, staging) && Rooted(volume.tree, staging)
    modifies volume
    ensures OnlyParentsAdded(volume.tree, old(volume.tree), staging) && Rooted(volume.tree, staging)
    ensures r.Fine? ==> Placed(volume.tree, old(volume.tree), target, content)
    ensures r.Fine? <==> mkdir.Fine? && write.Wrote? && Fits(old(volume.tree), target)
    ensures StagingStep(volume.tree, old(volume.tree), staging, target)
  {
    ghost var tree := volume.tree;
    r := volume.MakeParents(target, mkdir, made);
    ghost var mid := volume.tree;
    ParentsOnly(mid, tree, staging, target);
    if !r.Fine? {
      return;
    }
    assert staging == target || staging < target;
    assert staging < target ==> NodeAt(mid, staging) == Some(Directory);
    hide OnlyParentsAdded;
    r := volume.WriteFile(target, content, write);
    assert r.Fine? ==> volume.tree == mid[target := File(content)] && forall p :: p != target ==>
      NodeAt(volume.tree, p) == NodeAt(mid, p);
    WrittenInside(volume.tree, mid, tree, staging, target);
  }

  lemma ParentsOnly(mid: Tree, tree: Tree, staging: Path, target: Path)
    requires Within(target, staging) && Rooted(tree, staging)
    requires forall p ::
               NodeAt(mid, p) == NodeAt(tree, p) || (p < target && p !in tree && NodeAt(mid, p) == Some(Directory))
    requires forall p, q :: q < p && p in mid && p !in tree ==> NodeAt(mid, q) == Some(Directory)
    ensures OnlyParentsAdded(mid, tree, staging) && Rooted(mid, staging)
  {
    forall q | !Within(q, staging) && q < target ensures q < staging {
      PrefixesCompare(q, staging, target);
    }
    forall q | staging < q && q in mid ensures NodeAt(mid, staging) == Some(Directory) {
      assert q in tree ==> NodeAt(tree, staging) == Some(Directory);
    }
  }

  lemma WrittenInside(after: Tree, mid: Tree, before: Tree, staging: Path, target: Path)
    requires Within(target, staging) && OnlyParentsAdded(mid, before, staging) && Rooted(mid, staging)
    requires after == mid || (exists c :: after == mid[target := File(c)])
    requires target == staging ==> after == mid || NodeAt(mid, staging) != Some(Directory)
    requires target != staging ==> NodeAt(mid, staging) == Some(Directory)
    ensures OnlyParentsAdded(after, before, staging) && Rooted(after, staging)
  {
  }

  lemma StepLaysOut(after: Tree, tree: Tree, before: Tree, staging: Path, kept: seq<Member>, k: nat)
    requires k < |kept| && LaidOut(tree, before, staging, kept, k)
    requires Placed(after, tree, TargetOf(staging, kept[k]), kept[k].content)
    ensures LaidOut(after, before, staging, kept, k + 1)
  {
    var target := TargetOf(staging, kept[k]);
    hide TargetOf;
    forall q ensures NodeAt(after, q) == Expected(before, staging, kept, k + 1, q) {
      assert NodeAt(tree, q) == Expected(before, staging, kept, k, q);
      assert Covers(staging, kept, k + 1, q) <==> Covers(staging, kept, k, q) || q < target;
    }
  }

  lemma ParentsAddUp(after: Tree, tree: Tree, before: Tree, staging: Path)
    requires OnlyParentsAdded(tree, before, staging) && OnlyParentsAdded(after, tree, staging)
    ensures OnlyParentsAdded(after, before, staging)
  {
  }

  lemma StagingStays(after: Tree, tree: Tree, staging: Path, kept: seq<Member>, k: nat)
    requires k < |kept| && StagingKind(tree, staging, kept, k)
      && StagingStep(after, tree, staging, TargetOf(staging, kept[k]))
    ensures TargetOf(staging, kept[0]) != staging ==> !IsFileAt(after, staging)
    ensures TargetOf(staging, kept[0]) == staging && k > 0 ==> IsFileAt(after, staging)
  {
    hide TargetOf;
  }

  lemma StagingMoves(after: Tree, tree: Tree, staging: Path, kept: seq<Member>, k: nat)
    requires k < |kept| && StagingKind(tree, staging, kept, k)
      && StagingStep(after, tree, staging, TargetOf(staging, kept[k]))
    requires Placed(after, tree, TargetOf(staging, kept[k]), kept[k].content)
      && Within(TargetOf(staging, kept[k]), staging)
    ensures StagingKind(after, staging, kept, k + 1)
  {
    var target := TargetOf(staging, kept[k]);
    hide TargetOf;
    assert target != staging ==> staging < target;
    assert k == 0 ==>
      NodeAt(after, staging) == if target == staging then Some(File(kept[0].content)) else Some(Directory);
  }

  /** The loop invariant. */
  ghost predicate Progress(tree: Tree, before: Tree, staging: Path, kept: seq<Member>, k: nat)
    requires k <= |kept|
  {
    && LaidOut(tree, before, staging, kept, k) && OnlyParentsAdded(tree, before, staging) && Rooted(tree, staging)
    && (forall i :: 0 <= i < k ==> Within(TargetOf(staging, kept[i]), staging))
    && StagingKind(tree, staging, kept, k)
  }

  /** What also holds when a member could not be placed. */
  ghost predicate Contained(tree: Tree, before: Tree, staging: Path, kept: seq<Member>)
    requires kept != []
  {
    && OnlyParentsAdded(tree, before, staging) && Rooted(tree, staging)
    && (TargetOf(staging, kept[0]) != staging ==> !IsFileAt(tree, staging))
  }

  /** One round of the loop. */
  method PlaceNext(volume: Volume, ghost before: Tree, staging: Path, kept: seq<Member>, k: nat, mkdir: Fault,
      made: nat, write: WriteCall)
    returns (r: Fault)
    requires (write.WriteFailed? ==> !write.fault.Fine?) && k < |kept|
      && Progress(volume.tree, before, staging, kept, k)
    modifies volume
    ensures Contained(volume.tree, before, staging, kept)
    ensures r.Fine? ==> Progress(volume.tree, before, staging, kept, k + 1)
    ensures var target := TargetOf(staging, kept[k]);
            r.Fine? <==> Within(target, staging) && mkdir.Fine? && write.Wrote? && Fits(old(volume.tree), target)
    ensures TargetOf(staging, kept[0]) == staging && k > 0 ==> IsFileAt(volume.tree, staging)
  {
    hide TargetOf, LastWriter, LaidOut, OnlyParentsAdded, Rooted, Placed, StagingStep, IsFileAt, Fits;
    var target := TargetOf(staging, kept[k]);
    if !Within(target, staging) {
      NeverLeavesFirst(volume.tree, staging, kept, k);
      return FuseKitFault("unsafe paths");
    }
    ghost var tree := volume.tree;
    r := Place(volume, staging, target, kept[k].content, mkdir, made, write);
    ParentsAddUp(volume.tree, tree, before, staging);
    StagingStays(volume.tree, tree, staging, kept, k);
    if r.Fine? {
      StepLaysOut(volume.tree, tree, before, staging, kept, k);
      StagingMoves(volume.tree, tree, staging, kept, k);
    }
  }

  lemma NeverLeavesFirst(tree: Tree, staging: Path, kept: seq<Member>, k: nat)
    requires k < |kept| && StagingKind(tree, staging, kept, k) && !Within(TargetOf(staging, kept[k]), staging)
    ensures TargetOf(staging, kept[0]) != staging ==> !IsFileAt(tree, staging)
    ensures TargetOf(staging, kept[0]) == staging ==> IsFileAt(tree, staging) && k > 0
  {
    hide TargetOf;
  }

  lemma StartOfProgress(tree: Tree, staging: Path, kept: seq<Member>)
    requires NothingWithin(tree, staging) && kept != []
    ensures Progress(tree, tree, staging, kept, 0) && Contained(tree, tree, staging, kept)
  {
    assert NodeAt(tree, staging) == None;
  }

  /** No two of the first `k` members clash: none needs a directory where another is a file. */
  ghost predicate Clashless(staging: Path, kept: seq<Member>, k: nat)
    requires k <= |kept|
  {
    forall i, j :: 0 <= i < k && 0 <= j < k ==> !(TargetOf(staging, kept[i]) < TargetOf(staging, kept[j]))
  }

  ghost predicate AllInside(staging: Path, kept: seq<Member>) {
    forall i :: 0 <= i < |kept| ==> Within(TargetOf(staging, kept[i]), staging)
  }

  ghost predicate CallsWork(calls: ExtractCalls, k: nat) {
    forall i: nat :: i < k ==> calls.mkdir(i).Fine? && calls.write(i).Wrote?
  }

  /** A member that goes below staging fits exactly when it clashes with none before it. */
  lemma FitsWithoutClash(tree: Tree, before: Tree, staging: Path, kept: seq<Member>, k: nat)
    requires k < |kept| && LaidOut(tree, before, staging, kept, k)
    requires NothingWithin(before, staging) && ClearAbove(before, staging)
    requires Clashless(staging, kept, k) && Within(TargetOf(staging, kept[k]), staging)
    ensures Fits(tree, TargetOf(staging, kept[k])) <==> Clashless(staging, kept, k + 1)
  {
    hide TargetOf;
    var target := TargetOf(staging, kept[k]);
    if Fits(tree, target) {
      forall i | 0 <= i < k
        ensures !(TargetOf(staging, kept[i]) < target) && !(target < TargetOf(staging, kept[i]))
      {
        var t := TargetOf(staging, kept[i]);
        assert NodeAt(tree, t) == Expected(before, staging, kept, k, t);
        assert NodeAt(tree, target) == Expected(before, staging, kept, k, target);
      }
    }
    if Clashless(staging, kept, k + 1) {
      forall p | p < target && p in tree ensures tree[p].Directory? {
        assert NodeAt(tree, p) == Expected(before, staging, kept, k, p);
        if !Within(p, staging) {
          PrefixesCompare(p, staging, target);
        }
      }
      assert NodeAt(tree, target) == Expected(before, staging, kept, k, target);
      assert NodeAt(before, target) == None;
    }
  }

  /** The loop over the members. */
  method LayOut(volume: Volume, staging: Path, kept: seq<Member>, calls: ExtractCalls) returns (r: Fault, k: nat)
    requires calls.Proper() && NothingWithin(volume.tree, staging) && kept != []
    modifies volume
    ensures k <= |kept| && (r.Fine? ==> k == |kept|)
    ensures r.Fine? ==> Progress(volume.tree, old(volume.tree), staging, kept, |kept|)
    ensures Contained(volume.tree, old(volume.tree), staging, kept)
    ensures CallsWork(calls, k)
    // every member is laid out exactly when they all stay inside, no two clash and no call fails
    ensures ClearAbove(old(volume.tree), staging) ==>
      (r.Fine? <==> CallsWork(calls, |kept|) && AllInside(staging, kept) && Clashless(staging, kept, |kept|))
    ensures TargetOf(staging, kept[0]) == staging && calls.AllFine() && ClearAbove(old(volume.tree), staging) ==>
              IsFileAt(volume.tree, staging)
  {
    hide Contained, TargetOf, ClearAbove, IsFileAt, LaidOut, OnlyParentsAdded, Rooted, StagingKind, Fits;
    ghost var before := volume.tree;
    StartOfProgress(before, staging, kept);
    k := 0;
    while k < |kept|
      invariant k <= |kept|
      invariant Progress(volume.tree, before, staging, kept, k) && Contained(volume.tree, before, staging, kept)
      invariant CallsWork(calls, k)
      invariant k == 0 ==> volume.tree == before
      invariant ClearAbove(before, staging) ==> Clashless(staging, kept, k)
    {
      hide Progress, Clashless, AllInside, CallsWork;
      LayOutRound(volume.tree, before, staging, kept, k, calls);
      r := PlaceNext(volume, before, staging, kept, k, calls.mkdir(k), calls.made(k), calls.write(k));
      if !r.Fine? {
        if k == 0 && ClearAbove(before, staging) {
          FirstFits(before, staging);
        }
        return;
      }
      k := k + 1;
    }
    assert AllInside(staging, kept);
    ProgressEnds(volume.tree, before, staging, kept);
    r := Fine;
  }

  /** How one round bears on the outcome of the loop. */
  lemma LayOutRound(tree: Tree, before: Tree, staging: Path, kept: seq<Member>, k: nat, calls: ExtractCalls)
    requires k < |kept| && Progress(tree, before, staging, kept, k) && NothingWithin(before, staging)
    requires ClearAbove(before, staging) ==> Clashless(staging, kept, k)
    requires CallsWork(calls, k)
    ensures var target := TargetOf(staging, kept[k]);
            var works := calls.mkdir(k).Fine? && calls.write(k).Wrote?;
            && (works ==> CallsWork(calls, k + 1)) && (!works ==> !CallsWork(calls, |kept|))
            && (!Within(target, staging) ==> !AllInside(staging, kept))
            && (ClearAbove(before, staging) && Within(target, staging) ==>
                  if Fits(tree, target) then Clashless(staging, kept, k + 1) else !Clashless(staging, kept, |kept|))
  {
    hide TargetOf, LaidOut, OnlyParentsAdded, Rooted, StagingKind, Fits, ClearAbove;
    if ClearAbove(before, staging) && Within(TargetOf(staging, kept[k]), staging) {
      FitsWithoutClash(tree, before, staging, kept, k);
    }
  }

  lemma FirstFits(before: Tree, staging: Path)
    requires ClearAbove(before, staging) && NothingWithin(before, staging)
    ensures Fits(before, staging) && Within(staging, staging)
  {
  }

  lemma ProgressEnds(tree: Tree, before: Tree, staging: Path, kept: seq<Member>)
    requires kept != [] && Progress(tree, before, staging, kept, |kept|)
    ensures TargetOf(staging, kept[0]) == staging ==> IsFileAt(tree, staging)
  {
    hide TargetOf;
  }

  // ------------------------------------------------------- the swap

  /** What a whole extraction puts at `q`. */
  ghost function Arrived(staging: Path, kept: seq<Member>, q: Path): Option<Node> {
    var writer := LastWriter(staging, kept, |kept|, q);
    if writer.Some? then Some(File(writer.value))
    else if Covers(staging, kept, |kept|, q) then Some(Directory)
    else None
  }

  /** What a failed swap leaves within the destination: the old tree, when it is a file; what
      a failed deletion had not reached; or what a failed move had copied. */
  ghost function AfterFailedSwap(before: Tree, dest: Path, from: Path, calls: ExtractCalls, p: Path): Option<Node> {
    if dest in before && !before[dest].Directory? then NodeAt(before, p)
    else if dest in before && calls.clearDest.RemoveFailed? then
      if p in calls.clearDest.gone then None else NodeAt(before, p)
    else if Within(dest, from) || calls.move.MovedAll? then None
    else NodeAt(calls.move.part, p)
  }

  ghost predicate LeftByFailedSwap(tree: Tree, before: Tree, dest: Path, from: Path, calls: ExtractCalls) {
    forall p :: Within(p, dest) ==> NodeAt(tree, p) == AfterFailedSwap(before, dest, from, calls, p)
  }

  /** The swap loses the destination that was there: its deletion goes through and the move
      fails with nothing copied, or the deletion fails with nothing left. */
  ghost predicate SwapLoses(before: Tree, dest: Path, from: Path, calls: ExtractCalls)
    requires dest in before
  {
    && before[dest].Directory?
    && if calls.clearDest.RemoveFailed? then forall p :: p in before && Within(p, dest) ==> p in calls.clearDest.gone
       else Within(dest, from) || (calls.move.MoveFailed? && NothingWithin(calls.move.part, dest))
  }

  lemma LostExactly(tree: Tree, before: Tree, dest: Path, from: Path, calls: ExtractCalls)
    requires LeftByFailedSwap(tree, before, dest, from, calls) && dest in before
    requires !before[dest].Directory? || calls.clearDest.RemoveFailed? || Within(dest, from) || calls.move.MoveFailed?
    ensures NothingWithin(tree, dest) <==> SwapLoses(before, dest, from, calls)
  {
    if NothingWithin(tree, dest) {
      forall p | Within(p, dest) ensures AfterFailedSwap(before, dest, from, calls, p) == None {
        assert NodeAt(tree, p) == None;
      }
      assert Within(dest, dest);
    } else {
      var p :| Within(p, dest) && p in tree;
      assert NodeAt(tree, p) == AfterFailedSwap(before, dest, from, calls, p);
    }
  }

  /** Removing the destination and moving the extracted root to it. */
  method SwapIn(volume: Volume, from: Path, dest: Path, calls: ExtractCalls) returns (r: Fault)
    requires calls.Proper() && Rooted(volume.tree, dest)
    modifies volume
    ensures SameOutside(volume.tree, old(volume.tree), dest) || r.Fine?
    ensures r.Fine? <==> !Within(dest, from) && calls.move.MovedAll?
                         && (dest in old(volume.tree) ==>
                           old(volume.tree)[dest].Directory? && calls.clearDest.RemovedAll?)
    ensures r.Fine? ==>
      !Within(dest, from)
        && forall p :: NodeAt(volume.tree, p) == Relocated(Without(old(volume.tree), dest), from, dest, p)
    ensures !r.Fine? ==> LeftByFailedSwap(volume.tree, old(volume.tree), dest, from, calls)
  {
    ghost var start := volume.tree;
    assert forall p :: Within(p, dest) ==> p == dest || dest < p;
    if dest in volume.tree {
      r := volume.RemoveTree(dest, calls.clearDest);
      if !r.Fine? {
        return;
      }
    }
    ghost var removed := volume.tree;
    assert forall p :: NodeAt(removed, p) == NodeAt(Without(start, dest), p) by {
      assert forall p :: Within(p, dest) ==> NodeAt(removed, p) == None;
    }
    r := volume.Move(from, dest, calls.move);
  }

  /** `staging / root` is within staging, or is the directory above it. */
  lemma RootPathCases(parent: Path, name: string, root: string)
    ensures var from := RootPath(StagingOf(parent, name), root);
            Within(from, StagingOf(parent, name)) || (from == parent && Within(DestOf(parent, name), from))
  {
    var staging := StagingOf(parent, name);
    assert [root][1..] == [];
    assert KeepParts([root]) == if root == "" || root == "." then [] else [root];
    assert Step(staging, "..") == parent;
    assert Resolve(staging, [root]) == Resolve(Step(staging, root), [root][1..]);
  }

  lemma SiblingsAreApart(parent: Path, name: string, p: Path)
    ensures !(Within(p, DestOf(parent, name)) && Within(p, StagingOf(parent, name)))
    ensures !Within(DestOf(parent, name), StagingOf(parent, name))
      && !Within(StagingOf(parent, name), DestOf(parent, name))
    ensures p < StagingOf(parent, name) ==> !Within(p, DestOf(parent, name))
  {
    var dest, staging := DestOf(parent, name), StagingOf(parent, name);
    assert name != name + ".download" by { assert |name| != |name + ".download"|; }
    assert dest[|parent|] == name && staging[|parent|] == name + ".download";
    assert Within(p, dest) ==> p[|parent|] == name;
    assert Within(p, staging) ==> p[|parent|] == name + ".download";
    assert p < staging ==> |p| <= |parent|;
  }

  /** Outside the two siblings nothing changes, but for missing directories above them. */
  ghost predicate Untouched(tree: Tree, before: Tree, parent: Path, name: string) {
    forall q :: !Within(q, DestOf(parent, name)) && !Within(q, StagingOf(parent, name)) ==>
      NodeAt(tree, q) == NodeAt(before, q)
      || (q < StagingOf(parent, name) && q !in before && NodeAt(tree, q) == Some(Directory))
  }

  /** The destination holds the extracted tree and nothing else. */
  ghost predicate Delivered(tree: Tree, dest: Path, staging: Path, plan: Plan) {
    forall p :: NodeAt(tree, dest + p) == Arrived(staging, plan.kept, RootPath(staging, plan.root) + p)
  }

  lemma DeliveredByMove(after: Tree, laid: Tree, before: Tree, parent: Path, name: string, plan: Plan)
    requires plan.kept != [] && NothingWithin(before, StagingOf(parent, name))
    requires LaidOut(laid, before, StagingOf(parent, name), plan.kept, |plan.kept|)
    requires var from := RootPath(StagingOf(parent, name), plan.root);
             && Within(from, StagingOf(parent, name))
             && forall p ::
                  NodeAt(after, p) == Relocated(Without(laid, DestOf(parent, name)), from, DestOf(parent, name), p)
    ensures Delivered(after, DestOf(parent, name), StagingOf(parent, name), plan)
  {
    hide RootPath, StagingOf, DestOf, LastWriter, Covers;
    var staging, dest := StagingOf(parent, name), DestOf(parent, name);
    var from := RootPath(staging, plan.root);
    forall p ensures NodeAt(after, dest + p) == Arrived(staging, plan.kept, from + p) {
      var q := dest + p;
      assert Within(q, dest) && q[|dest|..] == p;
      assert Within(from + p, staging);
      SiblingsAreApart(parent, name, from + p);
      assert NodeAt(laid, from + p) == Expected(before, staging, plan.kept, |plan.kept|, from + p);
      assert from + p !in before;
    }
  }

  lemma FrameOfLayOut(laid: Tree, before: Tree, parent: Path, name: string)
    requires OnlyParentsAdded(laid, before, StagingOf(parent, name)) && Rooted(before, DestOf(parent, name))
    ensures Untouched(laid, before, parent, name) && SameWithin(laid, before, DestOf(parent, name))
      && Rooted(laid, DestOf(parent, name))
  {
    hide StagingOf, DestOf;
    var dest := DestOf(parent, name);
    forall p | Within(p, dest) ensures NodeAt(laid, p) == NodeAt(before, p) {
      SiblingsAreApart(parent, name, p);
    }
    assert NodeAt(laid, dest) == NodeAt(before, dest);
    forall q | dest < q && q in laid ensures NodeAt(laid, dest) == Some(Directory) {
      assert NodeAt(laid, q) == NodeAt(before, q);
    }
  }

  lemma FailedSwapKeeps(after: Tree, laid: Tree, before: Tree, parent: Path, name: string)
    requires Untouched(laid, before, parent, name) && SameOutside(after, laid, DestOf(parent, name))
    requires Rooted(laid, StagingOf(parent, name))
    ensures Untouched(after, before, parent, name) && Rooted(after, StagingOf(parent, name))
    ensures IsFileAt(after, StagingOf(parent, name)) <==> IsFileAt(laid, StagingOf(parent, name))
  {
    hide StagingOf, DestOf;
    var staging := StagingOf(parent, name);
    forall q | Within(q, staging) ensures NodeAt(after, q) == NodeAt(laid, q) {
      SiblingsAreApart(parent, name, q);
    }
    assert NodeAt(after, staging) == NodeAt(laid, staging);
    forall q | staging < q && q in after ensures NodeAt(after, staging) == Some(Directory) {
      assert NodeAt(after, q) == NodeAt(laid, q);
    }
  }

  lemma MoveKeeps(after: Tree, laid: Tree, before: Tree, parent: Path, name: string, from: Path)
    requires Untouched(laid, before, parent, name) && Rooted(laid, StagingOf(parent, name))
    requires Within(from, StagingOf(parent, name))
    requires forall p ::
               NodeAt(after, p) == Relocated(Without(laid, DestOf(parent, name)), from, DestOf(parent, name), p)
    ensures Untouched(after, before, parent, name) && Rooted(after, StagingOf(parent, name))
    ensures IsFileAt(after, StagingOf(parent, name)) <==>
      from != StagingOf(parent, name) && IsFileAt(laid, StagingOf(parent, name))
  {
    hide StagingOf, DestOf;
    var staging, dest := StagingOf(parent, name), DestOf(parent, name);
    forall q | !Within(q, dest) && !Within(q, staging) ensures NodeAt(after, q) == NodeAt(laid, q) {
      assert !Within(q, from);
    }
    forall q | Within(q, staging) ensures NodeAt(after, q) == if Within(q, from) then None else NodeAt(laid, q) {
      SiblingsAreApart(parent, name, q);
    }
    assert Within(staging, from) <==> staging == from;
    assert NodeAt(after, staging) == if staging == from then None else NodeAt(laid, staging);
    forall q | staging < q && q in after ensures NodeAt(after, staging) == Some(Directory) {
      assert NodeAt(after, q) == if Within(q, from) then None else NodeAt(laid, q);
    }
  }

  /** The members fit together below staging, and one of them lies at or below the root that
      is moved to the destination. */
  ghost predicate Extractable(parent: Path, name: string, plan: Plan) {
    var staging := StagingOf(parent, name);
    && AllInside(staging, plan.kept) && Clashless(staging, plan.kept, |plan.kept|)
    && RootReached(staging, plan)
  }

  ghost predicate RootReached(staging: Path, plan: Plan) {
    var from := RootPath(staging, plan.root);
    Within(from, staging) && exists j :: 0 <= j < |plan.kept| && Within(TargetOf(staging, plan.kept[j]), from)
  }

  /** The root is there after the loop exactly when a member reaches it. */
  lemma RootIsThere(laid: Tree, before: Tree, parent: Path, name: string, plan: Plan)
    requires LaidOut(laid, before, StagingOf(parent, name), plan.kept, |plan.kept|)
    requires NothingWithin(before, StagingOf(parent, name))
    ensures var from := RootPath(StagingOf(parent, name), plan.root);
            RootReached(StagingOf(parent, name), plan) <==> from in laid && !Within(DestOf(parent, name), from)
  {
    var staging, dest := StagingOf(parent, name), DestOf(parent, name);
    var from := RootPath(staging, plan.root);
    RootPathCases(parent, name, plan.root);
    SiblingsAreApart(parent, name, dest);
    hide StagingOf, DestOf, RootPath, TargetOf;
    assert NodeAt(laid, from) == Expected(before, staging, plan.kept, |plan.kept|, from);
    if Within(from, staging) {
      assert from !in before;
      assert !Within(dest, from);
      assert forall j :: 0 <= j < |plan.kept| ==>
          (Within(TargetOf(staging, plan.kept[j]), from) <==>
           TargetOf(staging, plan.kept[j]) == from || from < TargetOf(staging, plan.kept[j]));
    }
  }

  /** The swap is begun: every member is laid out and the root is there, or stands for the
      directory that holds the destination. */
  ghost predicate SwapBegins(parent: Path, name: string, plan: Plan, calls: ExtractCalls) {
    var staging := StagingOf(parent, name);
    && CallsWork(calls, |plan.kept|) && AllInside(staging, plan.kept) && Clashless(staging, plan.kept, |plan.kept|)
    && (RootReached(staging, plan) || Within(DestOf(parent, name), RootPath(staging, plan.root)))
  }

  /** What lies above the destination is there once the members are. */
  lemma ParentIsThere(laid: Tree, before: Tree, parent: Path, name: string, plan: Plan)
    requires plan.kept != [] && Progress(laid, before, StagingOf(parent, name), plan.kept, |plan.kept|)
    ensures parent in laid
  {
    hide TargetOf;
    var staging := StagingOf(parent, name);
    assert parent < staging <= TargetOf(staging, plan.kept[0]);
    assert NodeAt(laid, parent) == Expected(before, staging, plan.kept, |plan.kept|, parent);
  }

  /** Within the destination nothing happened, so the swap starts from what was there. */
  lemma SameSwap(tree: Tree, laid: Tree, before: Tree, dest: Path, from: Path, calls: ExtractCalls)
    requires SameWithin(laid, before, dest)
    ensures LeftByFailedSwap(tree, laid, dest, from, calls) ==> LeftByFailedSwap(tree, before, dest, from, calls)
    ensures dest in laid <==> dest in before
    ensures dest in before ==> (SwapLoses(laid, dest, from, calls) <==> SwapLoses(before, dest, from, calls))
  {
    assert Within(dest, dest) && NodeAt(laid, dest) == NodeAt(before, dest);
    forall p | Within(p, dest)
      ensures AfterFailedSwap(laid, dest, from, calls, p) == AfterFailedSwap(before, dest, from, calls, p)
      ensures p in laid <==> p in before
    {
      assert NodeAt(laid, p) == NodeAt(before, p);
    }
  }

  /** The guarded part: everything between the clearing and the sweeping of the staging
      directory. */
  method FillAndSwap(volume: Volume, parent: Path, name: string, plan: Plan, calls: ExtractCalls)
    returns (r: Fault, ghost swapped: bool)
    requires calls.Proper() && plan.kept != [] && Rooted(volume.tree, DestOf(parent, name))
    requires NothingWithin(volume.tree, StagingOf(parent, name))
    modifies volume
    ensures Untouched(volume.tree, old(volume.tree), parent, name)
    ensures !swapped ==> !r.Fine? && SameWithin(volume.tree, old(volume.tree), DestOf(parent, name))
    ensures swapped ==> CallsWork(calls, |plan.kept|)
    ensures ClearAbove(old(volume.tree), StagingOf(parent, name)) ==>
      (swapped <==> SwapBegins(parent, name, plan, calls))
    ensures var dest, from := DestOf(parent, name), RootPath(StagingOf(parent, name), plan.root);
            && (swapped && !r.Fine? ==> LeftByFailedSwap(volume.tree, old(volume.tree), dest, from, calls))
            && (swapped && dest in old(volume.tree) ==>
                  (NothingWithin(volume.tree, dest) <==> SwapLoses(old(volume.tree), dest, from, calls)))
    ensures r.Fine? ==> Delivered(volume.tree, DestOf(parent, name), StagingOf(parent, name), plan)
    ensures calls.AllFine() && ClearAbove(old(volume.tree), StagingOf(parent, name)) ==>
      (r.Fine? <==> Extractable(parent, name, plan) && !IsFileAt(old(volume.tree), DestOf(parent, name)))
    ensures Rooted(volume.tree, StagingOf(parent, name))
    ensures var staging := StagingOf(parent, name); var first := TargetOf(staging, plan.kept[0]);
            && (first != staging ==> !IsFileAt(volume.tree, staging))
            && (&& first == staging && RootPath(staging, plan.root) != staging && calls.AllFine()
                && ClearAbove(old(volume.tree), staging) ==>
                  !r.Fine? && IsFileAt(volume.tree, staging))
  {
    hide StagingOf, DestOf, RootPath, TargetOf, LaidOut, Untouched, Rooted, IsFileAt, ClearAbove, OnlyParentsAdded,
      Delivered, SameOutside, SameWithin, LeftByFailedSwap, SwapLoses, NothingWithin;
    var staging, dest := StagingOf(parent, name), DestOf(parent, name);
    ghost var before := volume.tree;
    var k;
    r, k := LayOut(volume, staging, plan.kept, calls);
    ghost var laid := volume.tree;
    FrameOfLayOut(laid, before, parent, name);
    EveryCallWorks(calls, |plan.kept|);
    FileStays(laid, before, dest);
    swapped := false;
    if !r.Fine? {
      return;
    }
    var from := RootPath(staging, plan.root);
    RootIsThere(laid, before, parent, name, plan);
    RootPathCases(parent, name, plan.root);
    SiblingsAreApart(parent, name, from);
    ParentIsThere(laid, before, parent, name, plan);
    if from !in volume.tree {
      return FuseKitFault("root was missing"), false;
    }
    swapped := true;
    FromIsBelowADirectory(laid, before, staging, plan, from);
    r := SwapIn(volume, from, dest, calls);
    SameSwap(volume.tree, laid, before, dest, from, calls);
    if r.Fine? {
      ArrivesAtDest(volume.tree, laid, parent, name, from, calls);
      MoveKeeps(volume.tree, laid, before, parent, name, from);
      DeliveredByMove(volume.tree, laid, before, parent, name, plan);
    } else {
      if dest in laid {
        LostExactly(volume.tree, laid, dest, from, calls);
      }
      FailedSwapKeeps(volume.tree, laid, before, parent, name);
    }
  }

  lemma ArrivesAtDest(after: Tree, laid: Tree, parent: Path, name: string, from: Path, calls: ExtractCalls)
    requires Within(from, StagingOf(parent, name)) && from in laid && calls.move.MovedAll?
    requires DestOf(parent, name) in laid ==> calls.clearDest.RemovedAll?
    requires forall p ::
               NodeAt(after, p) == Relocated(Without(laid, DestOf(parent, name)), from, DestOf(parent, name), p)
    ensures !NothingWithin(after, DestOf(parent, name))
    ensures DestOf(parent, name) in laid ==> !SwapLoses(laid, DestOf(parent, name), from, calls)
  {
    var dest := DestOf(parent, name);
    SiblingsAreApart(parent, name, from);
    hide StagingOf, DestOf;
    assert Within(dest, dest) && dest[|dest|..] == [] && from + [] == from;
    assert NodeAt(after, dest) == NodeAt(laid, from);
  }

  lemma EveryCallWorks(calls: ExtractCalls, k: nat)
    ensures calls.AllFine() ==>
      CallsWork(calls, k) && calls.move.MovedAll? && calls.clearDest.RemovedAll? && calls.sweep.RemovedAll?
  {
  }

  lemma FileStays(laid: Tree, before: Tree, dest: Path)
    requires SameWithin(laid, before, dest)
    ensures IsFileAt(laid, dest) <==> IsFileAt(before, dest)
    ensures IsFileAt(laid, dest) <==> dest in laid && !laid[dest].Directory?
  {
    assert NodeAt(laid, dest) == NodeAt(before, dest);
  }

  lemma FromIsBelowADirectory(laid: Tree, before: Tree, staging: Path, plan: Plan, from: Path)
    requires plan.kept != [] && Progress(laid, before, staging, plan.kept, |plan.kept|) && from in laid
    ensures TargetOf(staging, plan.kept[0]) == staging && Within(from, staging) ==> from == staging
  {
    hide TargetOf, LaidOut;
    assert Within(from, staging) ==> from == staging || staging < from;
  }

  /** `shutil.rmtree(staging, ignore_errors=True)`. */
  method Sweep(volume: Volume, parent: Path, name: string, call: RemoveCall, ghost before: Tree, ghost plan: Plan)
    requires call.Proper() && Rooted(volume.tree, StagingOf(parent, name))
      && Untouched(volume.tree, before, parent, name)
    modifies volume
    ensures Untouched(volume.tree, before, parent, name)
    ensures SameWithin(volume.tree, old(volume.tree), DestOf(parent, name))
    ensures Delivered(old(volume.tree), DestOf(parent, name), StagingOf(parent, name), plan) ==>
              Delivered(volume.tree, DestOf(parent, name), StagingOf(parent, name), plan)
    ensures IsFileAt(old(volume.tree), StagingOf(parent, name)) ==> IsFileAt(volume.tree, StagingOf(parent, name))
    ensures call.RemovedAll? && !IsFileAt(old(volume.tree), StagingOf(parent, name)) ==>
      NothingWithin(volume.tree, StagingOf(parent, name))
  {
    hide StagingOf, DestOf, Arrived, RootPath;
    var staging, dest := StagingOf(parent, name), DestOf(parent, name);
    ghost var start := volume.tree;
    var ignored := volume.RemoveTree(staging, call);
    forall p | Within(p, dest) ensures NodeAt(volume.tree, p) == NodeAt(start, p) {
      SiblingsAreApart(parent, name, p);
    }
    assert forall p :: Within(dest + p, dest);
    assert forall p :: Within(p, staging) ==> p == staging || staging < p;
    assert NodeAt(start, staging) == None && volume.tree == start ==> NothingWithin(volume.tree, staging);
  }

  lemma ClearedStart(cleared: Tree, before: Tree, parent: Path, name: string)
    requires WellFormed(before) && SameOutside(cleared, before, StagingOf(parent, name))
    ensures Untouched(cleared, before, parent, name) && SameWithin(cleared, before, DestOf(parent, name))
    ensures Rooted(cleared, DestOf(parent, name))
    ensures ClearAbove(before, StagingOf(parent, name)) ==> ClearAbove(cleared, StagingOf(parent, name))
  {
    hide StagingOf, DestOf;
    var staging, dest := StagingOf(parent, name), DestOf(parent, name);
    forall p | Within(p, dest) ensures NodeAt(cleared, p) == NodeAt(before, p) {
      SiblingsAreApart(parent, name, p);
    }
    forall q | dest < q && q in cleared ensures NodeAt(cleared, dest) == Some(Directory) {
      assert NodeAt(cleared, q) == NodeAt(before, q);
      assert NodeAt(cleared, dest) == NodeAt(before, dest);
    }
    forall q | q < staging && q in cleared && ClearAbove(before, staging) ensures cleared[q].Directory? {
      assert !Within(q, staging);
      assert NodeAt(cleared, q) == NodeAt(before, q);
    }
  }

  lemma UntouchedTwice(after: Tree, middle: Tree, before: Tree, parent: Path, name: string)
    requires Untouched(after, middle, parent, name) && Untouched(middle, before, parent, name)
    ensures Untouched(after, before, parent, name)
  {
    hide StagingOf, DestOf;
  }

  lemma SameTwice(after: Tree, middle: Tree, before: Tree, dest: Path)
    requires SameWithin(after, middle, dest) && SameWithin(middle, before, dest)
    ensures SameWithin(after, before, dest)
  {
  }

  /** The cleaning of what an earlier run left can begin, and the rest is reached. */
  ghost predicate Reaches(before: Tree, parent: Path, name: string, calls: ExtractCalls) {
    var found := NodeAt(before, StagingOf(parent, name));
    found == None || (found == Some(Directory) && calls.clear.RemovedAll?)
  }

  /** `_extract_single_root_zip`.  `swapped` tells whether the replacement of the
      destination was begun. */
  method Extract(volume: Volume, parent: Path, name: string, members: seq<Member>, calls: ExtractCalls)
    returns (r: Fault, ghost swapped: bool)
    requires calls.Proper() && WellFormed(volume.tree)
    modifies volume
    // an archive that is refused changes nothing: not even what an earlier run left in staging
    ensures PlanOf(parent, members).Raised? ==> r == PlanOf(parent, members).fault && volume.tree == old(volume.tree)
    // whatever the archive and whatever fails, nothing else on the disk is touched
    ensures Untouched(volume.tree, old(volume.tree), parent, name)
    // before the swap the destination is as it was, and the swap waits for every member
    ensures !swapped ==> !r.Fine? && SameWithin(volume.tree, old(volume.tree), DestOf(parent, name))
    ensures swapped ==> PlanOf(parent, members).Returned?
                        && CallsWork(calls, |PlanOf(parent, members).value.kept|)
    ensures r.Fine? ==>
      Delivered(volume.tree, DestOf(parent, name), StagingOf(parent, name), PlanOf(parent, members).value)
    // when no call fails of itself, exactly the archives that can be extracted are
    ensures
      PlanOf(parent, members).Returned? && calls.AllFine() && ClearAbove(old(volume.tree), StagingOf(parent, name)) ==>
      (r.Fine? <==>
        && Extractable(parent, name, PlanOf(parent, members).value)
        && !IsFileAt(old(volume.tree), DestOf(parent, name)) && !IsFileAt(old(volume.tree), StagingOf(parent, name)))
    // what a swap that fails leaves within the destination
    ensures swapped && !r.Fine? ==>
      LeftByFailedSwap(volume.tree, old(volume.tree), DestOf(parent, name),
                       RootPath(StagingOf(parent, name), PlanOf(parent, members).value.root), calls)
    // exactly when the destination that was there is gone and nothing has come in its place
    ensures PlanOf(parent, members).Returned? && ClearAbove(old(volume.tree), StagingOf(parent, name))
            && DestOf(parent, name) in old(volume.tree) ==>
      (NothingWithin(volume.tree, DestOf(parent, name)) <==>
        && Reaches(old(volume.tree), parent, name, calls)
        && SwapBegins(parent, name, PlanOf(parent, members).value, calls)
        && SwapLoses(old(volume.tree), DestOf(parent, name),
                     RootPath(StagingOf(parent, name), PlanOf(parent, members).value.root), calls))
    // a file that stands at staging makes every run fail, and stays
    ensures IsFileAt(old(volume.tree), StagingOf(parent, name)) ==> !r.Fine? && volume.tree == old(volume.tree)
    // staging is gone on every exit, unless the first member wanted is staging itself
    ensures
      PlanOf(parent, members).Returned? && Reaches(old(volume.tree), parent, name, calls) && calls.sweep.RemovedAll? ==>
      FirstTarget(parent, name, members) != StagingOf(parent, name) ==>
        NothingWithin(volume.tree, StagingOf(parent, name))
    ensures PlanOf(parent, members).Returned? && Reaches(old(volume.tree), parent, name, calls) && calls.AllFine()
            && ClearAbove(old(volume.tree), StagingOf(parent, name))
            && RootPath(StagingOf(parent, name), PlanOf(parent, members).value.root) != StagingOf(parent, name) ==>
      FirstTarget(parent, name, members) == StagingOf(parent, name) ==>
        !r.Fine? && IsFileAt(volume.tree, StagingOf(parent, name))
  {
    hide PlanOf, StagingOf, DestOf, RootPath, TargetOf, Untouched, Rooted, IsFileAt, ClearAbove, Delivered,
      SameOutside, SameWithin, LeftByFailedSwap, SwapLoses, SwapBegins;
    var planned := PlanOf(parent, members);
    swapped := false;
    PlansKeepSomething(parent, members);
    UntouchedItself(volume.tree, parent, name);
    if planned.Raised? {
      return planned.fault, false;
    }
    var plan, staging := planned.value, StagingOf(parent, name);
    ghost var before := volume.tree;
    FileStays(before, before, staging);
    if staging in volume.tree {
      r := volume.RemoveTree(staging, calls.clear);
    } else {
      r := Fine;
      SameAsItself(volume.tree, staging);
    }
    ghost var cleared := volume.tree;
    ClearedStart(cleared, before, parent, name);
    FileStays(cleared, before, DestOf(parent, name));
    EveryCallWorks(calls, 0);
    SameContent(cleared, before, DestOf(parent, name));
    if !r.Fine? {
      return;
    }
    r, swapped := FillAndSwap(volume, parent, name, plan, calls);
    UntouchedTwice(volume.tree, cleared, before, parent, name);
    ghost var filled := volume.tree;
    Sweep(volume, parent, name, calls.sweep, before, plan);
    SameContent(volume.tree, filled, DestOf(parent, name));
    var from := RootPath(staging, plan.root);
    SwapSeenFromOutside(volume.tree, filled, cleared, before, DestOf(parent, name), from, calls);
    if !swapped {
      SameContent(filled, cleared, DestOf(parent, name));
      SameTwice(filled, cleared, before, DestOf(parent, name));
      SameTwice(volume.tree, filled, before, DestOf(parent, name));
    }
  }

  lemma SameContent(after: Tree, before: Tree, dest: Path)
    requires SameWithin(after, before, dest)
    ensures NothingWithin(after, dest) <==> NothingWithin(before, dest)
    ensures dest in after <==> dest in before
    ensures dest in before ==> !NothingWithin(before, dest)
  {
    assert forall p :: Within(p, dest) ==> NodeAt(after, p) == NodeAt(before, p);
    assert Within(dest, dest);
  }

  lemma SwapSeenFromOutside(after: Tree, filled: Tree, cleared: Tree, before: Tree, dest: Path, from: Path,
      calls: ExtractCalls)
    requires SameWithin(after, filled, dest) && SameWithin(cleared, before, dest)
    ensures LeftByFailedSwap(filled, cleared, dest, from, calls) ==> LeftByFailedSwap(after, before, dest, from, calls)
    ensures dest in before ==>
      dest in cleared && (SwapLoses(cleared, dest, from, calls) <==> SwapLoses(before, dest, from, calls))
  {
    SameSwap(filled, cleared, before, dest, from, calls);
    hide AfterFailedSwap;
    assert forall p :: Within(p, dest) ==> NodeAt(after, p) == NodeAt(filled, p);
  }

  /** Where the first member wanted goes. */
  function FirstTarget(parent: Path, name: string, members: seq<Member>): Path
    requires PlanOf(parent, members).Returned?
  {
    TargetOf(StagingOf(parent, name), PlanOf(parent, members).value.kept[0])
  }

  lemma PlansKeepSomething(parent: Path, members: seq<Member>)
    ensures PlanOf(parent, members).Returned? ==> PlanOf(parent, members).value.kept != []
    ensures PlanOf(parent, members).Raised? ==> !PlanOf(parent, members).fault.Fine?
  {
  }

  lemma UntouchedItself(tree: Tree, parent: Path, name: string)
    ensures Untouched(tree, tree, parent, name) && SameWithin(tree, tree, DestOf(parent, name))
  {
  }

  lemma SameAsItself(tree: Tree, staging: Path)
    requires staging !in tree
    ensures SameOutside(tree, tree, staging)
    ensures WellFormed(tree) ==> NothingWithin(tree, staging)
  {
  }

  // ------------------------------------------------------- what a delivered tree holds

  lemma {:induction false} ResolveInTwo(base: Path, first: seq<string>, second: seq<string>)
    ensures Resolve(base, first + second) == Resolve(Resolve(base, first), second)
    decreases |first|
  {
    if first == [] {
      assert first + second == second;
    } else {
      assert (first + second)[1..] == first[1..] + second;
      ResolveInTwo(Step(base, first[0]), first[1..], second);
    }
  }

  lemma {:induction false} PlainResolve(base: Path, parts: seq<string>)
    requires ".." !in parts
    ensures Resolve(base, parts) == base + parts
    decreases |parts|
  {
    if parts != [] {
      PlainResolve(base + [parts[0]], parts[1..]);
      assert base + parts == (base + [parts[0]]) + parts[1..];
    }
  }

  /** Every component of a resolved path stands where it stood in the base, or is a part. */
  lemma {:induction false} ComponentsComeFrom(base: Path, parts: seq<string>, i: nat)
    requires i < |Resolve(base, parts)|
    ensures Resolve(base, parts)[i] in parts || (i < |base| && Resolve(base, parts)[i] == base[i])
    decreases |parts|
  {
    if parts != [] {
      ComponentsComeFrom(Step(base, parts[0]), parts[1..], i);
    }
  }

  lemma NameSplits(name: string, root: string)
    requires StartsWith(name, root + "/") && '/' !in root
    ensures Parts(name) == KeepParts([root]) + Relative(name, root)
  {
    assert name[|root|] == (root + "/")[|root|] == '/';
    assert name[..|root|] == (root + "/")[..|root|] == root;
    assert SlashAt(name) == |root| by {
      assert forall k :: 0 <= k < |root| ==> name[k] == root[k];
    }
    var rest := Segments(name[|root| + 1..]);
    assert Segments(name) == [root] + rest && ([root] + rest)[1..] == rest && [root][1..] == [];
  }

  /** No component of anything in the delivered tree is an excluded name, whatever dots and
      repetitions the archive holds. */
  lemma NothingExcludedArrives(tree: Tree, parent: Path, name: string, members: seq<Member>, p: Path, i: nat)
    requires i < |p|
    ensures DeliveredFrom(tree, parent, name, members) && DestOf(parent, name) + p in tree ==> Lower(p[i]) !in EXCLUDED
  {
    hide PlanOf, DestOf, StagingOf, RootPath, TargetOf, Relative, ShouldExtract;
    if DeliveredFrom(tree, parent, name, members) && DestOf(parent, name) + p in tree {
      var staging, plan := StagingOf(parent, name), PlanOf(parent, members).value;
      var q := RootPath(staging, plan.root) + p;
      assert NodeAt(tree, DestOf(parent, name) + p) == Arrived(staging, plan.kept, q);
      var j :| 0 <= j < |plan.kept| && q <= TargetOf(staging, plan.kept[j]);
      assert plan.kept[j] in plan.kept;
      WantedComponents(staging, plan.root, plan.kept[j], p, i);
    }
  }

  /** The destination holds what a successful extraction of the archive delivers. */
  ghost predicate DeliveredFrom(tree: Tree, parent: Path, name: string, members: seq<Member>) {
    && PlanOf(parent, members).Returned?
    && Delivered(tree, DestOf(parent, name), StagingOf(parent, name), PlanOf(parent, members).value)
  }

  lemma WantedComponents(staging: Path, root: string, m: Member, p: Path, i: nat)
    requires StartsWith(m.name, root + "/") && '/' !in root && ShouldExtract(Relative(m.name, root))
    requires RootPath(staging, root) + p <= TargetOf(staging, m) && i < |p|
    ensures Lower(p[i]) !in EXCLUDED
  {
    hide EXCLUDED, ShouldExtract, KeepParts, Parts, Relative, Resolve, StartsWith;
    var from, relative := RootPath(staging, root), Relative(m.name, root);
    NameSplits(m.name, root);
    ResolveInTwo(staging, KeepParts([root]), relative);
    assert TargetOf(staging, m) == Resolve(from, relative);
    assert p[i] in relative by {
      ComponentsComeFrom(from, relative, |from| + i);
      assert TargetOf(staging, m)[|from| + i] == (from + p)[|from| + i] == p[i];
    }
    ExcludesEveryPart(relative, p[i]);
  }

  lemma ExcludesEveryPart(path: seq<string>, part: string)
    requires ShouldExtract(path) && part in path
    ensures Lower(part) !in EXCLUDED
  {
    var i :| 0 <= i < |path| && path[i] == part;
    hide EXCLUDED;
  }

  /** What the last of the first `k` members with this relative path holds. */
  function LastContent(kept: seq<Member>, root: string, k: nat, p: seq<string>): Option<string>
    requires k <= |kept|
  {
    if k == 0 then None
    else if Relative(kept[k - 1].name, root) == p then Some(kept[k - 1].content)
    else LastContent(kept, root, k - 1, p)
  }

  /** What keeps a file of the archive out: a directory or file that is never wanted on its way,
      a name that keys and credentials have, or a data file named after a secret. */
  predicate KeptOut(path: seq<string>) {
    OnAnUnwantedWay(path) || (path != [] && NamesSecret(Lower(path[|path| - 1])))
  }

  predicate OnAnUnwantedWay(path: seq<string>) {
    exists i :: 0 <= i < |path| && Lower(path[i]) in {
      ".git", ".env", ".env.local", ".env.development", ".env.production", ".env.preview", ".npmrc", ".pypirc",
      ".vercel", ".fusekit", "node_modules", "__pycache__", ".cache", ".turbo", ".parcel-cache", ".vite",
      ".nyc_output", "coverage", ".pytest_cache", ".ruff_cache", ".mypy_cache"}
  }

  predicate NamesSecret(name: string) {
    || StartsWith(name, ".env.") || EndsWith(name, ".tsbuildinfo")
    || name == "id_rsa" || name == "id_ed25519" || name == "id_ecdsa" || name == "credentials.json"
    || EndsWith(name, ".vault") || EndsWith(name, ".vault.json") || EndsWith(name, ".pem") || EndsWith(name, ".key")
    || EndsWith(name, ".p12") || EndsWith(name, ".pfx")
    || (&& (Contains(name, "secret") || Contains(name, "credential") || Contains(name, "private_key"))
        && (|| EndsWith(name, ".json") || EndsWith(name, ".txt") || EndsWith(name, ".env")
            || EndsWith(name, ".yaml") || EndsWith(name, ".yml")))
  }

  lemma WantedUnlessKeptOut(path: seq<string>)
    ensures ShouldExtract(path) <==> !KeptOut(path)
  {
    NamesThatAreWanted(Lower(if path == [] then "" else path[|path| - 1]));
    EmptyNamesNothing();
    ComponentsKeptOut(path);
    hide NamesSecret, IsSafeName, EXCLUDED, Lower;
    assert ShouldExtract(path) <==>
        && (forall i :: 0 <= i < |path| ==> Lower(path[i]) !in EXCLUDED)
        && IsSafeName(Lower(if path == [] then "" else path[|path| - 1]));
  }

  lemma ComponentsKeptOut(path: seq<string>)
    ensures (forall i :: 0 <= i < |path| ==> Lower(path[i]) !in EXCLUDED) <==> !OnAnUnwantedWay(path)
  {
    hide Lower;
  }

  lemma NamesThatAreWanted(name: string)
    ensures IsSafeName(name) <==> !NamesSecret(name)
  {
    SuffixesOf(name);
    hide EndsWith, StartsWith, Contains, EndsWithAny;
  }

  lemma SuffixesOf(name: string)
    ensures EndsWithAny(name, [".vault", ".vault.json", ".pem", ".key", ".p12", ".pfx"]) <==>
      || EndsWith(name, ".vault") || EndsWith(name, ".vault.json") || EndsWith(name, ".pem") || EndsWith(name, ".key")
      || EndsWith(name, ".p12") || EndsWith(name, ".pfx")
    ensures EndsWithAny(name, [".json", ".txt", ".env", ".yaml", ".yml"]) <==>
      || EndsWith(name, ".json") || EndsWith(name, ".txt") || EndsWith(name, ".env")
      || EndsWith(name, ".yaml") || EndsWith(name, ".yml")
  {
    hide EndsWith;
    var keys := [".vault", ".vault.json", ".pem", ".key", ".p12", ".pfx"];
    var data := [".json", ".txt", ".env", ".yaml", ".yml"];
    assert keys[0] == ".vault" && keys[1] == ".vault.json" && keys[2] == ".pem" && keys[3] == ".key";
    assert keys[4] == ".p12" && keys[5] == ".pfx";
    assert data[0] == ".json" && data[1] == ".txt" && data[2] == ".env" && data[3] == ".yaml" && data[4] == ".yml";
  }

  lemma EmptyNamesNothing()
    ensures Lower("") == "" && !NamesSecret("")
    ensures "" !in {"id_rsa", "id_ed25519", "id_ecdsa", "credentials.json"}
  {
  }

  /** An archive without dot segments. */
  ghost predicate IsPlain(plan: Plan) {
    plan.root !in {"", ".", ".."} && forall m :: m in plan.kept ==> ".." !in Parts(m.name)
  }

  lemma PlainTarget(staging: Path, plan: Plan, m: Member)
    requires IsPlain(plan) && m in plan.kept && StartsWith(m.name, plan.root + "/") && '/' !in plan.root
    ensures TargetOf(staging, m) == RootPath(staging, plan.root) + Relative(m.name, plan.root)
    ensures RootPath(staging, plan.root) == staging + [plan.root]
    ensures Relative(m.name, plan.root) != [] ==> TargetOf(staging, m) != staging
  {
    NameSplits(m.name, plan.root);
    assert [plan.root][1..] == [];
    assert KeepParts([plan.root]) == [plan.root];
    PlainResolve(staging, Parts(m.name));
    PlainResolve(staging, [plan.root]);
    assert staging + ([plan.root] + Relative(m.name, plan.root)) == staging + [plan.root] + Relative(m.name, plan.root);
  }

  lemma {:induction false} PlainWriter(staging: Path, plan: Plan, k: nat, p: seq<string>)
    requires k <= |plan.kept| && IsPlain(plan) && '/' !in plan.root
    requires forall m :: m in plan.kept ==> StartsWith(m.name, plan.root + "/")
    ensures LastWriter(staging, plan.kept, k, RootPath(staging, plan.root) + p) ==
      LastContent(plan.kept, plan.root, k, p)
  {
    hide RootPath, TargetOf, Relative, IsPlain;
    if k > 0 {
      PlainWriter(staging, plan, k - 1, p);
      PlainTarget(staging, plan, plan.kept[k - 1]);
      SamePrefix(RootPath(staging, plan.root), Relative(plan.kept[k - 1].name, plan.root), p);
    }
  }

  lemma SamePrefix(a: Path, b: Path, c: Path)
    ensures a + b == a + c <==> b == c
    ensures a + b < a + c <==> b < c
  {
    assert (a + b)[|a|..] == b && (a + c)[|a|..] == c;
    if b < c {
      assert (a + c)[..|a + b|] == a + b;
    }
    if a + b < a + c {
      assert c[..|b|] == b;
    }
  }

  /** Without dot segments the delivered tree is exactly the wanted members with the root
      segment stripped, the last of those with the same path winning, in the directories
      they need. */
  lemma PlainArchivesArriveWhole(tree: Tree, parent: Path, name: string, members: seq<Member>, p: seq<string>)
    ensures DeliveredFrom(tree, parent, name, members) && IsPlain(PlanOf(parent, members).value) ==>
      NodeAt(tree, DestOf(parent, name) + p) == PlainNode(PlanOf(parent, members).value, p)
  {
    hide PlanOf, IsPlain, Delivered, PlainNode;
    if DeliveredFrom(tree, parent, name, members) && IsPlain(PlanOf(parent, members).value) {
      PlainPlanArrivesWhole(tree, DestOf(parent, name), StagingOf(parent, name), PlanOf(parent, members).value, p);
    }
  }

  /** What belongs at a path below the destination. */
  ghost function PlainNode(plan: Plan, p: seq<string>): Option<Node> {
    var last := LastContent(plan.kept, plan.root, |plan.kept|, p);
    if last.Some? then Some(File(last.value))
    else if exists m :: m in plan.kept && p < Relative(m.name, plan.root) then Some(Directory)
    else None
  }

  lemma PlainPlanArrivesWhole(tree: Tree, dest: Path, staging: Path, plan: Plan, p: seq<string>)
    requires IsPlain(plan) && '/' !in plan.root && forall m :: m in plan.kept ==> StartsWith(m.name, plan.root + "/")
    requires Delivered(tree, dest, staging, plan)
    ensures NodeAt(tree, dest + p) == PlainNode(plan, p)
  {
    hide RootPath, TargetOf, Relative, IsPlain, StartsWith;
    var from := RootPath(staging, plan.root);
    PlainWriter(staging, plan, |plan.kept|, p);
    assert NodeAt(tree, dest + p) == Arrived(staging, plan.kept, from + p);
    forall m | m in plan.kept ensures from + p < TargetOf(staging, m) <==> p < Relative(m.name, plan.root) {
      PlainTarget(staging, plan, m);
      SamePrefix(from, p, Relative(m.name, plan.root));
    }
    if m :| m in plan.kept && p < Relative(m.name, plan.root) {
      var j :| 0 <= j < |plan.kept| && plan.kept[j] == m;
      assert from + p < TargetOf(staging, plan.kept[j]);
    }
  }

  /** No wanted member needs a directory where another is a file. */
  ghost predicate NoClash(plan: Plan) {
    forall m, n :: m in plan.kept && n in plan.kept ==> !(Relative(m.name, plan.root) < Relative(n.name, plan.root))
  }

  /** Without dot segments an archive can be extracted exactly when no wanted member needs a
      directory where another is a file. */
  lemma PlainArchivesExtract(parent: Path, name: string, members: seq<Member>)
    ensures PlanOf(parent, members).Returned? && IsPlain(PlanOf(parent, members).value) ==>
      (Extractable(parent, name, PlanOf(parent, members).value) <==> NoClash(PlanOf(parent, members).value))
  {
    hide PlanOf, IsPlain, NoClash, Extractable;
    if PlanOf(parent, members).Returned? && IsPlain(PlanOf(parent, members).value) {
      PlansKeepSomething(parent, members);
      PlainPlanExtracts(parent, name, PlanOf(parent, members).value);
    }
  }

  lemma PlainPlanExtracts(parent: Path, name: string, plan: Plan)
    requires IsPlain(plan) && '/' !in plan.root && plan.kept != []
    requires forall m :: m in plan.kept ==> StartsWith(m.name, plan.root + "/")
    ensures Extractable(parent, name, plan) <==> NoClash(plan)
  {
    hide RootPath, TargetOf, Relative, IsPlain, StartsWith, StagingOf;
    var staging := StagingOf(parent, name);
    var from := RootPath(staging, plan.root);
    forall m | m in plan.kept
      ensures TargetOf(staging, m) == from + Relative(m.name, plan.root) && from == staging + [plan.root]
    {
      PlainTarget(staging, plan, m);
    }
    forall m, n | m in plan.kept && n in plan.kept
      ensures TargetOf(staging, m) < TargetOf(staging, n) <==> Relative(m.name, plan.root) < Relative(n.name, plan.root)
    {
      SamePrefix(from, Relative(m.name, plan.root), Relative(n.name, plan.root));
    }
    assert plan.kept[0] in plan.kept;
    forall i | 0 <= i < |plan.kept|
      ensures Within(TargetOf(staging, plan.kept[i]), staging) && Within(TargetOf(staging, plan.kept[i]), from)
    {
      assert plan.kept[i] in plan.kept;
    }
    if Clashless(staging, plan.kept, |plan.kept|) {
      forall m, n | m in plan.kept && n in plan.kept ensures !(TargetOf(staging, m) < TargetOf(staging, n)) {
        var i :| 0 <= i < |plan.kept| && plan.kept[i] == m;
        var j :| 0 <= j < |plan.kept| && plan.kept[j] == n;
      }
    }
  }
}
