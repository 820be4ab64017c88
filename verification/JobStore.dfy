/** The store of public hosted job snapshots and proof artifacts (hosted/job_store.py).

    What is stored is ASCII text, so a file has as many bytes as characters. */
module JobStore {
  import opened Folders
  import opened Json
  import opened Outcomes
  import opened Text

  const MAX_BYTES := 1_048_576
  const SNAPSHOT_SCHEMA := "fusekit.hosted-job-store.v1"

  // ------------------------------------------------------- names

  predicate IdChar(c: char) {
    'A' <= c <= 'Z' || 'a' <= c <= 'z' || '0' <= c <= '9' || c == '_' || c == '-'
  }

  /** `_HOSTED_JOB_ID_RE`: the prefix, then 8 to 160 characters. */
  predicate ValidId(id: string) {
    15 <= |id| <= 167 && id[..7] == "hosted-" && forall i :: 7 <= i < |id| ==> IdChar(id[i])
  }

  /** A hosted id is "hosted-" and then 8 to 160 letters, digits, underscores and hyphens. */
  lemma HostedIdsSpelled(tail: string)
    ensures ValidId("hosted-" + tail) <==>
      && 8 <= |tail| <= 160
      && forall c :: c in tail ==> 'a' <= LowerChar(c) <= 'z' || c in "0123456789" || c in "_-"
    ensures ValidId(tail) ==> tail == "hosted-" + tail[7..]
  {
    var id := "hosted-" + tail;
    assert id[..7] == "hosted-" && id[7..] == tail;
    forall c ensures IdChar(c) <==> 'a' <= LowerChar(c) <= 'z' || c in "0123456789" || c in "_-" {
      CharactersOfIds(c);
    }
    hide IdChar, LowerChar;
    if ValidId(id) {
      forall c | c in tail ensures IdChar(c) {
        var i :| 0 <= i < |tail| && tail[i] == c;
        assert id[i + 7] == c;
      }
    }
    forall i | 7 <= i < |id| ensures id[i] in tail {
      assert id[i] == tail[i - 7];
    }
    if ValidId(tail) {
      assert tail == tail[..7] + tail[7..];
    }
  }

  lemma CharactersOfIds(c: char)
    ensures IdChar(c) <==> 'a' <= LowerChar(c) <= 'z' || c in "0123456789" || c in "_-"
  {
    var digits, marks := "0123456789", "_-";
    assert digits[0] == '0' && digits[1] == '1' && digits[2] == '2' && digits[3] == '3' && digits[4] == '4';
    assert digits[5] == '5' && digits[6] == '6' && digits[7] == '7' && digits[8] == '8' && digits[9] == '9';
    assert marks[0] == '_' && marks[1] == '-';
  }

  datatype Kind = Snapshot | WebhookReceipt | StartResponse

  function Stem(id: string, kind: Kind): string {
    match kind
    case Snapshot => id
    case WebhookReceipt => id + ".stripe-webhook-receipt"
    case StartResponse => id + ".managed-start-response"
  }

  function FileName(id: string, kind: Kind): string { Stem(id, kind) + ".json" }

  /** The name `mkstemp` makes around its random part. */
  function TempName(id: string, kind: Kind, random: string): string { "." + Stem(id, kind) + "." + random + ".tmp" }

  lemma IdsHaveNoDot(id: string)
    requires ValidId(id)
    ensures forall i :: 0 <= i < |id| ==> id[i] != '.'
  {
    forall i | 0 <= i < |id| ensures id[i] != '.' {
      if i < 7 {
        assert id[i] == id[..7][i] == "hosted-"[i];
      } else {
        assert IdChar(id[i]);
      }
    }
  }

  lemma DotAfterId(id: string, kind: Kind)
    ensures |FileName(id, kind)| > |id| && FileName(id, kind)[..|id|] == id && FileName(id, kind)[|id|] == '.'
    ensures |FileName(id, kind)| ==
      |id| + (match kind case Snapshot => 5 case WebhookReceipt => 28 case StartResponse => 28)
    ensures kind == WebhookReceipt ==> FileName(id, kind)[|id| + 1] == 's'
    ensures kind == StartResponse ==> FileName(id, kind)[|id| + 1] == 'm'
  {
  }

  /** No two artifacts share a file. */
  lemma FileNamesAreApart(id: string, kind: Kind, otherId: string, otherKind: Kind)
    requires ValidId(id) && ValidId(otherId)
    ensures FileName(id, kind) == FileName(otherId, otherKind) <==> id == otherId && kind == otherKind
  {
    hide FileName, ValidId;
    IdsHaveNoDot(id);
    IdsHaveNoDot(otherId);
    DotAfterId(id, kind);
    DotAfterId(otherId, otherKind);
    var a, b := FileName(id, kind), FileName(otherId, otherKind);
    assert |id| < |otherId| ==> b[..|otherId|][|id|] == b[|id|];
    assert |otherId| < |id| ==> a[..|id|][|otherId|] == a[|otherId|];
  }

  /** Temporaries start with a full stop, artifacts do not. */
  lemma TempsAreNoArtifacts(id: string, kind: Kind, random: string, otherId: string, otherKind: Kind)
    requires ValidId(otherId)
    ensures TempName(id, kind, random) != FileName(otherId, otherKind)
  {
    assert FileName(otherId, otherKind)[0] == otherId[..7][0] == 'h';
  }

  // ------------------------------------------------------- writing

  /** How JSON travels: compact text (sorted keys), spaced text, decoding and parsing,
      SHA-256 in hexadecimal, and the two private-text detectors together. */
  datatype Wire = Wire(
    compact: Value -> string, spaced: Value -> string, parse: string -> Option<Value>,
    sha256: string -> string, isPrivate: string -> bool)
  {
    /** `_job_payload_hash`. */
    function Hash(payload: map<string, Value>): string { "sha256:" + sha256(compact(Obj(payload))) }

    /** The file that holds a payload. */
    function Text(payload: Value): string { compact(payload) + "\n" }

    /** What is written is read back. */
    ghost predicate Keeps(payload: Value) { parse(Text(payload)) == Some(payload) }
  }

  /** One outcome for every step that can fail, and the random part of the temporary's name. */
  datatype StoreCalls = StoreCalls(
    root: Fault, random: string, make: Fault, write: WriteCall, chmodTemp: Fault,
    replace: Fault, chmodTarget: Fault, cleanup: Fault)
  {
    /** `_ensure_store_root` turns operating-system errors into FuseKit's own, and a failed
        write failed with something; `mkstemp` picks a name that nothing holds. */
    predicate Proper(files: Files, id: string, kind: Kind) {
      && !root.OsFault? && (write.WriteFailed? ==> !write.fault.Fine?)
      && TempName(id, kind, random) !in files
    }

    predicate OnlyOsErrors() {
      && (root.Fine? || root.FuseKitFault?) && (make.Fine? || make.OsFault?)
      && (write.WriteFailed? ==> write.fault.OsFault?)
      && (chmodTemp.Fine? || chmodTemp.OsFault?) && (replace.Fine? || replace.OsFault?)
      && (chmodTarget.Fine? || chmodTarget.OsFault?)
    }

    predicate ReachReplace() { root.Fine? && make.Fine? && write.Wrote? && chmodTemp.Fine? && replace.Fine? }

    predicate AllFine() { ReachReplace() && chmodTarget.Fine? }
  }

  /** A moment at which the artifact is wholly old or wholly new and nothing but its own
      temporary differs. */
  ghost predicate OldOrNew(moment: Files, before: Files, id: string, kind: Kind, random: string, text: string) {
    && SameElsewhere(moment, before, {FileName(id, kind), TempName(id, kind, random)})
    && (At(moment, FileName(id, kind)) == At(before, FileName(id, kind))
      || At(moment, FileName(id, kind)) == Some(File(text)))
  }

  ghost predicate AlwaysOldOrNew(history: seq<Files>, from: nat, before: Files, id: string, kind: Kind,
      random: string, text: string) {
    from <= |history| && forall i :: from <= i < |history| ==> OldOrNew(history[i], before, id, kind, random, text)
  }

  /** What a write leaves behind, success or failure. */
  ghost predicate Stored(after: Files, before: Files, id: string, kind: Kind, calls: StoreCalls, text: string,
      r: Fault) {
    && OldOrNew(after, before, id, kind, calls.random, text)
    && (r.Fine? ==> calls.AllFine())
    && At(after, FileName(id, kind)) ==
      (if calls.ReachReplace() then Some(File(text)) else At(before, FileName(id, kind)))
    && (r.Fine? || (calls.OnlyOsErrors() && calls.cleanup.Fine?) ==> TempName(id, kind, calls.random) !in after)
    && (calls.OnlyOsErrors() && calls.cleanup.Fine? ==> r.Fine? || r.FuseKitFault?)
  }

  /** `_write_public_payload`. */
  method WritePublicPayload(folder: Folder, wire: Wire, id: string, kind: Kind, payload: Value, calls: StoreCalls)
    returns (r: Fault)
    requires ValidId(id) && calls.Proper(folder.files, id, kind)
    modifies folder
    ensures AlwaysOldOrNew(folder.history, |old(folder.history)|, old(folder.files), id, kind, calls.random,
      wire.Text(payload))
    ensures wire.isPrivate(wire.compact(payload)) ==> r.FuseKitFault? && folder.files == old(folder.files)
    ensures !wire.isPrivate(wire.compact(payload)) ==>
      && Stored(folder.files, old(folder.files), id, kind, calls, wire.Text(payload), r)
      && (calls.AllFine() ==> r.Fine?)
  {
    if wire.isPrivate(wire.compact(payload)) {
      return FuseKitFault("private-looking text");
    }
    TempsAreNoArtifacts(id, kind, calls.random, id, kind);
    r := WriteSteps(folder, id, kind, wire.Text(payload), calls);
    if r.OsFault? {
      if TempName(id, kind, calls.random) in folder.files {
        var cleaned := folder.Unlink(TempName(id, kind, calls.random), calls.cleanup);
        if !cleaned.Fine? {
          return cleaned;
        }
      }
      return FuseKitFault("could not be written");
    }
  }

  /** The guarded steps. */
  method WriteSteps(folder: Folder, id: string, kind: Kind, text: string, calls: StoreCalls) returns (r: Fault)
    requires ValidId(id) && calls.Proper(folder.files, id, kind)
    modifies folder
    ensures AlwaysOldOrNew(folder.history, |old(folder.history)|, old(folder.files), id, kind, calls.random, text)
    ensures OldOrNew(folder.files, old(folder.files), id, kind, calls.random, text)
    ensures r.Fine? <==> calls.AllFine()
    ensures At(folder.files, FileName(id, kind)) ==
            if calls.ReachReplace() then Some(File(text)) else At(old(folder.files), FileName(id, kind))
    ensures r.Fine? || (r.FuseKitFault? && calls.OnlyOsErrors()) ==> TempName(id, kind, calls.random) !in folder.files
    ensures calls.OnlyOsErrors() ==> r.Fine? || r.OsFault? || r.FuseKitFault?
    ensures At(folder.files, TempName(id, kind, calls.random)) != Some(Directory)
  {
    var temp, target := TempName(id, kind, calls.random), FileName(id, kind);
    TempsAreNoArtifacts(id, kind, calls.random, id, kind);
    hide TempName, FileName, ValidId;
    ghost var before, from := folder.files, |folder.history|;
    r := calls.root;
    if !r.Fine? { return; }
    r := FillTemp(folder, id, kind, text, calls);
    if !r.Fine? { return; }
    r := calls.chmodTemp;
    if !r.Fine? { return; }
    hide SameElsewhere;
    assert OldOrNew((folder.files - {temp})[target := File(text)], before, id, kind, calls.random, text) by {
      OnlyTheTwoDiffer(folder.files, before, id, kind, calls.random, text);
    }
    r := folder.Replace(temp, target, calls.replace);
    hide OldOrNew;
    if !r.Fine? { return; }
    r := calls.chmodTarget;
  }

  lemma OnlyTheTwoDiffer(files: Files, before: Files, id: string, kind: Kind, random: string, text: string)
    requires SameElsewhere(files, before, {TempName(id, kind, random)})
    ensures OldOrNew((files - {TempName(id, kind, random)})[FileName(id, kind) := File(text)], before, id, kind,
      random, text)
  {
    hide TempName, FileName;
  }

  /** `mkstemp` and the write of the temporary. */
  method FillTemp(folder: Folder, id: string, kind: Kind, text: string, calls: StoreCalls) returns (r: Fault)
    requires ValidId(id) && calls.Proper(folder.files, id, kind)
    modifies folder
    ensures AlwaysOldOrNew(folder.history, |old(folder.history)|, old(folder.files), id, kind, calls.random, text)
    ensures SameElsewhere(folder.files, old(folder.files), {TempName(id, kind, calls.random)})
    ensures r.Fine? <==> calls.make.Fine? && calls.write.Wrote?
    ensures r.Fine? ==> At(folder.files, TempName(id, kind, calls.random)) == Some(File(text))
    ensures At(folder.files, TempName(id, kind, calls.random)) != Some(Directory)
    ensures calls.OnlyOsErrors() ==> r.Fine? || r.OsFault?
  {
    TempsAreNoArtifacts(id, kind, calls.random, id, kind);
    hide TempName, FileName, ValidId;
    hide OldOrNew, SameElsewhere;
    var temp := TempName(id, kind, calls.random);
    ghost var before := folder.files;
    OnlyTheTempDiffers(before, before, id, kind, calls.random, text, "");
    r := folder.Create(temp, calls.make);
    if !r.Fine? { return; }
    ghost var made := folder.files;
    OnlyTheTempDiffers(made, before, id, kind, calls.random, text, calls.write.torn);
    OnlyTheTempDiffers(made, before, id, kind, calls.random, text, text);
    r := folder.Write(temp, text, calls.write);
  }

  lemma OnlyTheTempDiffers(files: Files, before: Files, id: string, kind: Kind, random: string, text: string,
      content: string)
    requires files == before || SameElsewhere(files, before, {TempName(id, kind, random)})
    requires TempName(id, kind, random) != FileName(id, kind)
    ensures SameElsewhere(files, before, {TempName(id, kind, random)})
      && OldOrNew(files, before, id, kind, random, text)
    ensures var written := files[TempName(id, kind, random) := File(content)];
            SameElsewhere(written, before, {TempName(id, kind, random)})
              && OldOrNew(written, before, id, kind, random, text)
  {
    hide TempName, FileName;
    assert At(before, FileName(id, kind)) == At(files, FileName(id, kind));
  }

  /** Whatever happens during a write, every other artifact stays as it was. */
  lemma OtherArtifactsStay(moment: Files, before: Files, id: string, kind: Kind, random: string, text: string,
                           otherId: string, otherKind: Kind)
    requires ValidId(id) && ValidId(otherId) && (id, kind) != (otherId, otherKind)
    requires OldOrNew(moment, before, id, kind, random, text)
    ensures At(moment, FileName(otherId, otherKind)) == At(before, FileName(otherId, otherKind))
  {
    FileNamesAreApart(id, kind, otherId, otherKind);
    TempsAreNoArtifacts(id, kind, random, otherId, otherKind);
  }

  // ------------------------------------------------------- jobs

  /** The hosted job codec, `HostedLaunchJob.to_dict` and `hosted_launch_job_from_dict`. */
  datatype Codec<!J> = Codec(
    idOf: J -> string, toDict: J -> Outcome<map<string, Value>>, fromDict: map<string, Value> -> Outcome<J>)
  {
    ghost predicate RoundTrips(job: J) {
      toDict(job).Returned? && fromDict(toDict(job).value) == Returned(job)
    }
  }

  const SNAPSHOT_BOUNDARY := "hosted job store secret boundary"

  function SnapshotPayload(wire: Wire, id: string, dict: map<string, Value>): Value {
    Obj(map["schema_version" := Str(SNAPSHOT_SCHEMA), "job_id" := Str(id), "job_sha256" := Str(wire.Hash(dict)),
            "job" := Obj(dict), "secret_boundary" := Str(SNAPSHOT_BOUNDARY)])
  }

  /** What `put` accepts. */
  predicate Storable<J>(wire: Wire, codec: Codec<J>, job: J) {
    && ValidId(codec.idOf(job)) && codec.toDict(job).Returned?
    && codec.fromDict(codec.toDict(job).value).Returned?
    && !wire.isPrivate(wire.spaced(Obj(codec.toDict(job).value)))
    && !wire.isPrivate(wire.compact(SnapshotPayload(wire, codec.idOf(job), codec.toDict(job).value)))
  }

  /** The file `put` writes for a job. */
  function SnapshotText<J>(wire: Wire, codec: Codec<J>, job: J): string
    requires codec.toDict(job).Returned?
  {
    wire.Text(SnapshotPayload(wire, codec.idOf(job), codec.toDict(job).value))
  }

  /** `HostedJobStore.put`. */
  method Put<J>(folder: Folder, wire: Wire, codec: Codec<J>, job: J, calls: StoreCalls) returns (r: Fault)
    requires calls.Proper(folder.files, codec.idOf(job), Snapshot)
    modifies folder
    ensures !Storable(wire, codec, job) ==> !r.Fine? && folder.files == old(folder.files)
    ensures Storable(wire, codec, job) ==>
      && AlwaysOldOrNew(folder.history, |old(folder.history)|, old(folder.files),
                        codec.idOf(job), Snapshot, calls.random, SnapshotText(wire, codec, job))
      && Stored(folder.files, old(folder.files), codec.idOf(job), Snapshot, calls, SnapshotText(wire, codec, job), r)
      && (calls.AllFine() ==> r.Fine?)
  {
    hide OldOrNew, ValidId;
    var id := codec.idOf(job);
    if !ValidId(id) {
      return FuseKitFault("id is invalid");
    }
    var dict := codec.toDict(job);
    if dict.Raised? {
      return if dict.fault.Fine? then OtherFault else dict.fault;
    }
    var decoded := codec.fromDict(dict.value);
    if decoded.Raised? {
      return if decoded.fault.Fine? then OtherFault else decoded.fault;
    }
    if wire.isPrivate(wire.spaced(Obj(dict.value))) {
      return FuseKitFault("private-looking text");
    }
    r := WritePublicPayload(folder, wire, id, Snapshot, SnapshotPayload(wire, id, dict.value), calls);
  }

  // ------------------------------------------------------- reading

  /** `_read_public_json_object`; `lstat` and `open` are what the operating system answers
      about a name that exists. */
  function ReadObject(files: Files, name: string, wire: Wire, lstat: Fault,
      open: Fault): Outcome<Option<map<string, Value>>> {
    if lstat.Fine? && name !in files then Returned(None)
    else if lstat.OsFault? then Raised(FuseKitFault("unreadable"))
    else if !lstat.Fine? then Raised(lstat)
    else if !files[name].File? then Raised(FuseKitFault("must be a regular file"))
    else if |files[name].content| > MAX_BYTES then Raised(FuseKitFault("too large"))
    else if open.OsFault? then Raised(FuseKitFault("unreadable"))
    else if !open.Fine? then Raised(open)
    else
      match wire.parse(files[name].content)
      case None => Raised(FuseKitFault("unreadable"))
      case Some(v) => if v.Obj? then Returned(Some(v.fields)) else Raised(FuseKitFault("invalid"))
  }

  /** `HostedJobStore.get`. */
  function GetJob<J>(files: Files, wire: Wire, codec: Codec<J>, id: string, lstat: Fault,
      open: Fault): Outcome<Option<J>> {
    if !ValidId(id) then Raised(FuseKitFault("id is invalid"))
    else
      var found :- ReadObject(files, FileName(id, Snapshot), wire, lstat, open);
      match found
      case None => Returned(None)
      case Some(payload) =>
        if Get(payload, "schema_version", Null) != Str(SNAPSHOT_SCHEMA)
          then Raised(FuseKitFault("schema is unsupported"))
        else if !Get(payload, "job", Null).Obj? then Raised(FuseKitFault("missing job state"))
        else
          var dict := payload["job"].fields;
          if Get(payload, "job_sha256", Null) != Str(wire.Hash(dict)) then Raised(FuseKitFault("hash mismatch"))
          else
            var job :- codec.fromDict(dict);
            if codec.idOf(job) != id then Raised(FuseKitFault("id mismatch")) else Returned(Some(job))
  }

  /** Reading what `put` wrote: the same job when the file is within the reader's limit,
      and an error otherwise, for the writer has no limit.  The same file under the name
      of another job is refused. */
  lemma ReadsBack<J>(files: Files, wire: Wire, codec: Codec<J>, job: J, id: string)
    requires codec.RoundTrips(job) && ValidId(id)
    requires wire.Keeps(SnapshotPayload(wire, codec.idOf(job), codec.toDict(job).value))
    requires At(files, FileName(id, Snapshot)) == Some(File(SnapshotText(wire, codec, job)))
    ensures GetJob(files, wire, codec, id, Fine, Fine) == Returned(Some(job)) <==>
            |SnapshotText(wire, codec, job)| <= MAX_BYTES && id == codec.idOf(job)
    ensures GetJob(files, wire, codec, id, Fine, Fine) != Returned(Some(job)) ==>
      GetJob(files, wire, codec, id, Fine, Fine).Raised?
  {
    hide FileName, ValidId;
  }

  /** At every moment of a `put`, whatever fails, a reader gets what it got before or what
      it will get once the job is stored; readers of other jobs notice nothing. */
  lemma ReadersSeeOldOrNew<J>(moment: Files, before: Files, wire: Wire, codec: Codec<J>, job: J, random: string,
                              id: string, lstat: Fault, open: Fault)
    requires ValidId(codec.idOf(job)) && codec.toDict(job).Returned?
    requires OldOrNew(moment, before, codec.idOf(job), Snapshot, random, SnapshotText(wire, codec, job))
    ensures
      var now := GetJob(moment, wire, codec, id, lstat, open);
      var stored := before[FileName(codec.idOf(job), Snapshot) := File(SnapshotText(wire, codec, job))];
      || now == GetJob(before, wire, codec, id, lstat, open)
      || (id == codec.idOf(job) && now == GetJob(stored, wire, codec, id, lstat, open))
  {
    hide FileName, ValidId, SnapshotText;
    if ValidId(id) {
      if id != codec.idOf(job) {
        OtherArtifactsStay(moment, before, codec.idOf(job), Snapshot, random, SnapshotText(wire, codec, job), id,
          Snapshot);
      }
      var stored := before[FileName(codec.idOf(job), Snapshot) := File(SnapshotText(wire, codec, job))];
      if At(moment, FileName(id, Snapshot)) == At(before, FileName(id, Snapshot)) {
        GetDependsOnItsFile(moment, before, wire, codec, id, lstat, open);
      } else {
        GetDependsOnItsFile(moment, stored, wire, codec, id, lstat, open);
      }
    }
  }

  lemma GetDependsOnItsFile<J>(a: Files, b: Files, wire: Wire, codec: Codec<J>, id: string, lstat: Fault, open: Fault)
    requires At(a, FileName(id, Snapshot)) == At(b, FileName(id, Snapshot))
    ensures GetJob(a, wire, codec, id, lstat, open) == GetJob(b, wire, codec, id, lstat, open)
  {
    hide FileName, ValidId;
    assert ReadObject(a, FileName(id, Snapshot), wire, lstat, open) ==
      ReadObject(b, FileName(id, Snapshot), wire, lstat, open);
  }
}
