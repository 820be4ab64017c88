/** The comparisons of the run record with its artifacts by sorted signatures
    (detonation/preflight.py).

    A signature row is a tuple; here it is a list of cells, each a list of texts: a text is a
    cell of one, the captured targets are a cell of any length, and a flag is the cell of its
    name, which sorts as the flag does. */
module Signatures {
  import opened Json
  import opened Sorting
  import opened Text

  type Cell = seq<string>
  type Row = seq<Cell>

  /** Python's order on cells and on rows. */
  predicate CellLe(a: Cell, b: Cell) { Lex(a, b, StringLe) }
  predicate RowLe(a: Row, b: Row) { Lex(a, b, CellLe) }

  lemma CellOrder()
    ensures TotalOrder(CellLe)
  {
    StringOrder();
    forall a: Cell, b: Cell
      ensures CellLe(a, b) || CellLe(b, a)
      ensures CellLe(a, b) && CellLe(b, a) ==> a == b
    {
      LexTotal(a, b, StringLe);
    }
    forall a: Cell, b: Cell, c: Cell | CellLe(a, b) && CellLe(b, c) ensures CellLe(a, c) {
      LexTransitive(a, b, c, StringLe);
    }
  }

  lemma RowOrder()
    ensures TotalOrder(RowLe)
  {
    CellOrder();
    forall a: Row, b: Row
      ensures RowLe(a, b) || RowLe(b, a)
      ensures RowLe(a, b) && RowLe(b, a) ==> a == b
    {
      LexTotal(a, b, CellLe);
    }
    forall a: Row, b: Row, c: Row | RowLe(a, b) && RowLe(b, c) ensures RowLe(a, c) {
      LexTransitive(a, b, c, CellLe);
    }
  }

  // ------------------------------------------------------- rows

  type Show = Value -> string
  type RowOf = map<string, Value> -> Row

  /** The objects of a list, in order; anything else has none. */
  function Objects(v: Value): seq<map<string, Value>> {
    if v.Arr? then ObjectsOf(v.items) else []
  }

  function ObjectsOf(items: seq<Value>): seq<map<string, Value>> {
    if items == [] then [] else (if items[0].Obj? then [items[0].fields] else []) + ObjectsOf(items[1..])
  }

  /** `raw.get(key, [])` of an object; anything else has nothing. */
  function Member(raw: Value, key: string): Value { if raw.Obj? then Get(raw.fields, key, Arr([])) else Arr([]) }

  /** `str(fields.get(key, "") or otherwise).strip()` as a cell. */
  function Word(fields: map<string, Value>, key: string, otherwise: string, show: Show): Cell {
    [Strip(TextField(fields, key, otherwise, show))]
  }

  function LowerWord(fields: map<string, Value>, key: string, otherwise: string, show: Show): Cell {
    [Lower(Strip(TextField(fields, key, otherwise, show)))]
  }

  function Flag(b: bool): Cell { [if b then "True" else "False"] }

  function NonEmptyTexts(items: seq<Value>, show: Show): seq<string> {
    if items == [] then []
    else (if TextOf(items[0], show) != "" then [TextOf(items[0], show)] else []) + NonEmptyTexts(items[1..], show)
  }

  function TargetTexts(fields: map<string, Value>, show: Show): seq<string> {
    var captured := Get(fields, "captured_targets", Arr([]));
    if captured.Arr? then NonEmptyTexts(captured.items, show) else []
  }

  function Targets(fields: map<string, Value>, show: Show): Cell { Sort(TargetTexts(fields, show), StringLe) }

  function GateRow(show: Show): RowOf {
    (gate: map<string, Value>) => [
      Word(gate, "id", "", show), Word(gate, "provider", "", show), Word(gate, "status", "unknown", show),
      Word(gate, "classification", "", show), Word(gate, "target", "", show), Targets(gate, show),
      Word(gate, "last_wake_event_id", "", show), Word(gate, "last_wake_event", "", show)]
  }

  function EventRow(show: Show): RowOf {
    (event: map<string, Value>) => [
      Word(event, "id", "", show), Word(event, "event", "unknown", show), Word(event, "gate_id", "unknown", show),
      Word(event, "provider", "", show), Word(event, "classification", "", show),
        Word(event, "status", "unknown", show),
      Word(event, "target", "", show), Targets(event, show)]
  }

  function CheckRow(show: Show): RowOf {
    (check: map<string, Value>) =>
      var details := Get(check, "details", Obj(map[]));
      var raw := Strip(TextField(check, "status", "", show));
      var pendingSafe := raw == "pending_safe"
                         || (raw == "pending" && details.Obj?
                           && Get(details.fields, "pending_safe", Null) == Bool(true));
      [LowerWord(check, "provider", "", show), LowerWord(check, "check", "provider_status", show),
       [if pendingSafe then "pending_safe" else if raw != "" then raw else "unknown"], Flag(pendingSafe)]
  }

  function VerifierRow(show: Show): RowOf {
    (check: map<string, Value>) => [
      LowerWord(check, "provider", "", show), LowerWord(check, "check", "provider_status", show),
      Word(check, "status", "unknown", show), Flag(Get(check, "pending_safe", Null) == Bool(true))]
  }

  /** The projected rows of a list of records. */
  function Rows(records: Value, rowOf: RowOf): seq<Row> { Map(Objects(records), rowOf) }

  /** The loop that the signature functions share: rows of the objects, then sorted. */
  method Signature(records: Value, rowOf: RowOf) returns (signature: seq<Row>)
    ensures signature == Sort(Rows(records, rowOf), RowLe)
    ensures signature == [] <==> Rows(records, rowOf) == []
  {
    if !records.Arr? {
      return [];
    }
    var rows: seq<Row> := [];
    for i := 0 to |records.items|
      invariant rows + Map(ObjectsOf(records.items[i..]), rowOf) == Map(ObjectsOf(records.items), rowOf)
    {
      var rest := records.items[i..];
      assert rest[1..] == records.items[i + 1..];
      if !records.items[i].Obj? {
        assert ObjectsOf(rest) == ObjectsOf(rest[1..]);
        continue;
      }
      assert Map(ObjectsOf(rest), rowOf) == [rowOf(rest[0].fields)] + Map(ObjectsOf(rest[1..]), rowOf);
      rows := rows + [rowOf(records.items[i].fields)];
    }
    assert rows + [] == rows;
    SortPermutes(rows, RowLe);
    signature := Sort(rows, RowLe);
  }

  // ------------------------------------------------------- comparisons

  ghost predicate SameRows(a: seq<Row>, b: seq<Row>) { multiset(a) == multiset(b) }

  lemma SignaturesCompareRows(a: seq<Row>, b: seq<Row>)
    ensures Sort(a, RowLe) == Sort(b, RowLe) <==> SameRows(a, b)
  {
    RowOrder();
    SameSortedForm(a, b, RowLe);
  }

  /** No object of the list is passed over, and none counts twice. */
  lemma {:induction false} EveryObjectCounts(items: seq<Value>, x: map<string, Value>)
    ensures multiset(Objects(Arr(items)))[x] == multiset(items)[Obj(x)]
  {
    if items != [] {
      var head := if items[0].Obj? then [items[0].fields] else [];
      assert items == [items[0]] + items[1..];
      assert Objects(Arr(items)) == head + Objects(Arr(items[1..]));
      EveryObjectCounts(items[1..], x);
    }
  }

  // ------------------------------------------------------- what makes two records alike

  type Record = map<string, Value>

  /** The texts under the key agree once stripped; an absent or falsy one reads as `otherwise`. */
  predicate SameText(a: Record, b: Record, key: string, otherwise: string, show: Show) {
    Strip(TextField(a, key, otherwise, show)) == Strip(TextField(b, key, otherwise, show))
  }

  predicate SameLowerText(a: Record, b: Record, key: string, otherwise: string, show: Show) {
    Lower(Strip(TextField(a, key, otherwise, show))) == Lower(Strip(TextField(b, key, otherwise, show)))
  }

  /** How often a record captured a target. */
  function Captures(record: Record, target: string, show: Show): nat {
    var captured := Get(record, "captured_targets", Arr([]));
    if captured.Arr? && target != "" then CountOf(captured.items, target, show) else 0
  }

  function CountOf(items: seq<Value>, text: string, show: Show): nat {
    if items == [] then 0 else (if TextOf(items[0], show) == text then 1 else 0) + CountOf(items[1..], text, show)
  }

  ghost predicate SameCaptures(a: Record, b: Record, show: Show) {
    forall target :: Captures(a, target, show) == Captures(b, target, show)
  }

  ghost predicate SameGate(a: Record, b: Record, show: Show) {
    && SameText(a, b, "id", "", show) && SameText(a, b, "provider", "", show)
    && SameText(a, b, "status", "unknown", show) && SameText(a, b, "classification", "", show)
    && SameText(a, b, "target", "", show)
    && SameText(a, b, "last_wake_event_id", "", show) && SameText(a, b, "last_wake_event", "", show)
    && SameCaptures(a, b, show)
  }

  ghost predicate SameEvent(a: Record, b: Record, show: Show) {
    && SameText(a, b, "id", "", show) && SameText(a, b, "event", "unknown", show)
    && SameText(a, b, "gate_id", "unknown", show) && SameText(a, b, "provider", "", show)
    && SameText(a, b, "classification", "", show) && SameText(a, b, "status", "unknown", show)
    && SameText(a, b, "target", "", show)
    && SameCaptures(a, b, show)
  }

  /** A check waits safely: its status says so, or it is pending with a literal flag in its
      details. */
  predicate WaitsSafely(check: Record, show: Show) {
    || Strip(TextField(check, "status", "", show)) == "pending_safe"
    || (&& Strip(TextField(check, "status", "", show)) == "pending"
        && "details" in check && check["details"].Obj? && "pending_safe" in check["details"].fields
        && check["details"].fields["pending_safe"] == Bool(true))
  }

  /** The status a check is compared by. */
  function SeenStatus(check: Record, show: Show): string {
    var status := Strip(TextField(check, "status", "", show));
    if WaitsSafely(check, show) then "pending_safe" else if status == "" then "unknown" else status
  }

  predicate SameCheck(a: Record, b: Record, show: Show) {
    && SameLowerText(a, b, "provider", "", show) && SameLowerText(a, b, "check", "provider_status", show)
    && SeenStatus(a, show) == SeenStatus(b, show) && (WaitsSafely(a, show) <==> WaitsSafely(b, show))
  }

  /** A verifier of the run record says what a check of the report says. */
  predicate Verifies(check: Record, verifier: Record, show: Show) {
    && SameLowerText(check, verifier, "provider", "", show)
    && SameLowerText(check, verifier, "check", "provider_status", show)
    && SeenStatus(check, show) == Strip(TextField(verifier, "status", "unknown", show))
    && (WaitsSafely(check, show) <==> "pending_safe" in verifier && verifier["pending_safe"] == Bool(true))
  }

  lemma {:induction false} CapturesAreCounted(items: seq<Value>, text: string, show: Show)
    requires text != ""
    ensures multiset(NonEmptyTexts(items, show))[text] == CountOf(items, text, show)
    ensures "" !in NonEmptyTexts(items, show)
  {
    if items != [] {
      CapturesAreCounted(items[1..], text, show);
      var head := if TextOf(items[0], show) != "" then [TextOf(items[0], show)] else [];
      assert NonEmptyTexts(items, show) == head + NonEmptyTexts(items[1..], show);
    }
  }

  lemma CapturesOf(record: Record, target: string, show: Show)
    ensures multiset(TargetTexts(record, show))[target] == Captures(record, target, show)
  {
    var captured := Get(record, "captured_targets", Arr([]));
    if captured.Arr? {
      CapturesAreCounted(captured.items, if target == "" then "x" else target, show);
    }
  }

  lemma SameTargets(a: Record, b: Record, show: Show)
    ensures Targets(a, show) == Targets(b, show) <==> SameCaptures(a, b, show)
  {
    StringOrder();
    SameSortedForm(TargetTexts(a, show), TargetTexts(b, show), StringLe);
    forall target
      ensures multiset(TargetTexts(a, show))[target] == Captures(a, target, show)
      ensures multiset(TargetTexts(b, show))[target] == Captures(b, target, show)
    {
      CapturesOf(a, target, show);
      CapturesOf(b, target, show);
    }
    hide Captures, TargetTexts;
    assert SameCaptures(a, b, show) ==> multiset(TargetTexts(a, show)) == multiset(TargetTexts(b, show));
  }

  /** Two gates have the same row exactly when they are the same in all that is compared. */
  lemma GateRowsAgree(a: Record, b: Record, show: Show)
    ensures GateRow(show)(a) == GateRow(show)(b) <==> SameGate(a, b, show)
  {
    SameTargets(a, b, show);
    hide Targets, SameCaptures, Strip, TextField;
    SameCells(GateRow(show)(a), GateRow(show)(b));
  }

  lemma EventRowsAgree(a: Record, b: Record, show: Show)
    ensures EventRow(show)(a) == EventRow(show)(b) <==> SameEvent(a, b, show)
  {
    SameTargets(a, b, show);
    hide Targets, SameCaptures, Strip, TextField;
    SameCells(EventRow(show)(a), EventRow(show)(b));
  }

  lemma CheckRowsAgree(a: Record, b: Record, show: Show)
    ensures CheckRow(show)(a) == CheckRow(show)(b) <==> SameCheck(a, b, show)
  {
    hide Strip, TextField, Lower;
    SameCells(CheckRow(show)(a), CheckRow(show)(b));
  }

  lemma VerifierRowsAgree(check: Record, verifier: Record, show: Show)
    ensures CheckRow(show)(check) == VerifierRow(show)(verifier) <==> Verifies(check, verifier, show)
  {
    hide Strip, TextField, Lower;
    SameCells(CheckRow(show)(check), VerifierRow(show)(verifier));
  }

  lemma SameCells(a: Row, b: Row)
    ensures a == b <==> |a| == |b| && forall i :: 0 <= i < |a| ==> a[i] == b[i]
  {
  }

  // ------------------------------------------------------- alike equally often

  /** How many records are like this one. */
  ghost function CountLike(records: seq<Record>, one: Record, like: (Record, Record) -> bool): nat {
    if records == [] then 0
    else (if like(one, records[0]) then 1 else 0) + CountLike(records[1..], one, like)
  }

  /** Both sides hold equally many records, and of each record of the first equally many. */
  ghost predicate Correspond(a: seq<Record>, b: seq<Record>, likeA: (Record, Record) -> bool,
      likeB: (Record, Record) -> bool)
  {
    |a| == |b| && forall x :: x in a ==> CountLike(a, x, likeA) == CountLike(b, x, likeB)
  }

  lemma {:induction false} CountsAreMultiplicities(records: seq<Record>, one: Record, row: Row, rowOf: RowOf,
      like: (Record, Record) -> bool)
    requires forall x :: like(one, x) <==> row == rowOf(x)
    ensures multiset(Map(records, rowOf))[row] == CountLike(records, one, like)
  {
    if records != [] {
      assert Map(records, rowOf) == [rowOf(records[0])] + Map(records[1..], rowOf);
      CountsAreMultiplicities(records[1..], one, row, rowOf, like);
    }
  }

  lemma SameRowsCorrespond(a: seq<Record>, b: seq<Record>, rowA: RowOf, rowB: RowOf, likeA: (Record, Record) -> bool,
      likeB: (Record, Record) -> bool)
    requires forall x, y :: likeA(x, y) <==> rowA(x) == rowA(y)
    requires forall x, y :: likeB(x, y) <==> rowA(x) == rowB(y)
    ensures SameRows(Map(a, rowA), Map(b, rowB)) <==> Correspond(a, b, likeA, likeB)
  {
    var p, q := multiset(Map(a, rowA)), multiset(Map(b, rowB));
    forall x | x in a
      ensures p[rowA(x)] == CountLike(a, x, likeA) && q[rowA(x)] == CountLike(b, x, likeB)
    {
      CountsAreMultiplicities(a, x, rowA(x), rowA, likeA);
      CountsAreMultiplicities(b, x, rowA(x), rowB, likeB);
    }
    assert |p| == |a| && |q| == |b|;
    if Correspond(a, b, likeA, likeB) {
      forall row | row in p ensures p[row] == q[row] {
        var i :| 0 <= i < |a| && Map(a, rowA)[i] == row;
        assert a[i] in a;
      }
      assert p <= q;
      assert |q - p| == 0;
      assert q == p + (q - p);
    }
  }

  ghost function GateLike(show: Show): (Record, Record) -> bool { (a, b) => SameGate(a, b, show) }
  ghost function EventLike(show: Show): (Record, Record) -> bool { (a, b) => SameEvent(a, b, show) }
  ghost function CheckLike(show: Show): (Record, Record) -> bool { (a, b) => SameCheck(a, b, show) }
  ghost function VerifierLike(show: Show): (Record, Record) -> bool { (a, b) => Verifies(a, b, show) }

  lemma GatesCorrespond(a: seq<Record>, b: seq<Record>, show: Show)
    ensures SameRows(Map(a, GateRow(show)), Map(b, GateRow(show)))
       <==> Correspond(a, b, GateLike(show), GateLike(show))
  {
    forall x, y ensures GateLike(show)(x, y) <==> GateRow(show)(x) == GateRow(show)(y) {
      GateRowsAgree(x, y, show);
    }
    hide GateRow, GateLike;
    SameRowsCorrespond(a, b, GateRow(show), GateRow(show), GateLike(show), GateLike(show));
  }

  lemma EventsCorrespond(a: seq<Record>, b: seq<Record>, show: Show)
    ensures SameRows(Map(a, EventRow(show)), Map(b, EventRow(show)))
       <==> Correspond(a, b, EventLike(show), EventLike(show))
  {
    forall x, y ensures EventLike(show)(x, y) <==> EventRow(show)(x) == EventRow(show)(y) {
      EventRowsAgree(x, y, show);
    }
    hide EventRow, EventLike;
    SameRowsCorrespond(a, b, EventRow(show), EventRow(show), EventLike(show), EventLike(show));
  }

  lemma ChecksCorrespond(a: seq<Record>, b: seq<Record>, show: Show)
    ensures SameRows(Map(a, CheckRow(show)), Map(b, CheckRow(show)))
       <==> Correspond(a, b, CheckLike(show), CheckLike(show))
    ensures SameRows(Map(a, CheckRow(show)), Map(b, VerifierRow(show)))
       <==> Correspond(a, b, CheckLike(show), VerifierLike(show))
  {
    forall x, y
      ensures CheckLike(show)(x, y) <==> CheckRow(show)(x) == CheckRow(show)(y)
      ensures VerifierLike(show)(x, y) <==> CheckRow(show)(x) == VerifierRow(show)(y)
    {
      CheckRowsAgree(x, y, show);
      VerifierRowsAgree(x, y, show);
    }
    hide CheckRow, VerifierRow, CheckLike, VerifierLike;
    SameRowsCorrespond(a, b, CheckRow(show), CheckRow(show), CheckLike(show), CheckLike(show));
    SameRowsCorrespond(a, b, CheckRow(show), VerifierRow(show), CheckLike(show), VerifierLike(show));
  }

  /** `_run_record_provider_gates_artifact_failures`: the artifact guards, and beyond it the two
      must hold like gates equally often. */
  method ProviderGatesMatch(runRecord: map<string, Value>, gates: Value, show: Show) returns (ok: bool)
    ensures
      var artifact, run := Rows(Member(gates, "gates"), GateRow(show)),
        Rows(Member(Get(runRecord, "provider_gates", Obj(map[])), "records"), GateRow(show));
      ok <==> artifact == [] || SameRows(artifact, run)
    ensures
      var artifact, run :=
        Objects(Member(gates, "gates")), Objects(Member(Get(runRecord, "provider_gates", Obj(map[])), "records"));
      ok <==> artifact == [] || Correspond(artifact, run, GateLike(show), GateLike(show))
  {
    hide GateRow, Member, GateLike, Correspond;
    GatesCorrespond(Objects(Member(gates, "gates")),
                    Objects(Member(Get(runRecord, "provider_gates", Obj(map[])), "records")), show);
    var artifact := Signature(Member(gates, "gates"), GateRow(show));
    if artifact == [] {
      return true;
    }
    var records := Member(Get(runRecord, "provider_gates", Obj(map[])), "records");
    var run := Signature(records, GateRow(show));
    SignaturesCompareRows(Rows(records, GateRow(show)), Rows(Member(gates, "gates"), GateRow(show)));
    return run == artifact;
  }

  /** `_run_record_gate_events_artifact_failures`: the run record guards.  The events of the
      file are objects, or none when the file could not be used. */
  method WakeEventsMatch(runRecord: map<string, Value>, fileEvents: seq<map<string, Value>>, show: Show)
    returns (ok: bool)
    ensures
      var run := Rows(Member(Get(runRecord, "wake_events", Obj(map[])), "events"), EventRow(show));
      ok <==> run == [] || SameRows(run, Map(fileEvents, EventRow(show)))
    ensures
      var run := Objects(Member(Get(runRecord, "wake_events", Obj(map[])), "events"));
      ok <==> run == [] || Correspond(run, fileEvents, EventLike(show), EventLike(show))
  {
    hide EventRow, Member, EventLike, Correspond;
    EventsCorrespond(Objects(Member(Get(runRecord, "wake_events", Obj(map[])), "events")), fileEvents, show);
    var events := Member(Get(runRecord, "wake_events", Obj(map[])), "events");
    var run := Signature(events, EventRow(show));
    if run == [] {
      return true;
    }
    SignaturesCompareRows(Rows(events, EventRow(show)), Map(fileEvents, EventRow(show)));
    return run == Sort(Map(fileEvents, EventRow(show)), RowLe);
  }

  /** `_run_record_verification_artifact_failures`: the artifact guards both comparisons. */
  method VerificationMatches(runRecord: map<string, Value>, report: Value, show: Show) returns (ok: bool)
    ensures
      var artifact := Rows(Member(report, "checks"), CheckRow(show));
      var verifiers := Rows(Member(Get(runRecord, "verifiers", Obj(map[])), "checks"), VerifierRow(show));
      var embedded := Rows(Member(Get(runRecord, "verification", Obj(map[])), "checks"), CheckRow(show));
      ok <==> artifact == [] || (SameRows(artifact, verifiers) && SameRows(artifact, embedded))
    ensures
      var artifact := Objects(Member(report, "checks"));
      var verifiers := Objects(Member(Get(runRecord, "verifiers", Obj(map[])), "checks"));
      var embedded := Objects(Member(Get(runRecord, "verification", Obj(map[])), "checks"));
      ok <==>
        || artifact == []
        || (&& Correspond(artifact, verifiers, CheckLike(show), VerifierLike(show))
            && Correspond(artifact, embedded, CheckLike(show), CheckLike(show)))
  {
    hide CheckRow, VerifierRow, Member, CheckLike, VerifierLike, Correspond;
    ghost var reported := Objects(Member(report, "checks"));
    ChecksCorrespond(reported, Objects(Member(Get(runRecord, "verifiers", Obj(map[])), "checks")), show);
    ChecksCorrespond(reported, Objects(Member(Get(runRecord, "verification", Obj(map[])), "checks")), show);
    var artifact := Signature(Member(report, "checks"), CheckRow(show));
    if artifact == [] {
      return true;
    }
    var checks := Member(Get(runRecord, "verifiers", Obj(map[])), "checks");
    var verifiers := Signature(checks, VerifierRow(show));
    var embeddedChecks := Member(Get(runRecord, "verification", Obj(map[])), "checks");
    var embedded := Signature(embeddedChecks, CheckRow(show));
    SignaturesCompareRows(Rows(checks, VerifierRow(show)), Rows(Member(report, "checks"), CheckRow(show)));
    SignaturesCompareRows(Rows(embeddedChecks, CheckRow(show)), Rows(Member(report, "checks"), CheckRow(show)));
    return verifiers == artifact && embedded == artifact;
  }

  // ------------------------------------------------------- what order has to do with it

  /** Records in any other order, among whatever is no object, have the same rows. */
  lemma OrderOfRecordsIsIrrelevant(a: Value, b: Value, rowOf: RowOf)
    requires multiset(Objects(a)) == multiset(Objects(b))
    ensures SameRows(Rows(a, rowOf), Rows(b, rowOf))
  {
    MapPermutes(Objects(a), Objects(b), rowOf);
  }

  /** Two records with the same words have the same gate row exactly when they captured the
      same targets the same number of times, in whatever order. */
  lemma OrderOfTargetsIsIrrelevant(a: map<string, Value>, b: map<string, Value>, show: Show)
    ensures GateRow(show)(a) == GateRow(show)(b) <==>
            && (forall i :: 0 <= i < 8 && i != 5 ==> GateRow(show)(a)[i] == GateRow(show)(b)[i])
            && multiset(TargetTexts(a, show)) == multiset(TargetTexts(b, show))
  {
    hide Word, TargetTexts;
    StringOrder();
    SameSortedForm(TargetTexts(a, show), TargetTexts(b, show), StringLe);
    assert GateRow(show)(a)[5] == Targets(a, show) && GateRow(show)(b)[5] == Targets(b, show);
  }
}
