/** The receipt check of the account import, and its agreement with the capture. */
module ImportReceipt {
  import opened Prelude
  import opened Ordering
  import opened ImportPaths
  import opened SourceCapture
  import opened CaptureProperties

  /** What the intent fingerprint is computed over. */
  datatype Intent = Intent(account: string, tool: string, roots: seq<string>, exclude: seq<string>, history: bool,
                           manifest: seq<ManifestEntry>)

  /** A fingerprint stands for its own preimage: hashing is taken to be injective. */
  datatype Fingerprint = Fingerprint(preimage: Intent)

  /** A task identifier of the import form, or any other text. */
  datatype Task = ImportTask(account: string, uuid: nat) | OtherTask(text: string)

  datatype Plan = Plan(account: string, roots: seq<string>, exclude: seq<string>, history: bool,
                       manifest: seq<ManifestEntry>)

  datatype Record = Record(requestId: nat, account: string, fingerprint: Fingerprint, task: Option<Task>)

  datatype Receipt = Receipt(
    schemaVersion: nat, requestId: nat, account: string, tool: string, source: string, dryRun: bool,
    fingerprint: Fingerprint, task: Task, roots: seq<string>, exclude: seq<string>, history: bool,
    accepted: seq<string>, rejected: seq<string>, manifest: seq<ManifestEntry>, fileCount: nat,
    warnings: seq<string>, remotePath: string)

  const TOOL := "claude"
  const ORIGIN := "local_cli"
  const WARNINGS := ["CONFIG_IMPORT_EXECUTABLE_REVIEW_REQUIRED", "CONFIG_IMPORT_CUSTOM_MARKDOWN_REVIEW_REQUIRED"]
  const MAX_REMOTE_PATH := 4096
  const U64_LIMIT := 0x1_0000_0000_0000_0000

  function PlanIntent(plan: Plan): Fingerprint {
    Fingerprint(Intent(plan.account, TOOL, plan.roots, plan.exclude, plan.history, plan.manifest))
  }

  function ReceiptIntent(r: Receipt): Fingerprint {
    Fingerprint(Intent(r.account, r.tool, r.roots, r.exclude, r.history, r.manifest))
  }

  predicate ValidTask(t: Task, account: string) {
    t.ImportTask? && t.account == account
  }

  /** The parts a server may choose freely. */
  predicate ValidExtras(warnings: seq<string>, remotePath: string) {
    && |warnings| <= 2
    && (forall i :: 0 <= i < |warnings| ==> warnings[i] in WARNINGS)
    && Bytes(remotePath) <= MAX_REMOTE_PATH
    && (forall i :: 0 <= i < |remotePath| ==> !IsControl(remotePath[i]))
  }

  predicate ValidHeader(r: Receipt, record: Record) {
    && r.schemaVersion == 1
    && r.requestId == record.requestId
    && r.account == record.account
    && r.tool == TOOL
    && r.source == ORIGIN
    && !r.dryRun
    && r.fingerprint == record.fingerprint
    && ValidTask(r.task, record.account)
    && (record.task.Some? ==> record.task.value == r.task)
    && r.accepted == r.roots
    && r.rejected == []
    && r.manifest != []
    && |r.manifest| <= MAX_ENTRIES
    && r.fileCount == |r.manifest|
    && ValidExtras(r.warnings, r.remotePath)
  }

  /** The receipts the check is meant to accept, without reference to its loop. */
  ghost predicate Acceptable(r: Receipt, record: Record) {
    ValidHeader(r, record) && GoodManifest(r.manifest) && ReceiptIntent(r) == record.fingerprint
  }

  lemma SortedSnoc(m: seq<ManifestEntry>, e: ManifestEntry)
    requires StrictlySortedBy(m, PathOf) && (m != [] ==> Before(PathOf(m[|m| - 1]), PathOf(e)))
    ensures StrictlySortedBy(m + [e], PathOf)
  {
    forall i | 0 <= i < |m| ensures Before(PathOf(m[i]), PathOf(e)) {
      if i < |m| - 1 {
        Transitive(PathOf(m[i]), PathOf(m[|m| - 1]), PathOf(e));
      }
    }
  }

  /** The manifest loop, with the running predecessor and byte total; the total stays within 64 bits. */
  method CheckLines(m: seq<ManifestEntry>, good: ManifestEntry -> bool) returns (ok: bool, total: nat)
    requires |m| <= MAX_ENTRIES && forall e :: good(e) ==> e.path != "" && e.size <= MAX_FILE_BYTES
    ensures ok <==> StrictlySortedBy(m, PathOf) && forall i :: 0 <= i < |m| ==> good(m[i])
    ensures ok ==> total == SumSizes(m)
  {
    var previous := "";
    total := 0;
    for k := 0 to |m|
      invariant forall i :: 0 <= i < k ==> good(m[i])
      invariant StrictlySortedBy(m[..k], PathOf)
      invariant previous == if k == 0 then "" else m[k - 1].path
      invariant total == SumSizes(m[..k]) && total <= k * MAX_FILE_BYTES
    {
      var entry := m[k];
      if !Before(previous, entry.path) || !good(entry) {
        assert k > 0 && StrictlySortedBy(m, PathOf) ==> Before(PathOf(m[k - 1]), PathOf(m[k]));
        return false, total;
      }
      assert m[..k + 1] == m[..k] + [entry];
      SortedSnoc(m[..k], entry);
      SumSnoc(m[..k], entry);
      previous := entry.path;
      total := total + entry.size;
      assert total < U64_LIMIT;
    }
    assert m[..|m|] == m;
    ok := true;
  }

  method Validate(r: Receipt, record: Record) returns (ok: bool)
    ensures ok <==> Acceptable(r, record)
  {
    if !ValidHeader(r, record) {
      return false;
    }
    var total;
    ok, total := CheckLines(r.manifest, GoodLine);
    ok := ok && total <= MAX_TOTAL_BYTES && ReceiptIntent(r) == record.fingerprint;
  }

  lemma {:induction false} SumSnoc(m: seq<ManifestEntry>, e: ManifestEntry)
    ensures SumSizes(m + [e]) == SumSizes(m) + e.size
  {
    if m == [] {
      assert (m + [e])[1..] == [];
    } else {
      assert (m + [e])[1..] == m[1..] + [e];
      SumSnoc(m[1..], e);
    }
  }

  /** The receipt of a server that took the plan as it is. */
  function Echo(plan: Plan, record: Record, task: Task, warnings: seq<string>, remotePath: string): Receipt {
    Receipt(1, record.requestId, plan.account, TOOL, ORIGIN, false, PlanIntent(plan), task, plan.roots, plan.exclude,
            plan.history, plan.roots, [], plan.manifest, |plan.manifest|, warnings, remotePath)
  }

  /** The journal record reserved for a plan. */
  predicate RecordOf(record: Record, plan: Plan) {
    record.account == plan.account && record.fingerprint == PlanIntent(plan)
  }

  /** For a plan with a good non-empty manifest the accepted receipts are exactly the honest echoes: any of them
      passes, and whatever passes carries the plan's account, tool, roots, exclusions, history flag and manifest. */
  lemma AcceptsExactlyTheEcho(plan: Plan, record: Record, r: Receipt)
    requires RecordOf(record, plan) && GoodManifest(plan.manifest) && plan.manifest != []
    ensures Acceptable(r, record) <==>
              && r == Echo(plan, record, r.task, r.warnings, r.remotePath)
              && ValidTask(r.task, plan.account)
              && (record.task.Some? ==> record.task.value == r.task)
              && ValidExtras(r.warnings, r.remotePath)
  {
  }

  /** What an accepted receipt shows, in the check's own numbers. */
  lemma AcceptedReceiptShows(r: Receipt, record: Record, i: nat)
    requires Acceptable(r, record) && i < |r.manifest|
    ensures var m := r.manifest[i];
            && "~/.claude/" <= m.path && Bytes(m.path) <= 1024 && m.size <= 1_048_576 && m.mode == 384
            && m.sha256.Sha256?
            && (forall c :: c in Components(m.path) ==> c != "" && c != "." && c != "..")
            && (i > 0 ==> Before(r.manifest[i - 1].path, m.path))
    ensures 0 < |r.manifest| <= 2048 && r.fileCount == |r.manifest| && SumSizes(r.manifest) <= 8_388_608
    ensures r.task.ImportTask? && r.task.account == r.account == record.account && r.tool == "claude" && !r.dryRun
    ensures |r.warnings| <= 2 && Bytes(r.remotePath) <= 4096 && r.accepted == r.roots && r.rejected == []
    ensures forall k :: 0 <= k < |r.warnings| ==>
              r.warnings[k] == "CONFIG_IMPORT_EXECUTABLE_REVIEW_REQUIRED"
              || r.warnings[k] == "CONFIG_IMPORT_CUSTOM_MARKDOWN_REVIEW_REQUIRED"
    ensures forall k :: 0 <= k < |r.remotePath| ==> r.remotePath[k] >= ' ' && r.remotePath[k] != '\U{7f}'
    ensures r.requestId == record.requestId && r.source == "local_cli" && r.schemaVersion == 1
  {
    assert ROOT + "/" == "~/.claude/";
    assert GoodLine(r.manifest[i]);
    if i > 0 {
      assert Before(PathOf(r.manifest[i - 1]), PathOf(r.manifest[i]));
    }
  }

  /** Capture and check agree: the honest echo of every non-empty capture passes. */
  lemma CapturedEchoPasses(s: Source, sel: Selection, plan: Plan, record: Record, uuid: nat)
    requires Proper(s.graph) && WholeWalk(s, sel, true).Some?
    requires WithinBudgets(Visited(Start(s), WholeWalk(s, sel, true).value.1, true))
    requires plan.manifest == SortBy(Manifest(WholeWalk(s, sel, true).value.1), PathOf) && plan.manifest != []
    requires RecordOf(record, plan) && record.task == None
    ensures Acceptable(Echo(plan, record, ImportTask(plan.account, uuid), [], ""), record)
  {
    CapturedManifestGood(s, sel);
    AcceptsExactlyTheEcho(plan, record, Echo(plan, record, ImportTask(plan.account, uuid), [], ""));
  }
}
