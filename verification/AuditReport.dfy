/**
 The canonical form of an audit report: the comparison of issues by keys joined with NUL, and the
 verified report whose issues are those of the byte scan and those found when it is re-checked.
 */
module AuditReport {
  import opened Wrappers
  import opened Ordering

  datatype Issue = Issue(
    companyId: Option<string>,
    documentId: Option<string>,
    storageKey: Option<string>,
    code: string,
    detail: string)

  function OrEmpty(s: Option<string>): (r: string)
    ensures s == Some(r) || (s == None && r == "")
  {
    if s.Some? then s.value else ""
  }

  /** The five fields the comparison reads. */
  function Fields(issue: Issue): (fields: seq<string>)
    ensures |fields| == 5
  {
    [OrEmpty(issue.companyId), OrEmpty(issue.documentId), OrEmpty(issue.storageKey), issue.code, issue.detail]
  }

  function JoinNul(fields: seq<string>): string {
    if fields == [] then ""
    else if |fields| == 1 then fields[0]
    else fields[0] + ['\0'] + JoinNul(fields[1..])
  }

  predicate IssueBefore(left: Issue, right: Issue) {
    Before(JoinNul(Fields(left)), JoinNul(Fields(right)))
  }

  function CompareAuditIssues(left: Issue, right: Issue): int {
    if IssueBefore(left, right) then -1 else if IssueBefore(right, left) then 1 else 0
  }

  // ----- Joined keys against field by field -----

  /** The first field that differs decides. */
  predicate FieldsBefore(left: seq<string>, right: seq<string>)
    requires |left| == |right|
  {
    if left == [] then false
    else if left[0] != right[0] then Before(left[0], right[0])
    else FieldsBefore(left[1..], right[1..])
  }

  predicate NulFree(fields: seq<string>) {
    forall i :: 0 <= i < |fields| ==> '\0' !in fields[i]
  }

  /** Comparing texts that both continue after a NUL compares the parts before it first. */
  lemma {:induction false} BeforeAcrossNul(a: string, b: string, x: string, y: string)
    requires '\0' !in a && '\0' !in b
    ensures Before(a + ['\0'] + x, b + ['\0'] + y) <==> if a == b then Before(x, y) else Before(a, b)
  {
    var s, t := a + ['\0'] + x, b + ['\0'] + y;
    if a == [] || b == [] {
      if a == [] { assert s[0] == '\0' && s[1..] == x; } else { assert s[0] == a[0]; }
      if b == [] { assert t[0] == '\0' && t[1..] == y; } else { assert t[0] == b[0]; }
    } else {
      assert s[0] == a[0] && t[0] == b[0];
      assert s[1..] == a[1..] + ['\0'] + x && t[1..] == b[1..] + ['\0'] + y;
      assert a == [a[0]] + a[1..] && b == [b[0]] + b[1..];
      BeforeAcrossNul(a[1..], b[1..], x, y);
    }
  }

  /** Without NUL in any field, comparing joined keys is comparing field by field. */
  lemma {:induction false} JoinedIsFieldByField(left: seq<string>, right: seq<string>)
    requires |left| == |right| && NulFree(left) && NulFree(right)
    ensures Before(JoinNul(left), JoinNul(right)) <==> FieldsBefore(left, right)
  {
    if |left| == 1 {
      BeforeIsTotal(left[0], right[0]);
    } else if |left| > 1 {
      BeforeAcrossNul(left[0], right[0], JoinNul(left[1..]), JoinNul(right[1..]));
      JoinedIsFieldByField(left[1..], right[1..]);
    }
  }

  predicate Over(alphabet: set<char>, fields: seq<string>) {
    forall i, c :: 0 <= i < |fields| && c in fields[i] ==> c in alphabet
  }

  /** On every two issues whose fields use the alphabet. */
  ghost predicate ComparesFieldByField(alphabet: set<char>) {
    forall a: Issue, b: Issue :: Over(alphabet, Fields(a)) && Over(alphabet, Fields(b)) ==>
      (IssueBefore(a, b) <==> FieldsBefore(Fields(a), Fields(b)))
  }

  lemma NextField(x: seq<string>, y: seq<string>, i: nat)
    requires i < |x| == |y|
    ensures FieldsBefore(x[i..], y[i..]) <==> if x[i] != y[i] then Before(x[i], y[i]) else FieldsBefore(x[i + 1..], y[i + 1..])
  {
    assert x[i..][1..] == x[i + 1..] && y[i..][1..] == y[i + 1..];
  }

  lemma NextJoined(x: seq<string>, i: nat)
    requires i + 1 < |x|
    ensures JoinNul(x[i..]) == x[i] + ['\0'] + JoinNul(x[i + 1..])
  {
    assert x[i..][0] == x[i] && x[i..][1..] == x[i + 1..];
  }

  /** A NUL may stand in the code or in the detail: the keys are the same, the fields are not. */
  lemma TiedIssues(a: Issue, b: Issue)
    requires a == Issue(None, None, None, "\0", "") && b == Issue(None, None, None, "", "\0")
    ensures !IssueBefore(b, a) && FieldsBefore(Fields(b), Fields(a))
  {
    var x, y := Fields(b), Fields(a);
    assert x[0..] == x && y[0..] == y;
    SharedHead(x, y);
    NextField(x, y, 3);
    NextJoined(x, 3);
    NextJoined(y, 3);
    assert JoinNul(x[4..]) == "\0" && JoinNul(y[4..]) == "";
    assert JoinNul(x[3..]) == ['\0', '\0'] == JoinNul(y[3..]);
    BeforeIsTotal(JoinNul(x), JoinNul(y));
  }

  lemma SharedHead(x: seq<string>, y: seq<string>)
    requires |x| == |y| == 5 && x[..3] == y[..3]
    ensures FieldsBefore(x[0..], y[0..]) <==> FieldsBefore(x[3..], y[3..])
    ensures JoinNul(x[3..]) == JoinNul(y[3..]) ==> JoinNul(x[0..]) == JoinNul(y[0..])
  {
    assert x[0] == x[..3][0] && x[1] == x[..3][1] && x[2] == x[..3][2];
    assert y[0] == y[..3][0] && y[1] == y[..3][1] && y[2] == y[..3][2];
    NextField(x, y, 0);
    NextField(x, y, 1);
    NextField(x, y, 2);
    NextJoined(x, 0);
    NextJoined(x, 1);
    NextJoined(x, 2);
    NextJoined(y, 0);
    NextJoined(y, 1);
    NextJoined(y, 2);
  }

  /** The separator is not escaped, so NUL is the one character the comparison cannot take. */
  lemma ComparisonNeedsNulFree(alphabet: set<char>)
    ensures ComparesFieldByField(alphabet) <==> '\0' !in alphabet
  {
    if '\0' in alphabet {
      var a, b := Issue(None, None, None, "\0", ""), Issue(None, None, None, "", "\0");
      assert Over(alphabet, Fields(a)) && Over(alphabet, Fields(b));
      TiedIssues(a, b);
    } else {
      forall a: Issue, b: Issue | Over(alphabet, Fields(a)) && Over(alphabet, Fields(b))
        ensures IssueBefore(a, b) <==> FieldsBefore(Fields(a), Fields(b))
      {
        assert NulFree(Fields(a)) && NulFree(Fields(b));
        JoinedIsFieldByField(Fields(a), Fields(b));
      }
    }
  }

  /** Company, document, storage key, code and detail decide in this order. */
  lemma IssueOrder(a: Issue, b: Issue)
    requires NulFree(Fields(a)) && NulFree(Fields(b))
    ensures CompareAuditIssues(a, b) < 0 <==>
            if OrEmpty(a.companyId) != OrEmpty(b.companyId) then Before(OrEmpty(a.companyId), OrEmpty(b.companyId))
            else if OrEmpty(a.documentId) != OrEmpty(b.documentId) then Before(OrEmpty(a.documentId), OrEmpty(b.documentId))
            else if OrEmpty(a.storageKey) != OrEmpty(b.storageKey) then Before(OrEmpty(a.storageKey), OrEmpty(b.storageKey))
            else if a.code != b.code then Before(a.code, b.code)
            else Before(a.detail, b.detail)
  {
    var x, y := Fields(a), Fields(b);
    JoinedIsFieldByField(x, y);
    assert x[0..] == x && y[0..] == y;
    NextField(x, y, 0);
    NextField(x, y, 1);
    NextField(x, y, 2);
    NextField(x, y, 3);
    NextField(x, y, 4);
    BeforeIsTotal(a.detail, b.detail);
  }

  /** Comparing never contradicts itself, NUL or not: ties form classes, and the classes a chain. */
  lemma ComparisonIsWeakOrder()
    ensures WeakOrder(IssueBefore)
    ensures forall a: Issue, b: Issue :: CompareAuditIssues(a, b) == -CompareAuditIssues(b, a)
  {
    BeforeIsWeakOrder();
    forall x: Issue, y: Issue, z: Issue | !IssueBefore(y, x) && !IssueBefore(z, y) ensures !IssueBefore(z, x) {
      assert !Before(Key(y), Key(x)) && !Before(Key(z), Key(y));
    }
    forall x: Issue, y: Issue ensures IssueBefore(x, y) ==> !IssueBefore(y, x) { BeforeIsTotal(Key(x), Key(y)); }
  }

  function Key(issue: Issue): string {
    JoinNul(Fields(issue))
  }

  // ----- The report -----

  datatype Baseline = Baseline(storageBucket: string, validatorsExact: bool)

  /** What the database shows after the byte scan. `activationProved`: date and release are both canonical. */
  datatype Relational = Relational(
    activationProved: bool,
    invalidGeneratedLegalDocuments: int,
    invalidArchiveJobs: int,
    storageOrphans: int,
    missingStoredObjects: int,
    suspiciousStorageMutations: int,
    postScanSnapshotDigest: string,
    generatedLegalDocuments: int,
    baseline: Option<Baseline>)

  datatype ByteAudit = ByteAudit(
    protocolVersion: int,
    releaseSha: string,
    storageBucket: string,
    databaseSnapshotDigest: string,
    generatedLegalDocuments: int,
    appliedAttestations: int,
    issues: seq<Issue>)

  datatype Report = Report(
    readyForActivation: bool,
    generatedLegalDocuments: int,
    storageOrphans: int,
    missingStoredObjects: int,
    appliedAttestations: int,
    p0Issues: nat,
    issues: seq<Issue>)

  datatype ReportError = ScanMismatch

  predicate IsSha256(s: string) {
    |s| == 64 && forall i :: 0 <= i < |s| ==> '0' <= s[i] <= '9' || 'a' <= s[i] <= 'f'
  }

  lemma HexDigits(s: string)
    ensures IsSha256(s) <==> |s| == 64 && forall c :: c in s ==> c in "0123456789abcdef"
  {
    forall c: char ensures c in "0123456789abcdef" <==> '0' <= c <= '9' || 'a' <= c <= 'f' { HexDigit(c); }
    if forall c :: c in s ==> c in "0123456789abcdef" {
      forall i | 0 <= i < |s| ensures '0' <= s[i] <= '9' || 'a' <= s[i] <= 'f' { assert s[i] in s; }
    }
  }

  lemma HexDigit(c: char)
    ensures c in "0123456789abcdef" <==> '0' <= c <= '9' || 'a' <= c <= 'f'
  {
    var digits := "0123456789abcdef";
    if '0' <= c <= '9' { assert digits[c as int - '0' as int] == c; }
    if 'a' <= c <= 'f' { assert digits[10 + (c as int - 'a' as int)] == c; }
  }

  predicate ScanMatches(scan: ByteAudit, releaseSha: string, storageBucket: string) {
    && scan.protocolVersion == 2
    && scan.releaseSha == releaseSha
    && scan.storageBucket == storageBucket
    && IsSha256(scan.databaseSnapshotDigest)
  }

  /** The database confirms the scan and shows nothing wrong of its own. */
  predicate Confirms(scan: ByteAudit, state: Relational, storageBucket: string) {
    && state.activationProved
    && state.invalidGeneratedLegalDocuments <= 0
    && state.invalidArchiveJobs <= 0
    && state.storageOrphans <= 0
    && state.missingStoredObjects <= 0
    && state.suspiciousStorageMutations == 0
    && scan.databaseSnapshotDigest == state.postScanSnapshotDigest
    && scan.generatedLegalDocuments == state.generatedLegalDocuments
    && scan.appliedAttestations == 0
    && state.baseline.Some?
    && state.baseline.value.storageBucket == storageBucket
    && state.baseline.value.validatorsExact
  }

  function Found(code: string): Issue {
    Issue(None, None, None, code, "")
  }

  function Flag(fails: bool, code: string): seq<Issue> {
    if fails then [Found(code)] else []
  }

  /** What the database lacks or contradicts. */
  function ProofFindings(state: Relational): seq<Issue> {
    Flag(!state.activationProved, "ARCHIVE_PROTOCOL_V2_ACTIVATION_PROOF_INVALID")
    + Flag(state.invalidGeneratedLegalDocuments > 0, "ARCHIVE_PROTOCOL_V2_GENERATED_REPRESENTATION_INVALID")
    + Flag(state.invalidArchiveJobs > 0, "ARCHIVE_PROTOCOL_V2_JOB_PROOF_INVALID")
  }

  function StorageFindings(state: Relational): seq<Issue> {
    Flag(state.storageOrphans > 0, "ARCHIVE_PROTOCOL_V2_STORAGE_ORPHAN_PRESENT")
    + Flag(state.missingStoredObjects > 0, "ARCHIVE_PROTOCOL_V2_STORED_OBJECT_MISSING")
    + Flag(state.suspiciousStorageMutations != 0, "ARCHIVE_PROTOCOL_V2_STORAGE_MUTATION_SUSPECTED")
  }

  /** Where the scan and the database disagree. */
  function ScanFindings(scan: ByteAudit, state: Relational): seq<Issue> {
    Flag(scan.databaseSnapshotDigest != state.postScanSnapshotDigest, "ARCHIVE_PROTOCOL_V2_SCAN_RACE_DETECTED")
    + Flag(scan.generatedLegalDocuments != state.generatedLegalDocuments, "ARCHIVE_PROTOCOL_V2_DOCUMENT_COUNT_CHANGED")
    + Flag(scan.appliedAttestations != 0, "ARCHIVE_PROTOCOL_V2_LATE_ATTESTATION_WRITE")
  }

  /** What the activation left behind. */
  function BaselineFindings(evidence: Option<Baseline>, storageBucket: string): seq<Issue> {
    match evidence
    case None => [Found("ARCHIVE_PROTOCOL_V2_BASELINE_EVIDENCE_MISSING")]
    case Some(baseline) =>
      Flag(baseline.storageBucket != storageBucket, "ARCHIVE_PROTOCOL_V2_STORAGE_BUCKET_MISMATCH")
      + Flag(!baseline.validatorsExact, "ARCHIVE_PROTOCOL_V2_VALIDATOR_BASELINE_MISMATCH")
  }

  function Findings(scan: ByteAudit, state: Relational, storageBucket: string): seq<Issue> {
    ProofFindings(state) + StorageFindings(state) + ScanFindings(scan, state) + BaselineFindings(state.baseline, storageBucket)
  }

  lemma NoFindingsIffConfirmed(scan: ByteAudit, state: Relational, storageBucket: string)
    ensures Findings(scan, state, storageBucket) == [] <==> Confirms(scan, state, storageBucket)
  {
  }

  // ----- Which code stands for which defect -----

  function One(b: bool): nat {
    if b then 1 else 0
  }

  /** The code is reported exactly when the defect is there. */
  ghost predicate Tells(findings: seq<Issue>, code: string, defect: bool) {
    Issue(None, None, None, code, "") in findings <==> defect
  }

  /** The length of a code and its first letter after the common beginning tell all codes apart. */
  function Shape(code: string): (int, char) {
    (|code|, if |code| > 20 then code[20] else ' ')
  }

  ghost predicate Shaped(findings: seq<Issue>, shapes: set<(int, char)>) {
    forall i :: 0 <= i < |findings| ==> Shape(findings[i].code) in shapes
  }

  lemma FlagTells(fails: bool, code: string, other: string)
    ensures Tells(Flag(fails, code), code, fails)
    ensures code != other ==> Tells(Flag(fails, code), other, false)
  {
  }

  lemma ThreeFlags(p: bool, a: string, q: bool, b: string, r: bool, c: string)
    requires Shape(a) != Shape(b) && Shape(b) != Shape(c) && Shape(a) != Shape(c)
    ensures var found := Flag(p, a) + Flag(q, b) + Flag(r, c);
            && Tells(found, a, p) && Tells(found, b, q) && Tells(found, c, r)
            && |found| == One(p) + One(q) + One(r)
            && Shaped(found, {Shape(a), Shape(b), Shape(c)})
  {
    FlagTells(p, a, b);
    FlagTells(p, a, c);
    FlagTells(q, b, a);
    FlagTells(q, b, c);
    FlagTells(r, c, a);
    FlagTells(r, c, b);
  }

  lemma AbsentElsewhere(findings: seq<Issue>, shapes: set<(int, char)>, code: string)
    requires Shaped(findings, shapes) && Shape(code) !in shapes
    ensures Tells(findings, code, false)
  {
  }

  lemma ProofShapes()
    ensures Shape("ARCHIVE_PROTOCOL_V2_ACTIVATION_PROOF_INVALID") == (44, 'A')
    ensures Shape("ARCHIVE_PROTOCOL_V2_GENERATED_REPRESENTATION_INVALID") == (52, 'G')
    ensures Shape("ARCHIVE_PROTOCOL_V2_JOB_PROOF_INVALID") == (37, 'J')
  {
  }

  lemma StorageShapes()
    ensures Shape("ARCHIVE_PROTOCOL_V2_STORAGE_ORPHAN_PRESENT") == (42, 'S')
    ensures Shape("ARCHIVE_PROTOCOL_V2_STORED_OBJECT_MISSING") == (41, 'S')
    ensures Shape("ARCHIVE_PROTOCOL_V2_STORAGE_MUTATION_SUSPECTED") == (46, 'S')
  {
  }

  lemma ScanShapes()
    ensures Shape("ARCHIVE_PROTOCOL_V2_SCAN_RACE_DETECTED") == (38, 'S')
    ensures Shape("ARCHIVE_PROTOCOL_V2_DOCUMENT_COUNT_CHANGED") == (42, 'D')
    ensures Shape("ARCHIVE_PROTOCOL_V2_LATE_ATTESTATION_WRITE") == (42, 'L')
  {
  }

  lemma BaselineShapes()
    ensures Shape("ARCHIVE_PROTOCOL_V2_BASELINE_EVIDENCE_MISSING") == (45, 'B')
    ensures Shape("ARCHIVE_PROTOCOL_V2_STORAGE_BUCKET_MISMATCH") == (43, 'S')
    ensures Shape("ARCHIVE_PROTOCOL_V2_VALIDATOR_BASELINE_MISMATCH") == (47, 'V')
  {
  }

  lemma ProofFindingsTell(state: Relational)
    ensures var found := ProofFindings(state);
            && Tells(found, "ARCHIVE_PROTOCOL_V2_ACTIVATION_PROOF_INVALID", !state.activationProved)
            && Tells(found, "ARCHIVE_PROTOCOL_V2_GENERATED_REPRESENTATION_INVALID", state.invalidGeneratedLegalDocuments > 0)
            && Tells(found, "ARCHIVE_PROTOCOL_V2_JOB_PROOF_INVALID", state.invalidArchiveJobs > 0)
            && |found| == One(!state.activationProved) + One(state.invalidGeneratedLegalDocuments > 0) + One(state.invalidArchiveJobs > 0)
            && Shaped(found, {(44, 'A'), (52, 'G'), (37, 'J')})
  {
    ProofShapes();
    ThreeFlags(!state.activationProved, "ARCHIVE_PROTOCOL_V2_ACTIVATION_PROOF_INVALID",
               state.invalidGeneratedLegalDocuments > 0, "ARCHIVE_PROTOCOL_V2_GENERATED_REPRESENTATION_INVALID",
               state.invalidArchiveJobs > 0, "ARCHIVE_PROTOCOL_V2_JOB_PROOF_INVALID");
  }

  lemma StorageFindingsTell(state: Relational)
    ensures var found := StorageFindings(state);
            && Tells(found, "ARCHIVE_PROTOCOL_V2_STORAGE_ORPHAN_PRESENT", state.storageOrphans > 0)
            && Tells(found, "ARCHIVE_PROTOCOL_V2_STORED_OBJECT_MISSING", state.missingStoredObjects > 0)
            && Tells(found, "ARCHIVE_PROTOCOL_V2_STORAGE_MUTATION_SUSPECTED", state.suspiciousStorageMutations != 0)
            && |found| == One(state.storageOrphans > 0) + One(state.missingStoredObjects > 0) + One(state.suspiciousStorageMutations != 0)
            && Shaped(found, {(42, 'S'), (41, 'S'), (46, 'S')})
  {
    StorageShapes();
    ThreeFlags(state.storageOrphans > 0, "ARCHIVE_PROTOCOL_V2_STORAGE_ORPHAN_PRESENT",
               state.missingStoredObjects > 0, "ARCHIVE_PROTOCOL_V2_STORED_OBJECT_MISSING",
               state.suspiciousStorageMutations != 0, "ARCHIVE_PROTOCOL_V2_STORAGE_MUTATION_SUSPECTED");
  }

  lemma ScanFindingsTell(scan: ByteAudit, state: Relational)
    ensures var found := ScanFindings(scan, state);
            && Tells(found, "ARCHIVE_PROTOCOL_V2_SCAN_RACE_DETECTED", scan.databaseSnapshotDigest != state.postScanSnapshotDigest)
            && Tells(found, "ARCHIVE_PROTOCOL_V2_DOCUMENT_COUNT_CHANGED", scan.generatedLegalDocuments != state.generatedLegalDocuments)
            && Tells(found, "ARCHIVE_PROTOCOL_V2_LATE_ATTESTATION_WRITE", scan.appliedAttestations != 0)
            && |found| == One(scan.databaseSnapshotDigest != state.postScanSnapshotDigest) + One(scan.generatedLegalDocuments != state.generatedLegalDocuments) + One(scan.appliedAttestations != 0)
            && Shaped(found, {(38, 'S'), (42, 'D'), (42, 'L')})
  {
    ScanShapes();
    ThreeFlags(scan.databaseSnapshotDigest != state.postScanSnapshotDigest, "ARCHIVE_PROTOCOL_V2_SCAN_RACE_DETECTED",
               scan.generatedLegalDocuments != state.generatedLegalDocuments, "ARCHIVE_PROTOCOL_V2_DOCUMENT_COUNT_CHANGED",
               scan.appliedAttestations != 0, "ARCHIVE_PROTOCOL_V2_LATE_ATTESTATION_WRITE");
  }

  lemma BaselineFindingsTell(baseline: Option<Baseline>, storageBucket: string)
    ensures var found := BaselineFindings(baseline, storageBucket);
            && Tells(found, "ARCHIVE_PROTOCOL_V2_BASELINE_EVIDENCE_MISSING", baseline == None)
            && Tells(found, "ARCHIVE_PROTOCOL_V2_STORAGE_BUCKET_MISMATCH",
                     baseline.Some? && baseline.value.storageBucket != storageBucket)
            && Tells(found, "ARCHIVE_PROTOCOL_V2_VALIDATOR_BASELINE_MISMATCH",
                     baseline.Some? && !baseline.value.validatorsExact)
            && |found| == One(baseline == None) + One(baseline.Some? && baseline.value.storageBucket != storageBucket) + One(baseline.Some? && !baseline.value.validatorsExact)
            && Shaped(found, {(45, 'B'), (43, 'S'), (47, 'V')})
  {
    BaselineShapes();
    ThreeFlags(baseline.None?, "ARCHIVE_PROTOCOL_V2_BASELINE_EVIDENCE_MISSING",
               baseline.Some? && baseline.value.storageBucket != storageBucket, "ARCHIVE_PROTOCOL_V2_STORAGE_BUCKET_MISMATCH",
               baseline.Some? && !baseline.value.validatorsExact, "ARCHIVE_PROTOCOL_V2_VALIDATOR_BASELINE_MISMATCH");
    BaselineAsFlags(baseline, storageBucket);
  }

  lemma BaselineAsFlags(baseline: Option<Baseline>, storageBucket: string)
    ensures BaselineFindings(baseline, storageBucket) ==
            Flag(baseline.None?, "ARCHIVE_PROTOCOL_V2_BASELINE_EVIDENCE_MISSING")
            + Flag(baseline.Some? && baseline.value.storageBucket != storageBucket, "ARCHIVE_PROTOCOL_V2_STORAGE_BUCKET_MISMATCH")
            + Flag(baseline.Some? && !baseline.value.validatorsExact, "ARCHIVE_PROTOCOL_V2_VALIDATOR_BASELINE_MISMATCH")
  {
  }

  lemma PartsAreShaped(scan: ByteAudit, state: Relational, storageBucket: string)
    ensures Shaped(ProofFindings(state), {(44, 'A'), (52, 'G'), (37, 'J')})
    ensures Shaped(StorageFindings(state), {(42, 'S'), (41, 'S'), (46, 'S')})
    ensures Shaped(ScanFindings(scan, state), {(38, 'S'), (42, 'D'), (42, 'L')})
    ensures Shaped(BaselineFindings(state.baseline, storageBucket), {(45, 'B'), (43, 'S'), (47, 'V')})
  {
    ProofFindingsTell(state);
    StorageFindingsTell(state);
    ScanFindingsTell(scan, state);
    BaselineFindingsTell(state.baseline, storageBucket);
  }

  lemma ProofCodesAreTheirOwn(scan: ByteAudit, state: Relational, storageBucket: string, code: string, defect: bool)
    requires Shape(code) in {(44, 'A'), (52, 'G'), (37, 'J')} && Tells(ProofFindings(state), code, defect)
    ensures Tells(Findings(scan, state, storageBucket), code, defect)
  {
    PartsAreShaped(scan, state, storageBucket);
    AbsentElsewhere(StorageFindings(state), {(42, 'S'), (41, 'S'), (46, 'S')}, code);
    AbsentElsewhere(ScanFindings(scan, state), {(38, 'S'), (42, 'D'), (42, 'L')}, code);
    AbsentElsewhere(BaselineFindings(state.baseline, storageBucket), {(45, 'B'), (43, 'S'), (47, 'V')}, code);
  }

  lemma StorageCodesAreTheirOwn(scan: ByteAudit, state: Relational, storageBucket: string, code: string, defect: bool)
    requires Shape(code) in {(42, 'S'), (41, 'S'), (46, 'S')} && Tells(StorageFindings(state), code, defect)
    ensures Tells(Findings(scan, state, storageBucket), code, defect)
  {
    PartsAreShaped(scan, state, storageBucket);
    AbsentElsewhere(ProofFindings(state), {(44, 'A'), (52, 'G'), (37, 'J')}, code);
    AbsentElsewhere(ScanFindings(scan, state), {(38, 'S'), (42, 'D'), (42, 'L')}, code);
    AbsentElsewhere(BaselineFindings(state.baseline, storageBucket), {(45, 'B'), (43, 'S'), (47, 'V')}, code);
  }

  lemma ScanCodesAreTheirOwn(scan: ByteAudit, state: Relational, storageBucket: string, code: string, defect: bool)
    requires Shape(code) in {(38, 'S'), (42, 'D'), (42, 'L')} && Tells(ScanFindings(scan, state), code, defect)
    ensures Tells(Findings(scan, state, storageBucket), code, defect)
  {
    PartsAreShaped(scan, state, storageBucket);
    AbsentElsewhere(ProofFindings(state), {(44, 'A'), (52, 'G'), (37, 'J')}, code);
    AbsentElsewhere(StorageFindings(state), {(42, 'S'), (41, 'S'), (46, 'S')}, code);
    AbsentElsewhere(BaselineFindings(state.baseline, storageBucket), {(45, 'B'), (43, 'S'), (47, 'V')}, code);
  }

  lemma BaselineCodesAreTheirOwn(scan: ByteAudit, state: Relational, storageBucket: string, code: string, defect: bool)
    requires Shape(code) in {(45, 'B'), (43, 'S'), (47, 'V')} && Tells(BaselineFindings(state.baseline, storageBucket), code, defect)
    ensures Tells(Findings(scan, state, storageBucket), code, defect)
  {
    PartsAreShaped(scan, state, storageBucket);
    AbsentElsewhere(ProofFindings(state), {(44, 'A'), (52, 'G'), (37, 'J')}, code);
    AbsentElsewhere(StorageFindings(state), {(42, 'S'), (41, 'S'), (46, 'S')}, code);
    AbsentElsewhere(ScanFindings(scan, state), {(38, 'S'), (42, 'D'), (42, 'L')}, code);
  }

  lemma ProofDefectsTold(scan: ByteAudit, state: Relational, storageBucket: string)
    ensures var found := Findings(scan, state, storageBucket);
            && Tells(found, "ARCHIVE_PROTOCOL_V2_ACTIVATION_PROOF_INVALID", !state.activationProved)
            && Tells(found, "ARCHIVE_PROTOCOL_V2_GENERATED_REPRESENTATION_INVALID", state.invalidGeneratedLegalDocuments > 0)
            && Tells(found, "ARCHIVE_PROTOCOL_V2_JOB_PROOF_INVALID", state.invalidArchiveJobs > 0)
  {
    ProofShapes();
    ProofFindingsTell(state);
    ProofCodesAreTheirOwn(scan, state, storageBucket, "ARCHIVE_PROTOCOL_V2_ACTIVATION_PROOF_INVALID", !state.activationProved);
    ProofCodesAreTheirOwn(scan, state, storageBucket, "ARCHIVE_PROTOCOL_V2_GENERATED_REPRESENTATION_INVALID", state.invalidGeneratedLegalDocuments > 0);
    ProofCodesAreTheirOwn(scan, state, storageBucket, "ARCHIVE_PROTOCOL_V2_JOB_PROOF_INVALID", state.invalidArchiveJobs > 0);
  }

  lemma StorageDefectsTold(scan: ByteAudit, state: Relational, storageBucket: string)
    ensures var found := Findings(scan, state, storageBucket);
            && Tells(found, "ARCHIVE_PROTOCOL_V2_STORAGE_ORPHAN_PRESENT", state.storageOrphans > 0)
            && Tells(found, "ARCHIVE_PROTOCOL_V2_STORED_OBJECT_MISSING", state.missingStoredObjects > 0)
            && Tells(found, "ARCHIVE_PROTOCOL_V2_STORAGE_MUTATION_SUSPECTED", state.suspiciousStorageMutations != 0)
  {
    StorageShapes();
    StorageFindingsTell(state);
    StorageCodesAreTheirOwn(scan, state, storageBucket, "ARCHIVE_PROTOCOL_V2_STORAGE_ORPHAN_PRESENT", state.storageOrphans > 0);
    StorageCodesAreTheirOwn(scan, state, storageBucket, "ARCHIVE_PROTOCOL_V2_STORED_OBJECT_MISSING", state.missingStoredObjects > 0);
    StorageCodesAreTheirOwn(scan, state, storageBucket, "ARCHIVE_PROTOCOL_V2_STORAGE_MUTATION_SUSPECTED", state.suspiciousStorageMutations != 0);
  }

  lemma ScanDefectsTold(scan: ByteAudit, state: Relational, storageBucket: string)
    ensures var found := Findings(scan, state, storageBucket);
            && Tells(found, "ARCHIVE_PROTOCOL_V2_SCAN_RACE_DETECTED", scan.databaseSnapshotDigest != state.postScanSnapshotDigest)
            && Tells(found, "ARCHIVE_PROTOCOL_V2_DOCUMENT_COUNT_CHANGED", scan.generatedLegalDocuments != state.generatedLegalDocuments)
            && Tells(found, "ARCHIVE_PROTOCOL_V2_LATE_ATTESTATION_WRITE", scan.appliedAttestations != 0)
  {
    ScanShapes();
    ScanFindingsTell(scan, state);
    ScanCodesAreTheirOwn(scan, state, storageBucket, "ARCHIVE_PROTOCOL_V2_SCAN_RACE_DETECTED", scan.databaseSnapshotDigest != state.postScanSnapshotDigest);
    ScanCodesAreTheirOwn(scan, state, storageBucket, "ARCHIVE_PROTOCOL_V2_DOCUMENT_COUNT_CHANGED", scan.generatedLegalDocuments != state.generatedLegalDocuments);
    ScanCodesAreTheirOwn(scan, state, storageBucket, "ARCHIVE_PROTOCOL_V2_LATE_ATTESTATION_WRITE", scan.appliedAttestations != 0);
  }

  lemma BaselineDefectsTold(scan: ByteAudit, state: Relational, storageBucket: string)
    ensures var found := Findings(scan, state, storageBucket);
            && Tells(found, "ARCHIVE_PROTOCOL_V2_BASELINE_EVIDENCE_MISSING", state.baseline == None)
            && Tells(found, "ARCHIVE_PROTOCOL_V2_STORAGE_BUCKET_MISMATCH", state.baseline.Some? && state.baseline.value.storageBucket != storageBucket)
            && Tells(found, "ARCHIVE_PROTOCOL_V2_VALIDATOR_BASELINE_MISMATCH", state.baseline.Some? && !state.baseline.value.validatorsExact)
  {
    BaselineShapes();
    BaselineFindingsTell(state.baseline, storageBucket);
    BaselineCodesAreTheirOwn(scan, state, storageBucket, "ARCHIVE_PROTOCOL_V2_BASELINE_EVIDENCE_MISSING", state.baseline == None);
    BaselineCodesAreTheirOwn(scan, state, storageBucket, "ARCHIVE_PROTOCOL_V2_STORAGE_BUCKET_MISMATCH", state.baseline.Some? && state.baseline.value.storageBucket != storageBucket);
    BaselineCodesAreTheirOwn(scan, state, storageBucket, "ARCHIVE_PROTOCOL_V2_VALIDATOR_BASELINE_MISMATCH", state.baseline.Some? && !state.baseline.value.validatorsExact);
  }

  /** Which code stands for which defect; and nothing else is found. */
  lemma FindingsTellTheDefects(scan: ByteAudit, state: Relational, storageBucket: string)
    ensures var found := Findings(scan, state, storageBucket);
            && Tells(found, "ARCHIVE_PROTOCOL_V2_ACTIVATION_PROOF_INVALID", !state.activationProved)
            && Tells(found, "ARCHIVE_PROTOCOL_V2_GENERATED_REPRESENTATION_INVALID", state.invalidGeneratedLegalDocuments > 0)
            && Tells(found, "ARCHIVE_PROTOCOL_V2_JOB_PROOF_INVALID", state.invalidArchiveJobs > 0)
            && Tells(found, "ARCHIVE_PROTOCOL_V2_STORAGE_ORPHAN_PRESENT", state.storageOrphans > 0)
            && Tells(found, "ARCHIVE_PROTOCOL_V2_STORED_OBJECT_MISSING", state.missingStoredObjects > 0)
            && Tells(found, "ARCHIVE_PROTOCOL_V2_STORAGE_MUTATION_SUSPECTED", state.suspiciousStorageMutations != 0)
            && Tells(found, "ARCHIVE_PROTOCOL_V2_SCAN_RACE_DETECTED", scan.databaseSnapshotDigest != state.postScanSnapshotDigest)
            && Tells(found, "ARCHIVE_PROTOCOL_V2_DOCUMENT_COUNT_CHANGED", scan.generatedLegalDocuments != state.generatedLegalDocuments)
            && Tells(found, "ARCHIVE_PROTOCOL_V2_LATE_ATTESTATION_WRITE", scan.appliedAttestations != 0)
            && Tells(found, "ARCHIVE_PROTOCOL_V2_BASELINE_EVIDENCE_MISSING", state.baseline == None)
            && Tells(found, "ARCHIVE_PROTOCOL_V2_STORAGE_BUCKET_MISMATCH", state.baseline.Some? && state.baseline.value.storageBucket != storageBucket)
            && Tells(found, "ARCHIVE_PROTOCOL_V2_VALIDATOR_BASELINE_MISMATCH", state.baseline.Some? && !state.baseline.value.validatorsExact)
            && |found| == One(!state.activationProved) + One(state.invalidGeneratedLegalDocuments > 0) + One(state.invalidArchiveJobs > 0)
                          + One(state.storageOrphans > 0) + One(state.missingStoredObjects > 0) + One(state.suspiciousStorageMutations != 0)
                          + One(scan.databaseSnapshotDigest != state.postScanSnapshotDigest) + One(scan.generatedLegalDocuments != state.generatedLegalDocuments) + One(scan.appliedAttestations != 0)
                          + One(state.baseline == None) + One(state.baseline.Some? && state.baseline.value.storageBucket != storageBucket) + One(state.baseline.Some? && !state.baseline.value.validatorsExact)
  {
    ProofDefectsTold(scan, state, storageBucket);
    ProofFindingsTell(state);
    StorageDefectsTold(scan, state, storageBucket);
    StorageFindingsTell(state);
    ScanDefectsTold(scan, state, storageBucket);
    ScanFindingsTell(scan, state);
    BaselineDefectsTold(scan, state, storageBucket);
    BaselineFindingsTell(state.baseline, storageBucket);
  }


  method AddIssueIf(fails: bool, code: string, issues: seq<Issue>) returns (r: seq<Issue>)
    ensures r == issues + Flag(fails, code)
  {
    r := if fails then issues + [Found(code)] else issues;
  }

  method AddProofFindings(state: Relational) returns (r: seq<Issue>)
    ensures r == ProofFindings(state)
  {
    r := AddIssueIf(!state.activationProved, "ARCHIVE_PROTOCOL_V2_ACTIVATION_PROOF_INVALID", []);
    r := AddIssueIf(state.invalidGeneratedLegalDocuments > 0, "ARCHIVE_PROTOCOL_V2_GENERATED_REPRESENTATION_INVALID", r);
    r := AddIssueIf(state.invalidArchiveJobs > 0, "ARCHIVE_PROTOCOL_V2_JOB_PROOF_INVALID", r);
  }

  method AddStorageFindings(state: Relational) returns (r: seq<Issue>)
    ensures r == StorageFindings(state)
  {
    r := AddIssueIf(state.storageOrphans > 0, "ARCHIVE_PROTOCOL_V2_STORAGE_ORPHAN_PRESENT", []);
    r := AddIssueIf(state.missingStoredObjects > 0, "ARCHIVE_PROTOCOL_V2_STORED_OBJECT_MISSING", r);
    r := AddIssueIf(state.suspiciousStorageMutations != 0, "ARCHIVE_PROTOCOL_V2_STORAGE_MUTATION_SUSPECTED", r);
  }

  method AddScanFindings(scan: ByteAudit, state: Relational) returns (r: seq<Issue>)
    ensures r == ScanFindings(scan, state)
  {
    r := AddIssueIf(scan.databaseSnapshotDigest != state.postScanSnapshotDigest, "ARCHIVE_PROTOCOL_V2_SCAN_RACE_DETECTED", []);
    r := AddIssueIf(scan.generatedLegalDocuments != state.generatedLegalDocuments, "ARCHIVE_PROTOCOL_V2_DOCUMENT_COUNT_CHANGED", r);
    r := AddIssueIf(scan.appliedAttestations != 0, "ARCHIVE_PROTOCOL_V2_LATE_ATTESTATION_WRITE", r);
  }

  method AddBaselineFindings(evidence: Option<Baseline>, storageBucket: string) returns (r: seq<Issue>)
    ensures r == BaselineFindings(evidence, storageBucket)
  {
    if evidence.None? {
      r := [Found("ARCHIVE_PROTOCOL_V2_BASELINE_EVIDENCE_MISSING")];
    } else {
      r := AddIssueIf(evidence.value.storageBucket != storageBucket, "ARCHIVE_PROTOCOL_V2_STORAGE_BUCKET_MISMATCH", []);
      r := AddIssueIf(!evidence.value.validatorsExact, "ARCHIVE_PROTOCOL_V2_VALIDATOR_BASELINE_MISMATCH", r);
    }
  }

  /** Ready exactly when the scan found nothing and the database confirms it. */
  method BuildProtocolV2VerifiedReport(scan: ByteAudit, state: Relational, releaseSha: string, storageBucket: string)
    returns (r: Result<Report, ReportError>)
    ensures r.Ok? <==>
            && scan.protocolVersion == 2 && scan.releaseSha == releaseSha && scan.storageBucket == storageBucket
            && |scan.databaseSnapshotDigest| == 64
            && forall c :: c in scan.databaseSnapshotDigest ==> c in "0123456789abcdef"
    ensures r.Ok? ==>
      && multiset(r.value.issues) == multiset(scan.issues) + multiset(Findings(scan, state, storageBucket))
      && Sorted(r.value.issues, IssueBefore)
      && r.value.issues == Sort(scan.issues + Findings(scan, state, storageBucket), IssueBefore)
      && (r.value.readyForActivation <==> scan.issues == [] && Confirms(scan, state, storageBucket))
      && r.value.p0Issues == |r.value.issues|
      && r.value.generatedLegalDocuments == state.generatedLegalDocuments
      && r.value.storageOrphans == state.storageOrphans
      && r.value.missingStoredObjects == state.missingStoredObjects
      && r.value.appliedAttestations == 0
  {
    HexDigits(scan.databaseSnapshotDigest);
    if !ScanMatches(scan, releaseSha, storageBucket) { return Err(ScanMismatch); }
    var inProof := AddProofFindings(state);
    var inStorage := AddStorageFindings(state);
    var inScan := AddScanFindings(scan, state);
    var inBaseline := AddBaselineFindings(state.baseline, storageBucket);
    var issues := scan.issues + (inProof + inStorage + inScan + inBaseline);
    SortedReport(issues);
    var sorted := Sort(issues, IssueBefore);
    r := Ok(Report(|sorted| == 0, state.generatedLegalDocuments, state.storageOrphans, state.missingStoredObjects, 0, |sorted|, sorted));
  }

  lemma SortedReport(issues: seq<Issue>)
    ensures multiset(Sort(issues, IssueBefore)) == multiset(issues)
    ensures Sorted(Sort(issues, IssueBefore), IssueBefore)
  {
    SortKeepsElements(issues, IssueBefore);
    ComparisonIsWeakOrder();
    SortSorts(issues, IssueBefore);
  }

  // ----- The report does not depend on the order of the scan -----

  function Keys(issues: seq<Issue>): seq<string> {
    if issues == [] then [] else [Key(issues[0])] + Keys(issues[1..])
  }

  lemma {:induction false} InsertByKey(x: Issue, issues: seq<Issue>)
    ensures Keys(Insert(x, issues, IssueBefore)) == Insert(Key(x), Keys(issues), Before)
  {
    if issues != [] && IssueBefore(issues[0], x) {
      InsertByKey(x, issues[1..]);
    } else {
      assert ([x] + issues)[1..] == issues;
    }
  }

  lemma {:induction false} SortByKey(issues: seq<Issue>)
    ensures Keys(Sort(issues, IssueBefore)) == Sort(Keys(issues), Before)
  {
    if issues != [] {
      SortByKey(issues[1..]);
      InsertByKey(issues[0], Sort(issues[1..], IssueBefore));
    }
  }

  lemma {:induction false} KeysOfConcat(a: seq<Issue>, b: seq<Issue>)
    ensures Keys(a + b) == Keys(a) + Keys(b)
  {
    if a == [] {
      assert a + b == b;
    } else {
      assert (a + b)[1..] == a[1..] + b;
      KeysOfConcat(a[1..], b);
    }
  }

  lemma KeysAround(p: seq<Issue>, x: Issue, q: seq<Issue>)
    ensures multiset(Keys(p + [x] + q)) == multiset(Keys(p + q)) + multiset{Key(x)}
  {
    KeysOfConcat(p + [x], q);
    KeysOfConcat(p, [x]);
    KeysOfConcat(p, q);
  }

  lemma SplitAround(b: seq<Issue>, x: Issue) returns (p: seq<Issue>, q: seq<Issue>)
    requires x in b
    ensures b == p + [x] + q
  {
    var j :| 0 <= j < |b| && b[j] == x;
    p, q := b[..j], b[j + 1..];
  }

  lemma {:induction false} KeysOfPermutation(a: seq<Issue>, b: seq<Issue>)
    requires multiset(a) == multiset(b)
    ensures multiset(Keys(a)) == multiset(Keys(b))
    decreases |a|
  {
    SameElements(a, b);
    if a != [] {
      assert a[0] in b;
      var p, q := SplitAround(b, a[0]);
      RestPermutes(a, a[0], a[1..], p, q);
      KeysAround(p, a[0], q);
      KeysOfPermutation(a[1..], p + q);
    }
  }

  lemma RestPermutes<T>(a: seq<T>, x: T, rest: seq<T>, p: seq<T>, q: seq<T>)
    requires a == [x] + rest && multiset(a) == multiset(p + [x] + q)
    ensures multiset(rest) == multiset(p + q)
  {
    assert multiset(a) == multiset{x} + multiset(rest);
    assert multiset(rest) == multiset(a) - multiset{x};
  }

  /** Two scans that found the same issues in any order give reports that agree key by key. */
  lemma ReportIgnoresScanOrder(a: seq<Issue>, b: seq<Issue>, added: seq<Issue>)
    requires multiset(a) == multiset(b)
    ensures Keys(Sort(a + added, IssueBefore)) == Keys(Sort(b + added, IssueBefore))
  {
    KeysOfPermutation(a + added, b + added);
    SortByKey(a + added);
    SortByKey(b + added);
    SameStringSetIsMultisetEquality(Keys(a + added), Keys(b + added));
    SortKeepsElements(Keys(a + added), Before);
    assert Sort(Keys(a + added), Before) == Sort(Keys(b + added), Before);
  }
}
