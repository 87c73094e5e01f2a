# Verified models of the archive quarantine and its neighbours

Bob Pro keeps legal documents in a storage bucket. When a byte audit finds objects that no
database row refers to, an operator moves them to a quarantine bucket: a plan is sealed, every
copy is verified and acknowledged by a receipt, the sources are deleted one by one behind a
guard, a fresh audit is recorded, and the operation is completed. Processes may crash anywhere
and are simply started again. This project models that protocol down to its transactions and
database triggers and proves what it is for. It also models the parts of the repository whose
correctness rests on an algorithm: the template expression evaluator, component mounting and
component lifecycle of the design runtime, JSON comparison, the audit report, the readiness gate,
the bounded readers, billing-line parsing and the inventory merge.

| module | what it holds |
|---|---|
| `QuarantineModel` | the durable state (two buckets, journal, references, leases, audits, clock) and every transaction and trigger as a function from world to outcome |
| `QuarantineSafety` | any interleaving of those transactions with other writers as a run; the invariant that every step keeps |
| `QuarantineTheorems` | what the invariant means: no document lost, phase order, replays, sealing again, reads that are not torn |
| `QuarantineTerms` | when each transaction commits and what it then changes, said on objects, references, audits and events |
| `QuarantineResume` | the exact conditions under which apply and finalize succeed, and their survival of crashes |
| `QuarantineFinalize`, `QuarantineProgress` | crashes in the middle of finalize; from a sealed plan to completion under any benign run |
| `QuarantineStore`, `QuarantineSaga` | the same transactions, and the two drivers, as imperative code proved against the functions |
| `Leases` | the advisory locks of audit and quarantine processes |
| `Ordering`, `CanonicalJson` | sorting; comparison of JSON by printed canonical form |
| `Expression`, `ExpressionMeaning`, `ExpressionGrouping` | the evaluator with its scanning loops; the language it implements; chains of equalities against JavaScript |
| `Rendering`, `Lifecycle`, `AttributeCase` | mounting under import cycles; mount, swap and unmount of logic objects; attribute names through HTML |
| `ReadinessGate`, `AuditReport`, `BoundedReader` | helpers of the byte audit |
| `Doubles`, `BillingAmounts`, `LineOutcomes`, `BillingLines`, `BillingTerms`, `QuoteLines` | double-precision rounding; quantities and cents; parsing of invoice lines and quote lines |
| `SemanticKeys`, `InventoryMerge` | keys and entries of the action inventory |

`dafny verify dfyconfig.toml` checks everything.

## Findings

Each of these is an exact condition below, with an input that shows it.

- The exclusive lease is a database transaction with a time limit (20 minutes for quarantine
  processes, three hours for the audit) while the work of the audit, apply and finalize runs
  outside it. Two live leases never coexist, but when one of these expires under its work the next
  process overlaps with it (`Leases.OneLiveLease`, `Leases.ExclusiveWithoutExpiry`,
  `Leases.ExpiryOverlaps`). Sealing works inside its transaction and is not affected.
- Templates group a chain of equalities from the right, JavaScript from the left.
  `null===null===true` is false in the one and true in the other
  (`ExpressionGrouping.ChainDiffersFromJavaScript`). Without chains they agree
  (`ExpressionGrouping.UnchainedTextIsJavaScript`), and for a chain
  `ExpressionGrouping.TemplateAgreesWithJavaScript` says exactly when.
- A quoted text in a template evaluates to itself exactly when the scan finds no equality in it:
  the scan does not know about quotes (`ExpressionMeaning.QuotedIsExact`,
  `ExpressionMeaning.QuotedEquality`).
- A component placed inside another use of itself is reported as a circular import even when the
  imports are acyclic and the page finite, since the ancestor chain follows mounting and not
  importing (`Rendering.NestedPanelsAreRefused`; the exact condition is `Rendering.CircularIffRepeats`).
- A logic object replaced before its mount commits is told to unmount although it was never
  mounted, and its successor may be mounted twice. The lifecycle is paired exactly on runs without
  such a swap (`Lifecycle.LifecycleIsPaired`). A first render in one turn with the construction
  rules it out, except for a class that throws with NaN among its properties, since NaN differs
  from itself (`Lifecycle.OneTurnIsPaired`, `Lifecycle.ThrowOnNaNBreaks`).
- The three-decimals check on quantities compares a product in doubles with its own rounding and
  refuses 1.001 (`BillingAmounts.QuantityIsAcceptedIff`, `BillingAmounts.OneAndAThousandthIsRefused`).
- The cents of a line can be one less than the decimal amount, on exact half cents only
  (`BillingAmounts.CentsAreDecimalIff`, `BillingAmounts.HalfCentIsLost`).
- Audit issues are compared by keys joined with NUL and nothing is escaped; the comparison is
  field by field exactly on alphabets without NUL (`AuditReport.ComparisonNeedsNulFree`).
- Inventory keys join domain and tokens with an unescaped separator and are exact only on alphabets
  without it (`SemanticKeys.KeysNeedNoBar`). They drop stopwords before lower-casing, so a key is
  stable under normalising again exactly when no normal token is a stopword; the upper-case article
  LE breaks it (`SemanticKeys.KeyIsStable`, `SemanticKeys.UpperCaseStopwordIsKept`).

## Model

| member | source | states |
|---|---|---|
| QuarantineTheorems.NoDocumentLost | apps/api/src/document-archive-quarantine.runtime.ts:2160-2620 | in every state any schedule can reach, each planned document still has its manifest bytes at the source or at the copy; once its deletion is recorded the source is gone and the copy holds exactly those bytes |
| QuarantineTheorems.OnlyGuardedDeletion | apps/api/prisma/migrations/20260805010000_document_archive_quarantine_fence/migration.sql:696-1052 | if any step of any writer makes a sealed source disappear, it was the guarded deletion of that entry, unreferenced and authorised, with every copy in place and exactly the earlier entries already deleted |
| QuarantineTheorems.VerifiedCopyStays | apps/api/prisma/migrations/20260805010000_document_archive_quarantine_fence/migration.sql:762-791 | a copy whose verification is recorded keeps its row and its bytes over every later run |
| QuarantineTheorems.PhasesInOrder | apps/api/src/document-archive-quarantine.runtime.ts:2304-2330 | in every reachable journal a deletion implies all verifications, the copy receipt and the authorisation; deletions are a prefix of the manifest; later phases imply earlier ones; the final audit is not older than the acknowledged deletion; one operation is open at most |
| QuarantineTheorems.RunOnlyGrows | apps/api/prisma/migrations/20260805010000_document_archive_quarantine_fence/migration.sql:330-341 | over every run no operation is dropped, no manifest edited and no recorded event replaced |
| QuarantineTheorems.StepOnlyGrows | apps/api/src/document-archive-quarantine.runtime.ts:1986-2112 | one step of any kind keeps every event already recorded |
| QuarantineTheorems.AuthorizeReplay | apps/api/src/document-archive-quarantine.runtime.ts:1952-2120 | authorising again commits without any change for the same workflow under another token than the planner's, and is refused otherwise |
| QuarantineTheorems.VerifyDestinationReplay | apps/api/src/document-archive-quarantine.runtime.ts:2160-2250 | verifying again commits exactly when the object seen is the recorded one, and then changes nothing |
| QuarantineTheorems.VerifyDestinationAnyTimeLater | apps/api/src/document-archive-quarantine.runtime.ts:2160-2250 | a verification that committed once commits again, with no effect, after any further run |
| QuarantineTheorems.AcknowledgeReplay | apps/api/src/document-archive-quarantine.runtime.ts:2252-2379 | a receipt step repeated commits exactly for the same stored object with the expected body, although the read-back compares only two columns |
| QuarantineTheorems.SealAnyTimeLater | apps/api/src/document-archive-quarantine.runtime.ts:1550-1579 | sealing the same manifest at any later point returns the same operation and changes nothing, however many sources are gone; another workflow identity is refused |
| QuarantineTheorems.LoadIsNotTorn | apps/api/src/document-archive-quarantine.runtime.ts:483-514 | bytes read between two equal rows belong to that row, whatever other writers did in between |
| QuarantineTheorems.FactsHeldThroughout | apps/api/src/document-archive-quarantine.runtime.ts:315-324 | storage facts seen before and after a run were there all along, with the same bytes |
| QuarantineSafety.RunKeepsInv | apps/api/src/document-archive-quarantine.runtime.ts:1488-2893 | the protocol invariant survives every run of transactions, deletions and foreign writers |
| QuarantineSafety.StepKeepsInv | apps/api/src/document-archive-quarantine.runtime.ts:1488-2893 | each kind of step keeps the invariant |
| QuarantineSafety.DeletionInOrder | apps/api/prisma/migrations/20260805010000_document_archive_quarantine_fence/migration.sql:795-858 | the trigger's counting conditions pin a deletion to the next entry of the manifest |
| QuarantineSafety.DeletedPrefix | apps/api/src/document-archive-quarantine.runtime.ts:2535-2563 | the number of deletion events says which entries are deleted |
| QuarantineSafety.PrerequisitesMeanAll | apps/api/src/document-archive-quarantine.runtime.ts:2304-2330 | the event counts a receipt asks for mean that every entry is verified, or deleted |
| QuarantineSafety.SealedIsDisjoint | apps/api/prisma/migrations/20260805010000_document_archive_quarantine_fence/migration.sql:485-572 | a new plan shares no source and no destination with any operation before it |
| QuarantineResume.NoDeadEnd | apps/api/src/documents/archive-quarantine.ts:816-1010 | from a resumable state, after any mixture of crashed attempts, replays and other writers behind the fences, apply would succeed as long as the operation is open |
| QuarantineResume.CrashThenApply | apps/api/src/documents/archive-quarantine.ts:816-1010 | an attempt cut short after any number of steps leaves a state in which a new attempt succeeds |
| QuarantineResume.SealedIsResumable | apps/api/src/document-archive-quarantine.main.ts:75-140 | a freshly sealed plan can be applied by another run of the same workflow |
| QuarantineResume.BenignKeepsResumable | apps/api/prisma/migrations/20260805010000_document_archive_quarantine_fence/migration.sql:581-692 | with the fences on, no step of anyone takes away what resuming needs |
| QuarantineProgress.SealedReachesCompletion | apps/api/src/documents/archive-quarantine.ts:816-1106 | from any reachable world, a plan sealed behind the fences, and any benign run after it: while the operation is open the fences hold, apply would succeed, finalize would as soon as the deletion is acknowledged, an audit is recorded or fresh, and the archive is clean; and an attempt that records its last event leaves strictly fewer events missing, none after completion |
| QuarantineProgress.AlwaysResumable | apps/api/src/documents/archive-quarantine.ts:816-1106 | the same from any resumable state: audit recorded, crash, other writers, archive clean again included |
| QuarantineProgress.MissingFalls | apps/api/src/document-archive-quarantine.runtime.ts:1986-2112 | over any run the number of missing events never rises, and falls with every new event |
| QuarantineProgress.NothingMissingIffCompleted | apps/api/src/document-archive-quarantine.runtime.ts:1152-1186 | nothing is missing exactly when the operation is completed |
| QuarantineFinalize.AcknowledgedCanFinalize | apps/api/src/documents/archive-quarantine.ts:1036-1106 | once the deletion is acknowledged, an audit at hand (recorded, or fresh and taken after it) and a clean archive are enough to finalize, whether or not a final receipt was stored before |
| QuarantineFinalize.BenignKeepsFinishable | apps/api/src/documents/archive-quarantine.ts:1063-1103 | no benign step puts anything but a receipt of the recorded audit at the final receipt's address |
| QuarantineResume.FinalizeResumes | apps/api/src/document-archive-quarantine-finalize.main.ts:33-43 | after the audit is recorded an interrupted finalize goes on with no external pin at all |
| QuarantineFinalize.CrashThenFinalize | apps/api/src/documents/archive-quarantine.ts:1036-1106 | finalize's own steps, cut short anywhere, repeated, with time passing in between, never take its condition away, completed operations included; other writers are in AlwaysResumable |
| QuarantineFinalize.AttemptIsFinalRun | apps/api/src/documents/archive-quarantine.ts:1036-1106 | every prefix of a finalize attempt is a run of the kind the crash theorem speaks about |
| QuarantineResume.SourceTellsDeletion | apps/api/src/document-archive-quarantine.runtime.ts:2576-2620 | a sealed source is in storage exactly when its deletion is not recorded, and then it is the planned object |
| QuarantineStore.ArchiveStore.Load | apps/api/src/document-archive-quarantine.runtime.ts:483-514 | the object, if there, is an observation of the storage |
| QuarantineStore.ArchiveStore.PutImmutable | apps/api/src/document-archive-quarantine.runtime.ts:516-538 | an upload never replaces an object, is refused on protected addresses, and creates facts never issued before |
| QuarantineStore.ArchiveStore.RemoveFenced | apps/api/src/document-archive-quarantine.runtime.ts:540-554 | the deletion and its event happen together or not at all; an absent source is success |
| QuarantineStore.ArchiveStore.SealPlan | apps/api/src/document-archive-quarantine.runtime.ts:1488-1851 | the sealing transaction answers and leaves the state the specification says, refusals in the source's order |
| QuarantineStore.ArchiveStore.CheckSources | apps/api/src/document-archive-quarantine.runtime.ts:1713-1743 | accepts exactly when every source still carries the planned facts |
| QuarantineStore.ArchiveStore.RecordAuthorized | apps/api/src/document-archive-quarantine.runtime.ts:1952-2120 | insert, ignore a conflict, read back, roll back when divergent: equal to the specification |
| QuarantineStore.ArchiveStore.RecordDestinationVerified | apps/api/src/document-archive-quarantine.runtime.ts:2160-2250 | the same for a verified copy, with its storage row checked first |
| QuarantineStore.ArchiveStore.RecordReceipt | apps/api/src/document-archive-quarantine.runtime.ts:2252-2379 | the same for the three receipts, with the completion boundary before the last one |
| QuarantineStore.ArchiveStore.RecordFinalAudit | apps/api/src/document-archive-quarantine.runtime.ts:2685-2881 | the same for the final audit |
| QuarantineSaga.Apply | apps/api/src/documents/archive-quarantine.ts:816-1010 | succeeds exactly when the apply condition held at the start, acknowledges the deletion when it does and answers the stored receipt (the one there before, or a new one listing exactly the sources in order with the time of deletion), and takes only benign steps whatever happens |
| QuarantineSaga.CopyAll | apps/api/src/documents/archive-quarantine.ts:875-905 | every entry is copied and verified exactly when no destination held other bytes; sources and receipts stay untouched |
| QuarantineSaga.CopyEntry | apps/api/src/documents/archive-quarantine.ts:875-905 | one entry is verified exactly when its destination was free or already right; nothing else changes |
| QuarantineSaga.DeleteAll | apps/api/src/documents/archive-quarantine.ts:930-976 | all sources are gone at the end exactly when nothing refers to them and they were gone or deletable |
| QuarantineSaga.DeletePreflight | apps/api/src/document-archive-quarantine.runtime.ts:2405-2574 | the application's pre-flight check and the trigger agree for the next entry of the manifest |
| QuarantineSaga.Finalize | apps/api/src/documents/archive-quarantine.ts:1036-1106 | succeeds exactly when the finalize condition held at the start; then completion is recorded, the answer is the stored final receipt, and the attempt wrote the audit event, the final receipt and the completion event, nothing else |
| QuarantineSaga.SnapshotCondition | apps/api/src/document-archive-quarantine.runtime.ts:2622-2683 | the final snapshot is clean exactly when every source is gone and unreferenced |
| QuarantineSaga.BoundaryCondition | apps/api/src/document-archive-quarantine.runtime.ts:845-1187 | with the audit recorded and the archive clean, the completion boundary asks for fences and no worker lease, nothing more |
| QuarantineTerms.CompletesExactly | apps/api/src/document-archive-quarantine.runtime.ts:845-1187 | the last receipt is recorded for the first time exactly when every stored source object is referenced, every reference has its object, both buckets are private, the fences stand, nobody works, no sealed source is left or referenced, and every verified copy and receipt is still the recorded row; said on objects and references, with the whole new world |
| QuarantineTerms.CompletedInSettledArchive | apps/api/src/document-archive-quarantine.runtime.ts:1152-1186 | over every run, the step that first records completion starts in such a world |
| QuarantineTerms.BoundaryRechecks | apps/api/src/document-archive-quarantine.runtime.ts:845-1187 | the recertification trusts nothing recorded: in any world, the invariant aside, it asks for every row, event and reference again |
| QuarantineTerms.SealsExactly | apps/api/src/document-archive-quarantine.runtime.ts:1488-1851 | a manifest not sealed before is sealed exactly when its audit row exists with its release, database and snapshot, is not ready, is dated in order and at most 1 800 000 ms old, the archive holds exactly the planned orphans with their facts and nothing is missing, nobody works, the copies are free and the ledger has no conflict; and then it is all that changes |
| QuarantineTerms.AuthorizesExactly | apps/api/src/document-archive-quarantine.runtime.ts:1952-2120 | the first authorisation: the planning workflow under another token |
| QuarantineTerms.VerifiesExactly | apps/api/src/document-archive-quarantine.runtime.ts:2160-2250 | the first verification of a copy: the planned bytes, read from the row that stands there |
| QuarantineTerms.AcknowledgesExactly | apps/api/src/document-archive-quarantine.runtime.ts:2252-2379 | the first receipt of a phase: the expected JSON body in the row that stands there, and the events the phase asks for, entry by entry |
| QuarantineTerms.PrerequisitesExactly | apps/api/src/document-archive-quarantine.runtime.ts:2304-2330 | what each phase asks for, entry by entry |
| QuarantineTerms.AuditsExactly | apps/api/src/document-archive-quarantine.runtime.ts:2685-2881 | the first recording of the final audit: a ready audit of this release and database without any finding, taken after the acknowledgement of the deletion, over a clean source bucket |
| QuarantineTerms.EvidenceExactly | apps/api/src/document-archive-quarantine.runtime.ts:1272-1368 | an audit supplied from outside: the same and half an hour old at most |
| QuarantineTerms.DeletesExactly | apps/api/prisma/migrations/20260805010000_document_archive_quarantine_fence/migration.sql:795-1052 | in any world, a sealed source goes exactly in its turn, authorised, with the planned facts, every copy verified and acknowledged, exactly the earlier entries deleted, unreferenced and behind the fences, and leaves its event |
| QuarantineTerms.PreflightExactly | apps/api/src/document-archive-quarantine.runtime.ts:2405-2574 | the pre-flight of one deletion agrees with that, and adds worker leases, privacy and the keys this run has removed |
| QuarantineTerms.PreflightRechecks | apps/api/src/document-archive-quarantine.runtime.ts:2405-2574 | the pre-flight in any world, the invariant aside: every row and every event, the number of deletions, and the keys this run has removed |
| QuarantineTerms.ReadBacks | apps/api/src/document-archive-quarantine.runtime.ts:2576-2683 | what is read back after one deletion, and after all of them |
| QuarantineTerms.UploadsExactly | apps/api/prisma/migrations/20260805010000_document_archive_quarantine_fence/migration.sql:748-793 | uploads reach free addresses that are no sealed source, recorded copy or recorded receipt, and nothing else |
| QuarantineTerms.RewritesExactly | apps/api/prisma/migrations/20260805010000_document_archive_quarantine_fence/migration.sql:748-793 | overwriting or renaming needs both ends unprotected, replaces nothing else and leaves the old address free |
| QuarantineTerms.RemovesExactly | apps/api/prisma/migrations/20260805010000_document_archive_quarantine_fence/migration.sql:748-793 | removing an unprotected object takes it and nothing else |
| QuarantineTerms.ReferencesExactly | apps/api/prisma/migrations/20260805010000_document_archive_quarantine_fence/migration.sql:581-692 | behind the fences no sealed key gets a reference |
| QuarantineTerms.FencesExactly | apps/api/prisma/migrations/20260805010000_document_archive_quarantine_fence/migration.sql:581-692 | behind the fences no worker starts and no bucket changes while an operation is open |
| Leases.OneLiveLease | apps/api/src/document-archive-quarantine.runtime.ts:2900-2940 | any number of processes, any interleaving: two live leases never coexist, although the audit takes one lock and the others two |
| Leases.ExclusiveWithoutExpiry | apps/api/src/document-archive-audit.main.ts:588-604 | while no lease of the audit, apply or finalize runs out under its work, one process at most is in its critical section, whatever happens to the leases of sealing |
| Leases.ExpiryOverlaps | apps/api/src/document-archive-quarantine.runtime.ts:2929-2933 | whenever such a lease runs out under its work, another idle process of any kind gets in beside it |
| CanonicalJson.SameJsonDecides | apps/api/src/document-archive-quarantine.runtime.ts:112-126 | two JSON values compare as the same exactly when they are equal up to member order at every depth (section 4 of RFC 8259) |
| CanonicalJson.CanonicalDecides | apps/api/src/document-archive-quarantine.runtime.ts:112-122 | canonical forms are equal exactly for equal values up to member order |
| CanonicalJson.CanonicalIsIdempotent | apps/api/src/document-archive-quarantine.runtime.ts:112-122 | canonicalising twice changes nothing |
| CanonicalJson.CanonicalIsSame | apps/api/src/document-archive-quarantine.runtime.ts:112-122 | the canonical form is the same value |
| CanonicalJson.PrintPrefix | apps/api/src/document-archive-quarantine.runtime.ts:124-126 | a printed value can be read back from the front of any continuing text, so printing is injective |
| CanonicalJson.SortMembersIsUnique | apps/api/src/document-archive-quarantine.runtime.ts:108-122 | with distinct keys, sorting by key depends on the members only |
| Ordering.SameStringSetIsMultisetEquality | apps/api/src/document-archive-quarantine.runtime.ts:128-133 | the comparison of sorted lists holds exactly for lists equal as multisets |
| ExpressionMeaning.ResolveIsEval | design_handoff_bob_pro/support.js:201-290 | evaluating the printed text of any expression tree, with any spacing, gives the value of the tree |
| ExpressionMeaning.ResolvePrinted | design_handoff_bob_pro/support.js:201-290 | the same without outer spacing; every node kind, nested brackets included |
| ExpressionMeaning.ResolvePrintedSteps | design_handoff_bob_pro/support.js:259-290 | a path applies its printed accessors one by one, wherever they stand in the text |
| ExpressionMeaning.FirstEqualityIsTheTree | design_handoff_bob_pro/support.js:244-258 | the leftmost top-level equality found is the one the tree was printed with |
| ExpressionMeaning.QuotedIsExact | design_handoff_bob_pro/support.js:207-230 | a quoted text evaluates to its content exactly when it contains no top-level equality |
| ExpressionMeaning.QuotedEquality | design_handoff_bob_pro/support.js:244-258 | the quoted text a==b, which does not evaluate to its content |
| ExpressionMeaning.ChainGroupsRight | design_handoff_bob_pro/support.js:207-221 | a chain of equalities compares the first operand with the value of the rest |
| ExpressionGrouping.UnchainedTextIsJavaScript | design_handoff_bob_pro/support.js:201-290 | every tree in which no equality has a bare equality on its right evaluates, printed with any spacing, to its value in JavaScript |
| ExpressionGrouping.TemplateAgreesWithJavaScript | design_handoff_bob_pro/support.js:207-221 | a chain of three operands has its JavaScript value exactly under a condition on how the outer operands compare with booleans and with the middle one, for all four operators |
| ExpressionGrouping.ChainAgreesIff | design_handoff_bob_pro/support.js:207-221 | the same for chains of any length, on the end operands and the values of the two shorter chains |
| ExpressionGrouping.ChainDiffersFromJavaScript | design_handoff_bob_pro/support.js:207-221 | null===null===true is false in a template and true in JavaScript |
| Expression.ParensWrapWhole | design_handoff_bob_pro/support.js:233-243 | true exactly when the first parenthesis is still open before the last character |
| Expression.FindTopLevelEquality | design_handoff_bob_pro/support.js:244-258 | the leftmost equality outside all brackets that has an operand before it, or none |
| Expression.FindClosing | design_handoff_bob_pro/support.js:271-281 | where the bracket just opened closes, or none |
| Expression.ResolveText | design_handoff_bob_pro/support.js:201-232 | terminates on every text, valid or not, with the specified value |
| Expression.ResolvePath | design_handoff_bob_pro/support.js:259-290 | the loop over accessors computes the path's value |
| ExpressionMeaning.PathIsFold | design_handoff_bob_pro/support.js:259-290 | the value of a path is the reading of its keys one after the other when no value on the way is null or undefined, and undefined otherwise |
| ExpressionMeaning.IdentifierIsRead | design_handoff_bob_pro/support.js:259-263 | an identifier that is not a keyword, on its own, is read from the values |
| ExpressionMeaning.NumberGrammar | design_handoff_bob_pro/support.js:200 | a text is a number exactly with an optional minus, digits, and optionally a dot and digits |
| Rendering.CircularIffRepeats | design_handoff_bob_pro/support.js:900-976 | a circular leaf appears exactly when some mount path would repeat a name without the check; otherwise the check changes nothing |
| Rendering.LoopBuildsEveryItem | design_handoff_bob_pro/support.js:511-545 | a loop gives one group for each item, the k-th with every child in order, built against the k-th item |
| Rendering.NodesAreBuilt | design_handoff_bob_pro/support.js:546-586 | conditionals keep all or none of their children, elements and imports keep all of theirs, by index |
| Rendering.MountedShowsTemplate | design_handoff_bob_pro/support.js:900-976 | a component that is not its own ancestor shows its template built with its properties and children |
| Rendering.MountIsWellNested | design_handoff_bob_pro/support.js:900-976 | mounting ends for every registry, no name is mounted inside itself, nesting is bounded by the number of templates, and a circular leaf shows the way back to the ancestor it names |
| Rendering.RankedNeverCircular | design_handoff_bob_pro/support.js:900-976 | templates that import downwards in some rank, and pass children only below the room of what they are passed to, never get a circular leaf |
| Rendering.RankedPageNeverCircular | design_handoff_bob_pro/support.js:900-976 | the same for a page by its name |
| Rendering.AcyclicIsRanked | design_handoff_bob_pro/support.js:911-926 | acyclic imports that pass no children are such a ranking |
| Rendering.NestedPanelsHaveNoRanking | design_handoff_bob_pro/support.js:559-586 | no ranking allows the page of the next row |
| Rendering.NestedPanelsAreRefused | design_handoff_bob_pro/support.js:559-586 | an acyclic, finite page that is refused nevertheless |
| Lifecycle.LifecycleIsPaired | design_handoff_bob_pro/support.js:811-899 | for every run, renders before the first commit unrestricted: no logic object is mounted twice, unmounted unless mounted, unmounted twice, updated outside, or left mounted when the component is gone, exactly when no render swaps the object before the mount commits |
| Lifecycle.OneTurnIsPaired | design_handoff_bob_pro/support.js:811-899 | so every run whose first render is one turn with the construction is paired, unless the class threw with NaN among its properties |
| Lifecycle.LateClassBreaks | design_handoff_bob_pro/support.js:847-863 | a run that fails: the class arrives between construction and commit |
| Lifecycle.ThrowOnNaNBreaks | design_handoff_bob_pro/support.js:725-732 | a run that fails in one turn: a class that throws on NaN is constructed again by its first render |
| Lifecycle.OneTurnIsSettled | design_handoff_bob_pro/support.js:847-853 | a render of the same class, version and properties keeps the object exactly when the class did not throw or no property is NaN |
| Lifecycle.FailedClassWaits | design_handoff_bob_pro/support.js:811-863 | over every run, the same class is constructed twice in a row only after it threw and version or properties, as compared, changed |
| Lifecycle.ShallowEqualIsEquality | design_handoff_bob_pro/support.js:725-732 | what counts as changed: without NaN and undefined, any difference outside the children |
| Lifecycle.EarlySwapMountsTwice | design_handoff_bob_pro/support.js:864-889 | after an early swap the next two commits mount the new object twice, exactly when its template is there |
| Lifecycle.StreamableComponent.ReconcileLogic | design_handoff_bob_pro/support.js:847-863 | unmounts the old object only if it was mounted, and swaps exactly when the specification says |
| Lifecycle.StreamableComponent.MakeLogic | design_handoff_bob_pro/support.js:811-831 | builds the class or falls back to the base, with the memo of a failure |
| Lifecycle.StreamableComponent.ComponentDidUpdate | design_handoff_bob_pro/support.js:872-889 | mounts a swapped object once its template is there and no error stands |
| Lifecycle.RenderSwapsExactly | design_handoff_bob_pro/support.js:847-863 | a render swaps the object exactly when the class differs from that of the object and is not the one that failed at this version with these properties |
| Lifecycle.SwapGives | design_handoff_bob_pro/support.js:854-863 | what a swap leaves: a new object, the old one unmounted only if it had been mounted, a mount pending |
| AttributeCase.EncodedNameRoundTrips | design_handoff_bob_pro/support.js:330-352 | decoding gives back every name that contains no kebab of its own, and only those; all names the encoder matches are among them |
| AttributeCase.EncodedNameSurvivesHtml | design_handoff_bob_pro/support.js:330-341 | lower-casing leaves the encoded name alone, and it is never encoded again |
| ReadinessGate.OneVerificationAtATime | apps/api/src/document-archive-audit.main.ts:1334-1352 | any number of callers, any interleaving: one verification at most is under way, and it is the gate's |
| ReadinessGate.CallersLearnTheOutcome | apps/api/src/document-archive-audit.main.ts:1334-1352 | a caller goes on only after a success, and is rejected exactly by the failure it waited for |
| ReadinessGate.NoneAfterSuccess | apps/api/src/document-archive-audit.main.ts:1338-1339 | after a success no verification ever starts |
| ReadinessGate.FailureIsRetryable | apps/api/src/document-archive-audit.main.ts:1340-1348 | a caller starts a verification exactly when every earlier one failed and settled |
| ReadinessGate.CallersLearnTheAnswer | apps/api/src/document-archive-audit.main.ts:1334-1352 | over every run, a caller is told ok or not only as the verification it waited for answered, and admitted only after one answered yes |
| ReadinessGate.NoneBeginsAfterYes | apps/api/src/document-archive-audit.main.ts:1338-1345 | over every run, no verification begins after one answered yes |
| ReadinessGate.OneAnswerEach | apps/api/src/document-archive-audit.main.ts:1340-1348 | over every run, a verification answers at most once |
| ReadinessGate.ValidatorSandboxReadinessGate.Enter | apps/api/src/document-archive-audit.main.ts:1338-1351 | the arrival of a caller, as one turn of the event loop |
| AuditReport.ComparisonNeedsNulFree | apps/api/src/document-archive-audit.main.ts:151-167 | comparing joined keys is comparing the five fields in order, exactly on alphabets without NUL |
| AuditReport.ComparisonIsWeakOrder | apps/api/src/document-archive-audit.main.ts:151-167 | the comparison is a total preorder, with or without NUL |
| AuditReport.BuildProtocolV2VerifiedReport | apps/api/src/document-archive-audit.main.ts:169-308 | the issues are a sorted permutation of those scanned and those found; ready exactly when the scan is clean and the database confirms it; the count is the length |
| AuditReport.FindingsTellTheDefects | apps/api/src/document-archive-audit.main.ts:189-265 | each of the twelve codes is found exactly when its defect is there, and nothing else is found |
| AuditReport.IssueOrder | apps/api/src/document-archive-audit.main.ts:151-167 | without NUL: company, document, storage key, code and detail decide in this order, a missing one counting as empty |
| AuditReport.ReportIgnoresScanOrder | apps/api/src/document-archive-audit.main.ts:185-291 | reports of permuted scans agree key by key |
| BoundedReader.ReadBounded | apps/api/src/document-archive-quarantine.runtime.ts:326-357 | the bytes of all chunks in order exactly when declared and real length fit; otherwise it stops at the first chunk that crosses the limit |
| BoundedReader.ReadResponseSnippet | apps/api/src/document-archive-audit.main.ts:1067-1082 | exactly the first bytes up to the limit, and no chunk is taken once the limit is reached |
| BillingAmounts.QuantityIsAcceptedIff | apps/api/src/api.controllers.ts:1012-1020 | a quantity of k thousandths, read as a double, passes the check exactly when a thousand times it is within half a unit of k |
| BillingAmounts.AcceptedUnlessLow | apps/api/src/api.controllers.ts:1012-1020 | in particular whenever the unit of the product is a thousand times that of the quantity: only the first 2.4 percent above each power of two are at risk |
| BillingAmounts.AcceptedIsNear | apps/api/src/api.controllers.ts:1012-1020 | whatever passes is within half a unit of a number of thousandths |
| BillingAmounts.OneAndAThousandthIsRefused | apps/api/src/api.controllers.ts:1012-1020 | 1.001 is refused |
| BillingAmounts.CentsAreDecimalIff | apps/api/src/api.controllers.ts:1041-1048 | the cents of a line are those of the decimal amount, except on an exact half cent whose product in doubles falls short by more than half a unit |
| BillingAmounts.HalfCentIsLost | apps/api/src/api.controllers.ts:1041-1048 | 0.145 at 100 cents is such an amount, and not charged as 15 |
| BillingAmounts.RoundedTotalKeepsTheGuard | apps/api/src/api.controllers.ts:1077-1079 | the total, rounded after every line, exceeds the ceiling exactly when the exact sum does |
| BillingLines.NothingReportedIffValid | apps/api/src/api.controllers.ts:978-1081 | nothing is reported exactly for valid input, total included, and then the lines are the input's one for one |
| BillingLines.ParseBillingLineInputs | apps/api/src/api.controllers.ts:978-1081 | the invoice loop reports exactly the specified issues, in order, behind those reported before |
| BillingLines.ParseLine | apps/api/src/api.controllers.ts:987-1075 | one line: each defect in order at its place, the line if it has a shape, its cents |
| BillingLines.ParseDiscountField | apps/api/src/api.controllers.ts:1487-1518 | accepts exactly the two discount forms and an explicit null |
| BillingLines.ValidLinesKeepShape | apps/api/src/api.controllers.ts:1055-1074 | valid lines all get through in order, and each adds its cents |
| BillingLines.TotalIsNear | apps/api/src/api.controllers.ts:1041-1048 | the guarded total is within 5/8 of a cent a line of the exact products, rounding of the product included |
| BillingTerms.ValidLineMeans | apps/api/src/api.controllers.ts:987-1054 | a line is valid exactly when its members are, one by one: the bounds, rates and categories themselves, and no other key |
| BillingTerms.IssuesTell | apps/api/src/api.controllers.ts:987-1054 | which defect is reported at which place |
| BillingTerms.LineMeans | apps/api/src/api.controllers.ts:1055-1074 | each field of a parsed line is the member of that name |
| BillingTerms.ShapeMeans | apps/api/src/api.controllers.ts:1055-1063 | which lines are kept, valid or not |
| BillingTerms.CentsMean | apps/api/src/api.controllers.ts:1041-1048 | which lines add to the total, and what |
| BillingTerms.PercentMeans | apps/api/src/api.controllers.ts:1503-1508 | a percentage is read exactly from its type and a number, and nothing else in the object |
| BillingTerms.AmountMeans | apps/api/src/api.controllers.ts:1510-1515 | an amount exactly from its type and a safe integer |
| BillingTerms.ValidLinesMean | apps/api/src/api.controllers.ts:978-1081 | the bounds of the list: a hundred lines, fifteen million euros in all |
| QuoteLines.ParseQuoteLine | apps/api/src/api.controllers.ts:1627-1729 | one turn of the quote's own loop makes of a line what the invoice's does |
| QuoteLines.ParseQuoteLines | apps/api/src/api.controllers.ts:1621-1734 | the quote loop reports exactly the specified issues, with no least number of lines |
| QuoteLines.ParseAsInvoiceAndQuote | apps/api/src/api.controllers.ts:1621-1734 | both parsers, run on one input, report and collect the same exactly unless it is the empty array |
| SemanticKeys.KeysAgree | design_handoff_bob_pro/manifests/merge-inventory-v0.py:37-41 | keys are equal exactly when the domains are and the same normal tokens occur, in any order and number, or when a domain holds the separator and reaches into the other's tokens |
| SemanticKeys.KeysNeedNoBar | design_handoff_bob_pro/manifests/merge-inventory-v0.py:37-41 | the second case is out exactly on alphabets without the separator |
| SemanticKeys.KeyIsStable | design_handoff_bob_pro/manifests/merge-inventory-v0.py:32-41 | a key normalises to itself exactly when none of its tokens is a stopword |
| SemanticKeys.UpperCaseStopwordIsKept | design_handoff_bob_pro/manifests/merge-inventory-v0.py:39 | a name whose key is not stable |
| SemanticKeys.NormTokenIsStable | design_handoff_bob_pro/manifests/merge-inventory-v0.py:32-34 | normalising a token twice changes nothing |
| SemanticKeys.VerbTable | design_handoff_bob_pro/manifests/merge-inventory-v0.py:20-34 | which words become which verb; every other word is its own |
| InventoryMerge.Merge | design_handoff_bob_pro/manifests/merge-inventory-v0.py:44-71 | one entry for each key in first-occurrence order, holding exactly its actions' ids and surfaces in order and all their flags |
| InventoryMerge.SharedEntryIffSameKey | design_handoff_bob_pro/manifests/merge-inventory-v0.py:44-71 | two actions lie in one entry exactly when their keys are equal |
| InventoryMerge.InventoryEntriesShared | design_handoff_bob_pro/manifests/merge-inventory-v0.py:37-71 | for the inventory's keys: exactly when domain and normal tokens agree, or a domain straddles the separator |
| InventoryMerge.MergeConservesIds | design_handoff_bob_pro/manifests/merge-inventory-v0.py:44-71 | the entries together hold one id for each action |
| InventoryMerge.FirstKeysInOrder | design_handoff_bob_pro/manifests/merge-inventory-v0.py:44-67 | entries come in the order of the first actions of their keys |
| InventoryMerge.GroupConcat | design_handoff_bob_pro/manifests/merge-inventory-v0.py:44-71 | within an entry the order is that of the actions |

## Left out

Assumptions of the quarantine model:

- The source fixes five entries; the model has any number from one on, numbered from 0 instead of 1.
- SHA-256 digests are taken as injective, so bodies stand for their digests; digests and formats themselves are not computed.
- Storage facts (id, version, times, metadata) are assumed never to be issued twice, at any address; this is what lets equal rows mean equal bytes.
- Sealing assumes that every entry of the manifest was observed: that its facts were at some time those of an object with its bytes. QuarantineTheorems.NoDocumentLost rests on it.
- An audit row is assumed to be dated no later than the database clock, which its column default gives.
- The trigger on storage objects is assumed enabled throughout. The other fences can be switched off by a step of the model, and then only the guarded deletion and completion refuse to go on.
- The older rule that originals referenced by generated documents are immutable is not modelled; it only forbids more.
- Reads made inside one statement or transaction see one state; row locks and isolation levels appear only as the atomicity of each transaction.
- QuarantineSaga.Apply: runs without interference between its own steps, so the reads it repeats for safety are shown to pass. Other writers are covered at the level of steps by QuarantineSafety and QuarantineResume.
- QuarantineSaga.Finalize: likewise runs without interference between its own steps.
- QuarantineResume.NoDeadEnd: other writers are assumed not to switch the fences off and not to upload foreign objects to the operation's own quarantine addresses; its own completed receipt is uploaded after the audit is recorded, as finalize does. The same holds for QuarantineProgress.
- The confirmation text, the token and OIDC checks, and the check that the deletion time is not before the authorisation are input validation and left out; `Identity` keeps the claims that must stay the same and the token that must not.
- Building a manifest from an audit, its canonical text and its parsing are left out; sealing takes any manifest with at least one entry, distinct keys and observed entries.

Other modules:

- Strings are sequences of characters, one for each code unit; lone surrogates do not occur.
- CanonicalJson.SameJsonDecides: members with the value `undefined`, which printing drops, are not JSON and not modelled.
- ExpressionMeaning.ResolveIsEval: string literals in trees must be balanced in brackets and free of top-level equalities; outside of that, QuotedIsExact says what happens. Property reads, truthiness, equality and `Number` are parameters, and getters that throw or have effects are not modelled.
- Rendering covers text, elements, loops, conditionals, children and imports of templates; external modules, placeholders while streaming and error boundaries are not part of this model.
- Lifecycle: property values are undefined, NaN or ordinary; signed zeros are one value.
- AttributeCase models the encoding of one name; which parts of a template the encoder's pattern matches is not part of this model.
- AuditReport leaves out the digest of the canonical state and the texts of the issues.
- BoundedReader takes the chunks as given; cancelling and decoding are left out.
- Doubles does not model overflow to infinity, so for invalid quantities beyond any valid one the running total is a number where the program has infinity. Such lines are reported either way.
- BillingLines.ParseBillingLineInputs and QuoteLines.ParseQuoteLines: messages are named by their kind; two of them are worded differently for invoices and quotes.
- BillingTerms.ValidLineMeans and the others there speak of objects with one member for each key, which is what decoding gives.
- SemanticKeys takes lower-casing as a parameter with the laws it uses; ASCII lower-casing is shown to be one.
- InventoryMerge leaves out kinds, risks and notes, which are collected like surfaces, and the actions added from the critique.
- HTTP, retries, role switching, schema changes, the validators and their sandbox, configuration, the user interface and the other request parsers are not part of this model.
