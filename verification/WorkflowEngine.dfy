/** Running a workflow on a job context, resumably (src/workflow/engine.js, src/workflow/schema.js). */
module WorkflowEngines {
  import opened Wrappers
  import opened JobContexts
  import opened DocumentServices

  datatype StepKind = Http | OtpPrepare | OtpWait | DocumentsPrepare | DocumentsUpload

  datatype Step = Step(id: StepId, kind: StepKind)

  datatype Workflow = Workflow(enabled: bool, steps: seq<Step>)

  predicate IsIdStart(c: char) {
    'A' <= c <= 'Z' || 'a' <= c <= 'z' || c == '_'
  }

  predicate IsStepId(id: string) {
    && 1 <= |id| <= 100
    && IsIdStart(id[0])
    && forall i :: 1 <= i < |id| ==> IsIdStart(id[i]) || '0' <= id[i] <= '9' || id[i] == '-'
  }

  predicate DistinctIds(steps: seq<Step>) {
    forall i, k :: 0 <= i < k < |steps| ==> steps[i].id != steps[k].id
  }

  /** The schema: well-formed, distinct ids, and something to do. */
  predicate IsValid(w: Workflow) {
    && (forall i :: 0 <= i < |w.steps| ==> IsStepId(w.steps[i].id))
    && DistinctIds(w.steps)
    && (w.enabled ==> w.steps != [])
  }

  function Names(steps: seq<Step>): (r: seq<StepId>)
    ensures |r| == |steps|
  {
    seq(|steps|, i requires 0 <= i < |steps| => steps[i].id)
  }

  // -------------------------------------------------------------------------------------------
  // Where to resume
  // -------------------------------------------------------------------------------------------

  /** The first step from n on without a response. */
  function FirstMissing(steps: seq<Step>, responses: set<StepId>, n: nat): (k: nat)
    requires n <= |steps|
    ensures n <= k <= |steps|
    ensures forall i :: n <= i < k ==> steps[i].id in responses
    ensures k < |steps| ==> steps[k].id !in responses
    decreases |steps| - n
  {
    if n < |steps| && steps[n].id in responses then FirstMissing(steps, responses, n + 1) else n
  }

  lemma {:induction false} FirstMissingIs(steps: seq<Step>, responses: set<StepId>, n: nat, k: nat)
    requires n <= k <= |steps|
    requires forall i :: n <= i < k ==> steps[i].id in responses
    requires k < |steps| ==> steps[k].id !in responses
    ensures FirstMissing(steps, responses, n) == k
    decreases k - n
  {
    if n < k {
      FirstMissingIs(steps, responses, n + 1, k);
    }
  }

  /** The control point that fits a first missing step. */
  predicate Fits(steps: seq<Step>, k: nat, currentStep: Option<StepId>)
    requires k <= |steps|
  {
    currentStep.None? || (k < |steps| && currentStep.value == steps[k].id)
  }

  /** findResumeIndex: the completed steps must be a prefix, and the current step the one after it. */
  function ResumeIndex(steps: seq<Step>, responses: set<StepId>, currentStep: Option<StepId>): Option<nat> {
    var k := FirstMissing(steps, responses, 0);
    if (exists i :: k < i < |steps| && steps[i].id in responses) || !Fits(steps, k, currentStep) then None else Some(k)
  }

  /** The responses left by completing the first k steps. */
  function ResponsesAfter(steps: seq<Step>, k: nat): set<StepId>
    requires k <= |steps|
  {
    OwnProperties(set i | 0 <= i < k :: steps[i].id)
  }

  /** While no completed step is named __proto__, resuming continues after the completed prefix exactly
      when the current step is the next one, or none is current. */
  lemma ResumesAfterPrefix(steps: seq<Step>, k: nat, currentStep: Option<StepId>)
    requires DistinctIds(steps) && k <= |steps|
    requires forall i :: 0 <= i < k ==> steps[i].id != PROTO
    ensures ResumeIndex(steps, ResponsesAfter(steps, k), currentStep) ==
            if Fits(steps, k, currentStep) then Some(k) else None
  {
    var responses := ResponsesAfter(steps, k);
    PrefixIsDone(steps, k);
    FirstMissingIs(steps, responses, 0, k);
  }

  lemma PrefixIsDone(steps: seq<Step>, k: nat)
    requires DistinctIds(steps) && k <= |steps|
    requires forall i :: 0 <= i < k ==> steps[i].id != PROTO
    ensures forall i :: 0 <= i < |steps| ==> (steps[i].id in ResponsesAfter(steps, k) <==> i < k)
  {
    forall i | 0 <= i < |steps| ensures steps[i].id in ResponsesAfter(steps, k) <==> i < k {
      if i >= k {
        assert forall m :: 0 <= m < k ==> steps[m].id != steps[i].id;
      }
    }
  }

  /** A step named __proto__ passes the schema but leaves no response. Once it is done, resuming is
      possible only directly after it, and then it runs the step again. */
  lemma ProtoStepIsForgotten(steps: seq<Step>, p: nat, k: nat, currentStep: Option<StepId>)
    requires DistinctIds(steps) && p < k <= |steps| && steps[p].id == PROTO
    ensures IsStepId(PROTO)
    ensures ResumeIndex(steps, ResponsesAfter(steps, k), currentStep) ==
            if k == p + 1 && Fits(steps, p, currentStep) then Some(p) else None
  {
    var responses := ResponsesAfter(steps, k);
    forall i | 0 <= i < |steps| ensures steps[i].id in responses <==> i < k && i != p {
      if i >= k {
        assert forall m :: 0 <= m < k ==> steps[m].id != steps[i].id;
      }
    }
    FirstMissingIs(steps, responses, 0, p);
    if k > p + 1 {
      assert steps[p + 1].id in responses;
    }
  }

  /** Whatever the current step, the first k steps are resumed after as they should be exactly when none
      of them is named __proto__. */
  lemma OnlyProtoIsForgotten(steps: seq<Step>, k: nat)
    requires DistinctIds(steps) && k <= |steps|
    ensures (forall currentStep ::
               ResumeIndex(steps, ResponsesAfter(steps, k), currentStep) ==
               if Fits(steps, k, currentStep) then Some(k) else None)
            <==> forall i :: 0 <= i < k ==> steps[i].id != PROTO
  {
    if p :| 0 <= p < k && steps[p].id == PROTO {
      ProtoStepIsForgotten(steps, p, k, None);
    } else {
      forall currentStep
        ensures ResumeIndex(steps, ResponsesAfter(steps, k), currentStep) ==
                if Fits(steps, k, currentStep) then Some(k) else None
      {
        ResumesAfterPrefix(steps, k, currentStep);
      }
    }
  }

  // -------------------------------------------------------------------------------------------
  // Progress of a context through a workflow
  // -------------------------------------------------------------------------------------------

  predicate Asked(x: nat) {
    true
  }

  /** What follows stands under a quantifier so that only proofs that ask for it have to look at it. */
  ghost predicate UploadsOk(steps: seq<Step>, uploaded: seq<Upload>, markers: set<string>, k: nat) {
    forall x {:trigger Asked(x)} :: Asked(x) ==> UploadsMatch(steps, uploaded, markers, k)
  }

  /** Each acknowledged upload happened once; uploads belong to steps up to the current one; and the markers
      of the current step say exactly which of its documents are uploaded. */
  ghost predicate UploadsMatch(steps: seq<Step>, uploaded: seq<Upload>, markers: set<string>, k: nat) {
    && (forall i, m :: 0 <= i < m < |uploaded| ==> uploaded[i] != uploaded[m])
    && (forall m, d :: k < m < |steps| ==> Upload(steps[m].id, d) !in uploaded)
    && (k < |steps| ==>
          forall d :: Upload(steps[k].id, d) in uploaded <==> UploadKey(steps[k].id, d) in markers)
    && (k < |steps| && !steps[k].kind.DocumentsUpload? ==> forall d :: Upload(steps[k].id, d) !in uploaded)
    && (forall u :: u in uploaded ==> ':' !in u.step)
    && (forall key :: key in markers ==> exists u :: u in uploaded && key == UploadKey(u.step, u.document))
  }

  /** k steps are completed, in order and once each. */
  ghost predicate Progress(w: Workflow, c: JobContext, k: nat)
    reads c
  {
    && k <= |w.steps|
    && c.completed == Names(w.steps[..k])
    && (forall i :: 0 <= i < |w.steps| ==> (w.steps[i].id in c.responses <==> i < k))
    && UploadsOk(w.steps, c.uploaded, c.documentUploads, k)
  }

  /** Workflows whose steps all leave a response. */
  predicate IsLossless(w: Workflow) {
    IsValid(w) && forall i :: 0 <= i < |w.steps| ==> w.steps[i].id != PROTO
  }

  lemma StepIdsHaveNoColon(id: string)
    requires IsStepId(id)
    ensures ':' !in id
  {
  }

  /** The next step starts without uploads and without markers. */
  lemma NextStepStartsClean(w: Workflow, uploaded: seq<Upload>, markers: set<string>, k: nat)
    requires IsValid(w) && k < |w.steps| && UploadsOk(w.steps, uploaded, markers, k)
    ensures UploadsOk(w.steps, uploaded, markers, k + 1)
  {
    assert Asked(0);
    if k + 1 < |w.steps| {
      var step := w.steps[k + 1];
      StepIdsHaveNoColon(step.id);
      forall d ensures UploadKey(step.id, d) !in markers {
        if UploadKey(step.id, d) in markers {
          var u :| u in uploaded && UploadKey(step.id, d) == UploadKey(u.step, u.document);
          UploadKeyIsInjective(step.id, d, u.step, u.document);
        }
      }
    }
  }

  /** One more upload of the current step. */
  lemma UploadIsRecorded(w: Workflow, uploaded: seq<Upload>, markers: set<string>, k: nat, document: string)
    requires IsValid(w) && k < |w.steps| && w.steps[k].kind.DocumentsUpload?
    requires UploadsOk(w.steps, uploaded, markers, k)
    requires UploadKey(w.steps[k].id, document) !in markers
    ensures UploadsOk(w.steps, uploaded + [Upload(w.steps[k].id, document)],
                      markers + {UploadKey(w.steps[k].id, document)}, k)
  {
    assert Asked(0);
    var step := w.steps[k].id;
    var later := uploaded + [Upload(step, document)];
    var all := markers + {UploadKey(step, document)};
    StepIdsHaveNoColon(step);
    forall d ensures Upload(step, d) in later <==> UploadKey(step, d) in all {
      UploadKeyIsInjective(step, d, step, document);
    }
    forall key | key in all ensures exists u :: u in later && key == UploadKey(u.step, u.document) {
      if key in markers {
        var u :| u in uploaded && key == UploadKey(u.step, u.document);
        assert u in later;
      } else {
        assert Upload(step, document) in later;
      }
    }
  }

  // -------------------------------------------------------------------------------------------
  // The engine
  // -------------------------------------------------------------------------------------------

  /** What becomes of one upload. Unacknowledged: the target accepts it, but no usable answer comes back. */
  datatype UploadRun = Accepted | Unacknowledged | Rejected | AbortedBefore

  /** What the world does during one execution: per step whether it is aborted before it starts, whether
      its own operation succeeds, what its downloads deliver, and what becomes of each of its uploads. */
  datatype World = World(
    aborted: nat -> bool,
    succeeds: nat -> bool,
    downloads: nat -> seq<Option<Document>>,
    uploads: (nat, nat) -> UploadRun)

  /** No answer of the target gets lost. */
  ghost predicate AnswersAll(world: World) {
    forall k: nat, i: nat :: !world.uploads(k, i).Unacknowledged?
  }

  /** How one execution ends. */
  datatype Execution =
    | Completed(completedSteps: nat)
    | ConfigError
    | CannotResume
    | AbortedBetweenSteps
    | StepFailed

  // -------------------------------------------------------------------------------------------
  // Where an execution stops, from what is known before it
  // -------------------------------------------------------------------------------------------

  /** What steps hand on to later steps: the documents, and the markers of their uploads. */
  datatype Memory = Memory(documents: seq<Document>, markers: set<string>)

  datatype StepRun = StepRun(ok: bool, memory: Memory)

  /** The upload loop from document i on. */
  function UploadsFrom(step: StepId, memory: Memory, i: nat, k: nat, runs: (nat, nat) -> UploadRun): StepRun
    requires i <= |memory.documents|
    decreases |memory.documents| - i
  {
    if i == |memory.documents| then
      StepRun(true, memory)
    else
      var key := UploadKey(step, memory.documents[i].Id());
      if runs(k, i).AbortedBefore? then StepRun(false, memory)
      else if key in memory.markers then UploadsFrom(step, memory, i + 1, k, runs)
      else if !runs(k, i).Accepted? then StepRun(false, memory)
      else UploadsFrom(step, memory.(markers := memory.markers + {key}), i + 1, k, runs)
  }

  function PreparedMemory(memory: Memory, documents: seq<Document>): Memory {
    Memory(documents,
           if memory.documents != [] && Ids(memory.documents) != Ids(documents) then {} else memory.markers)
  }

  /** Whether step k succeeds, and what it leaves to the next one. */
  ghost function RunOf(w: Workflow, k: nat, memory: Memory, world: World, maxCount: nat, maxTotalBytes: nat): StepRun
    requires k < |w.steps|
  {
    if !world.succeeds(k) then
      StepRun(false, memory)
    else
      match w.steps[k].kind
      case DocumentsPrepare =>
        (match PreparedDocuments(world.downloads(k), maxCount, maxTotalBytes)
         case None => StepRun(false, memory)
         case Some(documents) => StepRun(true, PreparedMemory(memory, documents)))
      case DocumentsUpload =>
        if memory.documents == [] then StepRun(false, memory)
        else UploadsFrom(w.steps[k].id, memory, 0, k, world.uploads)
      case _ => StepRun(true, memory)
  }

  // What makes a step fail.

  function KeyAt(step: StepId, documents: seq<Document>, m: nat): string
    requires m < |documents|
  {
    UploadKey(step, documents[m].Id())
  }

  /** The upload of document m goes through: not aborted before, and marked, done by this loop for an earlier
      document with the same id, or accepted now. */
  predicate GoesThrough(step: StepId, memory: Memory, i: nat, m: nat, k: nat, runs: (nat, nat) -> UploadRun)
    requires i <= m < |memory.documents|
  {
    && !runs(k, m).AbortedBefore?
    && (|| KeyAt(step, memory.documents, m) in memory.markers
        || (exists j :: i <= j < m && KeyAt(step, memory.documents, j) == KeyAt(step, memory.documents, m))
        || runs(k, m).Accepted?)
  }

  predicate AllGoThrough(step: StepId, memory: Memory, i: nat, from: nat, k: nat, runs: (nat, nat) -> UploadRun)
    requires i <= from
  {
    forall m: nat :: from <= m < |memory.documents| ==> GoesThrough(step, memory, i, m, k, runs)
  }

  /** A key that is marked by the loop counts like one that was marked before. */
  lemma MarkedOnTheWay(step: StepId, memory: Memory, i: nat, k: nat, runs: (nat, nat) -> UploadRun)
    requires i < |memory.documents|
    ensures var next := memory.(markers := memory.markers + {KeyAt(step, memory.documents, i)});
            AllGoThrough(step, next, i + 1, i + 1, k, runs) <==> AllGoThrough(step, memory, i, i + 1, k, runs)
  {
    var next, later := memory.(markers := memory.markers + {KeyAt(step, memory.documents, i)}), i + 1;
    if AllGoThrough(step, next, i + 1, i + 1, k, runs) {
      forall m: nat | i < m < |memory.documents| ensures GoesThrough(step, memory, i, m, k, runs) {
        assert GoesThrough(step, next, later, m, k, runs);
      }
    }
    if AllGoThrough(step, memory, i, i + 1, k, runs) {
      forall m: nat | i < m < |memory.documents| ensures GoesThrough(step, next, later, m, k, runs) {
        assert GoesThrough(step, memory, i, m, k, runs);
      }
    }
  }

  lemma OneGoesThrough(step: StepId, memory: Memory, i: nat, k: nat, runs: (nat, nat) -> UploadRun)
    requires i < |memory.documents|
    ensures UploadsFrom(step, memory, i, k, runs) ==
            if GoesThrough(step, memory, i, i, k, runs) then
              UploadsFrom(step, memory.(markers := memory.markers + {KeyAt(step, memory.documents, i)}), i + 1, k, runs)
            else
              StepRun(false, memory)
  {
    var key := KeyAt(step, memory.documents, i);
    if key in memory.markers {
      assert memory.markers + {key} == memory.markers;
    }
  }

  /** The upload loop succeeds exactly when every document goes through. */
  lemma {:induction false} UploadsSucceedTogether(
    step: StepId, memory: Memory, i: nat, k: nat, runs: (nat, nat) -> UploadRun)
    requires i <= |memory.documents|
    ensures UploadsFrom(step, memory, i, k, runs).ok <==>
            AllGoThrough(step, memory, i, i, k, runs)
    decreases |memory.documents| - i
  {
    if i < |memory.documents| {
      var next := memory.(markers := memory.markers + {KeyAt(step, memory.documents, i)});
      UploadsSucceedTogether(step, next, i + 1, k, runs);
      MarkedOnTheWay(step, memory, i, k, runs);
      OneGoesThrough(step, memory, i, k, runs);
      assert AllGoThrough(step, memory, i, i, k, runs) <==>
             GoesThrough(step, memory, i, i, k, runs) && AllGoThrough(step, memory, i, i + 1, k, runs);
    }
  }

  /** A preparation succeeds exactly when there are one to maxCount sources that all deliver, with different
      contents and within the total size. */
  lemma PreparedWhenAcceptable(downloads: seq<Option<Document>>, maxCount: nat, maxTotalBytes: nat)
    ensures PreparedDocuments(downloads, maxCount, maxTotalBytes).Some? <==>
            0 < |downloads| <= maxCount && exists documents :: Acceptable(downloads, documents, maxTotalBytes)
  {
    if documents :| Acceptable(downloads, documents, maxTotalBytes) {
      assert AllDeliver(downloads, DeliveredBy(downloads));
      assert documents == DeliveredBy(downloads);
    }
  }

  /** A step goes through exactly when its own operation does, and what it does with documents: a preparation
      gets acceptable documents, an upload has documents and all of them go through. */
  lemma StepGoesThrough(w: Workflow, k: nat, memory: Memory, world: World, maxCount: nat, maxTotalBytes: nat)
    requires k < |w.steps|
    ensures RunOf(w, k, memory, world, maxCount, maxTotalBytes).ok <==>
            && world.succeeds(k)
            && (w.steps[k].kind.DocumentsPrepare? ==>
                  && 0 < |world.downloads(k)| <= maxCount
                  && exists documents :: Acceptable(world.downloads(k), documents, maxTotalBytes))
            && (w.steps[k].kind.DocumentsUpload? ==>
                  && memory.documents != []
                  && AllGoThrough(w.steps[k].id, memory, 0, 0, k, world.uploads))
  {
    PreparedWhenAcceptable(world.downloads(k), maxCount, maxTotalBytes);
    UploadsSucceedTogether(w.steps[k].id, memory, 0, k, world.uploads);
  }

  /** Through to the end, or the step before which an execution is aborted, or the step that fails. */
  datatype Stop = Through | Aborts(index: nat) | Fails(index: nat)

  /** The first step from k on that does not go through. */
  ghost function StopFrom(w: Workflow, k: nat, memory: Memory, world: World, maxCount: nat, maxTotalBytes: nat): Stop
    requires k <= |w.steps|
    decreases |w.steps| - k
  {
    if k == |w.steps| then Through
    else if world.aborted(k) then Aborts(k)
    else
      var run := RunOf(w, k, memory, world, maxCount, maxTotalBytes);
      if run.ok then StopFrom(w, k + 1, run.memory, world, maxCount, maxTotalBytes) else Fails(k)
  }

  /** Step k goes like that, and an execution from step k on stops there. */
  ghost predicate Runs(
    w: Workflow, k: nat, memory: Memory, world: World, maxCount: nat, maxTotalBytes: nat, run: StepRun)
    requires k < |w.steps|
  {
    forall x {:trigger Asked(x)} :: Asked(x) ==> RunOf(w, k, memory, world, maxCount, maxTotalBytes) == run
  }

  ghost predicate Leads(
    w: Workflow, k: nat, memory: Memory, world: World, maxCount: nat, maxTotalBytes: nat, stop: Stop)
    requires k <= |w.steps|
  {
    forall x {:trigger Asked(x)} :: Asked(x) ==> StopFrom(w, k, memory, world, maxCount, maxTotalBytes) == stop
  }

  lemma LeadsHere(w: Workflow, k: nat, memory: Memory, world: World, maxCount: nat, maxTotalBytes: nat, stop: Stop)
    requires k <= |w.steps| && Leads(w, k, memory, world, maxCount, maxTotalBytes, stop)
    ensures k == |w.steps| ==> stop == Through
    ensures k < |w.steps| && world.aborted(k) ==> stop == Aborts(k)
  {
    assert Asked(0);
  }

  lemma LeadsOn(
    w: Workflow, k: nat, memory: Memory, world: World, maxCount: nat, maxTotalBytes: nat, stop: Stop, run: StepRun)
    requires k < |w.steps| && Leads(w, k, memory, world, maxCount, maxTotalBytes, stop)
    requires !world.aborted(k) && Runs(w, k, memory, world, maxCount, maxTotalBytes, run)
    ensures if run.ok then Leads(w, k + 1, run.memory, world, maxCount, maxTotalBytes, stop) else stop == Fails(k)
  {
    assert Asked(0);
  }

  /** It is the first step that is aborted or fails. */
  lemma {:induction false} StopIsTheFirst(
    w: Workflow, k: nat, memory: Memory, world: World, maxCount: nat, maxTotalBytes: nat)
    requires k <= |w.steps|
    ensures var stop := StopFrom(w, k, memory, world, maxCount, maxTotalBytes);
            && (!stop.Through? ==> k <= stop.index < |w.steps| && (stop.Aborts? <==> world.aborted(stop.index)))
            && (forall i :: k <= i < ReachedBy(w, stop) ==> !world.aborted(i) && world.succeeds(i))
    decreases |w.steps| - k
  {
    if k < |w.steps| && !world.aborted(k) {
      var run := RunOf(w, k, memory, world, maxCount, maxTotalBytes);
      if run.ok {
        StopIsTheFirst(w, k + 1, run.memory, world, maxCount, maxTotalBytes);
      }
    }
  }

  /** How many steps are completed then. */
  function ReachedBy(w: Workflow, stop: Stop): nat {
    if stop.Through? then |w.steps| else stop.index
  }

  /** What an execution answers when it stops there. */
  function AnswerOf(w: Workflow, stop: Stop): Execution {
    match stop
    case Through => Completed(|w.steps|)
    case Aborts(_) => AbortedBetweenSteps
    case Fails(_) => StepFailed
  }

  lemma FreshContextHasProgress(w: Workflow, c: JobContext)
    requires c.responses == {} && c.completed == [] && c.uploaded == [] && c.documentUploads == {}
    ensures Progress(w, c, 0)
  {
    assert w.steps[..0] == [];
  }

  lemma ProgressResumes(w: Workflow, c: JobContext, k: nat)
    requires IsLossless(w) && Progress(w, c, k)
    ensures ResumeIndex(w.steps, c.responses, c.currentStep) ==
            if Fits(w.steps, k, c.currentStep) then Some(k) else None
  {
    FirstMissingIs(w.steps, c.responses, 0, k);
  }

  ghost function MemoryOf(c: JobContext): Memory
    reads c
  {
    Memory(c.documents, c.documentUploads)
  }

  lemma OneUpload(step: StepId, memory: Memory, i: nat, k: nat, runs: (nat, nat) -> UploadRun, ok: bool, after: Memory)
    requires i < |memory.documents|
    requires var key := UploadKey(step, memory.documents[i].Id());
             && (ok <==> !runs(k, i).AbortedBefore? && (key in memory.markers || runs(k, i).Accepted?))
             && after == memory.(markers := memory.markers + if ok then {key} else {})
    ensures UploadsFrom(step, memory, i, k, runs) == if ok then UploadsFrom(step, after, i + 1, k, runs) else StepRun(false, after)
  {
    var key := UploadKey(step, memory.documents[i].Id());
    assert memory.markers + {} == memory.markers;
    if key in memory.markers {
      assert memory.markers + {key} == memory.markers;
    }
  }

  predicate AreUploaded(step: StepId, documents: seq<Document>, uploaded: seq<Upload>) {
    forall i :: 0 <= i < |documents| ==> Upload(step, documents[i].Id()) in uploaded
  }

  lemma OneMoreUploaded(
    step: StepId, documents: seq<Document>, i: nat, before: seq<Upload>, after: seq<Upload>)
    requires i < |documents| && AreUploaded(step, documents[..i], before)
    requires Upload(step, documents[i].Id()) in after && before <= after
    ensures AreUploaded(step, documents[..i + 1], after)
  {
    assert forall u :: u in before ==> u in after;
  }

  // -------------------------------------------------------------------------------------------
  // Which documents are uploaded
  // -------------------------------------------------------------------------------------------

  /** Step p is the last preparation before step k, of those from step first on. */
  predicate IsLastPreparation(w: Workflow, first: nat, p: nat, k: nat) {
    && first <= p < k <= |w.steps| && w.steps[p].kind.DocumentsPrepare?
    && forall q :: p < q < k ==> !w.steps[q].kind.DocumentsPrepare?
  }

  predicate NoPreparation(w: Workflow, first: nat, k: nat) {
    forall p :: first <= p < k && p < |w.steps| ==> !w.steps[p].kind.DocumentsPrepare?
  }

  /** The documents after the steps from first to k: those that the last preparation among them downloaded, all of
      them; without a preparation, those from before. */
  ghost predicate AreDocumentsAt(
    w: Workflow, first: nat, k: nat, before: seq<Document>, documents: seq<Document>, world: World)
  {
    forall x {:trigger Asked(x)} :: Asked(x) ==>
      && (forall p: nat :: IsLastPreparation(w, first, p, k) ==> AllDeliver(world.downloads(p), documents))
      && (NoPreparation(w, first, k) ==> documents == before)
  }

  /** Every completed upload step has uploaded every document that the last preparation before it downloaded, and
      every document from before if there was no preparation. */
  ghost predicate UploadsEverything(
    w: Workflow, first: nat, reached: nat, before: seq<Document>, world: World, uploaded: seq<Upload>)
  {
    && (forall p: nat, u: nat, i: nat ::
          IsLastPreparation(w, first, p, u) && u < reached && u < |w.steps| && w.steps[u].kind.DocumentsUpload?
          && i < |world.downloads(p)| ==>
            && world.downloads(p)[i].Some?
            && Upload(w.steps[u].id, world.downloads(p)[i].value.Id()) in uploaded)
    && (forall u :: first <= u < reached && u < |w.steps| && w.steps[u].kind.DocumentsUpload?
                    && NoPreparation(w, first, u) ==>
          before != [] && AreUploaded(w.steps[u].id, before, uploaded))
  }

  ghost predicate EverythingUploaded(
    w: Workflow, first: nat, reached: nat, before: seq<Document>, world: World, uploaded: seq<Upload>)
  {
    forall x {:trigger Asked(x)} :: Asked(x) ==> UploadsEverything(w, first, reached, before, world, uploaded)
  }

  lemma NothingToUploadYet(w: Workflow, first: nat, documents: seq<Document>, world: World, uploaded: seq<Upload>)
    ensures AreDocumentsAt(w, first, first, documents, documents, world)
    ensures EverythingUploaded(w, first, first, documents, world, uploaded)
  {
  }

  /** A step leaves the documents that the last preparation downloaded. */
  lemma DocumentsGoOn(
    w: Workflow, first: nat, k: nat, before: seq<Document>, documents: seq<Document>, world: World,
    next: seq<Document>)
    requires first <= k < |w.steps| && AreDocumentsAt(w, first, k, before, documents, world)
    requires if w.steps[k].kind.DocumentsPrepare? then AllDeliver(world.downloads(k), next) else next == documents
    ensures AreDocumentsAt(w, first, k + 1, before, next, world)
  {
    assert Asked(0);
    forall p: nat | IsLastPreparation(w, first, p, k + 1) ensures AllDeliver(world.downloads(p), next) {
      if p < k {
        assert IsLastPreparation(w, first, p, k);
      }
    }
  }

  /** A completed upload step uploads all the documents there are. */
  lemma UploadsGoOn(
    w: Workflow, first: nat, k: nat, before: seq<Document>, documents: seq<Document>, world: World,
    uploaded: seq<Upload>, later: seq<Upload>)
    requires first <= k < |w.steps| && AreDocumentsAt(w, first, k, before, documents, world)
    requires EverythingUploaded(w, first, k, before, world, uploaded) && uploaded <= later
    requires w.steps[k].kind.DocumentsUpload? ==> documents != [] && AreUploaded(w.steps[k].id, documents, later)
    ensures EverythingUploaded(w, first, k + 1, before, world, later)
  {
    assert Asked(0);
    assert forall u :: u in uploaded ==> u in later;
    forall p: nat, u: nat, i: nat |
      IsLastPreparation(w, first, p, u) && u < k + 1 && u < |w.steps| && w.steps[u].kind.DocumentsUpload?
      && i < |world.downloads(p)|
      ensures world.downloads(p)[i].Some?
              && Upload(w.steps[u].id, world.downloads(p)[i].value.Id()) in later
    {
      if u == k {
        assert AllDeliver(world.downloads(p), documents);
      }
    }
  }

  lemma EverythingUploadedLater(
    w: Workflow, first: nat, reached: nat, before: seq<Document>, world: World, uploaded: seq<Upload>,
    later: seq<Upload>)
    requires UploadsEverything(w, first, reached, before, world, uploaded) && uploaded <= later
    ensures UploadsEverything(w, first, reached, before, world, later)
  {
    assert forall u :: u in uploaded ==> u in later;
  }

  lemma EverythingIsUploaded(
    w: Workflow, first: nat, reached: nat, before: seq<Document>, world: World, uploaded: seq<Upload>)
    requires EverythingUploaded(w, first, reached, before, world, uploaded)
    ensures UploadsEverything(w, first, reached, before, world, uploaded)
  {
    assert Asked(0);
  }

  /** An upload of this step is lost, if at all, only by a failure of the step. */
  ghost predicate LosesByFailing(before: seq<Upload>, after: seq<Upload>, step: StepId, failed: bool) {
    after == before || (failed && exists document :: after == before + [Upload(step, document)])
  }

  /** How often the target accepted a document for a step. */
  ghost function TimesAccepted(c: JobContext, u: Upload): nat
    reads c
  {
    multiset(c.uploaded)[u] + multiset(c.unacknowledged)[u]
  }

  lemma DistinctCountOnce(uploaded: seq<Upload>, u: Upload)
    requires forall i, m :: 0 <= i < m < |uploaded| ==> uploaded[i] != uploaded[m]
    ensures multiset(uploaded)[u] <= 1
  {
    if uploaded != [] {
      var init, last := uploaded[..|uploaded| - 1], uploaded[|uploaded| - 1];
      DistinctCountOnce(init, u);
      assert uploaded == init + [last];
      if last == u {
        assert u !in init;
      }
    }
  }

  /** Over any number of executions, the target accepts a document for a step once more than answers for it got
      lost, at most; without a lost answer it is at most once. */
  lemma AcceptedOnceUnlessUnanswered(w: Workflow, c: JobContext, k: nat, u: Upload)
    requires Progress(w, c, k)
    ensures TimesAccepted(c, u) <= 1 + multiset(c.unacknowledged)[u]
    ensures TimesAccepted(c, u) > 1 ==> u in c.unacknowledged
  {
    assert Asked(0);
    DistinctCountOnce(c.uploaded, u);
  }

  class WorkflowEngine {
    const maxSteps: nat
    const documentService: DocumentService

    constructor (maxSteps: nat, documentService: DocumentService)
      ensures this.maxSteps == maxSteps && this.documentService == documentService
    {
      this.maxSteps := maxSteps;
      this.documentService := documentService;
    }

    /** findResumeIndex. */
    method FindResumeIndex(steps: seq<Step>, c: JobContext) returns (r: Option<nat>)
      ensures r == ResumeIndex(steps, c.responses, c.currentStep)
    {
      var first := |steps|;
      for index := 0 to |steps|
        invariant first == |steps|
        invariant forall i :: 0 <= i < index ==> steps[i].id in c.responses
      {
        if !c.HasResponse(steps[index].id) {
          first := index;
          break;
        }
      }
      FirstMissingIs(steps, c.responses, 0, first);
      var index := first + 1;
      while index < |steps|
        invariant forall i :: first < i < index && i < |steps| ==> steps[i].id !in c.responses
      {
        if c.HasResponse(steps[index].id) {
          return None;
        }
        index := index + 1;
      }
      if c.currentStep.Some? && (first == |steps| || c.currentStep.value != steps[first].id) {
        return None;
      }
      r := Some(first);
    }

    /** One document of an upload step; it is skipped when it carries a marker. */
    method UploadOne(w: Workflow, k: nat, document: string, c: JobContext, run: UploadRun) returns (ok: bool)
      requires IsValid(w) && k < |w.steps| && w.steps[k].kind.DocumentsUpload?
      requires UploadsOk(w.steps, c.uploaded, c.documentUploads, k)
      modifies c`documentUploads, c`uploaded, c`unacknowledged
      ensures UploadsOk(w.steps, c.uploaded, c.documentUploads, k)
      ensures c.uploaded == old(c.uploaded) || c.uploaded == old(c.uploaded) + [Upload(w.steps[k].id, document)]
      ensures ok ==> Upload(w.steps[k].id, document) in c.uploaded
      ensures old(Upload(w.steps[k].id, document) in c.uploaded) ==> c.uploaded == old(c.uploaded)
      ensures var key := UploadKey(w.steps[k].id, document);
              && (ok <==> !run.AbortedBefore? && (key in old(c.documentUploads) || run.Accepted?))
              && c.documentUploads == old(c.documentUploads) + (if ok then {key} else {})
              && c.unacknowledged == old(c.unacknowledged) +
                 if run.Unacknowledged? && key !in old(c.documentUploads) then [Upload(w.steps[k].id, document)] else []
    {
      assert Asked(0);
      var step := w.steps[k].id;
      if run.AbortedBefore? {
        return false;
      }
      if c.HasUpload(step, document) {
        return true;
      }
      if run.Rejected? {
        return false;
      }
      if run.Unacknowledged? {
        c.NoteUnacknowledged(step, document);
        return false;
      }
      UploadIsRecorded(w, c.uploaded, c.documentUploads, k, document);
      c.SetDocumentUpload(step, document);
      ok := true;
    }

    /** The upload loop of one step. */
    method UploadDocuments(w: Workflow, k: nat, c: JobContext, world: World) returns (ok: bool)
      requires IsValid(w) && k < |w.steps| && w.steps[k].kind.DocumentsUpload?
      requires UploadsOk(w.steps, c.uploaded, c.documentUploads, k)
      modifies c`documentUploads, c`uploaded, c`unacknowledged
      ensures UploadsOk(w.steps, c.uploaded, c.documentUploads, k)
      ensures old(c.uploaded) <= c.uploaded
      ensures LosesByFailing(old(c.unacknowledged), c.unacknowledged, w.steps[k].id, !ok)
      ensures AnswersAll(world) ==> c.unacknowledged == old(c.unacknowledged)
      ensures ok ==> forall i :: 0 <= i < |c.documents| ==> Upload(w.steps[k].id, c.documents[i].Id()) in c.uploaded
      ensures StepRun(ok, MemoryOf(c)) == old(UploadsFrom(w.steps[k].id, MemoryOf(c), 0, k, world.uploads))
    {
      ghost var before := c.uploaded;
      for i := 0 to |c.documents|
        invariant UploadsFrom(w.steps[k].id, MemoryOf(c), i, k, world.uploads)
                  == old(UploadsFrom(w.steps[k].id, MemoryOf(c), 0, k, world.uploads))
        invariant UploadsOk(w.steps, c.uploaded, c.documentUploads, k)
        invariant before <= c.uploaded && c.unacknowledged == old(c.unacknowledged)
        invariant AreUploaded(w.steps[k].id, c.documents[..i], c.uploaded)
      {
        ghost var memory, uploaded := MemoryOf(c), c.uploaded;
        ok := UploadOne(w, k, c.documents[i].Id(), c, world.uploads(k, i));
        OneUpload(w.steps[k].id, memory, i, k, world.uploads, ok, MemoryOf(c));
        if !ok {
          return;
        }
        OneMoreUploaded(w.steps[k].id, c.documents, i, uploaded, c.uploaded);
      }
      assert c.documents[..|c.documents|] == c.documents;
      ok := true;
    }

    /** documents.prepare. */
    method PrepareDocuments(w: Workflow, k: nat, c: JobContext, world: World) returns (ok: bool)
      requires IsValid(w) && k < |w.steps| && w.steps[k].kind.DocumentsPrepare?
      requires UploadsOk(w.steps, c.uploaded, c.documentUploads, k)
      modifies c`documents, c`documentUploads
      ensures UploadsOk(w.steps, c.uploaded, c.documentUploads, k)
      ensures ok ==> c.documents != [] && Acceptable(world.downloads(k), c.documents, documentService.maxTotalBytes)
      ensures ok ==> c.documentUploads ==
                     if old(c.documents) != [] && Ids(old(c.documents)) != Ids(c.documents) then {}
                     else old(c.documentUploads)
      ensures var documents :=
                PreparedDocuments(world.downloads(k), documentService.maxCount, documentService.maxTotalBytes);
              && ok == documents.Some?
              && MemoryOf(c) == if ok then PreparedMemory(old(MemoryOf(c)), documents.value) else old(MemoryOf(c))
    {
      assert Asked(0);
      var prepared := documentService.Prepare(world.downloads(k));
      PreparingIsDecided(world.downloads(k), prepared, documentService.maxCount, documentService.maxTotalBytes);
      if prepared.Failure? {
        return false;
      }
      c.SetDocuments(prepared.value);
      ok := true;
    }

    /** The body of the loop, from setCurrentStep to the response. */
    method RunStep(w: Workflow, k: nat, c: JobContext, world: World) returns (ok: bool)
      requires IsLossless(w) && k < |w.steps| && Progress(w, c, k)
      modifies c
      ensures Progress(w, c, if ok then k + 1 else k)
      ensures c.currentStep == Some(w.steps[k].id)
      ensures old(c.uploaded) <= c.uploaded
      ensures LosesByFailing(old(c.unacknowledged), c.unacknowledged, w.steps[k].id, !ok)
      ensures AnswersAll(world) ==> c.unacknowledged == old(c.unacknowledged)
      ensures Runs(w, k, old(MemoryOf(c)), world, documentService.maxCount, documentService.maxTotalBytes,
                   StepRun(ok, MemoryOf(c)))
      ensures ok && w.steps[k].kind.DocumentsUpload? ==>
                c.documents != []
                && forall i :: 0 <= i < |c.documents| ==> Upload(w.steps[k].id, c.documents[i].Id()) in c.uploaded
      ensures ok && w.steps[k].kind.DocumentsPrepare? ==>
                && 0 < |world.downloads(k)| <= documentService.maxCount
                && Acceptable(world.downloads(k), c.documents, documentService.maxTotalBytes)
      ensures !ok || !w.steps[k].kind.DocumentsPrepare? ==> c.documents == old(c.documents)
    {
      var step := w.steps[k];
      c.SetCurrentStep(Some(step.id));
      ok := world.succeeds(k);
      if ok {
        match step.kind {
          case Http =>
          case OtpPrepare =>
          case OtpWait =>
          case DocumentsPrepare => ok := PrepareDocuments(w, k, c, world);
          case DocumentsUpload =>
            if c.documents == [] {
              ok := false;
            } else {
              ok := UploadDocuments(w, k, c, world);
            }
        }
      }
      if ok {
        NextStepStartsClean(w, c.uploaded, c.documentUploads, k);
        assert w.steps[..k + 1] == w.steps[..k] + [step];
        c.SetResponse(step.id);
      }
    }

    /** Where execute stops, from what it finds. */
    ghost function StopOf(w: Workflow, c: JobContext, world: World): Stop
      requires |c.completed| <= |w.steps|
      reads c
    {
      StopFrom(w, |c.completed|, MemoryOf(c), world, documentService.maxCount, documentService.maxTotalBytes)
    }

    /** execute: from the resume index to the end, or to the first step that fails or is aborted.

        Steps complete in order and at most once over any number of calls; COMPLETED means all of them. A
        failure inside a step resumes at exactly that step. Every upload step completed by this call has uploaded
        every document that the last preparation before it downloaded. When the first step that does not go through is
        one that is aborted, and steps of this call come before it, the last of them stays the current one,
        and no later call can go on; in all other cases a later call can. */
    method Execute(w: Workflow, c: JobContext, world: World) returns (r: Execution)
      requires IsLossless(w) && Progress(w, c, |c.completed|)
      modifies c
      ensures Progress(w, c, |c.completed|)
      ensures old(c.completed) <= c.completed && old(c.uploaded) <= c.uploaded
      ensures r.ConfigError? <==> !w.enabled || |w.steps| > maxSteps
      ensures r.ConfigError? || r.CannotResume? ==>
                c.completed == old(c.completed) && c.uploaded == old(c.uploaded) && c.currentStep == old(c.currentStep)
      ensures !r.ConfigError? ==>
                (r.CannotResume? <==> !old(Fits(w.steps, |c.completed|, c.currentStep)))
      ensures r.Completed? ==> c.completed == Names(w.steps) && r.completedSteps == |w.steps| && c.currentStep.None?
      ensures r.StepFailed? ==> |c.completed| < |w.steps| && c.currentStep == Some(w.steps[|c.completed|].id)
      ensures c.unacknowledged == old(c.unacknowledged)
              || (r.StepFailed? && LosesByFailing(old(c.unacknowledged), c.unacknowledged, w.steps[|c.completed|].id, true))
      ensures AnswersAll(world) ==> c.unacknowledged == old(c.unacknowledged)
      ensures UploadsEverything(w, |old(c.completed)|, |c.completed|, old(c.documents), world, c.uploaded)
      ensures AreDocumentsAt(w, |old(c.completed)|, |c.completed|, old(c.documents), c.documents, world)
      ensures !r.ConfigError? && !r.CannotResume? ==>
                var stop := old(StopOf(w, c, world));
                && r == AnswerOf(w, stop)
                && |c.completed| == ReachedBy(w, stop)
                && (Fits(w.steps, |c.completed|, c.currentStep) <==>
                      !(stop.Aborts? && stop.index > |old(c.completed)|))
    {
      NothingToUploadYet(w, |c.completed|, c.documents, world, c.uploaded);
      EverythingIsUploaded(w, |c.completed|, |c.completed|, c.documents, world, c.uploaded);
      if !w.enabled || |w.steps| > maxSteps {
        return ConfigError;
      }
      var resume := FindResumeIndex(w.steps, c);
      ProgressResumes(w, c, |c.completed|);
      if resume.None? {
        return CannotResume;
      }
      var index := resume.value;
      ghost var first, completed, uploaded, documents := index, c.completed, c.uploaded, c.documents;
      ghost var stop := StopOf(w, c, world);
      while index < |w.steps|
        invariant first <= index <= |w.steps|
        invariant Progress(w, c, index) && |c.completed| == index
        invariant completed <= c.completed && uploaded <= c.uploaded && c.unacknowledged == old(c.unacknowledged)
        invariant index == first ==> c.currentStep == old(c.currentStep)
        invariant index > first ==> c.currentStep == Some(w.steps[index - 1].id)
        invariant Leads(w, index, MemoryOf(c), world, documentService.maxCount, documentService.maxTotalBytes, stop)
        invariant AreDocumentsAt(w, first, index, documents, c.documents, world)
        invariant EverythingUploaded(w, first, index, documents, world, c.uploaded)
      {
        EverythingIsUploaded(w, first, index, documents, world, c.uploaded);
        LeadsHere(w, index, MemoryOf(c), world, documentService.maxCount, documentService.maxTotalBytes, stop);
        if world.aborted(index) {
          return AbortedBetweenSteps;
        }
        ghost var memory, before := MemoryOf(c), c.uploaded;
        var ok := RunStep(w, index, c, world);
        LeadsOn(w, index, memory, world, documentService.maxCount, documentService.maxTotalBytes, stop,
                StepRun(ok, MemoryOf(c)));
        if !ok {
          EverythingUploadedLater(w, first, index, documents, world, before, c.uploaded);
          return StepFailed;
        }
        DocumentsGoOn(w, first, index, documents, memory.documents, world, c.documents);
        UploadsGoOn(w, first, index, documents, memory.documents, world, before, c.uploaded);
        index := index + 1;
      }
      LeadsHere(w, index, MemoryOf(c), world, documentService.maxCount, documentService.maxTotalBytes, stop);
      EverythingIsUploaded(w, first, index, documents, world, c.uploaded);
      assert w.steps[..|w.steps|] == w.steps;
      c.SetCurrentStep(None);
      r := Completed(index);
    }
  }

  /** An upload whose answer got lost is repeated by the next attempt: the target accepts it twice. */
  method LostAnswerIsRepeated(engine: WorkflowEngine, w: Workflow, k: nat, document: string, c: JobContext)
    requires IsValid(w) && k < |w.steps| && w.steps[k].kind.DocumentsUpload?
    requires UploadsOk(w.steps, c.uploaded, c.documentUploads, k)
    requires UploadKey(w.steps[k].id, document) !in c.documentUploads
    modifies c`documentUploads, c`uploaded, c`unacknowledged
    ensures TimesAccepted(c, Upload(w.steps[k].id, document)) ==
            old(TimesAccepted(c, Upload(w.steps[k].id, document))) + 2
  {
    assert Asked(0);
    var failed := engine.UploadOne(w, k, document, c, Unacknowledged);
    var repeated := engine.UploadOne(w, k, document, c, Accepted);
  }

  /** A run that is aborted before its second step, on a workflow of two, leaves a context that no later
      run can continue. */
  method AbortBeforeTheSecondStep(engine: WorkflowEngine, later: World) returns (aborted: Execution, next: Execution)
    requires engine.maxSteps >= 2
    ensures aborted == AbortedBetweenSteps && next == CannotResume
  {
    var w := Workflow(true, [Step("first", Http), Step("second", Http)]);
    var world := World(i => i == 1, i => true, i => [], (i, k) => Accepted);
    var c := new JobContext();
    FreshContextHasProgress(w, c);
    aborted := engine.Execute(w, c, world);
    next := engine.Execute(w, c, later);
  }
}
