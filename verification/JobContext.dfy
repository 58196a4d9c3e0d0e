/** The in-memory state of one job's workflow (src/jobs/job-context.js). */
module JobContexts {
  import opened Wrappers

  type StepId = string

  /** A prepared PDF: its id is derived from the hash of its content. */
  datatype Document = Document(sha256: string, sizeBytes: nat) {
    function Id(): string {
      "pdf-" + sha256
    }
  }

  /** One upload that the target accepted. */
  datatype Upload = Upload(step: StepId, document: string)

  const PROTO := "__proto__"

  /** Assigning to __proto__ of a plain object sets its prototype and creates no property of its own. */
  function OwnProperties(names: set<string>): set<string> {
    names - {PROTO}
  }

  function UploadKey(step: StepId, document: string): string {
    step + ":" + document
  }

  lemma KeySplitsAtFirstColon(step: StepId, document: string)
    requires ':' !in step
    ensures var key := UploadKey(step, document);
            && key[|step|] == ':' && (forall i :: 0 <= i < |step| ==> key[i] != ':')
            && key[..|step|] == step && key[|step| + 1..] == document
  {
  }

  /** Without a colon in the step ids the key names the pair. */
  lemma UploadKeyIsInjective(s1: StepId, d1: string, s2: StepId, d2: string)
    requires ':' !in s1 && ':' !in s2
    ensures UploadKey(s1, d1) == UploadKey(s2, d2) <==> s1 == s2 && d1 == d2
  {
    KeySplitsAtFirstColon(s1, d1);
    KeySplitsAtFirstColon(s2, d2);
  }

  function Ids(documents: seq<Document>): seq<string> {
    seq(|documents|, i requires 0 <= i < |documents| => documents[i].Id())
  }

  class JobContext {
    var responses: set<string>
    var currentStep: Option<StepId>
    var documents: seq<Document>
    var documentUploads: set<string>
    // history, in order: steps completed, uploads accepted and answered, uploads accepted without an answer
    ghost var completed: seq<StepId>
    ghost var uploaded: seq<Upload>
    ghost var unacknowledged: seq<Upload>

    constructor ()
      ensures responses == {} && currentStep == None && documents == [] && documentUploads == {}
      ensures completed == [] && uploaded == [] && unacknowledged == []
    {
      responses, currentStep, documents, documentUploads := {}, None, [], {};
      completed, uploaded, unacknowledged := [], [], [];
    }

    method SetCurrentStep(step: Option<StepId>)
      modifies `currentStep
      ensures currentStep == step
    {
      currentStep := step;
    }

    /** setResponse, once a step is done. */
    method SetResponse(step: StepId)
      modifies `responses, `completed
      ensures responses == old(responses) + OwnProperties({step})
      ensures completed == old(completed) + [step]
    {
      if step != PROTO {
        responses := responses + {step};
      }
      completed := completed + [step];
    }

    predicate HasResponse(step: StepId)
      reads `responses
    {
      step in responses
    }

    /** setDocuments: a different set of documents forgets earlier uploads. */
    method SetDocuments(replacement: seq<Document>)
      modifies `documents, `documentUploads
      ensures documents == replacement
      ensures documentUploads ==
              if old(documents) != [] && Ids(old(documents)) != Ids(replacement) then {} else old(documentUploads)
    {
      if documents != [] && Ids(documents) != Ids(replacement) {
        documentUploads := {};
      }
      documents := replacement;
    }

    predicate HasUpload(step: StepId, document: string)
      reads `documentUploads
    {
      UploadKey(step, document) in documentUploads
    }

    /** setDocumentUpload, once the target accepted a document. */
    method SetDocumentUpload(step: StepId, document: string)
      modifies `documentUploads, `uploaded
      ensures documentUploads == old(documentUploads) + {UploadKey(step, document)}
      ensures uploaded == old(uploaded) + [Upload(step, document)]
    {
      documentUploads := documentUploads + {UploadKey(step, document)};
      uploaded := uploaded + [Upload(step, document)];
    }

    /** The target accepted a document, but its answer does not arrive: nothing is remembered. */
    ghost method NoteUnacknowledged(step: StepId, document: string)
      modifies `unacknowledged
      ensures unacknowledged == old(unacknowledged) + [Upload(step, document)]
    {
      unacknowledged := unacknowledged + [Upload(step, document)];
    }
  }
}
