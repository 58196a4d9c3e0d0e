/** Preparing the documents of a job (src/documents/document-service.js). */
module DocumentServices {
  import opened Wrappers
  import opened JobContexts

  datatype DocumentError = NoDocuments | TooManyDocuments | DownloadFailed | TotalTooLarge | DuplicateContent

  function TotalBytes(documents: seq<Document>): nat {
    if documents == [] then 0
    else TotalBytes(documents[..|documents| - 1]) + documents[|documents| - 1].sizeBytes
  }

  predicate DistinctContent(documents: seq<Document>) {
    forall i, k :: 0 <= i < k < |documents| ==> documents[i].sha256 != documents[k].sha256
  }

  /** Distinct contents have distinct document ids. */
  lemma DistinctContentDistinctIds(documents: seq<Document>)
    requires DistinctContent(documents)
    ensures forall i, k :: 0 <= i < k < |documents| ==> documents[i].Id() != documents[k].Id()
  {
    forall i, k | 0 <= i < k < |documents| ensures documents[i].Id() != documents[k].Id() {
      assert documents[i].Id()[4..] == documents[i].sha256 && documents[k].Id()[4..] == documents[k].sha256;
    }
  }

  lemma {:induction false} PrefixesAreNotLarger(documents: seq<Document>, n: nat)
    requires n <= |documents|
    ensures TotalBytes(documents[..n]) <= TotalBytes(documents)
    decreases |documents|
  {
    if n < |documents| {
      PrefixesAreNotLarger(documents[..|documents| - 1], n);
      assert documents[..|documents| - 1][..n] == documents[..n];
    } else {
      assert documents[..n] == documents;
    }
  }

  /** What the sources deliver: for each one a valid PDF, or nothing usable. */
  ghost predicate AllDeliver(downloads: seq<Option<Document>>, documents: seq<Document>) {
    |documents| == |downloads| && forall i :: 0 <= i < |downloads| ==> downloads[i] == Some(documents[i])
  }

  /** The documents that pass. */
  ghost predicate Acceptable(downloads: seq<Option<Document>>, documents: seq<Document>, maxTotalBytes: nat) {
    AllDeliver(downloads, documents) && DistinctContent(documents) && TotalBytes(documents) <= maxTotalBytes
  }

  /** Nothing passes. */
  ghost predicate Hopeless(downloads: seq<Option<Document>>, maxTotalBytes: nat) {
    forall documents :: !Acceptable(downloads, documents, maxTotalBytes)
  }

  /** A prefix that is too large, or repeats a content, cannot be completed. */
  lemma BadPrefixIsHopeless(downloads: seq<Option<Document>>, prefix: seq<Document>, maxTotalBytes: nat)
    requires |prefix| <= |downloads| && AllDeliver(downloads[..|prefix|], prefix)
    requires TotalBytes(prefix) > maxTotalBytes || !DistinctContent(prefix)
    ensures Hopeless(downloads, maxTotalBytes)
  {
    forall documents | AllDeliver(downloads, documents) ensures !Acceptable(downloads, documents, maxTotalBytes) {
      assert documents[..|prefix|] == prefix;
      PrefixesAreNotLarger(documents, |prefix|);
    }
  }

  lemma MissingIsHopeless(downloads: seq<Option<Document>>, i: nat, maxTotalBytes: nat)
    requires i < |downloads| && downloads[i].None?
    ensures Hopeless(downloads, maxTotalBytes)
  {
  }

  /** The hashes of the documents so far. */
  function Hashes(documents: seq<Document>): set<string> {
    set d | d in documents :: d.sha256
  }

  /** The documents so far: those delivered, all different, within the total. */
  ghost predicate Collected(
    downloads: seq<Option<Document>>, i: nat, documents: seq<Document>, seen: set<string>, total: nat)
    requires i <= |downloads|
  {
    && AllDeliver(downloads[..i], documents)
    && seen == Hashes(documents)
    && total == TotalBytes(documents)
    && DistinctContent(documents)
  }

  lemma OneMoreDocument(
    downloads: seq<Option<Document>>, i: nat, documents: seq<Document>, seen: set<string>, total: nat, d: Document)
    requires i < |downloads| && downloads[i] == Some(d) && Collected(downloads, i, documents, seen, total)
    ensures AllDeliver(downloads[..i + 1], documents + [d])
    ensures TotalBytes(documents + [d]) == total + d.sizeBytes
    ensures d.sha256 in seen ==> !DistinctContent(documents + [d])
    ensures d.sha256 !in seen ==> Collected(downloads, i + 1, documents + [d], seen + {d.sha256}, total + d.sizeBytes)
  {
    var longer := documents + [d];
    assert longer[..|documents|] == documents;
    assert Hashes(longer) == Hashes(documents) + {d.sha256};
    if d.sha256 in seen {
      var e :| e in documents && e.sha256 == d.sha256;
      var k :| 0 <= k < |documents| && documents[k] == e;
      assert longer[k].sha256 == longer[|documents|].sha256;
    }
  }

  /** The documents that the sources deliver, as far as they do. */
  function DeliveredBy(downloads: seq<Option<Document>>): (documents: seq<Document>)
    ensures |documents| <= |downloads|
    ensures (forall i :: 0 <= i < |downloads| ==> downloads[i].Some?) <==> AllDeliver(downloads, documents)
  {
    if downloads == [] then []
    else
      var init, last := DeliveredBy(downloads[..|downloads| - 1]), downloads[|downloads| - 1];
      if last.Some? then init + [last.value] else init
  }

  /** The documents that a preparation hands over, if it succeeds. */
  ghost function PreparedDocuments(downloads: seq<Option<Document>>, maxCount: nat, maxTotalBytes: nat)
    : Option<seq<Document>>
  {
    var documents := DeliveredBy(downloads);
    if 0 < |downloads| <= maxCount && Acceptable(downloads, documents, maxTotalBytes) then Some(documents) else None
  }

  lemma PreparingIsDecided(downloads: seq<Option<Document>>, r: Result<seq<Document>, DocumentError>,
                           maxCount: nat, maxTotalBytes: nat)
    requires r.Success? ==> 0 < |downloads| <= maxCount && Acceptable(downloads, r.value, maxTotalBytes)
    requires r.Failure? ==> !(0 < |downloads| <= maxCount) || Hopeless(downloads, maxTotalBytes)
    ensures PreparedDocuments(downloads, maxCount, maxTotalBytes) == if r.Success? then Some(r.value) else None
  {
    if r.Success? {
      assert AllDeliver(downloads, DeliveredBy(downloads));
      assert forall i :: 0 <= i < |downloads| ==> r.value[i] == DeliveredBy(downloads)[i];
      assert r.value == DeliveredBy(downloads);
    }
  }

  /** The first i sources deliver documents that pass, and the next one is the first that spoils it, in the order of
      the checks: it delivers nothing usable, or what it delivers is too much, or is there already. */
  ghost predicate SpoiltAt(downloads: seq<Option<Document>>, i: nat, maxTotalBytes: nat, error: DocumentError) {
    && i < |downloads|
    && var documents := DeliveredBy(downloads[..i]);
       && Acceptable(downloads[..i], documents, maxTotalBytes)
       && if downloads[i].None? then error == DownloadFailed
          else if TotalBytes(documents + [downloads[i].value]) > maxTotalBytes then error == TotalTooLarge
          else error == DuplicateContent && !DistinctContent(documents + [downloads[i].value])
  }

  lemma CollectedIsDelivered(
    downloads: seq<Option<Document>>, i: nat, documents: seq<Document>, seen: set<string>, total: nat)
    requires i <= |downloads| && Collected(downloads, i, documents, seen, total)
    ensures DeliveredBy(downloads[..i]) == documents
  {
    assert AllDeliver(downloads[..i], DeliveredBy(downloads[..i]));
    assert forall k :: 0 <= k < i ==> documents[k] == DeliveredBy(downloads[..i])[k];
  }

  class DocumentService {
    const maxCount: nat
    const maxTotalBytes: nat

    constructor (maxCount: nat, maxTotalBytes: nat)
      ensures this.maxCount == maxCount && this.maxTotalBytes == maxTotalBytes
    {
      this.maxCount, this.maxTotalBytes := maxCount, maxTotalBytes;
    }

    /** prepareForJobContext, up to handing the documents to the context: all documents or none. It
        succeeds exactly when there are between one and maxCount sources, all of them deliver, and the
        documents differ in content and fit the total size. */
    method Prepare(downloads: seq<Option<Document>>) returns (r: Result<seq<Document>, DocumentError>)
      ensures r.Success? ==> 0 < |downloads| <= maxCount && Acceptable(downloads, r.value, maxTotalBytes)
      ensures r.Failure? ==> !(0 < |downloads| <= maxCount) || Hopeless(downloads, maxTotalBytes)
      ensures r == Failure(NoDocuments) <==> |downloads| == 0
      ensures r == Failure(TooManyDocuments) <==> |downloads| > maxCount && |downloads| > 0
      ensures r.Failure? && 0 < |downloads| <= maxCount ==>
                exists i: nat :: SpoiltAt(downloads, i, maxTotalBytes, r.error)
    {
      if |downloads| == 0 {
        return Failure(NoDocuments);
      }
      if |downloads| > maxCount {
        return Failure(TooManyDocuments);
      }
      var documents: seq<Document> := [];
      var seenHashes: set<string> := {};
      var totalBytes: nat := 0;
      for i := 0 to |downloads|
        invariant Collected(downloads, i, documents, seenHashes, totalBytes)
        invariant totalBytes <= maxTotalBytes
      {
        CollectedIsDelivered(downloads, i, documents, seenHashes, totalBytes);
        if downloads[i].None? {
          assert SpoiltAt(downloads, i, maxTotalBytes, DownloadFailed);
          MissingIsHopeless(downloads, i, maxTotalBytes);
          return Failure(DownloadFailed);
        }
        var document := downloads[i].value;
        OneMoreDocument(downloads, i, documents, seenHashes, totalBytes, document);
        totalBytes := totalBytes + document.sizeBytes;
        if totalBytes > maxTotalBytes {
          assert SpoiltAt(downloads, i, maxTotalBytes, TotalTooLarge);
          BadPrefixIsHopeless(downloads, documents + [document], maxTotalBytes);
          return Failure(TotalTooLarge);
        }
        if document.sha256 in seenHashes {
          assert SpoiltAt(downloads, i, maxTotalBytes, DuplicateContent);
          BadPrefixIsHopeless(downloads, documents + [document], maxTotalBytes);
          return Failure(DuplicateContent);
        }
        seenHashes := seenHashes + {document.sha256};
        documents := documents + [document];
      }
      assert downloads[..|downloads|] == downloads;
      r := Success(documents);
    }
  }
}
