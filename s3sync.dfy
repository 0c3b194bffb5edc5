/** The S3 bucket sync: list one page of a prefix, copy each listed object
    to the target prefix, and report which copies succeeded and which failed. */
module S3Sync {

  import opened Common
  import opened Text

  /** The most keys the single listing request asks for. */
  const MaxKeys: nat := 1000

  /** One entry of the listing's `Contents`; `Key` may be missing. */
  datatype S3Object = S3Object(key: Option<string>, size: Option<int>)

  /** The requests sent to S3. */
  datatype Command =
    | ListObjects(bucket: string, prefix: string, maxKeys: nat)
    | CopyObject(copySource: string, bucket: string, key: string)

  datatype Copied = Copied(sourceKey: string, targetKey: string, size: Option<int>)
  datatype CopyError = CopyError(key: Option<string>, error: string)

  /** What `syncBucket` resolves to. */
  datatype SyncReport = SyncReport(
    totalObjects: nat,
    copiedCount: nat,
    errorCount: nat,
    copiedObjects: seq<Copied>,
    errors: seq<CopyError>)

  /** What happened to one listed object. */
  datatype Outcome = Done(copied: Copied) | Failed(failure: CopyError)

  /** The error a missing `Key` causes when `replace` is called on it. */
  const MissingKeyError: Thrown := Thrown("TypeError", "Cannot read properties of undefined (reading 'replace')")

  /** The key an object is copied to: the first occurrence of the source
      prefix in its key becomes the target prefix. */
  function TargetKey(sourceKey: string, sourcePrefix: string, targetPrefix: string): string {
    ReplaceFirst(sourceKey, sourcePrefix, targetPrefix)
  }

  /** With the default empty source prefix, the target prefix is prepended. */
  lemma TargetKeyDefaultPrefix(sourceKey: string, targetPrefix: string)
    ensures TargetKey(sourceKey, "", targetPrefix) == targetPrefix + sourceKey
  {
  }

  /** A key that starts with the source prefix keeps its remainder under the
      target prefix. */
  lemma TargetKeyRebases(sourceKey: string, sourcePrefix: string, targetPrefix: string)
    requires sourcePrefix <= sourceKey
    ensures TargetKey(sourceKey, sourcePrefix, targetPrefix) == targetPrefix + sourceKey[|sourcePrefix|..]
  {
    assert OccursAt(sourceKey, sourcePrefix, 0);
  }

  /** `CopySource` names the object as `<bucket>/<key>`. */
  function CopyCommand(sourceBucket: string, sourceKey: string, targetBucket: string, targetKey: string): Command {
    CopyObject(sourceBucket + "/" + sourceKey, targetBucket, targetKey)
  }

  /** The loop body for one object: compute the target key, copy, and record
      the copy or the error (`err?.message || String(err)`). `copyFails` is
      the error the copy request rejects with, if any. */
  function Attempt(obj: S3Object, sourcePrefix: string, targetPrefix: string,
                   copyFails: (string, string) -> Option<Thrown>): Outcome
  {
    match obj.key
    case None => Failed(CopyError(None, Describe(MissingKeyError)))
    case Some(sourceKey) =>
      var targetKey := TargetKey(sourceKey, sourcePrefix, targetPrefix);
      match copyFails(sourceKey, targetKey)
      case Some(e) => Failed(CopyError(obj.key, Describe(e)))
      case None => Done(Copied(sourceKey, targetKey, obj.size))
  }

  /** What happens to each listed object, in listing order. */
  function Outcomes(objs: seq<S3Object>, sourcePrefix: string, targetPrefix: string,
                    copyFails: (string, string) -> Option<Thrown>): (outs: seq<Outcome>)
    ensures |outs| == |objs|
    ensures forall i :: 0 <= i < |objs| ==> outs[i] == Attempt(objs[i], sourcePrefix, targetPrefix, copyFails)
  {
    seq(|objs|, i requires 0 <= i < |objs| => Attempt(objs[i], sourcePrefix, targetPrefix, copyFails))
  }

  /** The copies among `outs`, in order. */
  function Copies(outs: seq<Outcome>): seq<Copied> {
    if outs == [] then []
    else Copies(outs[..|outs| - 1]) + (if outs[|outs| - 1].Done? then [outs[|outs| - 1].copied] else [])
  }

  /** The errors among `outs`, in order. */
  function Failures(outs: seq<Outcome>): seq<CopyError> {
    if outs == [] then []
    else Failures(outs[..|outs| - 1]) + (if outs[|outs| - 1].Failed? then [outs[|outs| - 1].failure] else [])
  }

  /** Every object lands in exactly one of the two lists. */
  lemma {:induction false} OutcomesPartition(outs: seq<Outcome>)
    ensures |Copies(outs)| + |Failures(outs)| == |outs|
  {
    if outs != [] {
      OutcomesPartition(outs[..|outs| - 1]);
    }
  }

  /** A copy is recorded exactly for the objects whose copy succeeded, and
      an error exactly for the others. */
  lemma {:induction false} CopiesAreTheSuccesses(outs: seq<Outcome>)
    ensures forall c :: c in Copies(outs) <==> Done(c) in outs
    ensures forall e :: e in Failures(outs) <==> Failed(e) in outs
  {
    if outs != [] {
      var init := outs[..|outs| - 1];
      CopiesAreTheSuccesses(init);
      assert outs == init + [outs[|outs| - 1]];
    }
  }

  /** The copy requests made for `objs`, in order: one per object with a key. */
  function CopyRequests(objs: seq<S3Object>, sourceBucket: string, sourcePrefix: string,
                        targetBucket: string, targetPrefix: string): seq<Command>
  {
    if objs == [] then []
    else
      var last := objs[|objs| - 1];
      CopyRequests(objs[..|objs| - 1], sourceBucket, sourcePrefix, targetBucket, targetPrefix)
      + match last.key
        case None => []
        case Some(k) => [CopyCommand(sourceBucket, k, targetBucket, TargetKey(k, sourcePrefix, targetPrefix))]
  }

  /** One more outcome adds at most one entry to one of the two lists. */
  lemma OutcomesStep(outs: seq<Outcome>, i: nat)
    requires i < |outs|
    ensures Copies(outs[..i + 1]) == Copies(outs[..i]) + (if outs[i].Done? then [outs[i].copied] else [])
    ensures Failures(outs[..i + 1]) == Failures(outs[..i]) + (if outs[i].Failed? then [outs[i].failure] else [])
  {
    assert outs[..i + 1][..i] == outs[..i];
  }

  /** One more object adds its copy request, if it has a key. */
  lemma RequestsStep(objs: seq<S3Object>, i: nat, sourceBucket: string, sourcePrefix: string,
                     targetBucket: string, targetPrefix: string)
    requires i < |objs|
    ensures CopyRequests(objs[..i + 1], sourceBucket, sourcePrefix, targetBucket, targetPrefix)
         == CopyRequests(objs[..i], sourceBucket, sourcePrefix, targetBucket, targetPrefix)
            + match objs[i].key
              case None => []
              case Some(k) => [CopyCommand(sourceBucket, k, targetBucket, TargetKey(k, sourcePrefix, targetPrefix))]
  {
    assert objs[..i + 1][..i] == objs[..i];
  }

  /** `syncBucket`. `listing` is the reply to the single listing request:
      the thrown error, or `Contents` (`None` when the reply has none).
      Returns the report (or the listing's error) and the requests sent. */
  method SyncBucket(sourceBucket: string, sourcePrefix: string, targetBucket: string, targetPrefix: string,
                    listing: Result<Option<seq<S3Object>>>, copyFails: (string, string) -> Option<Thrown>)
    returns (r: Result<SyncReport>, sent: seq<Command>)
    ensures |sent| > 0 && sent[0] == ListObjects(sourceBucket, sourcePrefix, MaxKeys)
    ensures listing.Err? ==> r == Err(listing.error) && sent == [sent[0]]
    ensures listing.Ok? ==>
      var objs := listing.value.GetOr([]);
      var outs := Outcomes(objs, sourcePrefix, targetPrefix, copyFails);
      && r.Ok?
      && r.value.totalObjects == |objs|
      && r.value.copiedObjects == Copies(outs)
      && r.value.errors == Failures(outs)
      && r.value.copiedCount == |r.value.copiedObjects|
      && r.value.errorCount == |r.value.errors|
      && r.value.copiedCount + r.value.errorCount == r.value.totalObjects
      && sent[1..] == CopyRequests(objs, sourceBucket, sourcePrefix, targetBucket, targetPrefix)
  {
    sent := [ListObjects(sourceBucket, sourcePrefix, MaxKeys)];
    if listing.Err? {
      return Err(listing.error), sent;
    }
    var objects := listing.value.GetOr([]);
    ghost var outs := Outcomes(objects, sourcePrefix, targetPrefix, copyFails);
    var copiedObjects: seq<Copied> := [];
    var errors: seq<CopyError> := [];
    for i := 0 to |objects|
      invariant copiedObjects == Copies(outs[..i])
      invariant errors == Failures(outs[..i])
      invariant |sent| > 0 && sent[0] == ListObjects(sourceBucket, sourcePrefix, MaxKeys)
      invariant sent[1..] == CopyRequests(objects[..i], sourceBucket, sourcePrefix, targetBucket, targetPrefix)
    {
      var obj := objects[i];
      OutcomesStep(outs, i);
      RequestsStep(objects, i, sourceBucket, sourcePrefix, targetBucket, targetPrefix);
      if obj.key.None? {
        errors := errors + [CopyError(None, Describe(MissingKeyError))];
      } else {
        var sourceKey := obj.key.value;
        var targetKey := TargetKey(sourceKey, sourcePrefix, targetPrefix);
        sent := sent + [CopyCommand(sourceBucket, sourceKey, targetBucket, targetKey)];
        var fault := copyFails(sourceKey, targetKey);
        if fault.Some? {
          errors := errors + [CopyError(obj.key, Describe(fault.value))];
        } else {
          copiedObjects := copiedObjects + [Copied(sourceKey, targetKey, obj.size)];
        }
      }
    }
    assert outs[..|objects|] == outs;
    assert objects[..|objects|] == objects;
    OutcomesPartition(outs);
    r := Ok(SyncReport(|objects|, |copiedObjects|, |errors|, copiedObjects, errors));
  }
}
