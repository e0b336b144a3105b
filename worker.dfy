/**
 * The background worker: the `fileQueue` job that writes three thumbnails
 * of an uploaded file, and the `userQueue` job that greets a new user.
 */
module Worker {
  import opened Values
  import opened JsText
  import opened ObjectIds
  import opened Stores
  import opened Http

  /** `job.data`; a field the producer left out is `None`. */
  datatype JobData = JobData(userId: Option<string>, fileId: Option<string>)

  /** A job that resolves (with the lines it logs) or rejects with an error message. */
  datatype JobOutcome = Completed(log: seq<string>) | Failed(error: string)

  const MissingFileId := "Missing fileId"
  const MissingUserId := "Missing userId"
  const FileNotFound := "File not found"
  const UserNotFound := "User not found"
  /** The rejection of the thumbnail library; its text belongs to the library. */
  const ThumbnailFailed := "thumbnail generation failed"

  /** The widths, in pixels, of the thumbnails of every file. */
  const ThumbnailWidths: seq<nat> := [500, 250, 100]

  /** `${localPath}_${width}`: the source path, an underscore and the width in decimal. */
  function ThumbnailPath(localPath: string, width: nat): (p: string)
    ensures |p| > |localPath| + 1 && p[..|localPath|] == localPath
  {
    localPath + "_" + DecimalText(width)
  }

  /** Distinct widths give distinct thumbnail paths of the same file. */
  lemma ThumbnailPathInjective(localPath: string, a: nat, b: nat)
    ensures ThumbnailPath(localPath, a) == ThumbnailPath(localPath, b) <==> a == b
  {
    var n := |localPath| + 1;
    assert DecimalText(a) == ThumbnailPath(localPath, a)[n..];
    assert DecimalText(b) == ThumbnailPath(localPath, b)[n..];
    ParseIntDecimal(a);
    ParseIntDecimal(b);
  }

  /** The three thumbnail paths of a file are three different paths. */
  lemma ThreeDistinctPaths(localPath: string)
    ensures ThumbnailPath(localPath, 500) != ThumbnailPath(localPath, 250)
    ensures ThumbnailPath(localPath, 500) != ThumbnailPath(localPath, 100)
    ensures ThumbnailPath(localPath, 250) != ThumbnailPath(localPath, 100)
  {
    ThumbnailPathInjective(localPath, 500, 250);
    ThumbnailPathInjective(localPath, 500, 100);
    ThumbnailPathInjective(localPath, 250, 100);
  }

  /**
   * The files written for `widths`: one thumbnail per width whose resize of
   * `original` (the library call `imageThumbnail`, a parameter here)
   * succeeds, under that width's path.
   */
  function Thumbnails(original: Bytes, localPath: string, widths: seq<nat>,
                      resize: (Bytes, nat) -> Option<Bytes>): (m: map<string, Bytes>)
    ensures forall k :: k in m ==> |k| > |localPath| + 1
  {
    if |widths| == 0 then map[]
    else
      var m0 := Thumbnails(original, localPath, widths[..|widths| - 1], resize);
      var w := widths[|widths| - 1];
      match resize(original, w)
      case Some(t) => m0[ThumbnailPath(localPath, w) := t]
      case None => m0
  }

  /** Every file written for `widths` is the thumbnail path of one of them whose resize succeeded. */
  lemma {:induction false} ThumbnailKey(original: Bytes, localPath: string, widths: seq<nat>,
                                        resize: (Bytes, nat) -> Option<Bytes>, k: string) returns (i: nat)
    requires k in Thumbnails(original, localPath, widths, resize)
    ensures i < |widths| && k == ThumbnailPath(localPath, widths[i]) && resize(original, widths[i]).Some?
  {
    var earlier := widths[..|widths| - 1];
    var w := widths[|widths| - 1];
    if k == ThumbnailPath(localPath, w) && resize(original, w).Some? {
      i := |widths| - 1;
    } else {
      i := ThumbnailKey(original, localPath, earlier, resize, k);
    }
  }

  /**
   * The width at position `i` is written with its resize when that succeeds
   * and is absent when it fails.
   */
  lemma {:induction false} ThumbnailAt(original: Bytes, localPath: string, widths: seq<nat>,
                                       resize: (Bytes, nat) -> Option<Bytes>, i: nat)
    requires i < |widths|
    ensures var m := Thumbnails(original, localPath, widths, resize);
      var p := ThumbnailPath(localPath, widths[i]);
      && (resize(original, widths[i]).Some? ==> p in m && m[p] == resize(original, widths[i]).value)
      && (resize(original, widths[i]).None? ==> p !in m)
  {
    var earlier := widths[..|widths| - 1];
    var w := widths[|widths| - 1];
    var p := ThumbnailPath(localPath, widths[i]);
    ThumbnailPathInjective(localPath, widths[i], w);
    if i < |widths| - 1 {
      ThumbnailAt(original, localPath, earlier, resize, i);
    } else if p in Thumbnails(original, localPath, earlier, resize) {
      var j := ThumbnailKey(original, localPath, earlier, resize, p);
      ThumbnailPathInjective(localPath, earlier[j], w);
    }
  }

  /** One more width: its thumbnail, if the resize succeeds, is added to the earlier ones. */
  lemma ThumbnailsStep(original: Bytes, localPath: string, widths: seq<nat>,
                       resize: (Bytes, nat) -> Option<Bytes>, i: nat)
    requires i < |widths|
    ensures var before := Thumbnails(original, localPath, widths[..i], resize);
      Thumbnails(original, localPath, widths[..i + 1], resize) ==
        if resize(original, widths[i]).Some? then before[ThumbnailPath(localPath, widths[i]) := resize(original, widths[i]).value]
        else before
    ensures AllResized(original, widths[..i + 1], resize) <==>
      AllResized(original, widths[..i], resize) && resize(original, widths[i]).Some?
  {
    assert widths[..i + 1][..i] == widths[..i];
  }

  /** Every width of `widths` resizes successfully, checked one width at a time from the front. */
  predicate AllResized(original: Bytes, widths: seq<nat>, resize: (Bytes, nat) -> Option<Bytes>)
    ensures AllResized(original, widths, resize) <==> forall i :: 0 <= i < |widths| ==> resize(original, widths[i]).Some?
  {
    |widths| == 0 ||
    (AllResized(original, widths[..|widths| - 1], resize) && resize(original, widths[|widths| - 1]).Some?)
  }

  /** The document a `fileQueue` job is about, or the error the job rejects with. */
  datatype JobTarget = Rejected(error: string) | Target(file: FileDoc)

  /**
   * The checks of the `fileQueue` handler: `fileId` and then `userId` must
   * be present, both must be ObjectIds, and the file must belong to that user.
   */
  function FindJobFile(docs: seq<FileDoc>, job: JobData): (t: JobTarget)
    ensures !Truthy(job.fileId) ==> t == Rejected(MissingFileId)
    ensures Truthy(job.fileId) && !Truthy(job.userId) ==> t == Rejected(MissingUserId)
    ensures (Truthy(job.fileId) && Truthy(job.userId) &&
             (ParseOid(job.fileId.value).None? || ParseOid(job.userId.value).None?)) ==> t == Rejected(InvalidOid)
    ensures t.Target? ==>
      && t.file in docs
      && Some(t.file.id) == ParseOid(job.fileId.value) && Some(t.file.userId) == ParseOid(job.userId.value)
    ensures (Truthy(job.fileId) && Truthy(job.userId) &&
             ParseOid(job.fileId.value).Some? && ParseOid(job.userId.value).Some? &&
             forall j :: 0 <= j < |docs| ==>
               docs[j].id != ParseOid(job.fileId.value).value || docs[j].userId != ParseOid(job.userId.value).value)
            ==> t == Rejected(FileNotFound)
    ensures t.Rejected? ==> t.error in {MissingFileId, MissingUserId, InvalidOid, FileNotFound}
  {
    if !Truthy(job.fileId) then Rejected(MissingFileId)
    else if !Truthy(job.userId) then Rejected(MissingUserId)
    else match (ParseOid(job.fileId.value), ParseOid(job.userId.value))
      case (Some(f), Some(u)) =>
        (match FindFile(docs, ByIdAndOwner(f, u))
         case None => Rejected(FileNotFound)
         case Some(j) => Target(docs[j]))
      case _ => Rejected(InvalidOid)
  }

  /**
   * A job finds a file exactly when both ids are ObjectIds and some document
   * has that id and that owner: the lookup is scoped to the owner.
   */
  lemma JobFileFound(docs: seq<FileDoc>, job: JobData)
    ensures FindJobFile(docs, job).Target? <==>
      && Truthy(job.fileId) && Truthy(job.userId)
      && ParseOid(job.fileId.value).Some? && ParseOid(job.userId.value).Some?
      && exists j :: 0 <= j < |docs| && docs[j].id == ParseOid(job.fileId.value).value
                                     && docs[j].userId == ParseOid(job.userId.value).value
  {
    if Truthy(job.fileId) && Truthy(job.userId) && ParseOid(job.fileId.value).Some? && ParseOid(job.userId.value).Some? {
      var filter := ByIdAndOwner(ParseOid(job.fileId.value).value, ParseOid(job.userId.value).value);
      assert forall j :: 0 <= j < |docs| ==> (FileMatches(docs[j], filter) <==>
        docs[j].id == ParseOid(job.fileId.value).value && docs[j].userId == ParseOid(job.userId.value).value);
    }
  }

  datatype JobEffect = JobEffect(outcome: JobOutcome, disk: map<string, Bytes>)

  /**
   * The thumbnail part of the `fileQueue` handler, for a document whose local
   * path is `localPath`. Each width reads the original and writes its
   * thumbnail if the resize succeeds; the widths run concurrently, so one
   * failing width does not keep the others from being written, and the job
   * resolves only once all three have been written. Without a local path, or
   * without the original, every resize fails.
   */
  function MakeThumbnails(disk: map<string, Bytes>, localPath: Option<string>,
                          resize: (Bytes, nat) -> Option<Bytes>): (e: JobEffect)
    ensures e.outcome.Completed? <==>
      localPath.Some? && localPath.value in disk && AllResized(disk[localPath.value], ThumbnailWidths, resize)
    ensures e.outcome == Completed([]) || e.outcome == Failed(ThumbnailFailed)
    ensures disk.Keys <= e.disk.Keys
    ensures localPath.Some? && localPath.value in disk ==> localPath.value in e.disk && e.disk[localPath.value] == disk[localPath.value]
  {
    if localPath.None? || localPath.value !in disk then JobEffect(Failed(ThumbnailFailed), disk)
    else
      var lp := localPath.value;
      var original := disk[lp];
      var outcome := if AllResized(original, ThumbnailWidths, resize) then Completed([]) else Failed(ThumbnailFailed);
      JobEffect(outcome, disk + Thumbnails(original, lp, ThumbnailWidths, resize))
  }

  /** The `fileQueue` handler: the checks, then the thumbnails of the file found. */
  function ProcessFile(docs: seq<FileDoc>, disk: map<string, Bytes>, job: JobData,
                       resize: (Bytes, nat) -> Option<Bytes>): (e: JobEffect)
    ensures FindJobFile(docs, job).Rejected? ==> e == JobEffect(Failed(FindJobFile(docs, job).error), disk)
    ensures e.outcome.Completed? <==>
      && FindJobFile(docs, job).Target?
      && var lp := FindJobFile(docs, job).file.localPath;
      && lp.Some? && lp.value in disk && AllResized(disk[lp.value], ThumbnailWidths, resize)
    ensures e.outcome.Completed? ==> e.outcome.log == []
    ensures FindJobFile(docs, job).Target? && e.outcome.Failed? ==> e.outcome.error == ThumbnailFailed
    ensures e.outcome.Failed? ==> e.outcome.error in {MissingFileId, MissingUserId, InvalidOid, FileNotFound, ThumbnailFailed}
    ensures disk.Keys <= e.disk.Keys
  {
    match FindJobFile(docs, job)
    case Rejected(err) => JobEffect(Failed(err), disk)
    case Target(d) => MakeThumbnails(disk, d.localPath, resize)
  }

  /**
   * Whatever the thumbnail step adds or overwrites is a thumbnail path of
   * the file: the original and every other file are left alone.
   */
  lemma OnlyThumbnailsChange(disk: map<string, Bytes>, localPath: Option<string>,
                             resize: (Bytes, nat) -> Option<Bytes>, k: string) returns (i: nat)
    requires var after := MakeThumbnails(disk, localPath, resize).disk;
      k in after && (k !in disk || after[k] != disk[k])
    ensures localPath.Some? && k != localPath.value
    ensures i < |ThumbnailWidths| && k == ThumbnailPath(localPath.value, ThumbnailWidths[i])
  {
    var lp := localPath.value;
    i := ThumbnailKey(disk[lp], lp, ThumbnailWidths, resize, k);
  }

  /**
   * A job that is rejected, or whose thumbnails are never attempted, leaves
   * the disk as it was; otherwise only the file's thumbnail paths change.
   */
  lemma JobChangesOnlyThumbnails(docs: seq<FileDoc>, disk: map<string, Bytes>, job: JobData,
                                 resize: (Bytes, nat) -> Option<Bytes>, k: string) returns (i: nat)
    requires var after := ProcessFile(docs, disk, job, resize).disk;
      k in after && (k !in disk || after[k] != disk[k])
    ensures FindJobFile(docs, job).Target? && FindJobFile(docs, job).file.localPath.Some?
    ensures i < |ThumbnailWidths| && k == ThumbnailPath(FindJobFile(docs, job).file.localPath.value, ThumbnailWidths[i])
  {
    i := OnlyThumbnailsChange(disk, FindJobFile(docs, job).file.localPath, resize, k);
  }

  /**
   * When every width resizes, the thumbnail step writes exactly the three
   * paths `<lp>_500`, `<lp>_250` and `<lp>_100`, each holding the original
   * resized to its width.
   */
  lemma ThreeThumbnails(disk: map<string, Bytes>, lp: string, resize: (Bytes, nat) -> Option<Bytes>)
    requires lp in disk && AllResized(disk[lp], ThumbnailWidths, resize)
    ensures var after := MakeThumbnails(disk, Some(lp), resize).disk;
      && after.Keys == disk.Keys + {ThumbnailPath(lp, 500), ThumbnailPath(lp, 250), ThumbnailPath(lp, 100)}
      && forall i :: 0 <= i < |ThumbnailWidths| ==>
           ThumbnailPath(lp, ThumbnailWidths[i]) in after &&
           Some(after[ThumbnailPath(lp, ThumbnailWidths[i])]) == resize(disk[lp], ThumbnailWidths[i])
  {
    AllWidthsWritten(disk[lp], lp, resize);
  }

  /**
   * A job that completes has written exactly the three thumbnail paths of
   * its file, each holding the original resized to its width.
   */
  lemma CompletedJobWritesThree(docs: seq<FileDoc>, disk: map<string, Bytes>, job: JobData,
                                resize: (Bytes, nat) -> Option<Bytes>)
    requires ProcessFile(docs, disk, job, resize).outcome.Completed?
    ensures FindJobFile(docs, job).Target? && FindJobFile(docs, job).file.localPath.Some?
    ensures var lp := FindJobFile(docs, job).file.localPath.value;
      var after := ProcessFile(docs, disk, job, resize).disk;
      && lp in disk
      && after.Keys == disk.Keys + {ThumbnailPath(lp, 500), ThumbnailPath(lp, 250), ThumbnailPath(lp, 100)}
      && forall i :: 0 <= i < |ThumbnailWidths| ==>
           ThumbnailPath(lp, ThumbnailWidths[i]) in after &&
           Some(after[ThumbnailPath(lp, ThumbnailWidths[i])]) == resize(disk[lp], ThumbnailWidths[i])
  {
    ThreeThumbnails(disk, FindJobFile(docs, job).file.localPath.value, resize);
  }

  /** When every width resizes, the three thumbnail paths are exactly the files written. */
  lemma AllWidthsWritten(original: Bytes, lp: string, resize: (Bytes, nat) -> Option<Bytes>)
    requires AllResized(original, ThumbnailWidths, resize)
    ensures var written := Thumbnails(original, lp, ThumbnailWidths, resize);
      && written.Keys == {ThumbnailPath(lp, 500), ThumbnailPath(lp, 250), ThumbnailPath(lp, 100)}
      && forall i :: 0 <= i < |ThumbnailWidths| ==>
           ThumbnailPath(lp, ThumbnailWidths[i]) in written &&
           Some(written[ThumbnailPath(lp, ThumbnailWidths[i])]) == resize(original, ThumbnailWidths[i])
  {
    var written := Thumbnails(original, lp, ThumbnailWidths, resize);
    forall i | 0 <= i < |ThumbnailWidths|
      ensures ThumbnailPath(lp, ThumbnailWidths[i]) in written
      ensures Some(written[ThumbnailPath(lp, ThumbnailWidths[i])]) == resize(original, ThumbnailWidths[i])
    {
      ThumbnailAt(original, lp, ThumbnailWidths, resize, i);
    }
    forall k | k in written
      ensures k in {ThumbnailPath(lp, 500), ThumbnailPath(lp, 250), ThumbnailPath(lp, 100)}
    {
      var i := ThumbnailKey(original, lp, ThumbnailWidths, resize, k);
    }
    assert ThumbnailWidths[0] == 500 && ThumbnailWidths[1] == 250 && ThumbnailWidths[2] == 100;
  }

  /**
   * Re-running the thumbnail step on the disk it left behind changes
   * nothing: the same paths are overwritten with the same bytes.
   */
  lemma ThumbnailsIdempotent(disk: map<string, Bytes>, localPath: Option<string>,
                             resize: (Bytes, nat) -> Option<Bytes>)
    ensures var first := MakeThumbnails(disk, localPath, resize);
      MakeThumbnails(first.disk, localPath, resize) == first
  {
    if localPath.Some? && localPath.value in disk {
      var lp := localPath.value;
      var written := Thumbnails(disk[lp], lp, ThumbnailWidths, resize);
      var first := MakeThumbnails(disk, localPath, resize);
      assert first.disk + written == first.disk;
    }
  }

  /**
   * Re-running a job against the disk it left behind gives the same outcome
   * and the same disk, so the set of files is unchanged after the first run.
   */
  lemma RerunIsIdempotent(docs: seq<FileDoc>, disk: map<string, Bytes>, job: JobData,
                          resize: (Bytes, nat) -> Option<Bytes>)
    ensures var first := ProcessFile(docs, disk, job, resize);
      ProcessFile(docs, first.disk, job, resize) == first
  {
    if FindJobFile(docs, job).Target? {
      ThumbnailsIdempotent(disk, FindJobFile(docs, job).file.localPath, resize);
    }
  }

  /** Writing one file after a batch of writes is the batch with that write added. */
  lemma UpdateUnion(disk: map<string, Bytes>, batch: map<string, Bytes>, path: string, content: Bytes)
    ensures (disk + batch)[path := content] == disk + batch[path := content]
  {
  }

  /**
   * The thumbnail writes of one job, one width of `widths` per loop step: every width
   * reads the original at `lp` and writes its thumbnail when the resize
   * succeeds. The result says whether every width was written.
   */
  method WriteThumbnails(disk: Disk, lp: string, widths: seq<nat>, resize: (Bytes, nat) -> Option<Bytes>) returns (allWritten: bool)
    requires lp in disk.files
    modifies disk
    ensures disk.files == old(disk.files) + Thumbnails(old(disk.files)[lp], lp, widths, resize)
    ensures allWritten == AllResized(old(disk.files)[lp], widths, resize)
  {
    ghost var original := disk.files[lp];
    allWritten := true;
    var i := 0;
    while i < |widths|
      invariant 0 <= i <= |widths|
      invariant lp in disk.files && disk.files[lp] == original
      invariant disk.files == old(disk.files) + Thumbnails(original, lp, widths[..i], resize)
      invariant allWritten == AllResized(original, widths[..i], resize)
    {
      var width := widths[i];
      var thumbnail := resize(disk.files[lp], width);
      ghost var before := Thumbnails(original, lp, widths[..i], resize);
      ThumbnailsStep(original, lp, widths, resize, i);
      if thumbnail.Some? {
        disk.WriteFile(ThumbnailPath(lp, width), thumbnail.value);
        UpdateUnion(old(disk.files), before, ThumbnailPath(lp, width), thumbnail.value);
      } else {
        allWritten := false;
      }
      i := i + 1;
    }
    assert widths[..i] == widths;
  }

  /** The `fileQueue` handler. */
  method ProcessFileJob(files: FilesCollection, disk: Disk, job: JobData,
                        resize: (Bytes, nat) -> Option<Bytes>) returns (outcome: JobOutcome)
    modifies disk
    ensures ProcessFile(files.docs, old(disk.files), job, resize) == JobEffect(outcome, disk.files)
  {
    if !Truthy(job.fileId) {
      return Failed(MissingFileId);
    }
    if !Truthy(job.userId) {
      return Failed(MissingUserId);
    }
    var fileId := ParseOid(job.fileId.value);
    var userId := ParseOid(job.userId.value);
    if fileId.None? || userId.None? {
      return Failed(InvalidOid);
    }
    var found := FindFile(files.docs, ByIdAndOwner(fileId.value, userId.value));
    if found.None? {
      return Failed(FileNotFound);
    }
    var doc := files.docs[found.value];
    if doc.localPath.None? || doc.localPath.value !in disk.files {
      return Failed(ThumbnailFailed);
    }
    var allWritten := WriteThumbnails(disk, doc.localPath.value, ThumbnailWidths, resize);
    outcome := if allWritten then Completed([]) else Failed(ThumbnailFailed);
  }

  /**
   * The `userQueue` handler: `userId` must be present and an ObjectId, and
   * name a user; the job then logs a welcome line with the user's email.
   */
  function ProcessUser(users: seq<UserDoc>, job: JobData): (r: JobOutcome)
    ensures !Truthy(job.userId) ==> r == Failed(MissingUserId)
    ensures Truthy(job.userId) && ParseOid(job.userId.value).None? ==> r == Failed(InvalidOid)
    ensures r.Completed? <==>
      && Truthy(job.userId) && ParseOid(job.userId.value).Some?
      && exists j :: 0 <= j < |users| && users[j].id == ParseOid(job.userId.value).value
    ensures r.Completed? ==>
      exists j :: 0 <= j < |users| && users[j].id == ParseOid(job.userId.value).value
               && r.log == ["Welcome " + users[j].email + "!"]
    ensures (Truthy(job.userId) && ParseOid(job.userId.value).Some? &&
             forall j :: 0 <= j < |users| ==> users[j].id != ParseOid(job.userId.value).value)
            ==> r == Failed(UserNotFound)
    ensures r.Failed? ==> r.error in {MissingUserId, InvalidOid, UserNotFound}
  {
    if !Truthy(job.userId) then Failed(MissingUserId)
    else match ParseOid(job.userId.value)
      case None => Failed(InvalidOid)
      case Some(id) =>
        match FindUser(users, ByUserId(id))
        case None => Failed(UserNotFound)
        case Some(j) => Completed(["Welcome " + users[j].email + "!"])
  }

  /**
   * A job carrying a stored user's id text greets exactly that user: ids are
   * unique, so the user found is the one whose id was sent.
   */
  lemma StoredUserWelcomed(users: seq<UserDoc>, next: Oid, i: nat)
    requires UserIdsFresh(users, next) && next <= OidSpace
    requires i < |users|
    ensures ProcessUser(users, JobData(Some(OidText(users[i].id)), None)) == Completed(["Welcome " + users[i].email + "!"])
  {
    OidTextRoundTrip(users[i].id);
    var found := FindUser(users, ByUserId(users[i].id));
    assert UserMatches(users[i], ByUserId(users[i].id));
    assert found.Some? && found.value <= i;
    assert found.value == i;
  }
}
