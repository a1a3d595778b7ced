/**
 Code Interpreter artifacts: which uploads, images and run directories a set of
 conversations owns, which of them may be deleted, and the deletion itself.
 */
module Artifacts {
  import opened Wrappers

  // ----- Identifiers ---------------------------------------------------------

  predicate IsHex(c: char) {
    '0' <= c <= '9' || 'a' <= c <= 'f'
  }

  predicate IsHexText(s: string) {
    forall i :: 0 <= i < |s| ==> IsHex(s[i])
  }

  predicate IsAttachmentId(s: string) {
    |s| == 32 && IsHexText(s)
  }

  predicate IsRunId(s: string) {
    |s| == 12 && IsHexText(s)
  }

  predicate IsNameChar(c: char) {
    'A' <= c <= 'Z' || 'a' <= c <= 'z' || '0' <= c <= '9' || c == '.' || c == '_' || c == '-'
  }

  predicate IsImageName(s: string) {
    && |s| >= 18
    && IsRunId(s[..12])
    && s[12] == '_'
    && (forall i :: 13 <= i < |s| - 4 ==> IsNameChar(s[i]))
    && s[|s| - 4..] == ".png"
  }

  function RunOfImage(name: string): (run: Option<string>) {
    if IsImageName(name) then Some(name[..12]) else None
  }

  // ----- References ----------------------------------------------------------

  datatype References = References(attachments: set<string>, images: set<string>, runs: set<string>) {
    function Union(other: References): References {
      References(attachments + other.attachments, images + other.images, runs + other.runs)
    }
  }

  const NoReferences := References({}, {}, {})

  datatype Attachment = Attachment(id: string, fileId: string)

  /** An entry of the `images` list: anything but text, or a split URL. */
  datatype ImageValue =
    | NotText
    | Url(scheme: string, host: string, path: string, query: string, fragment: string)

  datatype InterpreterResult = InterpreterResult(runId: string, images: seq<ImageValue>)

  datatype ResponsePayload = ResponsePayload(attachments: seq<Attachment>, result: Option<InterpreterResult>)

  const CodePics := "/code_pics/"

  function PublicImageName(value: ImageValue): (name: Option<string>)
    ensures name.Some? ==> IsImageName(name.value)
  {
    if value.NotText? then None
    else if value.scheme != "" || value.host != "" || value.query != "" || value.fragment != "" then None
    else if !(CodePics <= value.path) then None
    else
      var name := value.path[|CodePics|..];
      if '/' in name || !IsImageName(name) then None else Some(name)
  }

  function AttachmentId(a: Attachment): string {
    if a.id != "" then a.id else a.fileId
  }

  function ReferencesFromPayload(payload: ResponsePayload): (refs: References)
    ensures WellFormed(refs)
  {
    var attachments := set a | a in payload.attachments && IsAttachmentId(AttachmentId(a)) :: AttachmentId(a);
    match payload.result
    case None => References(attachments, {}, {})
    case Some(result) =>
      var images := set v | v in result.images && PublicImageName(v).Some? :: PublicImageName(v).value;
      var imageRuns := set name | name in images :: name[..12];
      var explicitRun := if IsRunId(result.runId) then {result.runId} else {};
      References(attachments, images, explicitRun + imageRuns)
  }

  /** Every listed image is validly named and its run is listed too. */
  predicate WellFormed(refs: References) {
    && (forall a :: a in refs.attachments ==> IsAttachmentId(a))
    && (forall r :: r in refs.runs ==> IsRunId(r))
    && (forall name :: name in refs.images ==> IsImageName(name) && name[..12] in refs.runs)
  }

  /** An uploaded picture's URL: a bare path to a validly named image. */
  predicate NamesPublicImage(v: ImageValue, name: string) {
    v == Url("", "", "/code_pics/" + name, "", "") && IsImageName(name)
  }

  lemma PublicImageNameIs(v: ImageValue, name: string)
    ensures PublicImageName(v) == Some(name) <==> NamesPublicImage(v, name)
  {
    if v.Url? && CodePics <= v.path {
      assert v.path == CodePics + v.path[|CodePics|..];
    }
    if IsImageName(name) {
      NoSlashIn(name);
      assert (CodePics + name)[|CodePics|..] == name;
    }
  }

  lemma NoSlashIn(name: string)
    requires IsImageName(name)
    ensures '/' !in name
  {
    forall i | 0 <= i < |name|
      ensures name[i] != '/'
    {
      if i < 12 {
        assert name[i] == name[..12][i] && IsHex(name[..12][i]);
      } else if i >= |name| - 4 {
        assert name[i] == name[|name| - 4..][i - (|name| - 4)];
      } else if i > 12 {
        assert IsNameChar(name[i]);
      }
    }
  }

  /**
   Extraction is complete: the valid attachment ids (an attachment's own id
   before its file id), every picture the result lists by its public path, the
   result's run and the runs of those pictures; and nothing else.
   */
  lemma ReferencesAreExact(payload: ResponsePayload, x: string)
    ensures var refs := ReferencesFromPayload(payload);
      && (x in refs.attachments <==>
            IsAttachmentId(x) && exists a :: a in payload.attachments && x == if a.id != "" then a.id else a.fileId)
      && (x in refs.images <==>
            payload.result.Some? && exists v :: v in payload.result.value.images && NamesPublicImage(v, x))
      && (x in refs.runs <==>
            && payload.result.Some? && IsRunId(x)
            && (x == payload.result.value.runId || exists name :: name in refs.images && name[..12] == x))
  {
    hide PublicImageName, IsImageName, IsAttachmentId, IsRunId, NamesPublicImage;
    var refs := ReferencesFromPayload(payload);
    if payload.result.Some? {
      forall v
        ensures PublicImageName(v) == Some(x) <==> NamesPublicImage(v, x)
      {
        PublicImageNameIs(v, x);
      }
    }
    assert forall a :: AttachmentId(a) == if a.id != "" then a.id else a.fileId;
    if a :| a in payload.attachments && AttachmentId(a) == x && IsAttachmentId(x) {
      assert x in refs.attachments;
    }
  }

  function ExclusiveReferences(target: References, retained: References): (refs: References) {
    References(
      target.attachments - retained.attachments,
      set name | name in target.images - retained.images
                 && !(RunOfImage(name).Some? && RunOfImage(name).value in retained.runs) :: name,
      target.runs - retained.runs)
  }

  // ----- Deletion below one workspace upload root ------------------------------

  datatype EntryKind = File | Symlink | Folder

  predicate NamesUpload(refs: References, name: string) {
    exists id :: id in refs.attachments && IsAttachmentId(id) && id + "_" <= name
  }

  predicate NamesPicture(refs: References, name: string) {
    || (name in refs.images && IsImageName(name))
    || (RunOfImage(name).Some? && RunOfImage(name).value in refs.runs)
  }

  predicate NamesRun(refs: References, name: string) {
    name in refs.runs && IsRunId(name)
  }

  lemma NothingNamed(name: string)
    ensures !NamesUpload(NoReferences, name) && !NamesPicture(NoReferences, name) && !NamesRun(NoReferences, name)
  {}

  /**
   What references name on disk: the files of a listed attachment, whatever
   follows its id; a listed image and every image of a listed run; the
   directory of a listed run.
   */
  lemma NamesAreExact(refs: References, id: string, rest: string, image: string)
    ensures |id| == 32 && IsHexText(id) ==> (NamesUpload(refs, id + "_" + rest) <==> id in refs.attachments)
    ensures |image| >= 18 && IsImageName(image) ==>
              (NamesPicture(refs, image) <==> image in refs.images || image[..12] in refs.runs)
    ensures |id| == 12 && IsHexText(id) ==> (NamesRun(refs, id) <==> id in refs.runs)
  {
    var name := id + "_" + rest;
    assert name[..|id|] == id && name[..|id| + 1] == id + "_";
    forall other | |id| == 32 && IsAttachmentId(other) && other + "_" <= name
      ensures other == id
    {
      AttachmentOfUpload(other, name);
    }
  }

  /**
   The plan never reaches what a retained conversation still references: its
   uploads, its images, any image (listed or not) of a run it uses, and that
   run's directory.
   */
  lemma ExclusiveSparesRetained(target: References, retained: References, name: string)
    requires WellFormed(target) && WellFormed(retained)
    ensures NamesUpload(retained, name) ==> !NamesUpload(ExclusiveReferences(target, retained), name)
    ensures NamesPicture(retained, name) ==> !NamesPicture(ExclusiveReferences(target, retained), name)
    ensures NamesRun(retained, name) ==> !NamesRun(ExclusiveReferences(target, retained), name)
  {
    forall id, other | IsAttachmentId(id) && IsAttachmentId(other) && id + "_" <= name && other + "_" <= name
      ensures id == other
    {
      AttachmentOfUpload(id, name);
      AttachmentOfUpload(other, name);
    }
  }

  lemma AttachmentOfUpload(id: string, name: string)
    requires IsAttachmentId(id) && id + "_" <= name
    ensures |name| >= 32 && id == name[..32]
  {
    assert (id + "_")[..32] == id;
  }

  /** What a target references and no retained conversation does is deleted. */
  lemma ExclusiveReachesTheRest(target: References, retained: References, name: string)
    requires WellFormed(target) && WellFormed(retained)
    requires !NamesUpload(retained, name) && !NamesPicture(retained, name) && !NamesRun(retained, name)
    ensures NamesUpload(target, name) ==> NamesUpload(ExclusiveReferences(target, retained), name)
    ensures NamesPicture(target, name) ==> NamesPicture(ExclusiveReferences(target, retained), name)
    ensures NamesRun(target, name) ==> NamesRun(ExclusiveReferences(target, retained), name)
  {
    var plan := ExclusiveReferences(target, retained);
    if NamesUpload(target, name) {
      var id :| id in target.attachments && IsAttachmentId(id) && id + "_" <= name;
      assert id in plan.attachments;
    }
  }

  /** The three artifact directories of one workspace. */
  class ArtifactFolders {
    var uploads: map<string, EntryKind>
    var pics: map<string, EntryKind>
    var runs: map<string, EntryKind>
    /** Entries the file system refuses to delete (`OSError`). */
    const denied: set<string>

    constructor (uploads: map<string, EntryKind>, pics: map<string, EntryKind>, runs: map<string, EntryKind>,
                 denied: set<string>)
      ensures this.uploads == uploads && this.pics == pics && this.runs == runs && this.denied == denied
    {
      this.uploads, this.pics, this.runs, this.denied := uploads, pics, runs, denied;
    }

    predicate Unlinkable(kind: EntryKind, name: string) {
      kind != Folder && name !in denied
    }

    method CleanupUploads(refs: References) returns (errors: bool)
      modifies this`uploads
      ensures uploads == map n | n in old(uploads)
                                 && !(NamesUpload(refs, n) && Unlinkable(old(uploads)[n], n)) :: old(uploads)[n]
      ensures errors <==> exists n :: n in uploads && NamesUpload(refs, n)
    {
      errors := false;
      var candidates := uploads.Keys;
      while candidates != {}
        invariant candidates <= old(uploads).Keys
        invariant uploads == map n | n in old(uploads)
                                     && (n in candidates || !(NamesUpload(refs, n) && Unlinkable(old(uploads)[n], n)))
                                   :: old(uploads)[n]
        invariant errors <==> exists n :: n in uploads && n !in candidates && NamesUpload(refs, n)
        decreases candidates
      {
        var name :| name in candidates;
        ghost var before := uploads;
        if NamesUpload(refs, name) {
          if Unlinkable(uploads[name], name) {
            uploads := uploads - {name};
          } else {
            errors := true;
          }
        }
        candidates := candidates - {name};
        assert forall n :: n in before && n != name ==> n in uploads;
      }
    }

    method CleanupPictures(refs: References) returns (errors: bool)
      modifies this`pics
      ensures pics == map n | n in old(pics)
                              && !(NamesPicture(refs, n) && Unlinkable(old(pics)[n], n)) :: old(pics)[n]
      ensures errors <==> exists n :: n in pics && NamesPicture(refs, n)
    {
      errors := false;
      var candidates := pics.Keys;
      while candidates != {}
        invariant candidates <= old(pics).Keys
        invariant pics == map n | n in old(pics)
                                  && (n in candidates || !(NamesPicture(refs, n) && Unlinkable(old(pics)[n], n)))
                                :: old(pics)[n]
        invariant errors <==> exists n :: n in pics && n !in candidates && NamesPicture(refs, n)
        decreases candidates
      {
        var name :| name in candidates;
        ghost var before := pics;
        if NamesPicture(refs, name) {
          if Unlinkable(pics[name], name) {
            pics := pics - {name};
          } else {
            errors := true;
          }
        }
        candidates := candidates - {name};
        assert forall n :: n in before && n != name ==> n in pics;
      }
    }

    method CleanupRuns(refs: References) returns (errors: bool)
      modifies this`runs
      ensures runs == map n | n in old(runs) && !(NamesRun(refs, n) && n !in denied) :: old(runs)[n]
      ensures errors <==> exists n :: n in runs && NamesRun(refs, n)
    {
      errors := false;
      var wanted := refs.runs;
      while wanted != {}
        invariant wanted <= refs.runs
        invariant runs == map n | n in old(runs)
                                  && (n in wanted || !(NamesRun(refs, n) && n !in denied)) :: old(runs)[n]
        invariant errors <==> exists n :: n in runs && n !in wanted && NamesRun(refs, n)
        decreases wanted
      {
        var run :| run in wanted;
        ghost var before := runs;
        if IsRunId(run) && run in runs {
          if run in denied {
            errors := true;
          } else {
            runs := runs - {run};
          }
        }
        wanted := wanted - {run};
        assert forall n :: n in before && n != run ==> n in runs;
      }
    }

    /**
     Removes the planned artifacts and reports whether any of them is left, so
     that a strict caller keeps its outbox entry and tries again.
     */
    method Cleanup(refs: References) returns (errors: bool)
      modifies this
      ensures uploads == map n | n in old(uploads)
                                 && !(NamesUpload(refs, n) && Unlinkable(old(uploads)[n], n)) :: old(uploads)[n]
      ensures pics == map n | n in old(pics)
                              && !(NamesPicture(refs, n) && Unlinkable(old(pics)[n], n)) :: old(pics)[n]
      ensures runs == map n | n in old(runs) && !(NamesRun(refs, n) && n !in denied) :: old(runs)[n]
      ensures !errors <==>
              && (forall n :: n in uploads ==> !NamesUpload(refs, n))
              && (forall n :: n in pics ==> !NamesPicture(refs, n))
              && (forall n :: n in runs ==> !NamesRun(refs, n))
    {
      var inUploads := CleanupUploads(refs);
      var inPics := CleanupPictures(refs);
      var inRuns := CleanupRuns(refs);
      errors := inUploads || inPics || inRuns;
    }
  }
}
