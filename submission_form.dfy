/** The submission form of a challenge: up to five images kept as two
    parallel lists (the files and their preview URLs), a Figma link, an
    external URL and notes; submitting checks for content, uploads every
    image (stopping at the first failure) and inserts one submission row. */
module SubmissionForm {
  import opened Wrappers
  import Lists
  import Text

  const MaxImages := 5

  /** A picked file; only its name matters here. */
  datatype ImageFile = ImageFile(name: string)

  /** The row inserted into `submissions`; empty inputs are stored as null. */
  datatype NewSubmission = NewSubmission(
    userId: string,
    challengeId: string,
    imageUrls: Option<seq<string>>,
    figmaLink: Option<string>,
    externalUrl: Option<string>,
    notes: Option<string>)

  datatype SubmitOutcome =
    | SignInRequired(navigateTo: string, from: string)
    | NoContent
    | UploadFailed(attempted: nat)
    | InsertFailed(row: NewSubmission)
    | Submitted(row: NewSubmission)

  /** `s || null` for a string. */
  function NullIfEmpty(s: string): (r: Option<string>)
    ensures r.None? <==> s == ""
    ensures r.Some? ==> r.value == s
  {
    if s == "" then None else Some(s)
  }

  /** The content check: an image, a Figma link or a URL; notes alone are
      not content. */
  predicate HasContent(figmaLink: string, externalUrl: string, files: seq<ImageFile>) {
    figmaLink != "" || externalUrl != "" || |files| > 0
  }

  /** The storage path of one upload, `<user>/<challenge>/<stamp>.<ext>`,
      where `stamp` is the `<time>-<random>` part and `ext` the text after
      the last "." of the file name (the whole name when it has none). */
  function StoragePath(userId: string, challengeId: string, stamp: string, fileName: string): string {
    userId + "/" + challengeId + "/" + stamp + "." + Text.LastSegment(fileName, '.')
  }

  /** The path ends with "." and the extension, a dot-free suffix of the
      file name. */
  lemma StoragePathExtension(userId: string, challengeId: string, stamp: string, fileName: string)
    ensures var ext := Text.LastSegment(fileName, '.');
      var r := StoragePath(userId, challengeId, stamp, fileName);
      && '.' !in ext && |ext| <= |fileName| && ext == fileName[|fileName| - |ext|..]
      && |r| > |ext| && r[|r| - |ext| - 1..] == "." + ext
  {
    var ext := Text.LastSegment(fileName, '.');
    var r := StoragePath(userId, challengeId, stamp, fileName);
    Text.LastSegmentShape(fileName, '.');
    assert r == (userId + "/" + challengeId + "/" + stamp) + ("." + ext);
  }

  /** With no "/" in the user id, the challenge id, the stamp or the file
      name, the path splits back into exactly those three segments. */
  lemma StoragePathSegments(userId: string, challengeId: string, stamp: string, fileName: string)
    requires '/' !in userId && '/' !in challengeId && '/' !in stamp && '/' !in fileName
    ensures Text.Split(StoragePath(userId, challengeId, stamp, fileName), '/')
      == [userId, challengeId, stamp + "." + Text.LastSegment(fileName, '.')]
  {
    var ext := Text.LastSegment(fileName, '.');
    Text.LastSegmentShape(fileName, '.');
    var name := stamp + "." + ext;
    var parts := [userId, challengeId, name];
    assert '/' !in ext by {
      forall i | 0 <= i < |ext| ensures ext[i] != '/' {
        assert ext[i] == fileName[|fileName| - |ext| + i];
      }
    }
    assert '/' !in name by {
      forall i | 0 <= i < |name| ensures name[i] != '/' {
        if i < |stamp| {
          assert name[i] == stamp[i];
        } else if i > |stamp| {
          assert name[i] == ext[i - |stamp| - 1];
        }
      }
    }
    assert parts[1..] == [challengeId, name];
    assert parts[1..][1..] == [name];
    assert Text.Join(parts[1..][1..], '/') == name;
    assert Text.Join(parts[1..], '/') == challengeId + "/" + name;
    assert Text.Join(parts, '/') == StoragePath(userId, challengeId, stamp, fileName);
    Text.SplitJoin(parts, '/');
  }

  /** The storage path of each file in turn; `stamp(k)` is the
      `<time>-<random>` part of the `k`-th one. */
  function UploadPaths(userId: string, challengeId: string, stamp: nat -> string, files: seq<ImageFile>): (paths: seq<string>)
    ensures |paths| == |files|
  {
    seq(|files|, k requires 0 <= k < |files| => StoragePath(userId, challengeId, stamp(k), files[k].name))
  }

  /** The `k`-th path is that of the `k`-th file under the `k`-th stamp. */
  lemma UploadPathAt(userId: string, challengeId: string, stamp: nat -> string, files: seq<ImageFile>, k: nat)
    requires k < |files|
    ensures UploadPaths(userId, challengeId, stamp, files)[k] == StoragePath(userId, challengeId, stamp(k), files[k].name)
  {
  }

  /** Every upload succeeds. */
  predicate AllUploaded(paths: seq<string>, files: seq<ImageFile>, upload: (string, ImageFile) -> bool)
    requires |paths| == |files|
  {
    forall k :: 0 <= k < |files| ==> upload(paths[k], files[k])
  }

  /** What the upload loop ends with: the public URL of every path when
      each upload succeeds, otherwise the number of uploads started, the
      last of them being the one that failed. */
  function UploadResult(paths: seq<string>, files: seq<ImageFile>,
                        upload: (string, ImageFile) -> bool, publicUrl: string -> string): Result<seq<string>, nat>
    requires |paths| == |files|
  {
    if files == [] then Ok([])
    else if !upload(paths[0], files[0]) then Err(1)
    else Shift([publicUrl(paths[0])], 1, UploadResult(paths[1..], files[1..], upload, publicUrl))
  }

  /** The result of the uploads after `done` successful ones, which gave
      `urls`. */
  function Shift(urls: seq<string>, done: nat, rest: Result<seq<string>, nat>): Result<seq<string>, nat> {
    match rest
    case Ok(more) => Ok(urls + more)
    case Err(n) => Err(done + n)
  }

  /** The upload result is the URL list exactly when every upload succeeds,
      and otherwise names the first failed upload. */
  lemma {:induction false} UploadResultMeaning(paths: seq<string>, files: seq<ImageFile>,
                                               upload: (string, ImageFile) -> bool, publicUrl: string -> string)
    requires |paths| == |files|
    ensures var r := UploadResult(paths, files, upload, publicUrl);
      && (r.Ok? <==> AllUploaded(paths, files, upload))
      && (r.Ok? ==> r.value == Lists.Map(paths, publicUrl))
      && (r.Err? ==>
        && 0 < r.error <= |files|
        && !upload(paths[r.error - 1], files[r.error - 1])
        && forall k :: 0 <= k < r.error - 1 ==> upload(paths[k], files[k]))
  {
    if files != [] && upload(paths[0], files[0]) {
      var rest := UploadResult(paths[1..], files[1..], upload, publicUrl);
      UploadResultMeaning(paths[1..], files[1..], upload, publicUrl);
      if rest.Ok? {
        forall k | 0 <= k < |files| ensures upload(paths[k], files[k]) {
          if k > 0 {
            assert paths[1..][k - 1] == paths[k] && files[1..][k - 1] == files[k];
          }
        }
      } else {
        forall k | 0 <= k < rest.error ensures upload(paths[k], files[k]) {
          if k > 0 {
            assert paths[1..][k - 1] == paths[k] && files[1..][k - 1] == files[k];
          }
        }
        assert !upload(paths[1..][rest.error - 1], files[1..][rest.error - 1]);
      }
    }
  }

  /** The upload loop: each file in turn is uploaded and its public URL
      collected; the first failed upload ends the loop. */
  method UploadAll(paths: seq<string>, files: seq<ImageFile>,
                   upload: (string, ImageFile) -> bool, publicUrl: string -> string)
    returns (r: Result<seq<string>, nat>)
    requires |paths| == |files|
    ensures r == UploadResult(paths, files, upload, publicUrl)
  {
    var collected: seq<string> := [];
    var i := 0;
    assert paths[0..] == paths && files[0..] == files;
    ShiftNothing(UploadResult(paths, files, upload, publicUrl));
    while i < |files|
      invariant 0 <= i <= |files|
      invariant UploadResult(paths, files, upload, publicUrl)
        == Shift(collected, i, UploadResult(paths[i..], files[i..], upload, publicUrl))
    {
      if !upload(paths[i], files[i]) {
        return Err(i + 1);
      }
      var rest := UploadResult(paths[i + 1..], files[i + 1..], upload, publicUrl);
      assert paths[i..][1..] == paths[i + 1..] && files[i..][1..] == files[i + 1..];
      assert UploadResult(paths[i..], files[i..], upload, publicUrl) == Shift([publicUrl(paths[i])], 1, rest);
      ShiftTwice(collected, i, [publicUrl(paths[i])], rest);
      collected := collected + [publicUrl(paths[i])];
      i := i + 1;
    }
    assert collected + [] == collected;
    r := Ok(collected);
  }

  lemma ShiftNothing(rest: Result<seq<string>, nat>)
    ensures Shift([], 0, rest) == rest
  {
    if rest.Ok? {
      assert [] + rest.value == rest.value;
    }
  }

  lemma ShiftTwice(urls: seq<string>, done: nat, more: seq<string>, rest: Result<seq<string>, nat>)
    ensures Shift(urls, done, Shift(more, |more|, rest)) == Shift(urls + more, done + |more|, rest)
  {
    if rest.Ok? {
      assert urls + (more + rest.value) == urls + more + rest.value;
    }
  }

  /** The inserted row: the URL list only when there is at least one URL,
      and the other inputs only when they are non-empty. */
  function InsertRow(userId: string, challengeId: string, urls: seq<string>,
                     figmaLink: string, externalUrl: string, notes: string): (row: NewSubmission)
    ensures row.userId == userId && row.challengeId == challengeId
    ensures row.imageUrls.None? <==> urls == []
    ensures row.imageUrls.Some? ==> row.imageUrls.value == urls
    ensures row.figmaLink == NullIfEmpty(figmaLink)
    ensures row.externalUrl == NullIfEmpty(externalUrl)
    ensures row.notes == NullIfEmpty(notes)
  {
    NewSubmission(userId, challengeId, if |urls| > 0 then Some(urls) else None,
      NullIfEmpty(figmaLink), NullIfEmpty(externalUrl), NullIfEmpty(notes))
  }

  /** A form that passed the content check inserts a row with at least one
      of an image list, a Figma link or a URL. */
  lemma ContentReachesRow(userId: string, challengeId: string, files: seq<ImageFile>, urls: seq<string>,
                          figmaLink: string, externalUrl: string, notes: string)
    requires HasContent(figmaLink, externalUrl, files) && |urls| == |files|
    ensures var row := InsertRow(userId, challengeId, urls, figmaLink, externalUrl, notes);
      row.imageUrls.Some? || row.figmaLink.Some? || row.externalUrl.Some?
  {
    if |files| > 0 {
      assert urls != [];
    }
  }

  /** What `handleSubmit` ends in, for the signed-in user (if any), the
      form's inputs and what the storage uploads and the insert return. */
  function Outcome(user: Option<string>, challengeId: string, stamp: nat -> string,
                   files: seq<ImageFile>, figmaLink: string, externalUrl: string, notes: string,
                   upload: (string, ImageFile) -> bool, publicUrl: string -> string,
                   insertOk: NewSubmission -> bool): SubmitOutcome
  {
    if user.None? then SignInRequired("/login", "/challenge/" + challengeId)
    else if !HasContent(figmaLink, externalUrl, files) then NoContent
    else
      match UploadResult(UploadPaths(user.value, challengeId, stamp, files), files, upload, publicUrl)
      case Err(attempted) => UploadFailed(attempted)
      case Ok(urls) =>
        var row := InsertRow(user.value, challengeId, urls, figmaLink, externalUrl, notes);
        if insertOk(row) then Submitted(row) else InsertFailed(row)
  }

  /** The outcome of a submission: the log-in redirect exactly without a
      user; the refusal exactly without content; then an upload failure
      exactly when some upload fails, naming the first; otherwise the row
      of the form's inputs and all public URLs, inserted or not. */
  lemma OutcomeMeaning(user: Option<string>, challengeId: string, stamp: nat -> string,
                       files: seq<ImageFile>, figmaLink: string, externalUrl: string, notes: string,
                       upload: (string, ImageFile) -> bool, publicUrl: string -> string,
                       insertOk: NewSubmission -> bool)
    ensures var o := Outcome(user, challengeId, stamp, files, figmaLink, externalUrl, notes, upload, publicUrl, insertOk);
      && (o.SignInRequired? <==> user.None?)
      && (o.NoContent? <==> user.Some? && !HasContent(figmaLink, externalUrl, files))
      && (user.Some? && HasContent(figmaLink, externalUrl, files) ==>
        var paths := UploadPaths(user.value, challengeId, stamp, files);
        && (o.UploadFailed? <==> !AllUploaded(paths, files, upload))
        && (o.UploadFailed? ==>
          && 0 < o.attempted <= |files|
          && !upload(paths[o.attempted - 1], files[o.attempted - 1])
          && forall k :: 0 <= k < o.attempted - 1 ==> upload(paths[k], files[k]))
        && (o.Submitted? || o.InsertFailed? ==>
          && o.row == InsertRow(user.value, challengeId, Lists.Map(paths, publicUrl), figmaLink, externalUrl, notes)
          && (o.Submitted? <==> insertOk(o.row))
          && (o.row.imageUrls.Some? || o.row.figmaLink.Some? || o.row.externalUrl.Some?)))
  {
    if user.Some? && HasContent(figmaLink, externalUrl, files) {
      var paths := UploadPaths(user.value, challengeId, stamp, files);
      UploadResultMeaning(paths, files, upload, publicUrl);
      ContentReachesRow(user.value, challengeId, files, Lists.Map(paths, publicUrl), figmaLink, externalUrl, notes);
    }
  }

  /** The uploads and the insert of a submission that has content; nothing
      of the form changes here. */
  method UploadAndInsert(userId: string, challengeId: string, stamp: nat -> string,
                         files: seq<ImageFile>, figmaLink: string, externalUrl: string, notes: string,
                         upload: (string, ImageFile) -> bool, publicUrl: string -> string,
                         insertOk: NewSubmission -> bool)
    returns (outcome: SubmitOutcome)
    requires HasContent(figmaLink, externalUrl, files)
    ensures outcome == Outcome(Some(userId), challengeId, stamp, files, figmaLink, externalUrl, notes, upload, publicUrl, insertOk)
  {
    var paths := UploadPaths(userId, challengeId, stamp, files);
    var uploaded := UploadAll(paths, files, upload, publicUrl);
    if uploaded.Err? {
      outcome := UploadFailed(uploaded.error);
    } else {
      var row := InsertRow(userId, challengeId, uploaded.value, figmaLink, externalUrl, notes);
      outcome := if insertOk(row) then Submitted(row) else InsertFailed(row);
    }
  }

  class Form {
    var figmaLink: string
    var externalUrl: string
    var notes: string
    var imageFiles: seq<ImageFile>
    var imagePreviews: seq<string>
    var isSubmitting: bool

    /** At most five images, each with its preview. */
    predicate Valid()
      reads this
    {
      |imageFiles| <= MaxImages && |imageFiles| == |imagePreviews|
    }

    constructor ()
      ensures Valid()
      ensures figmaLink == "" && externalUrl == "" && notes == ""
      ensures imageFiles == [] && imagePreviews == [] && !isSubmitting
    {
      figmaLink, externalUrl, notes := "", "", "";
      imageFiles, imagePreviews := [], [];
      isSubmitting := false;
    }

    /** `handleImageChange`: picking files that would make more than five is
        refused and changes nothing; otherwise the files and one preview URL
        each are appended in order. */
    method AddImages(files: seq<ImageFile>, objectUrl: ImageFile -> string) returns (accepted: bool)
      requires Valid()
      modifies this`imageFiles, this`imagePreviews
      ensures accepted <==> |files| + |old(imageFiles)| <= MaxImages
      ensures !accepted ==> imageFiles == old(imageFiles) && imagePreviews == old(imagePreviews)
      ensures accepted ==> imageFiles == old(imageFiles) + files
      ensures accepted ==> imagePreviews == old(imagePreviews) + Lists.Map(files, objectUrl)
      ensures Valid()
    {
      if |files| + |imageFiles| > MaxImages {
        return false;
      }
      imageFiles := imageFiles + files;
      imagePreviews := imagePreviews + Lists.Map(files, objectUrl);
      accepted := true;
    }

    /** `removeImage`: the entry at `index` goes from both lists (nothing
        when `index` is out of range); the others keep their order. */
    method RemoveImage(index: int)
      requires Valid()
      modifies this`imageFiles, this`imagePreviews
      ensures imageFiles == Lists.RemoveAt(old(imageFiles), index)
      ensures imagePreviews == Lists.RemoveAt(old(imagePreviews), index)
      ensures Valid()
    {
      imageFiles := Lists.RemoveAt(imageFiles, index);
      imagePreviews := Lists.RemoveAt(imagePreviews, index);
    }

    /** `handleSubmit`. `stamp(k)` is the `<time>-<random>` part of the
        `k`-th upload's file name, `upload` the storage upload, `publicUrl`
        the public URL of a path and `insertOk` whether the insert of a row
        succeeded. */
    method Submit(user: Option<string>, challengeId: string, stamp: nat -> string,
                  upload: (string, ImageFile) -> bool, publicUrl: string -> string,
                  insertOk: NewSubmission -> bool)
      returns (outcome: SubmitOutcome)
      requires Valid()
      modifies this
      ensures outcome == Outcome(user, challengeId, stamp, old(imageFiles), old(figmaLink),
                                 old(externalUrl), old(notes), upload, publicUrl, insertOk)
      ensures outcome.Submitted? ==>
        figmaLink == "" && externalUrl == "" && notes == "" && imageFiles == [] && imagePreviews == []
      ensures !outcome.Submitted? ==>
        && figmaLink == old(figmaLink) && externalUrl == old(externalUrl) && notes == old(notes)
        && imageFiles == old(imageFiles) && imagePreviews == old(imagePreviews)
      ensures outcome.SignInRequired? || outcome.NoContent? ==> isSubmitting == old(isSubmitting)
      ensures !(outcome.SignInRequired? || outcome.NoContent?) ==> !isSubmitting
      ensures Valid()
    {
      var files, link, url, text := imageFiles, figmaLink, externalUrl, notes;
      if user.None? {
        return SignInRequired("/login", "/challenge/" + challengeId);
      }
      if link == "" && url == "" && |files| == 0 {
        return NoContent;
      }
      isSubmitting := true;
      outcome := UploadAndInsert(user.value, challengeId, stamp, files, link, url, text, upload, publicUrl, insertOk);
      if outcome.Submitted? {
        figmaLink, externalUrl, notes := "", "", "";
        imageFiles, imagePreviews := [], [];
      }
      isSubmitting := false;
    }
  }
}
