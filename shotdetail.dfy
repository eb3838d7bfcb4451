/** The reference-image rules of src/components/shot-detail-workspace.tsx:
    which files may be uploaded, the preview URL of a Drive file, the
    reference assets of a shot, and the guard chain and upload loop of
    `uploadAsset`. The upload request itself is a parameter `server` that
    answers each upload of the batch by its number; the refresh after a successful batch is not
    modelled. */
module ShotDetail {
  import opened Wrappers
  import opened Text
  import opened Constants
  import opened Types
  import opened Seqs

  // ---------------------------------------------------------------------------
  // Allowed files
  // ---------------------------------------------------------------------------

  const AllowedMimeTypes: set<string> := {"image/jpeg", "image/png", "application/pdf"}
  const AllowedExtensions: seq<string> := [".jpg", ".jpeg", ".png", ".pdf"]

  /** A file as the form holds it. */
  datatype UploadFile = UploadFile(name: string, mimeType: string, size: int)

  /** `isAllowedReferenceFile`: the lower-cased MIME type is allowed, or else
      the lower-cased name ends with an allowed extension. */
  predicate IsAllowedReferenceFile(file: UploadFile) {
    var mimeType := ToLower(file.mimeType);
    if mimeType in AllowedMimeTypes then true
    else
      var lowerName := ToLower(file.name);
      EndsWith(lowerName, ".jpg") || EndsWith(lowerName, ".jpeg")
      || EndsWith(lowerName, ".png") || EndsWith(lowerName, ".pdf")
  }

  /** The allow-list, stated over the listed types and extensions. */
  lemma AllowedReferenceFileIff(file: UploadFile)
    ensures IsAllowedReferenceFile(file) <==>
              ToLower(file.mimeType) in AllowedMimeTypes
              || exists k :: 0 <= k < |AllowedExtensions| && EndsWith(ToLower(file.name), AllowedExtensions[k])
  {
    var lowerName := ToLower(file.name);
    if EndsWith(lowerName, ".jpg") { assert AllowedExtensions[0] == ".jpg"; }
    if EndsWith(lowerName, ".jpeg") { assert AllowedExtensions[1] == ".jpeg"; }
    if EndsWith(lowerName, ".png") { assert AllowedExtensions[2] == ".png"; }
    if EndsWith(lowerName, ".pdf") { assert AllowedExtensions[3] == ".pdf"; }
  }

  /** Case does not matter, in the name or in the type. */
  lemma AllowedReferenceFileIgnoresCase(file: UploadFile)
    ensures IsAllowedReferenceFile(file) == IsAllowedReferenceFile(UploadFile(ToLower(file.name), ToLower(file.mimeType), file.size))
  {
    ToLowerIdempotent(file.name);
    ToLowerIdempotent(file.mimeType);
  }

  /** A name ending in an upper-case extension is accepted, whatever the
      stem and whatever type the browser gives. */
  lemma UpperCaseExtensionAccepted(stem: string, mimeType: string, size: int)
    ensures IsAllowedReferenceFile(UploadFile(stem + ".JPG", mimeType, size))
    ensures IsAllowedReferenceFile(UploadFile(stem + ".JPEG", mimeType, size))
    ensures IsAllowedReferenceFile(UploadFile(stem + ".PNG", mimeType, size))
    ensures IsAllowedReferenceFile(UploadFile(stem + ".PDF", mimeType, size))
  {
    LowerSuffix(stem, ".JPG", ".jpg");
    LowerSuffix(stem, ".JPEG", ".jpeg");
    LowerSuffix(stem, ".PNG", ".png");
    LowerSuffix(stem, ".PDF", ".pdf");
  }

  lemma LowerSuffix(stem: string, ext: string, lower: string)
    requires ToLower(ext) == lower
    ensures EndsWith(ToLower(stem + ext), lower)
  {
    var name := stem + ext;
    ToLowerSlice(name, |stem|, |name|);
    assert name[|stem|..|name|] == ext;
  }

  // ---------------------------------------------------------------------------
  // Preview URL and reference assets
  // ---------------------------------------------------------------------------

  const PreviewPrefix: string := "https://drive.google.com/file/d/"
  const PreviewSuffix: string := "/preview"

  /** `drivePreviewUrl`. */
  function DrivePreviewUrl(asset: ShotAsset): string {
    PreviewPrefix + asset.drive_file_id + PreviewSuffix
  }

  /** The file id can be read back from the URL: cutting the fixed prefix
      and suffix gives it, so different files never share a preview URL. */
  lemma DrivePreviewUrlRecoversId(asset: ShotAsset)
    ensures var url := DrivePreviewUrl(asset);
            && StartsWith(url, PreviewPrefix) && EndsWith(url, PreviewSuffix)
            && |url| == |PreviewPrefix| + |asset.drive_file_id| + |PreviewSuffix|
            && url[|PreviewPrefix|..|url| - |PreviewSuffix|] == asset.drive_file_id
  {
    var url := DrivePreviewUrl(asset);
    assert url == PreviewPrefix + (asset.drive_file_id + PreviewSuffix);
    assert url == (PreviewPrefix + asset.drive_file_id) + PreviewSuffix;
  }

  lemma DrivePreviewUrlInjective(a: ShotAsset, b: ShotAsset)
    requires DrivePreviewUrl(a) == DrivePreviewUrl(b)
    ensures a.drive_file_id == b.drive_file_id
  {
    DrivePreviewUrlRecoversId(a);
    DrivePreviewUrlRecoversId(b);
  }

  predicate IsReference(asset: ShotAsset) {
    asset.kind == ReferenceKind
  }

  /** `assets.filter((asset) => asset.kind === "reference")`. */
  function ReferenceAssets(assets: seq<ShotAsset>): seq<ShotAsset> {
    Filter(assets, IsReference)
  }

  /** The reference assets are exactly the assets of kind "reference", in
      the order the shot lists them. */
  lemma ReferenceAssetsMembers(assets: seq<ShotAsset>, a: ShotAsset)
    ensures a in ReferenceAssets(assets) <==> a in assets && a.kind == ReferenceKind
    ensures IsSubsequence(ReferenceAssets(assets), assets)
  {
    FilterMembers(assets, IsReference, a);
    FilterIsSubsequence(assets, IsReference);
  }

  // ---------------------------------------------------------------------------
  // uploadAsset
  // ---------------------------------------------------------------------------

  /** An entry of `formData.getAll("files")`: a file or a plain string. */
  datatype FormEntry = FileEntry(file: UploadFile) | TextEntry(value: string)

  /** The entries kept: files of non-zero size, in order. */
  function SelectedFiles(entries: seq<FormEntry>): (r: seq<UploadFile>)
    ensures forall k :: 0 <= k < |r| ==> r[k].size > 0
  {
    if entries == [] then []
    else
      var last := entries[|entries| - 1];
      SelectedFiles(entries[..|entries| - 1])
      + (if last.FileEntry? && last.file.size > 0 then [last.file] else [])
  }

  /** A file is selected exactly when the form holds it with a non-zero size. */
  lemma {:induction false} SelectedFilesMembers(entries: seq<FormEntry>, f: UploadFile)
    ensures f in SelectedFiles(entries) <==> FileEntry(f) in entries && f.size > 0
    decreases |entries|
  {
    if entries != [] {
      SelectedFilesMembers(entries[..|entries| - 1], f);
      assert entries == entries[..|entries| - 1] + [entries[|entries| - 1]];
    }
  }

  /** `files.find((file) => !isAllowedReferenceFile(file))`. */
  function FindDisallowed(files: seq<UploadFile>): (r: Option<UploadFile>)
    ensures r.Some? ==> r.value in files && !IsAllowedReferenceFile(r.value)
    ensures r.None? <==> forall k :: 0 <= k < |files| ==> IsAllowedReferenceFile(files[k])
  {
    if files == [] then None
    else if !IsAllowedReferenceFile(files[0]) then Some(files[0])
    else FindDisallowed(files[1..])
  }

  const ReferenceLimit: nat := 3
  const NoFileMessage: string := "アップロードするファイルを選択してください。"
  const TooManyMessage: string := "参考画像は最大3枚までです。"
  const BadTypeMessage: string := "アップロード可能なのは JPG / PNG / PDF のみです。"
  const UploadFailedMessage: string := "画像アップロードに失敗しました。"

  /** What the upload endpoint answered: `response.ok` and the `error` of its
      body, if any. */
  datatype UploadResponse = UploadResponse(ok: bool, error: Option<string>)

  datatype UploadOutcome =
    | Rejected(message: string)       // a guard returned before any upload
    | UploadFailed(message: string)   // an upload failed; later files were not sent
    | Uploaded(count: nat)            // every file was accepted

  /** The message the form shows when every file went up. */
  function SuccessMessage(count: nat): string {
    IntToString(count) + "件の参考画像をアップロードしました。"
  }

  /** The batch passed every guard: it is non-empty, keeps the shot within
      the reference limit, and holds only allowed files. */
  predicate Accepted(files: seq<UploadFile>, referenceCount: nat) {
    && files != [] && referenceCount + |files| <= ReferenceLimit
    && forall k :: 0 <= k < |files| ==> IsAllowedReferenceFile(files[k])
  }

  /** `sent` is a non-empty prefix of `files` and every upload but the
      last was accepted by the server. */
  predicate SentInOrder(files: seq<UploadFile>, sent: seq<UploadFile>, server: nat -> UploadResponse) {
    && 0 < |sent| <= |files| && sent == files[..|sent|]
    && forall k :: 0 <= k < |sent| - 1 ==> server(k).ok
  }

  /** `uploadAsset`: the guards run in the order empty, count, type, and
      the first that fails decides the message with nothing sent; then the
      files are sent in order and the first refused one ends the batch with
      the server's error, or the fixed message when it gave none. `sent` is
      the files requested, in order; `server(k)` is the endpoint's answer
      to the `k`-th upload of the batch. */
  method UploadAsset(entries: seq<FormEntry>, referenceCount: nat, server: nat -> UploadResponse)
    returns (outcome: UploadOutcome, sent: seq<UploadFile>)
    ensures SelectedFiles(entries) == [] ==> outcome == Rejected(NoFileMessage)
    ensures SelectedFiles(entries) != [] && referenceCount + |SelectedFiles(entries)| > ReferenceLimit ==>
              outcome == Rejected(TooManyMessage)
    ensures (SelectedFiles(entries) != [] && referenceCount + |SelectedFiles(entries)| <= ReferenceLimit
             && FindDisallowed(SelectedFiles(entries)).Some?) ==> outcome == Rejected(BadTypeMessage)
    ensures outcome.Rejected? ==> sent == []
    ensures Accepted(SelectedFiles(entries), referenceCount) ==> !outcome.Rejected?
    ensures !outcome.Rejected? ==> Accepted(SelectedFiles(entries), referenceCount)
    ensures !outcome.Rejected? ==> SentInOrder(SelectedFiles(entries), sent, server)
    ensures outcome.Uploaded? ==> sent == SelectedFiles(entries) && server(|sent| - 1).ok
                                  && outcome.count == |sent|
    ensures outcome.UploadFailed? ==> !server(|sent| - 1).ok
                                      && outcome.message == server(|sent| - 1).error.GetOr(UploadFailedMessage)
  {
    var files := SelectedFiles(entries);
    sent := [];
    if |files| == 0 {
      return Rejected(NoFileMessage), sent;
    }
    if referenceCount + |files| > ReferenceLimit {
      return Rejected(TooManyMessage), sent;
    }
    var invalidFile := FindDisallowed(files);
    if invalidFile.Some? {
      return Rejected(BadTypeMessage), sent;
    }

    var i := 0;
    while i < |files|
      invariant 0 <= i <= |files|
      invariant sent == files[..i]
      invariant forall k :: 0 <= k < i ==> server(k).ok
    {
      var response := server(i);
      sent := sent + [files[i]];
      if !response.ok {
        return UploadFailed(response.error.GetOr(UploadFailedMessage)), sent;
      }
      i := i + 1;
    }
    assert sent == files;
    return Uploaded(|files|), sent;
  }

  /** The message shown for an outcome. */
  function OutcomeMessage(outcome: UploadOutcome): string {
    match outcome
    case Rejected(m) => m
    case UploadFailed(m) => m
    case Uploaded(n) => SuccessMessage(n)
  }
}
