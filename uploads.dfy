/** The file part of the update_message request: the loop of update_chat
    over `request.files.getlist('file')` that builds the `files` list. Saving
    to disk and the upload itself are not modelled; each upload carries the
    answer of `allowed_file` and the URL the upload returned. */
module Uploads {
  import opened Rooms

  /** One entry of the `file` form part. `allowed` is what the extension check
      answers for `filename`; `url` is what the blob upload returns. */
  datatype Upload = Upload(filename: string, contentType: string, allowed: bool, url: string)

  /** How the loop ends: with the descriptors of every file, at the first file
      without a name (flash "No selected file" and redirect), or at the first
      file whose type is not allowed (400 "file does not support"). */
  datatype FileScan = Files(attachments: seq<Attachment>) | NoSelectedFile | Unsupported

  function Describe(u: Upload): Attachment
  {
    Attachment(u.contentType, u.url)
  }

  /** The loop over the uploads, file by file: the first unnamed or refused
      file stops it. */
  function ScanUploads(uploads: seq<Upload>): (r: FileScan)
    ensures r.Files? ==> |r.attachments| == |uploads|
  {
    if uploads == [] then Files([])
    else if uploads[0].filename == "" then NoSelectedFile
    else if !uploads[0].allowed then Unsupported
    else match ScanUploads(uploads[1..])
      case Files(rest) => Files([Describe(uploads[0])] + rest)
      case other => other
  }

  /** Good(u): the loop body accepts `u`. */
  predicate Good(u: Upload)
  {
    u.filename != "" && u.allowed
  }

  /** The loop produces descriptors exactly when every file is named and allowed. */
  lemma {:induction false} ScanAcceptsIffAllGood(uploads: seq<Upload>)
    ensures ScanUploads(uploads).Files? <==> forall i :: 0 <= i < |uploads| ==> Good(uploads[i])
  {
    if uploads != [] {
      ScanAcceptsIffAllGood(uploads[1..]);
      assert forall i :: 1 <= i < |uploads| ==> uploads[i] == uploads[1..][i - 1];
    }
  }

  /** When it produces descriptors, the i-th describes the i-th upload. */
  lemma {:induction false} ScanDescribesEach(uploads: seq<Upload>, i: nat)
    requires ScanUploads(uploads).Files?
    requires i < |uploads|
    ensures ScanUploads(uploads).attachments[i] == Describe(uploads[i])
  {
    if i > 0 {
      ScanDescribesEach(uploads[1..], i - 1);
    }
  }

  /** The outcome is decided by the first file the loop refuses: an unnamed
      one redirects, a named but not allowed one is a 400. */
  lemma {:induction false} ScanStopsAtFirstBad(uploads: seq<Upload>, k: nat)
    requires k < |uploads|
    requires forall i :: 0 <= i < k ==> Good(uploads[i])
    requires !Good(uploads[k])
    ensures ScanUploads(uploads) == if uploads[k].filename == "" then NoSelectedFile else Unsupported
  {
    if k > 0 {
      assert forall i :: 0 <= i < k - 1 ==> uploads[1..][i] == uploads[i + 1];
      ScanStopsAtFirstBad(uploads[1..], k - 1);
    }
  }

  function Prepend(done: seq<Attachment>, r: FileScan): FileScan
  {
    if r.Files? then Files(done + r.attachments) else r
  }

  lemma {:induction false} ScanStep(uploads: seq<Upload>, i: nat)
    requires i < |uploads| && Good(uploads[i])
    ensures ScanUploads(uploads[i..]) == Prepend([Describe(uploads[i])], ScanUploads(uploads[i + 1..]))
  {
    assert uploads[i..][0] == uploads[i];
    assert uploads[i..][1..] == uploads[i + 1..];
  }

  /** update_chat's loop, file by file, returning at the first refused file. */
  method CollectFiles(uploads: seq<Upload>) returns (r: FileScan)
    ensures r == ScanUploads(uploads)
  {
    var files: seq<Attachment> := [];
    var i := 0;
    while i < |uploads|
      invariant 0 <= i <= |uploads|
      invariant ScanUploads(uploads) == Prepend(files, ScanUploads(uploads[i..]))
    {
      var u := uploads[i];
      if u.filename == "" {
        assert uploads[i..][0] == u;
        return NoSelectedFile;
      }
      if !u.allowed {
        assert uploads[i..][0] == u;
        return Unsupported;
      }
      ScanStep(uploads, i);
      files := files + [Describe(u)];
      i := i + 1;
    }
    assert uploads[i..] == [];
    r := Files(files);
  }
}
