/**
 * Receipt files of an order: files picked by the user are checked for type
 * and size; for a saved order they are uploaded one by one at once, and
 * otherwise they wait in a pending list. Uploaded attachments are listed
 * newest first and can be deleted after confirmation.
 */
module ReceiptUpload {
  import opened Wrappers
  import opened Types
  import opened Strings

  /** A picked file: its name, its MIME type and its size in bytes. */
  datatype FileInfo = FileInfo(name: string, mimeType: string, size: int)

  /** What one upload request came to: a non-OK status, a throw (from `fetch` or the JSON parse), or a parsed reply. */
  datatype UploadReply = UploadNotOk | UploadThrew(thrown: Thrown) | UploadAnswered(success: bool, data: Option<OrderAttachment>) {
    predicate Failed() {
      !UploadAnswered?
    }
  }

  /** The alert of the failed upload of `file`: the `Failed to upload` error, or the message of what was thrown. */
  function FailureAlert(reply: UploadReply, file: FileInfo): (r: string)
    requires reply.Failed()
    ensures reply.UploadNotOk? ==> r == "Failed to upload " + file.name
    ensures reply.UploadThrew? ==> r == reply.thrown.MessageOr("Failed to upload files")
  {
    if reply.UploadNotOk? then "Failed to upload " + file.name else reply.thrown.MessageOr("Failed to upload files")
  }

  /** The unit a byte count is shown in. */
  datatype SizeUnit = Bytes | Kilobytes | Megabytes

  /** 10 MB, the largest accepted file. */
  const MaxFileSize: int := 10 * 1024 * 1024

  const AcceptedTypes: seq<string> := ["image/jpeg", "image/jpg", "image/png", "application/pdf"]

  /** A file passes the picker's check: an accepted type and at most 10 MB. */
  predicate IsValidFile(f: FileInfo) {
    f.mimeType in AcceptedTypes && f.size <= MaxFileSize
  }

  /** The alert a rejected file raises, the type check coming first; none for a valid file. */
  function RejectionMessage(f: FileInfo): (r: Option<string>)
    ensures r.None? <==> IsValidFile(f)
    ensures f.mimeType !in AcceptedTypes ==>
              r == Some(f.name + " is not a valid file type. Only JPEG, PNG, and PDF are allowed.")
    ensures f.mimeType in AcceptedTypes && f.size > MaxFileSize ==>
              r == Some(f.name + " is too large. Maximum file size is 10MB.")
  {
    if f.mimeType !in AcceptedTypes then Some(f.name + " is not a valid file type. Only JPEG, PNG, and PDF are allowed.")
    else if f.size > MaxFileSize then Some(f.name + " is too large. Maximum file size is 10MB.")
    else None
  }

  /** The validation `filter`: the valid files, in their order. */
  function ValidFiles(files: seq<FileInfo>): (r: seq<FileInfo>)
    ensures |r| <= |files|
    ensures forall i :: 0 <= i < |r| ==> IsValidFile(r[i]) && r[i] in files
    ensures forall f :: f in files && IsValidFile(f) ==> f in r
  {
    if files == [] then []
    else if IsValidFile(files[0]) then [files[0]] + ValidFiles(files[1..])
    else ValidFiles(files[1..])
  }

  /** The filter keeps the order: checking two selections is checking them together. */
  lemma {:induction false} ValidFilesAppend(a: seq<FileInfo>, b: seq<FileInfo>)
    ensures ValidFiles(a + b) == ValidFiles(a) + ValidFiles(b)
    decreases |a|
  {
    if a == [] {
      assert a + b == b;
    } else {
      assert (a + b)[0] == a[0];
      assert (a + b)[1..] == a[1..] + b;
      ValidFilesAppend(a[1..], b);
    }
  }

  /** The alerts raised by a selection, one per rejected file, in order. */
  function RejectionAlerts(files: seq<FileInfo>): (r: seq<string>)
    ensures |r| + |ValidFiles(files)| == |files|
  {
    if files == [] then []
    else
      AlertOf(files[0]) + RejectionAlerts(files[1..])
  }

  /** The alert one file raises: its rejection message, or nothing when it is valid. */
  function AlertOf(f: FileInfo): seq<string> {
    if RejectionMessage(f).Some? then [RejectionMessage(f).value] else []
  }

  /** Every rejected file's message is raised, and every alert raised is the message of one of the files. */
  lemma {:induction false} RejectionAlertsMembers(files: seq<FileInfo>)
    ensures forall i :: 0 <= i < |files| && RejectionMessage(files[i]).Some? ==>
              RejectionMessage(files[i]).value in RejectionAlerts(files)
    ensures forall m :: m in RejectionAlerts(files) ==>
              exists i :: 0 <= i < |files| && RejectionMessage(files[i]) == Some(m)
    decreases |files|
  {
    if files != [] {
      var rest := files[1..];
      RejectionAlertsMembers(rest);
      forall i | 0 <= i < |files| && RejectionMessage(files[i]).Some?
        ensures RejectionMessage(files[i]).value in RejectionAlerts(files)
      {
        if i > 0 {
          assert files[i] == rest[i - 1];
        }
      }
      forall m | m in RejectionAlerts(files)
        ensures exists i :: 0 <= i < |files| && RejectionMessage(files[i]) == Some(m)
      {
        if m in RejectionAlerts(rest) {
          var j :| 0 <= j < |rest| && RejectionMessage(rest[j]) == Some(m);
          assert files[j + 1] == rest[j];
        } else {
          assert RejectionMessage(files[0]) == Some(m);
        }
      }
    }
  }

  /** One alert for a rejected file, none for a valid one. */
  lemma RejectionAlertsOfOne(f: FileInfo)
    ensures RejectionAlerts([f]) == (if RejectionMessage(f).Some? then [RejectionMessage(f).value] else [])
  {
    assert [f][1..] == [];
  }

  /** The alerts keep the files' order: the alerts of a concatenation are the alerts of each part, in turn. */
  lemma {:induction false} RejectionAlertsAppend(a: seq<FileInfo>, b: seq<FileInfo>)
    ensures RejectionAlerts(a + b) == RejectionAlerts(a) + RejectionAlerts(b)
    decreases |a|
  {
    if a == [] {
      assert a + b == b;
    } else {
      assert (a + b)[0] == a[0];
      assert (a + b)[1..] == a[1..] + b;
      RejectionAlertsAppend(a[1..], b);
      calc {
        RejectionAlerts(a + b);
        AlertOf(a[0]) + RejectionAlerts(a[1..] + b);
        AlertOf(a[0]) + (RejectionAlerts(a[1..]) + RejectionAlerts(b));
        (AlertOf(a[0]) + RejectionAlerts(a[1..])) + RejectionAlerts(b);
      }
    }
  }

  /** The position of the first failed upload, or the number of replies when none failed. */
  function FirstFailure(replies: seq<UploadReply>): (n: nat)
    ensures n <= |replies|
    ensures forall i :: 0 <= i < n ==> !replies[i].Failed()
    ensures n < |replies| ==> replies[n].Failed()
  {
    if replies == [] || replies[0].Failed() then 0 else 1 + FirstFailure(replies[1..])
  }

  /** What one reply adds to the list: its attachment for a successful reply with data, else nothing. */
  function Gained(reply: UploadReply): (r: seq<OrderAttachment>)
    ensures |r| <= 1
    ensures r != [] <==> reply.UploadAnswered? && reply.success && reply.data.Some?
  {
    if reply.UploadAnswered? && reply.success && reply.data.Some? then [reply.data.value] else []
  }

  /** The attachment list after the given replies arrive in turn, each one's gain going in front. */
  function Prepended(attachments: seq<OrderAttachment>, replies: seq<UploadReply>): seq<OrderAttachment>
  {
    if replies == [] then attachments
    else Gained(replies[|replies| - 1]) + Prepended(attachments, replies[..|replies| - 1])
  }

  /** Uploading never loses a listed attachment: the old list stays, as the tail. */
  lemma {:induction false} PrependedKeepsOld(attachments: seq<OrderAttachment>, replies: seq<UploadReply>)
    ensures var r := Prepended(attachments, replies);
            |attachments| <= |r| <= |attachments| + |replies| && r[|r| - |attachments|..] == attachments
  {
    if replies != [] {
      var front := replies[..|replies| - 1];
      PrependedKeepsOld(attachments, front);
      var g := Gained(replies[|replies| - 1]);
      var p := Prepended(attachments, front);
      assert (g + p)[|g + p| - |attachments|..] == p[|p| - |attachments|..];
    }
  }

  /** When every reply succeeds with data, every uploaded attachment is listed, the last one first. */
  lemma {:induction false} AllUploadsListed(attachments: seq<OrderAttachment>, replies: seq<UploadReply>)
    requires forall i :: 0 <= i < |replies| ==> replies[i].UploadAnswered? && replies[i].success && replies[i].data.Some?
    ensures var r := Prepended(attachments, replies);
            |r| == |attachments| + |replies|
            && forall i :: 0 <= i < |replies| ==> r[|replies| - 1 - i] == replies[i].data.value
  {
    if replies != [] {
      var last := |replies| - 1;
      var front := replies[..last];
      AllUploadsListed(attachments, front);
      var p := Prepended(attachments, front);
      var r := Prepended(attachments, replies);
      assert r == [replies[last].data.value] + p;
      forall i | 0 <= i < last ensures r[|replies| - 1 - i] == replies[i].data.value {
        assert front[i] == replies[i];
        assert r[|replies| - 1 - i] == p[|front| - 1 - i];
      }
    }
  }

  /** `files.filter((_, i) => i !== index)`: the pending files without position `index`. */
  function RemoveAt(files: seq<FileInfo>, index: int): (r: seq<FileInfo>)
    ensures 0 <= index < |files| ==>
              && |r| == |files| - 1
              && (forall j :: 0 <= j < index ==> r[j] == files[j])
              && (forall j :: index <= j < |r| ==> r[j] == files[j + 1])
    ensures !(0 <= index < |files|) ==> r == files
  {
    if 0 <= index < |files| then files[..index] + files[index + 1..] else files
  }

  /** `prev.filter((att) => att.id !== attachmentId)`. */
  function WithoutAttachment(attachments: seq<OrderAttachment>, id: string): (r: seq<OrderAttachment>)
    ensures |r| <= |attachments|
    ensures forall i :: 0 <= i < |r| ==> r[i] in attachments && r[i].id != id
    ensures forall a :: a in attachments && a.id != id ==> a in r
  {
    if attachments == [] then []
    else if attachments[0].id == id then WithoutAttachment(attachments[1..], id)
    else [attachments[0]] + WithoutAttachment(attachments[1..], id)
  }

  /** The filter keeps the attachments' order: removing from a concatenation removes from each part, in turn. */
  lemma {:induction false} WithoutAttachmentAppend(a: seq<OrderAttachment>, b: seq<OrderAttachment>, id: string)
    ensures WithoutAttachment(a + b, id) == WithoutAttachment(a, id) + WithoutAttachment(b, id)
    decreases |a|
  {
    if a == [] {
      assert a + b == b;
    } else {
      assert (a + b)[0] == a[0];
      assert (a + b)[1..] == a[1..] + b;
      WithoutAttachmentAppend(a[1..], b, id);
    }
  }

  /** `formatFileSize`'s unit: bytes below 1024, kilobytes below 1024 * 1024, megabytes otherwise. */
  function UnitFor(bytes: int): (u: SizeUnit)
    ensures u == Bytes <==> bytes < 1024
    ensures u == Kilobytes <==> 1024 <= bytes < 1024 * 1024
    ensures u == Megabytes <==> 1024 * 1024 <= bytes
  {
    if bytes < 1024 then Bytes else if bytes < 1024 * 1024 then Kilobytes else Megabytes
  }

  function UnitRank(u: SizeUnit): nat {
    match u
    case Bytes => 0
    case Kilobytes => 1
    case Megabytes => 2
  }

  /** A larger size never shows in a smaller unit. */
  lemma UnitMonotonic(a: int, b: int)
    requires a <= b
    ensures UnitRank(UnitFor(a)) <= UnitRank(UnitFor(b))
  {
  }

  /** An attachment's size line: "Unknown size" (here `None`) for a missing or zero size, else its unit. */
  function AttachmentSizeUnit(fileSize: Option<int>): (r: Option<SizeUnit>)
    ensures r.None? <==> fileSize.None? || fileSize.value == 0
    ensures r.Some? ==> r.value == UnitFor(fileSize.value)
  {
    if fileSize.Some? && fileSize.value != 0 then Some(UnitFor(fileSize.value)) else None
  }

  /** The component: the order it belongs to, its pending files, its attachments and what it told the user and the owner. */
  class ReceiptUploader {
    const orderId: Option<string>
    /** Whether the owner passed `onFilesChange` and `onAttachmentDeleted`. */
    const hasOnFilesChange: bool
    const hasOnAttachmentDeleted: bool
    var files: seq<FileInfo>
    var attachments: seq<OrderAttachment>
    var alerts: seq<string>
    /** Every list handed to `onFilesChange`, in order; it stays empty without that callback. */
    var fileReports: seq<seq<FileInfo>>
    /** Every id handed to `onAttachmentDeleted`, in order; it stays empty without that callback. */
    var deletedReports: seq<string>

    /** `orderId && orderId !== 'existing'`: the order is saved, so files are uploaded at once. */
    predicate UploadsNow()
    {
      orderId.Some? && orderId.value != "" && orderId.value != "existing"
    }

    constructor (orderId: Option<string>, existingAttachments: seq<OrderAttachment>,
                 hasOnFilesChange: bool, hasOnAttachmentDeleted: bool)
      ensures this.orderId == orderId && attachments == existingAttachments
      ensures this.hasOnFilesChange == hasOnFilesChange && this.hasOnAttachmentDeleted == hasOnAttachmentDeleted
      ensures files == [] && alerts == [] && fileReports == [] && deletedReports == []
    {
      this.orderId := orderId;
      this.hasOnFilesChange := hasOnFilesChange;
      this.hasOnAttachmentDeleted := hasOnAttachmentDeleted;
      files := [];
      attachments := existingAttachments;
      alerts := [];
      fileReports := [];
      deletedReports := [];
    }

    /** The list handed to `onFilesChange`, when the owner gave one. */
    function Report(list: seq<FileInfo>): seq<seq<FileInfo>>
      reads this
    {
      if hasOnFilesChange then [list] else []
    }

    /**
     * `uploadFiles`: nothing for an unsaved order. Otherwise each file is
     * sent in turn; each successful reply with data puts its attachment in
     * front; the first failure raises its alert and stops the rest; only when
     * all are sent is the pending list cleared and reported empty.
     */
    method UploadFiles(toUpload: seq<FileInfo>, replies: seq<UploadReply>)
      requires |replies| == |toUpload|
      modifies this
      ensures !UploadsNow() ==> attachments == old(attachments) && files == old(files)
                                && alerts == old(alerts) && fileReports == old(fileReports)
      ensures UploadsNow() ==>
                var n := FirstFailure(replies);
                && attachments == Prepended(old(attachments), replies[..n])
                && (n == |replies| ==> files == [] && fileReports == old(fileReports) + Report([]) && alerts == old(alerts))
                && (n < |replies| ==> files == old(files) && fileReports == old(fileReports)
                                      && alerts == old(alerts) + [FailureAlert(replies[n], toUpload[n])])
      ensures deletedReports == old(deletedReports)
    {
      if !UploadsNow() {
        return;
      }
      var n := FirstFailure(replies);
      var i := 0;
      while i < |toUpload|
        invariant 0 <= i <= n
        invariant attachments == Prepended(old(attachments), replies[..i])
        invariant files == old(files) && alerts == old(alerts) && fileReports == old(fileReports)
        invariant deletedReports == old(deletedReports)
      {
        var reply := replies[i];
        if reply.UploadNotOk? {
          alerts := alerts + ["Failed to upload " + toUpload[i].name];
          return;
        }
        if reply.UploadThrew? {
          alerts := alerts + [reply.thrown.MessageOr("Failed to upload files")];
          return;
        }
        if reply.success && reply.data.Some? {
          attachments := [reply.data.value] + attachments;
        }
        assert replies[..i + 1][..i] == replies[..i];
        i := i + 1;
      }
      assert replies[..|replies|] == replies;
      files := [];
      fileReports := fileReports + Report([]);
    }

    /**
     * `handleFileSelect`: each rejected file raises its alert; when some file
     * is valid, a saved order uploads the valid ones and an unsaved one adds
     * them to the pending list and reports it.
     */
    method SelectFiles(selected: seq<FileInfo>, replies: seq<UploadReply>)
      requires |replies| == |ValidFiles(selected)|
      modifies this
      ensures var valid := ValidFiles(selected);
              var n := FirstFailure(replies);
              valid != [] && UploadsNow() ==>
                && attachments == Prepended(old(attachments), replies[..n])
                && (n == |replies| ==> files == [] && fileReports == old(fileReports) + Report([])
                                       && alerts == old(alerts) + RejectionAlerts(selected))
                && (n < |replies| ==> files == old(files) && fileReports == old(fileReports)
                                      && alerts == old(alerts) + RejectionAlerts(selected) + [FailureAlert(replies[n], valid[n])])
      ensures var valid := ValidFiles(selected);
              valid != [] && !UploadsNow() ==>
                files == old(files) + valid && fileReports == old(fileReports) + Report(old(files) + valid)
                && attachments == old(attachments) && alerts == old(alerts) + RejectionAlerts(selected)
      ensures ValidFiles(selected) == [] ==>
                files == old(files) && attachments == old(attachments) && fileReports == old(fileReports)
                && alerts == old(alerts) + RejectionAlerts(selected)
      ensures deletedReports == old(deletedReports)
    {
      alerts := alerts + RejectionAlerts(selected);
      var valid := ValidFiles(selected);
      if |valid| > 0 {
        if UploadsNow() {
          UploadFiles(valid, replies);
        } else {
          files := files + valid;
          fileReports := fileReports + Report(files);
        }
      }
    }

    /** `removePendingFile`: drop the file at `index`, keeping the others in order, and report the list. */
    method RemovePendingFile(index: int)
      modifies this
      ensures files == RemoveAt(old(files), index) && fileReports == old(fileReports) + Report(files)
      ensures attachments == old(attachments) && alerts == old(alerts) && deletedReports == old(deletedReports)
    {
      files := RemoveAt(files, index);
      fileReports := fileReports + Report(files);
    }

    /**
     * `handleDelete`: without confirmation nothing happens; after a
     * successful server delete the attachment leaves the list and the owner
     * is told; a failed delete raises an alert with the error's message.
     */
    method Delete(attachmentId: string, confirmed: bool, failure: Option<Thrown>)
      modifies this
      ensures !confirmed ==> attachments == old(attachments) && alerts == old(alerts)
                             && deletedReports == old(deletedReports)
      ensures confirmed && failure.None? ==>
                && attachments == WithoutAttachment(old(attachments), attachmentId)
                && deletedReports == old(deletedReports) + (if hasOnAttachmentDeleted then [attachmentId] else [])
                && alerts == old(alerts)
      ensures confirmed && failure.Some? ==>
                attachments == old(attachments) && deletedReports == old(deletedReports)
                && alerts == old(alerts) + [failure.value.MessageOr("Failed to delete file")]
      ensures files == old(files) && fileReports == old(fileReports)
    {
      if !confirmed {
        return;
      }
      if failure.None? {
        attachments := WithoutAttachment(attachments, attachmentId);
        if hasOnAttachmentDeleted {
          deletedReports := deletedReports + [attachmentId];
        }
      } else {
        alerts := alerts + [failure.value.MessageOr("Failed to delete file")];
      }
    }

    /** The effect that follows the `existingAttachments` prop: the list becomes the new one. */
    method ExistingAttachmentsChanged(existingAttachments: seq<OrderAttachment>)
      modifies this
      ensures attachments == existingAttachments
      ensures files == old(files) && alerts == old(alerts)
      ensures fileReports == old(fileReports) && deletedReports == old(deletedReports)
    {
      attachments := existingAttachments;
    }
  }
}
