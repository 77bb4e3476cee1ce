/**
 * The client's upload helper: partition the chosen files by MIME type, refuse
 * the upload unless there are two spreadsheets, assemble the multipart form,
 * and turn a failure into the value that is thrown to the caller.
 */
module Upload {
  import opened Wrappers
  import opened Json
  import Seqs

  /** A file chosen in the browser; only its name and MIME type matter here. */
  datatype File = File(name: string, mime: string)

  const PdfMime: string := "application/pdf"
  const XlsxMime: string := "application/vnd.openxmlformats-officedocument.spreadsheetml.sheet"
  const XlsMime: string := "application/vnd.ms-excel"

  const MissingSheetsMessage: string := "Please upload both metadata and category Excel files"

  predicate IsPdf(f: File) {
    f.mime == PdfMime
  }

  predicate IsSpreadsheet(f: File) {
    f.mime == XlsxMime || f.mime == XlsMime
  }

  /** The PDFs among the chosen files, in the order chosen. */
  function Pdfs(files: seq<File>): seq<File> {
    Seqs.Filter(IsPdf, files)
  }

  /** The spreadsheets among the chosen files, in the order chosen. */
  function Spreadsheets(files: seq<File>): seq<File> {
    Seqs.Filter(IsSpreadsheet, files)
  }

  /** The files that are neither; the helper never looks at them again. */
  function Ignored(files: seq<File>): seq<File> {
    Seqs.Filter(f => !IsPdf(f) && !IsSpreadsheet(f), files)
  }

  /**
   * The three lists partition the input: together they hold every chosen file
   * exactly as often as it was chosen.
   */
  lemma {:induction false} PartitionIsExact(files: seq<File>)
    ensures multiset(Pdfs(files)) + multiset(Spreadsheets(files)) + multiset(Ignored(files))
              == multiset(files)
  {
    if files != [] {
      var f, rest := files[0], files[1..];
      PartitionIsExact(rest);
      assert files == [f] + rest;
      if IsPdf(f) {
        assert Pdfs(files) == [f] + Pdfs(rest);
        assert Spreadsheets(files) == Spreadsheets(rest);
        assert Ignored(files) == Ignored(rest);
      } else if IsSpreadsheet(f) {
        assert Pdfs(files) == Pdfs(rest);
        assert Spreadsheets(files) == [f] + Spreadsheets(rest);
        assert Ignored(files) == Ignored(rest);
      } else {
        assert Pdfs(files) == Pdfs(rest);
        assert Spreadsheets(files) == Spreadsheets(rest);
        assert Ignored(files) == [f] + Ignored(rest);
      }
    }
  }

  /** Choosing more files after the first ones only extends each list at its end. */
  lemma PartitionKeepsOrder(a: seq<File>, b: seq<File>)
    ensures Pdfs(a + b) == Pdfs(a) + Pdfs(b)
    ensures Spreadsheets(a + b) == Spreadsheets(a) + Spreadsheets(b)
  {
    Seqs.FilterAppend(IsPdf, a, b);
    Seqs.FilterAppend(IsSpreadsheet, a, b);
  }

  /** One `formData.append(field, file)`. */
  datatype FormEntry = FormEntry(field: string, file: File)

  type Form = seq<FormEntry>

  /**
   * The form posted for `files`: every PDF under `contract_files`, in order,
   * then the first spreadsheet as `metadata_file` and the second as `category_file`.
   */
  predicate IsFormFor(files: seq<File>, form: Form)
    requires |Spreadsheets(files)| >= 2
  {
    var pdfs, sheets := Pdfs(files), Spreadsheets(files);
    && |form| == |pdfs| + 2
    && (forall i :: 0 <= i < |pdfs| ==> form[i] == FormEntry("contract_files", pdfs[i]))
    && form[|pdfs|] == FormEntry("metadata_file", sheets[0])
    && form[|pdfs| + 1] == FormEntry("category_file", sheets[1])
  }

  /**
   * The `try` block up to the request: every PDF under `contract_files`, then
   * the first two spreadsheets as `metadata_file` and `category_file`; with
   * fewer than two spreadsheets the helper throws instead.
   */
  method AssembleForm(files: seq<File>) returns (r: Result<Form, string>)
    ensures r.Success? <==> |Spreadsheets(files)| >= 2
    ensures r.Failure? ==> r.error == MissingSheetsMessage
    ensures r.Success? ==> IsFormFor(files, r.value)
  {
    var pdfFiles := Pdfs(files);
    var excelFiles := Spreadsheets(files);
    var formData: Form := [];
    var i := 0;
    while i < |pdfFiles|
      invariant 0 <= i <= |pdfFiles|
      invariant |formData| == i
      invariant forall k :: 0 <= k < i ==> formData[k] == FormEntry("contract_files", pdfFiles[k])
    {
      formData := formData + [FormEntry("contract_files", pdfFiles[i])];
      i := i + 1;
    }
    if |excelFiles| >= 2 {
      formData := formData + [FormEntry("metadata_file", excelFiles[0])];
      formData := formData + [FormEntry("category_file", excelFiles[1])];
      r := Success(formData);
    } else {
      r := Failure(MissingSheetsMessage);
    }
  }

  /** The reply to the POST, as axios reports it. */
  datatype Reply =
    | Answered(data: Value)
      /** The request failed; `body` is the failed response's body, if there was a response. */
    | Rejected(body: Option<Value>, message: string)

  /** `response?.data?.detail`: the body's `detail` field when the body is an object that has one. */
  function Detail(data: Option<Value>): (d: Option<Value>)
    ensures d.Some? <==> data.Some? && data.value.JObj? && "detail" in data.value.fields
    ensures d.Some? ==> d.value == data.value.fields["detail"]
  {
    match data
    case Some(JObj(fields)) => if "detail" in fields then Some(fields["detail"]) else None
    case _ => None
  }

  /**
   * `detail || message`: the server's detail when it is truthy, the error's
   * message otherwise. What is thrown is therefore never `null`.
   */
  function Thrown(detail: Option<Value>, message: string): (v: Value)
    ensures v == JStr(message) || (detail == Some(v) && Truthy(v))
    ensures detail.Some? && Truthy(detail.value) ==> v == detail.value
    ensures v != JNull
  {
    if detail.Some? && Truthy(detail.value) then detail.value else JStr(message)
  }

  /**
   * The whole helper. `request` is the form it posts, if it gets that far;
   * `outcome` is the response body on success, or the value it throws.
   */
  method UploadFiles(files: seq<File>, reply: Reply) returns (request: Option<Form>, outcome: Result<Value, Value>)
    ensures request.Some? <==> |Spreadsheets(files)| >= 2
    ensures request.Some? ==> IsFormFor(files, request.value)
    ensures request.None? ==> outcome == Failure(JStr(MissingSheetsMessage))
    ensures request.Some? && reply.Answered? ==> outcome == Success(reply.data)
    ensures request.Some? && reply.Rejected? ==>
              outcome == Failure(Thrown(Detail(reply.body), reply.message))
  {
    var form := AssembleForm(files);
    match form
    case Failure(message) =>
      request := None;
      outcome := Failure(Thrown(None, message));
    case Success(formData) =>
      request := Some(formData);
      match reply
      case Answered(data) =>
        outcome := Success(data);
      case Rejected(body, message) =>
        outcome := Failure(Thrown(Detail(body), message));
  }
}
