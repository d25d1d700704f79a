/**
 * The "new magazine" page (`/admin/addnew`): the form, its validation ladder,
 * the multipart body it posts, and the `loading` flag around the request.
 * `handleSubmit` is one `async` function that awaits the `fetch`; here it is
 * two steps, `Submit` (up to the request) and `Complete` (once the reply is
 * in), so that the state while the request runs can be stated.
 */
module AddNew {
  import opened Common
  import opened Text
  import opened Sequences
  import MultiSelect

  /** The form's fields. */
  datatype MagazineForm = MagazineForm(
    title: string,
    author: string,
    description: string,
    cover: string,
    publishDate: string,
    categoryIds: seq<string>,
    majorIds: seq<string>,
    status: string)

  /** The chosen PDF or Word file; its contents play no part. */
  datatype Upload = Upload(name: string)

  /** One `append` to the `FormData` body: a text field or the file. */
  datatype Field = TextField(key: string, value: string) | FileField(key: string, upload: Upload)

  /** The form as the page opens: empty fields, author "Admin", today's date, status DRAFT. */
  function InitialForm(today: string): (f: MagazineForm)
    ensures f.status == "DRAFT" && f.author == "Admin" && f.publishDate == today
    ensures f.title == "" && f.cover == "" && f.description == "" && f.categoryIds == [] && f.majorIds == []
  {
    MagazineForm("", "Admin", "", "", today, [], [], "DRAFT")
  }

  const TitleMissing := "Vui lòng nhập tiêu đề tạp chí"
  const CoverMissing := "Vui lòng nhập URL ảnh bìa"
  const FileMissing := "Vui lòng upload file PDF hoặc Word"
  const CreateFailed := "Có lỗi xảy ra khi tạo tạp chí"

  /**
   * The validation ladder of `handleSubmit`: the message of the first check
   * that fails (blank title, then blank cover URL, then no file), or `None`
   * when the form may be sent.
   */
  function Validate(form: MagazineForm, file: Option<Upload>): (refusal: Option<string>)
    ensures refusal == Some(TitleMissing) <==> IsBlank(form.title)
    ensures refusal == Some(CoverMissing) <==> !IsBlank(form.title) && IsBlank(form.cover)
    ensures refusal == Some(FileMissing) <==> !IsBlank(form.title) && !IsBlank(form.cover) && file == None
    ensures refusal == None <==> !IsBlank(form.title) && !IsBlank(form.cover) && file.Some?
  {
    TrimEmptyIffBlank(form.title);
    TrimEmptyIffBlank(form.cover);
    if !Truthy(Trim(form.title)) then Some(TitleMissing)
    else if !Truthy(Trim(form.cover)) then Some(CoverMissing)
    else if file.None? then Some(FileMissing)
    else None
  }

  /** The six text fields `handleSubmit` appends first. */
  function Head(form: MagazineForm): (h: seq<Field>)
    ensures |h| == 6
  {
    [ TextField("tieuDe", form.title),
      TextField("tenTacGia", OrElse(form.author, "Admin")),
      TextField("moTa", form.description),
      TextField("anhBia", form.cover),
      TextField("ngayXuatBan", form.publishDate),
      TextField("trangThai", form.status) ]
  }

  /** The callback of a `forEach` that appends each id under `key`. */
  function Under(key: string): string -> Field {
    id => TextField(key, id)
  }

  /** The body `handleSubmit` builds, field by field. */
  function FormDataOf(form: MagazineForm, upload: Upload): seq<Field> {
    Head(form)
    + Map(form.categoryIds, Under("categoryIds"))
    + Map(form.majorIds, Under("majorIds"))
    + [FileField("file", upload)]
  }

  /** The value a field contributes under `key`. */
  function Own(f: Field, key: string): seq<string> {
    if f.TextField? && f.key == key then [f.value] else []
  }

  /** The text values appended under `key`, in order: what `FormData.getAll(key)` returns. */
  function ValuesOf(fields: seq<Field>, key: string): (vs: seq<string>)
    ensures |vs| <= |fields|
  {
    if fields == [] then [] else Own(fields[0], key) + ValuesOf(fields[1..], key)
  }

  lemma ValuesOfStep(fields: seq<Field>, i: nat, key: string)
    requires i < |fields|
    ensures ValuesOf(fields[i..], key) == Own(fields[i], key) + ValuesOf(fields[i + 1..], key)
  {
    assert fields[i..][1..] == fields[i + 1..];
  }

  lemma {:induction false} ValuesOfAppend(a: seq<Field>, b: seq<Field>, key: string)
    ensures ValuesOf(a + b, key) == ValuesOf(a, key) + ValuesOf(b, key)
  {
    if a == [] {
      assert a + b == b;
    } else {
      assert (a + b)[1..] == a[1..] + b;
      ValuesOfAppend(a[1..], b, key);
    }
  }

  /** Appending every id under one key gives back the ids, in order, under that key and nothing under any other. */
  lemma {:induction false} ValuesOfMapped(ids: seq<string>, key: string, other: string)
    requires other != key
    ensures ValuesOf(Map(ids, Under(key)), key) == ids
    ensures ValuesOf(Map(ids, Under(key)), other) == []
  {
    if ids != [] {
      var m := Map(ids, Under(key));
      assert m[1..] == Map(ids[1..], Under(key));
      ValuesOfMapped(ids[1..], key, other);
    }
  }

  /** What the six leading fields hold under each key. */
  lemma ValuesOfHead(form: MagazineForm, key: string)
    ensures ValuesOf(Head(form), key) ==
      Own(TextField("tieuDe", form.title), key)
      + Own(TextField("tenTacGia", OrElse(form.author, "Admin")), key)
      + Own(TextField("moTa", form.description), key)
      + Own(TextField("anhBia", form.cover), key)
      + Own(TextField("ngayXuatBan", form.publishDate), key)
      + Own(TextField("trangThai", form.status), key)
  {
    var h := Head(form);
    assert h[0..] == h;
    assert h[6..] == [];
    ValuesOfStep(h, 0, key);
    ValuesOfStep(h, 1, key);
    ValuesOfStep(h, 2, key);
    ValuesOfStep(h, 3, key);
    ValuesOfStep(h, 4, key);
    ValuesOfStep(h, 5, key);
  }

  /** The values under a key, split along the four parts of the body. */
  lemma ValuesOfBody(form: MagazineForm, upload: Upload, key: string)
    ensures ValuesOf(FormDataOf(form, upload), key) ==
      ValuesOf(Head(form), key)
      + ValuesOf(Map(form.categoryIds, Under("categoryIds")), key)
      + ValuesOf(Map(form.majorIds, Under("majorIds")), key)
      + ValuesOf([FileField("file", upload)], key)
  {
    var head := Head(form);
    var cats := Map(form.categoryIds, Under("categoryIds"));
    var majors := Map(form.majorIds, Under("majorIds"));
    var tail := [FileField("file", upload)];
    ValuesOfAppend(head + cats + majors, tail, key);
    ValuesOfAppend(head + cats, majors, key);
    ValuesOfAppend(head, cats, key);
  }

  /** Every chosen category id is sent once under "categoryIds", in list order, and nothing else is. */
  lemma CategoryIdsSentInOrder(form: MagazineForm, upload: Upload)
    ensures ValuesOf(FormDataOf(form, upload), "categoryIds") == form.categoryIds
  {
    ValuesOfBody(form, upload, "categoryIds");
    ValuesOfHead(form, "categoryIds");
    ValuesOfMapped(form.categoryIds, "categoryIds", "majorIds");
    ValuesOfMapped(form.majorIds, "majorIds", "categoryIds");
  }

  /** Every chosen major id is sent once under "majorIds", in list order, and nothing else is. */
  lemma MajorIdsSentInOrder(form: MagazineForm, upload: Upload)
    ensures ValuesOf(FormDataOf(form, upload), "majorIds") == form.majorIds
  {
    ValuesOfBody(form, upload, "majorIds");
    ValuesOfHead(form, "majorIds");
    ValuesOfMapped(form.categoryIds, "categoryIds", "majorIds");
    ValuesOfMapped(form.majorIds, "majorIds", "categoryIds");
  }

  /** The author is sent once: `tenTacgia`, or "Admin" when that is empty; the title is sent once; the file comes last. */
  lemma AuthorAndTitleSent(form: MagazineForm, upload: Upload)
    ensures ValuesOf(FormDataOf(form, upload), "tenTacGia") == [if form.author != "" then form.author else "Admin"]
    ensures ValuesOf(FormDataOf(form, upload), "tieuDe") == [form.title]
    ensures var fd := FormDataOf(form, upload); fd[|fd| - 1] == FileField("file", upload)
  {
    ValuesOfBody(form, upload, "tenTacGia");
    ValuesOfHead(form, "tenTacGia");
    ValuesOfMapped(form.categoryIds, "categoryIds", "tenTacGia");
    ValuesOfMapped(form.majorIds, "majorIds", "tenTacGia");
    ValuesOfBody(form, upload, "tieuDe");
    ValuesOfHead(form, "tieuDe");
    ValuesOfMapped(form.categoryIds, "categoryIds", "tieuDe");
    ValuesOfMapped(form.majorIds, "majorIds", "tieuDe");
  }

  /** The `append` calls of `handleSubmit`, with its two `forEach` loops. */
  method AssembleFormData(form: MagazineForm, upload: Upload) returns (fd: seq<Field>)
    ensures fd == FormDataOf(form, upload)
  {
    fd := [];
    fd := fd + [TextField("tieuDe", form.title)];
    fd := fd + [TextField("tenTacGia", if form.author != "" then form.author else "Admin")];
    fd := fd + [TextField("moTa", form.description)];
    fd := fd + [TextField("anhBia", form.cover)];
    fd := fd + [TextField("ngayXuatBan", form.publishDate)];
    fd := fd + [TextField("trangThai", form.status)];
    ghost var head := fd;
    assert head == Head(form);
    var i := 0;
    while i < |form.categoryIds|
      invariant 0 <= i <= |form.categoryIds|
      invariant fd == head + Map(form.categoryIds[..i], Under("categoryIds"))
    {
      MapSnoc(form.categoryIds[..i], form.categoryIds[i], Under("categoryIds"));
      assert form.categoryIds[..i + 1] == form.categoryIds[..i] + [form.categoryIds[i]];
      fd := fd + [TextField("categoryIds", form.categoryIds[i])];
      i := i + 1;
    }
    assert form.categoryIds[..i] == form.categoryIds;
    ghost var middle := fd;
    var j := 0;
    while j < |form.majorIds|
      invariant 0 <= j <= |form.majorIds|
      invariant fd == middle + Map(form.majorIds[..j], Under("majorIds"))
    {
      MapSnoc(form.majorIds[..j], form.majorIds[j], Under("majorIds"));
      assert form.majorIds[..j + 1] == form.majorIds[..j] + [form.majorIds[j]];
      fd := fd + [TextField("majorIds", form.majorIds[j])];
      j := j + 1;
    }
    assert form.majorIds[..j] == form.majorIds;
    fd := fd + [FileField("file", upload)];
  }

  /** The body of a refused reply: JSON with an optional `error` field, or something that is not JSON. */
  datatype ErrorBody = Json(error: Option<string>) | NotJson

  /** The outcome of the `fetch`. */
  datatype Reply = Ok | Refused(body: ErrorBody) | Thrown

  /** The toast after a refused reply: the body's `error` when truthy, else the default message. */
  function ErrorMessage(body: ErrorBody): (msg: string)
    ensures body.Json? && TruthyOpt(body.error) ==> msg == body.error.value
    ensures !(body.Json? && TruthyOpt(body.error)) ==> msg == CreateFailed
  {
    match body
    case Json(e) => OptOrElse(e, CreateFailed)
    case NotJson => CreateFailed
  }

  datatype Toast = Success(text: string) | Failure(text: string)

  class AddNewPage {
    var form: MagazineForm
    var file: Option<Upload>
    /** A request is running; the submit button is disabled and reads "Đang tạo...". */
    var loading: bool
    /** Bodies posted to `/api/admin/magazines/`, oldest first. */
    var sent: seq<seq<Field>>
    var toasts: seq<Toast>
    var navigations: seq<string>

    constructor (today: string)
      ensures form == InitialForm(today) && file == None && !loading
      ensures sent == [] && toasts == [] && navigations == []
    {
      form := MagazineForm("", "Admin", "", "", today, [], [], "DRAFT");
      file, loading := None, false;
      sent, toasts, navigations := [], [], [];
    }

    /** The file picker reports a file, or that there is none. */
    method ChooseFile(f: Option<Upload>)
      modifies this`file
      ensures file == f
    {
      file := f;
    }

    /** The categories multi-select emits a list when an absent category is chosen. */
    method ChooseCategory(id: string)
      modifies this`form
      ensures MultiSelect.Select(old(form).categoryIds, id).Some? ==>
        form == old(form).(categoryIds := MultiSelect.Select(old(form).categoryIds, id).value)
      ensures MultiSelect.Select(old(form).categoryIds, id).None? ==> form == old(form)
      ensures NoDuplicates(old(form).categoryIds) ==> NoDuplicates(form.categoryIds)
    {
      if NoDuplicates(form.categoryIds) {
        MultiSelect.SelectKeepsNoDuplicates(form.categoryIds, id);
      }
      var next := MultiSelect.Select(form.categoryIds, id);
      if next.Some? {
        form := form.(categoryIds := next.value);
      }
    }

    /** The "×" of a category tag. */
    method RemoveCategory(id: string)
      modifies this`form
      ensures form == old(form).(categoryIds := MultiSelect.Remove(old(form).categoryIds, id))
      ensures NoDuplicates(old(form).categoryIds) ==> NoDuplicates(form.categoryIds)
    {
      if NoDuplicates(form.categoryIds) {
        MultiSelect.RemoveKeepsNoDuplicates(form.categoryIds, id);
      }
      form := form.(categoryIds := MultiSelect.Remove(form.categoryIds, id));
    }

    /** The majors multi-select emits a list when an absent major is chosen. */
    method ChooseMajor(id: string)
      modifies this`form
      ensures MultiSelect.Select(old(form).majorIds, id).Some? ==>
        form == old(form).(majorIds := MultiSelect.Select(old(form).majorIds, id).value)
      ensures MultiSelect.Select(old(form).majorIds, id).None? ==> form == old(form)
      ensures NoDuplicates(old(form).majorIds) ==> NoDuplicates(form.majorIds)
    {
      if NoDuplicates(form.majorIds) {
        MultiSelect.SelectKeepsNoDuplicates(form.majorIds, id);
      }
      var next := MultiSelect.Select(form.majorIds, id);
      if next.Some? {
        form := form.(majorIds := next.value);
      }
    }

    /** The "×" of a major tag. */
    method RemoveMajor(id: string)
      modifies this`form
      ensures form == old(form).(majorIds := MultiSelect.Remove(old(form).majorIds, id))
      ensures NoDuplicates(old(form).majorIds) ==> NoDuplicates(form.majorIds)
    {
      if NoDuplicates(form.majorIds) {
        MultiSelect.RemoveKeepsNoDuplicates(form.majorIds, id);
      }
      form := form.(majorIds := MultiSelect.Remove(form.majorIds, id));
    }

    /**
     * `handleSubmit` up to the request: a refused form shows the ladder's
     * message and sends nothing; an accepted one sets `loading` and posts
     * the assembled body.
     */
    method Submit()
      modifies this`loading, this`sent, this`toasts
      ensures var refusal := old(Validate(form, file));
        && (refusal.Some? ==>
              toasts == old(toasts) + [Failure(refusal.value)] && sent == old(sent) && loading == old(loading))
        && (refusal.None? ==>
              file.Some? && loading && sent == old(sent) + [FormDataOf(form, file.value)] && toasts == old(toasts))
    {
      var refusal := Validate(form, file);
      if refusal.Some? {
        toasts := toasts + [Failure(refusal.value)];
        return;
      }
      loading := true;
      var body := AssembleFormData(form, file.value);
      sent := sent + [body];
    }

    /** `handleSubmit` after the reply: `loading` is cleared on every path. */
    method Complete(reply: Reply)
      modifies this`loading, this`toasts, this`navigations
      ensures !loading
      ensures reply.Ok? ==>
        toasts == old(toasts) + [Success("Tạo tạp chí thành công")] && navigations == old(navigations) + ["/admin/home"]
      ensures reply.Refused? ==>
        toasts == old(toasts) + [Failure(ErrorMessage(reply.body))] && navigations == old(navigations)
      ensures reply.Thrown? ==>
        toasts == old(toasts) + [Failure(CreateFailed)] && navigations == old(navigations)
    {
      match reply {
        case Ok =>
          toasts := toasts + [Success("Tạo tạp chí thành công")];
          navigations := navigations + ["/admin/home"];
        case Refused(body) =>
          var errorMessage := CreateFailed;
          if body.Json? && body.error.Some? && body.error.value != "" {
            errorMessage := body.error.value;
          }
          toasts := toasts + [Failure(errorMessage)];
        case Thrown =>
          toasts := toasts + [Failure(CreateFailed)];
      }
      loading := false;
    }
  }
}
