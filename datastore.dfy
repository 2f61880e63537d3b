/** The content store panel (src/component/client/Datastore.jsx): the
    content-type policy of the add form, the multipart payloads of add and
    edit, and the controller whose fields are the panel's state hooks.
    The panel takes no properties, lists all content unscoped and sends no
    project identifier. */
module Datastore {
  import opened Common

  // ---------------------------------------------------------------------
  // Content types and the input each one needs
  // ---------------------------------------------------------------------

  /** The seven options of the type selector of the add form. */
  datatype ContentType = Text | Image | Video | PDF | YouTube | Link | Website

  /** The option value, which is also the `type` field sent to the server. */
  function TypeName(t: ContentType): (n: string)
    ensures n != ""
    ensures (n == "Text") == (t == Text)
  {
    match t
    case Text => "Text"
    case Image => "Image"
    case Video => "Video"
    case PDF => "PDF"
    case YouTube => "YouTube"
    case Link => "Link"
    case Website => "Website"
  }

  datatype InputKind = InlineText | FileUpload | Url

  /** The input widget the add form shows for a type. */
  function InputKindOf(t: ContentType): (k: InputKind)
    ensures k == InlineText <==> t == Text
  {
    match t
    case Text => InlineText
    case Image | Video | PDF => FileUpload
    case YouTube | Link | Website => Url
  }

  /** A file picked in a file input; only its name is observed. */
  datatype File = File(name: string)

  /** The input a type requires is filled in: non-empty text, a selected
      file, or a non-empty URL. */
  predicate RequiredInputPresent(t: ContentType, content: string, file: Option<File>)
  {
    match InputKindOf(t)
    case InlineText => content != ""
    case FileUpload => file.Some?
    case Url => content != ""
  }

  /** The message shown when the required input of a type is missing. */
  function MissingInputMessage(t: ContentType): (m: string)
    ensures EndsWith(m, TypeName(t) + " type")
  {
    var lead :=
      match InputKindOf(t)
      case InlineText => "Content is required for "
      case FileUpload => "File upload is required for "
      case Url => "URL is required for ";
    var tail := TypeName(t) + " type";
    EndsWithAppend(lead, tail);
    lead + tail
  }

  /** The checks `handleAddContent` makes before it sends anything, in the
      order it makes them; None means the add goes ahead. */
  function AddValidationError(title: string, t: ContentType, content: string, file: Option<File>): (e: Option<string>)
    ensures title == "" ==> e == Some("Title is required")
    ensures title != "" ==> (e.None? <==> RequiredInputPresent(t, content, file))
    ensures title != "" && e.Some? ==> e.value == MissingInputMessage(t)
  {
    if title == "" then
      Some("Title is required")
    else if t == Text && content == "" then
      Some("Content is required for " + (TypeName(t) + " type"))
    else if (t == Image || t == Video || t == PDF) && file.None? then
      Some("File upload is required for " + (TypeName(t) + " type"))
    else if (t == YouTube || t == Link || t == Website) && content == "" then
      Some("URL is required for " + (TypeName(t) + " type"))
    else
      None
  }

  // ---------------------------------------------------------------------
  // Multipart payloads
  // ---------------------------------------------------------------------

  /** The content part of a multipart form: a `content` field, a
      `contentFile` field, or neither. */
  datatype Body = ContentField(text: string) | FileField(file: File) | NoContent

  /** The multipart form sent on add (POST) and on edit (PUT). */
  datatype ContentPayload = ContentPayload(typ: string, title: string, body: Body)

  /** The types whose edit dialog draws a text or URL input; Image, Video
      and PDF items only show their current file. */
  const EditableContentTypes: set<string> := {"Text", "YouTube", "Link", "Website"}

  /** The branch both handlers use to choose the content part. */
  function MultipartBody(typ: string, content: string, file: Option<File>): (b: Body)
    ensures typ == "Text" ==> b == ContentField(content)
    ensures typ != "Text" && file.Some? ==> b == FileField(file.value)
    ensures file.None? && content != "" ==> b == ContentField(content)
    ensures b == NoContent <==> typ != "Text" && file.None? && content == ""
  {
    if typ == "Text" then ContentField(content)
    else if file.Some? then FileField(file.value)
    else if content != "" then ContentField(content)
    else NoContent
  }

  /** The form `handleAddContent` posts. */
  function AddPayload(t: ContentType, title: string, content: string, file: Option<File>): (p: ContentPayload)
    ensures p.typ == TypeName(t) && p.title == title
    ensures t == Text ==> p.body == ContentField(content)
    // a form that passed validation always carries its content
    ensures AddValidationError(title, t, content, file).None? ==> p.body != NoContent
    ensures AddValidationError(title, t, content, file).None? && InputKindOf(t) == FileUpload ==>
              p.body == FileField(file.value)
    // a file left selected wins even for a URL type
    ensures InputKindOf(t) == Url && file.Some? ==> p.body == FileField(file.value)
    ensures InputKindOf(t) == Url && file.None? && content != "" ==> p.body == ContentField(content)
  {
    ContentPayload(TypeName(t), title, MultipartBody(TypeName(t), content, file))
  }

  /** The `newContentData` hook of the add form. */
  datatype NewContentData = NewContentData(title: string, content: string)

  /** An item of the content list as the server returns it. */
  datatype ContentItem = ContentItem(id: string, typ: string, title: string, content: string)

  /** The form `handleEditContent` puts: the item's own type, its title, and
      its content part. */
  function EditPayload(item: ContentItem, file: Option<File>): (p: ContentPayload)
    ensures p.typ == item.typ && p.title == item.title
    ensures item.typ == "Text" ==> p.body == ContentField(item.content)
    ensures item.typ != "Text" && file.Some? ==> p.body == FileField(file.value)
    // without a new file the existing content is kept
    ensures file.None? && item.content != "" ==> p.body == ContentField(item.content)
    ensures p.body == NoContent <==> item.typ != "Text" && file.None? && item.content == ""
  {
    ContentPayload(item.typ, item.title, MultipartBody(item.typ, item.content, file))
  }

  // ---------------------------------------------------------------------
  // Type badge
  // ---------------------------------------------------------------------

  const BlueBadge := "bg-blue-100 text-blue-800"
  const GreenBadge := "bg-green-100 text-green-800"
  const RedBadge := "bg-red-100 text-red-800"
  const YellowBadge := "bg-yellow-100 text-yellow-800"
  const GrayBadge := "bg-gray-100 text-gray-800"

  /** The badge classes of an item's type; any string is accepted. */
  function TypeBadgeColor(typ: string): (c: string)
    ensures c in {BlueBadge, GreenBadge, RedBadge, YellowBadge, GrayBadge}
    ensures c == GrayBadge <==> typ !in {"Text", "Image", "Video", "YouTube", "Link"}
    ensures typ == "Text" || typ == "Video" ==> c == BlueBadge
    ensures typ == "Image" ==> c == GreenBadge
    ensures typ == "YouTube" ==> c == RedBadge
    ensures typ == "Link" ==> c == YellowBadge
  {
    match typ
    case "Text" => BlueBadge
    case "Image" => GreenBadge
    case "Video" => BlueBadge
    case "YouTube" => RedBadge
    case "Link" => YellowBadge
    case "Website" => GrayBadge
    case "PDF" => GrayBadge
    case _ => GrayBadge
  }

  // ---------------------------------------------------------------------
  // The panel's state
  // ---------------------------------------------------------------------

  /** A request the panel sends to the content endpoints. */
  datatype ContentRequest =
    | ListContents
    | CreateContent(payload: ContentPayload)
    | UpdateContent(id: string, payload: ContentPayload)
    | DeleteContent(id: string)

  /** The state hooks of the panel. Each handler runs as one atomic step and
      receives the server's answer as a parameter; `requests` records, in
      order, every request the panel has sent. */
  class DatastoreState {
    var showAddContentModal: bool
    var newContentData: NewContentData
    var addingContent: bool
    var addContentError: Option<string>
    var selectedContentType: ContentType
    var selectedFile: Option<File>
    var datastoreContents: seq<ContentItem>
    var loadingDatastore: bool
    var datastoreError: Option<string>
    var contentToDelete: Option<ContentItem>
    var showEditContentModal: bool
    var editingContent: Option<ContentItem>
    var deleteConfirmModal: bool
    var requests: seq<ContentRequest>

    /** Between events each dialog flag is set exactly when its target is. */
    ghost predicate Valid()
      reads this`showEditContentModal, this`editingContent, this`deleteConfirmModal, this`contentToDelete
    {
      && (showEditContentModal <==> editingContent.Some?)
      && (deleteConfirmModal <==> contentToDelete.Some?)
    }

    /** The confirm dialog renders only when both the flag and the target
        are set; between events the flag alone decides. */
    predicate DeleteDialogVisible()
      reads this`showEditContentModal, this`editingContent, this`deleteConfirmModal, this`contentToDelete
      ensures DeleteDialogVisible() ==> contentToDelete.Some?
      ensures Valid() ==> (DeleteDialogVisible() <==> deleteConfirmModal)
    {
      deleteConfirmModal && contentToDelete.Some?
    }

    /** The edit dialog renders only when both the flag and the item are
        set; between events the flag alone decides. */
    predicate EditDialogVisible()
      reads this`showEditContentModal, this`editingContent, this`deleteConfirmModal, this`contentToDelete
      ensures EditDialogVisible() ==> editingContent.Some?
      ensures Valid() ==> (EditDialogVisible() <==> showEditContentModal)
    {
      showEditContentModal && editingContent.Some?
    }

    /** What the add form's validation says about the current form. */
    function AddCheck(): Option<string>
      reads this`newContentData, this`selectedContentType, this`selectedFile
    {
      AddValidationError(newContentData.title, selectedContentType, newContentData.content, selectedFile)
    }

    /** The form `handleAddContent` would post from the current hooks. */
    function PendingAddPayload(): ContentPayload
      reads this`newContentData, this`selectedContentType, this`selectedFile
    {
      AddPayload(selectedContentType, newContentData.title, newContentData.content, selectedFile)
    }

    /** The hooks of the add form that a successful add resets. */
    function AddForm(): (NewContentData, ContentType, Option<File>)
      reads this`newContentData, this`selectedContentType, this`selectedFile
    {
      (newContentData, selectedContentType, selectedFile)
    }

    /** The initial hooks, after the mount effect has started the first fetch. */
    constructor ()
      ensures Valid() && !addingContent
      ensures !showAddContentModal && newContentData == NewContentData("", "")
      ensures addContentError == None && selectedContentType == Text && selectedFile == None
      ensures datastoreContents == [] && loadingDatastore && datastoreError == None
      ensures contentToDelete == None && !showEditContentModal && editingContent == None
      ensures !deleteConfirmModal
      ensures requests == [ListContents]
    {
      showAddContentModal := false;
      newContentData := NewContentData("", "");
      addingContent := false;
      addContentError := None;
      selectedContentType := Text;
      selectedFile := None;
      datastoreContents := [];
      loadingDatastore := true;
      datastoreError := None;
      contentToDelete := None;
      showEditContentModal := false;
      editingContent := None;
      deleteConfirmModal := false;
      requests := [ListContents];
    }

    /** The synchronous start of `fetchDatastoreContents`, before its await. */
    method BeginFetch()
      modifies this`loadingDatastore, this`datastoreError, this`requests
      ensures loadingDatastore && datastoreError == None
      ensures requests == old(requests) + [ListContents]
    {
      loadingDatastore := true;
      datastoreError := None;
      requests := requests + [ListContents];
    }

    /** The rest of `fetchDatastoreContents`, once the server has answered:
        a success replaces the list wholesale, a failure keeps it. */
    method CompleteFetch(o: AxiosOutcome<seq<ContentItem>>)
      modifies this`datastoreContents, this`datastoreError, this`loadingDatastore
      ensures !loadingDatastore
      ensures o.Ok() ==> datastoreContents == o.data
      ensures !o.Ok() ==> datastoreContents == old(datastoreContents)
      ensures o.Threw? ==> datastoreError == Some(OrElse(o.serverMessage, "Error fetching datastore contents"))
      ensures o.Replied? ==> datastoreError == old(datastoreError)
    {
      if o.Replied? {
        if o.success {
          datastoreContents := o.data;
        }
      } else {
        datastoreError := Some(OrElse(o.serverMessage, "Error fetching datastore contents"));
      }
      loadingDatastore := false;
    }

    method OpenAddModal()
      modifies this`showAddContentModal
      ensures showAddContentModal
    {
      showAddContentModal := true;
    }

    /** The close button and Cancel: the form keeps what was typed. */
    method CloseAddModal()
      modifies this`showAddContentModal
      ensures !showAddContentModal
    {
      showAddContentModal := false;
    }

    /** The type selector; a file picked earlier stays selected. */
    method SelectContentType(t: ContentType)
      modifies this`selectedContentType
      ensures selectedContentType == t
    {
      selectedContentType := t;
    }

    /** The title input of the add form. */
    method SetNewTitle(s: string)
      modifies this`newContentData
      ensures newContentData == old(newContentData).(title := s)
    {
      newContentData := newContentData.(title := s);
    }

    /** The text or URL input of the add form. */
    method SetNewContent(s: string)
      modifies this`newContentData
      ensures newContentData == old(newContentData).(content := s)
    {
      newContentData := newContentData.(content := s);
    }

    /** `handleFileChange`: picking a file selects it, overwrites the content
        with its name and clears the error; an empty pick changes nothing. */
    method FileChange(file: Option<File>)
      requires showAddContentModal && InputKindOf(selectedContentType) == FileUpload  // the only file input
      modifies this`selectedFile, this`newContentData, this`addContentError
      ensures file.Some? ==> selectedFile == file && addContentError == None
      ensures file.Some? ==> newContentData == old(newContentData).(content := file.value.name)
      ensures file.None? ==> selectedFile == old(selectedFile) && newContentData == old(newContentData)
      ensures file.None? ==> addContentError == old(addContentError)
    {
      if file.Some? {
        selectedFile := file;
        newContentData := newContentData.(content := file.value.name);
        addContentError := None;
      }
    }

    /** `handleAddContent`. A form that fails validation only sets the error;
        otherwise the payload is posted, and on success the list is
        re-fetched, the form reset and the dialog closed, while on failure the
        dialog stays open with the server's message or the fallback. */
    method AddContent(o: AxiosOutcome<()>)
      requires !addingContent  // Save is disabled while a save is in progress
      modifies this`addContentError, this`addingContent, this`requests, this`loadingDatastore
      modifies this`datastoreError, this`newContentData, this`selectedContentType
      modifies this`selectedFile, this`showAddContentModal
      ensures !addingContent
      ensures old(AddCheck()).Some? ==>
                && addContentError == old(AddCheck())
                && requests == old(requests)
                && AddForm() == old(AddForm()) && showAddContentModal == old(showAddContentModal)
                && loadingDatastore == old(loadingDatastore) && datastoreError == old(datastoreError)
      ensures old(AddCheck()).None? && o.Ok() ==>
                && requests == old(requests) + [CreateContent(old(PendingAddPayload())), ListContents]
                && loadingDatastore && datastoreError == None
                && AddForm() == (NewContentData("", ""), Text, None)
                && !showAddContentModal && addContentError == None
      ensures old(AddCheck()).None? && !o.Ok() ==>
                && requests == old(requests) + [CreateContent(old(PendingAddPayload()))]
                && addContentError == Some(OrElse(o.Message(), "Error adding content"))
                && AddForm() == old(AddForm()) && showAddContentModal == old(showAddContentModal)
                && loadingDatastore == old(loadingDatastore) && datastoreError == old(datastoreError)
    {
      var check := AddCheck();
      if check.Some? {
        addContentError := check;
        return;
      }
      addingContent := true;
      addContentError := None;
      requests := requests + [CreateContent(PendingAddPayload())];
      if o.Ok() {
        BeginFetch();
        newContentData := NewContentData("", "");
        selectedContentType := Text;
        selectedFile := None;
        showAddContentModal := false;
      } else {
        addContentError := Some(OrElse(o.Message(), "Error adding content"));
      }
      addingContent := false;
    }

    /** The edit button of a row. */
    method StartEdit(item: ContentItem)
      requires Valid()
      modifies this`editingContent, this`showEditContentModal
      ensures Valid()
      ensures editingContent == Some(item) && showEditContentModal && EditDialogVisible()
    {
      editingContent := Some(item);
      showEditContentModal := true;
    }

    /** The title input of the edit dialog, which exists only while an item is being edited. */
    method SetEditingTitle(s: string)
      requires Valid() && editingContent.Some?
      modifies this`editingContent
      ensures Valid()
      ensures editingContent == Some(old(editingContent).value.(title := s))
    {
      editingContent := Some(editingContent.value.(title := s));
    }

    /** The text or URL input of the edit dialog. */
    method SetEditingContent(s: string)
      requires Valid() && editingContent.Some?
      requires editingContent.value.typ in EditableContentTypes
      modifies this`editingContent
      ensures Valid()
      ensures editingContent == Some(old(editingContent).value.(content := s))
    {
      editingContent := Some(editingContent.value.(content := s));
    }

    /** The close button and Cancel of the edit dialog. */
    method CancelEdit()
      requires Valid()
      modifies this`showEditContentModal, this`editingContent, this`selectedFile
      ensures Valid()
      ensures !showEditContentModal && editingContent == None && selectedFile == None
    {
      showEditContentModal := false;
      editingContent := None;
      selectedFile := None;
    }

    /** `handleEditContent`, reached from the Save button of the edit dialog.
        Only the title is checked. The payload keeps the item's own type and,
        without a new file, its existing content. A non-success answer that
        does not throw leaves no message. */
    method EditContent(o: AxiosOutcome<()>)
      requires Valid() && editingContent.Some?
      requires !addingContent  // Save is disabled while a save is in progress
      modifies this`addContentError, this`addingContent, this`requests, this`loadingDatastore
      modifies this`datastoreError, this`showEditContentModal, this`editingContent, this`selectedFile
      ensures Valid() && !addingContent
      ensures old(editingContent.value.title) == "" ==>
                && addContentError == Some("Title is required")
                && requests == old(requests)
                && editingContent == old(editingContent) && showEditContentModal
                && selectedFile == old(selectedFile)
                && loadingDatastore == old(loadingDatastore) && datastoreError == old(datastoreError)
      ensures old(editingContent.value.title) != "" && o.Ok() ==>
                && requests == old(requests) + [UpdateContent(old(editingContent.value.id), EditPayload(old(editingContent.value), old(selectedFile))), ListContents]
                && loadingDatastore && datastoreError == None
                && !showEditContentModal && editingContent == None && selectedFile == None
                && addContentError == None
      ensures old(editingContent.value.title) != "" && !o.Ok() ==>
                && requests == old(requests) + [UpdateContent(old(editingContent.value.id), EditPayload(old(editingContent.value), old(selectedFile)))]
                && editingContent == old(editingContent) && showEditContentModal
                && selectedFile == old(selectedFile)
                && loadingDatastore == old(loadingDatastore) && datastoreError == old(datastoreError)
                && addContentError == (if o.Threw? then Some(OrElse(o.serverMessage, "Error updating content")) else None)
    {
      var item := editingContent.value;
      if item.title == "" {
        addContentError := Some("Title is required");
        return;
      }
      addingContent := true;
      addContentError := None;
      requests := requests + [UpdateContent(item.id, EditPayload(item, selectedFile))];
      if o.Replied? {
        if o.success {
          BeginFetch();
          showEditContentModal := false;
          editingContent := None;
          selectedFile := None;
        }
      } else {
        addContentError := Some(OrElse(o.serverMessage, "Error updating content"));
      }
      addingContent := false;
    }

    /** The delete button of a row stages its item for confirmation. */
    method RequestDelete(item: ContentItem)
      requires Valid()
      modifies this`contentToDelete, this`deleteConfirmModal
      ensures Valid()
      ensures contentToDelete == Some(item) && deleteConfirmModal && DeleteDialogVisible()
    {
      contentToDelete := Some(item);
      deleteConfirmModal := true;
    }

    /** Cancel and the close button of the confirm dialog discard the staged item. */
    method CancelDelete()
      requires Valid()
      modifies this`contentToDelete, this`deleteConfirmModal
      ensures Valid()
      ensures contentToDelete == None && !deleteConfirmModal && !DeleteDialogVisible()
    {
      deleteConfirmModal := false;
      contentToDelete := None;
    }

    /** `handleDeleteContent`: a success re-fetches and dismisses the dialog;
        a thrown error reports on the panel and leaves the dialog as it was;
        a non-success answer that does not throw changes nothing more. */
    method DeleteContentById(contentId: string, o: AxiosOutcome<()>)
      requires Valid()
      modifies this`requests, this`loadingDatastore, this`datastoreError
      modifies this`deleteConfirmModal, this`contentToDelete
      ensures Valid()
      ensures o.Ok() ==>
                && requests == old(requests) + [DeleteContent(contentId), ListContents]
                && loadingDatastore && datastoreError == None
                && !deleteConfirmModal && contentToDelete == None
      ensures !o.Ok() ==>
                && requests == old(requests) + [DeleteContent(contentId)]
                && loadingDatastore == old(loadingDatastore)
                && deleteConfirmModal == old(deleteConfirmModal) && contentToDelete == old(contentToDelete)
                && datastoreError == (if o.Threw? then Some(OrElse(o.serverMessage, "Error deleting content")) else old(datastoreError))
    {
      requests := requests + [DeleteContent(contentId)];
      if o.Replied? {
        if o.success {
          BeginFetch();
          deleteConfirmModal := false;
          contentToDelete := None;
        }
      } else {
        datastoreError := Some(OrElse(o.serverMessage, "Error deleting content"));
      }
    }

    /** The Delete button of the confirm dialog, which is drawn only while
        the dialog is visible: it deletes exactly the staged item. */
    method ConfirmDelete(o: AxiosOutcome<()>)
      requires Valid() && DeleteDialogVisible()
      modifies this`requests, this`loadingDatastore, this`datastoreError
      modifies this`deleteConfirmModal, this`contentToDelete
      ensures Valid()
      ensures o.Ok() ==>
                && requests == old(requests) + [DeleteContent(old(contentToDelete.value.id)), ListContents]
                && loadingDatastore && datastoreError == None
                && !DeleteDialogVisible() && contentToDelete == None
      ensures !o.Ok() ==>
                && requests == old(requests) + [DeleteContent(old(contentToDelete.value.id))]
                && loadingDatastore == old(loadingDatastore)
                && DeleteDialogVisible() && contentToDelete == old(contentToDelete)
                && datastoreError == (if o.Threw? then Some(OrElse(o.serverMessage, "Error deleting content")) else old(datastoreError))
    {
      DeleteContentById(contentToDelete.value.id, o);
    }
  }

  /** The edit dialog has no file input, so the file it sends can only be
      one picked in the add dialog, under a file type, and left there when
      that dialog was closed. For a URL item that file replaces the edited
      URL. */
  method LeftoverFileReplacesUrlOnEdit(d: DatastoreState, t: ContentType, f: File, item: ContentItem, o: AxiosOutcome<()>)
    requires d.Valid() && !d.addingContent
    requires InputKindOf(t) == FileUpload
    requires item.typ == "Link" && item.title != ""
    modifies d
    ensures d.requests == old(d.requests) + [UpdateContent(item.id, ContentPayload("Link", item.title, FileField(f)))]
                                          + (if o.Ok() then [ListContents] else [])
  {
    d.OpenAddModal();
    d.SelectContentType(t);
    d.FileChange(Some(f));
    d.CloseAddModal();
    d.StartEdit(item);
    d.EditContent(o);
  }

  /** An Image, Video or PDF item has no content input in the edit dialog:
      renaming it without a file selected sends its stored reference back
      unchanged. */
  method FileItemEditKeepsReference(d: DatastoreState, item: ContentItem, title: string, o: AxiosOutcome<()>)
    requires d.Valid() && !d.addingContent && d.selectedFile == None
    requires item.typ in {"Image", "Video", "PDF"} && item.content != "" && title != ""
    modifies d
    ensures d.requests == old(d.requests) + [UpdateContent(item.id, ContentPayload(item.typ, title, ContentField(item.content)))]
                                          + (if o.Ok() then [ListContents] else [])
  {
    d.StartEdit(item);
    d.SetEditingTitle(title);
    d.EditContent(o);
  }
}
