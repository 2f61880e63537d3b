/** The project list panel (src/component/client/ProjectManagement.jsx):
    the status badges and label, the name check and the edit payload, and the
    controller whose fields are the panel's state hooks. The panel reports a
    selection through its `onProjectSelect` callback and reads the selected
    project through its `selectedProjectId` property. */
module ProjectManagement {
  import opened Common

  /** A project as the server returns it. */
  datatype Project = Project(id: string, name: string, description: string, status: string, createdAt: string)

  /** The fields a form edits and sends: `newProjectData`, and the body of the PUT. */
  datatype ProjectFields = ProjectFields(name: string, description: string, status: string)

  /** The add form's initial and reset value. */
  const DefaultProjectFields := ProjectFields("", "", "active")

  const KnownStatuses: set<string> := {"active", "archived", "completed"}

  /** The check both `handleAddProject` and `handleEditProject` make before sending. */
  function NameCheck(name: string): (e: Option<string>)
    ensures e.None? <==> name != ""
    ensures e.Some? ==> e.value == "Project name is required"
  {
    if name == "" then Some("Project name is required") else None
  }

  /** The body `handleEditProject` sends: name, description and status only. */
  function EditPayload(p: Project): (f: ProjectFields)
    // writing the body back over the project changes nothing: it carries exactly the editable fields
    ensures p.(name := f.name, description := f.description, status := f.status) == p
  {
    ProjectFields(p.name, p.description, p.status)
  }

  /** The body depends on nothing but the three editable fields. */
  lemma EditPayloadIgnoresIdentity(p: Project, q: Project)
    requires p.name == q.name && p.description == q.description && p.status == q.status
    ensures EditPayload(p) == EditPayload(q)
  {
  }

  // ---------------------------------------------------------------------
  // Status presentation
  // ---------------------------------------------------------------------

  const GreenBadge := "bg-green-100 text-green-800"
  const GrayBadge := "bg-gray-100 text-gray-800"
  const BlueBadge := "bg-blue-100 text-blue-800"

  /** `getStatusBadgeColor`: total, gray for anything unknown. */
  function StatusBadgeColor(status: string): (c: string)
    ensures c in {GreenBadge, GrayBadge, BlueBadge}
    ensures c == GreenBadge <==> status == "active"
    ensures c == BlueBadge <==> status == "completed"
    ensures status !in KnownStatuses ==> c == GrayBadge
  {
    match status
    case "active" => GreenBadge
    case "archived" => GrayBadge
    case "completed" => BlueBadge
    case _ => GrayBadge
  }

  datatype Glyph = FolderOpen | Archive | CheckCircle | Folder

  /** An icon and its colour class. */
  datatype StatusIcon = StatusIcon(glyph: Glyph, colorClass: string)

  /** `getStatusIcon`: total, a gray closed folder for anything unknown. */
  function IconForStatus(status: string): (i: StatusIcon)
    ensures i.glyph == Folder <==> status !in KnownStatuses
    ensures status !in KnownStatuses ==> i == StatusIcon(Folder, "text-gray-600")
    ensures i.colorClass in {"text-green-600", "text-gray-600", "text-blue-600"}
  {
    match status
    case "active" => StatusIcon(FolderOpen, "text-green-600")
    case "archived" => StatusIcon(Archive, "text-gray-600")
    case "completed" => StatusIcon(CheckCircle, "text-blue-600")
    case _ => StatusIcon(Folder, "text-gray-600")
  }

  /** The icon and the badge of a status are drawn in the same colour. */
  lemma IconMatchesBadge(status: string)
    ensures IconForStatus(status).colorClass == "text-green-600" <==> StatusBadgeColor(status) == GreenBadge
    ensures IconForStatus(status).colorClass == "text-blue-600" <==> StatusBadgeColor(status) == BlueBadge
    ensures IconForStatus(status).colorClass == "text-gray-600" <==> StatusBadgeColor(status) == GrayBadge
  {
  }

  /** `status.charAt(0).toUpperCase() + status.slice(1)`. */
  function StatusLabel(status: string): (l: string)
    ensures |l| == |status|
    ensures |status| > 0 ==> l[0] == UpperChar(status[0]) && l[1..] == status[1..]
  {
    if status == "" then "" else [UpperChar(status[0])] + status[1..]
  }

  /** Lower-casing a label gives back a status that had no capitals. */
  lemma LabelLowersBack(status: string)
    requires forall i :: 0 <= i < |status| ==> !IsUpperAscii(status[i])
    ensures Lower(StatusLabel(status)) == status
  {
    var l := StatusLabel(status);
    forall i | 0 <= i < |status|
      ensures Lower(l)[i] == status[i]
    {
      if i == 0 {
        assert l[0] == UpperChar(status[0]);
      } else {
        assert l[i] == l[1..][i - 1] == status[1..][i - 1];
      }
    }
  }

  // ---------------------------------------------------------------------
  // The panel's state
  // ---------------------------------------------------------------------

  /** A request the panel sends to the project endpoints. */
  datatype ProjectRequest =
    | ListProjects
    | CreateProject(fields: ProjectFields)
    | UpdateProject(id: string, fields: ProjectFields)
    | DeleteProject(id: string)

  /** Every project a request log creates has one of the three statuses the
      status select offers. */
  predicate CreatesOnlyKnownStatuses(rs: seq<ProjectRequest>)
  {
    forall i :: 0 <= i < |rs| && rs[i].CreateProject? ==> rs[i].fields.status in KnownStatuses
  }

  /** The state hooks of the panel. `requests` records every request sent,
      in order; `selectCalls` records every call of the `onProjectSelect`
      callback, None standing for `onProjectSelect(null)`. */
  class ProjectManagementState {
    var projects: seq<Project>
    var loading: bool
    var error: Option<string>
    var showAddProjectModal: bool
    var showEditProjectModal: bool
    var showDeleteConfirmModal: bool
    var editingProject: Option<Project>
    var projectToDelete: Option<Project>
    var newProjectData: ProjectFields
    var addingProject: bool
    var addProjectError: Option<string>
    var requests: seq<ProjectRequest>
    var selectCalls: seq<Option<string>>

    /** Between events each dialog flag is set exactly when its target is,
        the add form holds one of the three statuses, and so does every
        project the panel has created. */
    ghost predicate Valid()
      reads this`showEditProjectModal, this`editingProject, this`showDeleteConfirmModal, this`projectToDelete
      reads this`newProjectData, this`requests
    {
      && (showEditProjectModal <==> editingProject.Some?)
      && (showDeleteConfirmModal <==> projectToDelete.Some?)
      && newProjectData.status in KnownStatuses
      && CreatesOnlyKnownStatuses(requests)
    }

    /** The confirm dialog renders only when both the flag and the target
        are set; between events the flag alone decides. */
    predicate DeleteDialogVisible()
      reads this`showEditProjectModal, this`editingProject, this`showDeleteConfirmModal, this`projectToDelete
      reads this`newProjectData, this`requests
      ensures DeleteDialogVisible() ==> projectToDelete.Some?
      ensures Valid() ==> (DeleteDialogVisible() <==> showDeleteConfirmModal)
    {
      showDeleteConfirmModal && projectToDelete.Some?
    }

    /** The edit dialog renders only when both the flag and the project are
        set; between events the flag alone decides. */
    predicate EditDialogVisible()
      reads this`showEditProjectModal, this`editingProject, this`showDeleteConfirmModal, this`projectToDelete
      reads this`newProjectData, this`requests
      ensures EditDialogVisible() ==> editingProject.Some?
      ensures Valid() ==> (EditDialogVisible() <==> showEditProjectModal)
    {
      showEditProjectModal && editingProject.Some?
    }

    /** The initial hooks, after the mount effect has started the first fetch. */
    constructor ()
      ensures Valid() && !addingProject
      ensures projects == [] && loading && error == None
      ensures !showAddProjectModal && !showEditProjectModal && !showDeleteConfirmModal
      ensures editingProject == None && projectToDelete == None
      ensures newProjectData == DefaultProjectFields && addProjectError == None
      ensures requests == [ListProjects] && selectCalls == []
    {
      projects := [];
      loading := true;
      error := None;
      showAddProjectModal, showEditProjectModal, showDeleteConfirmModal := false, false, false;
      editingProject, projectToDelete := None, None;
      newProjectData := DefaultProjectFields;
      addingProject := false;
      addProjectError := None;
      requests := [ListProjects];
      selectCalls := [];
    }

    /** The synchronous start of `fetchProjects`, before its await. */
    method BeginFetch()
      modifies this`loading, this`error, this`requests
      ensures loading && error == None
      ensures requests == old(requests) + [ListProjects]
    {
      loading := true;
      error := None;
      requests := requests + [ListProjects];
    }

    /** The rest of `fetchProjects`: a success replaces the list wholesale,
        a thrown error keeps it and reports. */
    method CompleteFetch(o: AxiosOutcome<seq<Project>>)
      modifies this`projects, this`error, this`loading
      ensures !loading
      ensures o.Ok() ==> projects == o.data
      ensures !o.Ok() ==> projects == old(projects)
      ensures o.Threw? ==> error == Some(OrElse(o.serverMessage, "Error fetching projects"))
      ensures o.Replied? ==> error == old(error)
    {
      if o.Replied? {
        if o.success {
          projects := o.data;
        }
      } else {
        error := Some(OrElse(o.serverMessage, "Error fetching projects"));
      }
      loading := false;
    }

    method OpenAddModal()
      modifies this`showAddProjectModal
      ensures showAddProjectModal
    {
      showAddProjectModal := true;
    }

    /** The close button and Cancel: the form keeps what was typed. */
    method CloseAddModal()
      modifies this`showAddProjectModal
      ensures !showAddProjectModal
    {
      showAddProjectModal := false;
    }

    /** The name, description and status inputs of the add form; the status
        select offers only the three known statuses. */
    method SetNewProjectData(f: ProjectFields)
      requires Valid() && f.status in KnownStatuses
      modifies this`newProjectData
      ensures Valid()
      ensures newProjectData == f
    {
      newProjectData := f;
    }

    /** `handleAddProject`. An empty name only sets the error. Otherwise the
        form is posted; a success re-fetches, resets the form and closes the
        dialog, a thrown error reports, and a non-success answer that does not
        throw leaves the dialog open with no message at all. */
    method AddProject(o: AxiosOutcome<()>)
      requires Valid()
      requires !addingProject  // Create is disabled while a save is in progress
      modifies this`addProjectError, this`addingProject, this`requests, this`loading, this`error
      modifies this`newProjectData, this`showAddProjectModal
      ensures Valid() && !addingProject
      ensures old(newProjectData.name) == "" ==>
                && addProjectError == Some("Project name is required")
                && requests == old(requests)
                && newProjectData == old(newProjectData) && showAddProjectModal == old(showAddProjectModal)
                && loading == old(loading) && error == old(error)
      ensures old(newProjectData.name) != "" && o.Ok() ==>
                && requests == old(requests) + [CreateProject(old(newProjectData)), ListProjects]
                && loading && error == None
                && newProjectData == DefaultProjectFields && !showAddProjectModal
                && addProjectError == None
      ensures old(newProjectData.name) != "" && !o.Ok() ==>
                && requests == old(requests) + [CreateProject(old(newProjectData))]
                && newProjectData == old(newProjectData) && showAddProjectModal == old(showAddProjectModal)
                && loading == old(loading) && error == old(error)
                && addProjectError == (if o.Threw? then Some(OrElse(o.serverMessage, "Error adding project")) else None)
    {
      var check := NameCheck(newProjectData.name);
      if check.Some? {
        addProjectError := check;
        return;
      }
      addingProject := true;
      addProjectError := None;
      requests := requests + [CreateProject(newProjectData)];
      if o.Replied? {
        if o.success {
          BeginFetch();
          newProjectData := DefaultProjectFields;
          showAddProjectModal := false;
        }
      } else {
        addProjectError := Some(OrElse(o.serverMessage, "Error adding project"));
      }
      addingProject := false;
    }

    /** The edit button of a card. */
    method StartEdit(p: Project)
      requires Valid()
      modifies this`editingProject, this`showEditProjectModal
      ensures Valid()
      ensures editingProject == Some(p) && showEditProjectModal && EditDialogVisible()
    {
      editingProject := Some(p);
      showEditProjectModal := true;
    }

    /** The inputs of the edit dialog, which exists only while a project is
        being edited. The status select offers the three known statuses; a
        status the server sent stays until the user picks another. */
    method SetEditingFields(f: ProjectFields)
      requires Valid() && editingProject.Some?
      requires f.status in KnownStatuses || f.status == editingProject.value.status
      modifies this`editingProject
      ensures Valid()
      ensures editingProject == Some(old(editingProject).value.(name := f.name, description := f.description, status := f.status))
    {
      editingProject := Some(editingProject.value.(name := f.name, description := f.description, status := f.status));
    }

    /** The close button and Cancel of the edit dialog. */
    method CancelEdit()
      requires Valid()
      modifies this`showEditProjectModal, this`editingProject
      ensures Valid()
      ensures !showEditProjectModal && editingProject == None
    {
      showEditProjectModal := false;
      editingProject := None;
    }

    /** `handleEditProject`, reached from the Save button of the edit dialog. */
    method EditProject(o: AxiosOutcome<()>)
      requires Valid() && editingProject.Some?
      requires !addingProject  // Save is disabled while a save is in progress
      modifies this`addProjectError, this`addingProject, this`requests, this`loading, this`error
      modifies this`showEditProjectModal, this`editingProject
      ensures Valid() && !addingProject
      ensures old(editingProject.value.name) == "" ==>
                && addProjectError == Some("Project name is required")
                && requests == old(requests)
                && editingProject == old(editingProject) && showEditProjectModal
                && loading == old(loading) && error == old(error)
      ensures old(editingProject.value.name) != "" && o.Ok() ==>
                && requests == old(requests) + [UpdateProject(old(editingProject.value.id), EditPayload(old(editingProject.value))), ListProjects]
                && loading && error == None
                && !showEditProjectModal && editingProject == None
                && addProjectError == None
      ensures old(editingProject.value.name) != "" && !o.Ok() ==>
                && requests == old(requests) + [UpdateProject(old(editingProject.value.id), EditPayload(old(editingProject.value)))]
                && editingProject == old(editingProject) && showEditProjectModal
                && loading == old(loading) && error == old(error)
                && addProjectError == (if o.Threw? then Some(OrElse(o.serverMessage, "Error updating project")) else None)
    {
      var p := editingProject.value;
      var check := NameCheck(p.name);
      if check.Some? {
        addProjectError := check;
        return;
      }
      addingProject := true;
      addProjectError := None;
      requests := requests + [UpdateProject(p.id, EditPayload(p))];
      if o.Replied? {
        if o.success {
          BeginFetch();
          showEditProjectModal := false;
          editingProject := None;
        }
      } else {
        addProjectError := Some(OrElse(o.serverMessage, "Error updating project"));
      }
      addingProject := false;
    }

    /** The delete button of a card stages its project for confirmation. */
    method RequestDelete(p: Project)
      requires Valid()
      modifies this`projectToDelete, this`showDeleteConfirmModal
      ensures Valid()
      ensures projectToDelete == Some(p) && showDeleteConfirmModal && DeleteDialogVisible()
    {
      projectToDelete := Some(p);
      showDeleteConfirmModal := true;
    }

    /** Cancel and the close button of the confirm dialog discard the staged project. */
    method CancelDelete()
      requires Valid()
      modifies this`projectToDelete, this`showDeleteConfirmModal
      ensures Valid()
      ensures projectToDelete == None && !showDeleteConfirmModal && !DeleteDialogVisible()
    {
      showDeleteConfirmModal := false;
      projectToDelete := None;
    }

    /** `handleDeleteProject`, with the `selectedProjectId` property as it
        was when the handler ran. A success re-fetches, dismisses the dialog
        and calls `onProjectSelect(null)` exactly when the deleted project is
        the selected one; a thrown error reports and keeps the dialog. */
    method DeleteProjectById(projectId: string, selectedProjectId: Option<string>, o: AxiosOutcome<()>)
      requires Valid()
      modifies this`requests, this`loading, this`error, this`showDeleteConfirmModal
      modifies this`projectToDelete, this`selectCalls
      ensures Valid()
      ensures o.Ok() ==>
                && requests == old(requests) + [DeleteProject(projectId), ListProjects]
                && loading && error == None
                && !showDeleteConfirmModal && projectToDelete == None
                && selectCalls == old(selectCalls) + (if selectedProjectId == Some(projectId) then [None] else [])
      ensures !o.Ok() ==>
                && requests == old(requests) + [DeleteProject(projectId)]
                && loading == old(loading)
                && showDeleteConfirmModal == old(showDeleteConfirmModal) && projectToDelete == old(projectToDelete)
                && selectCalls == old(selectCalls)
                && error == (if o.Threw? then Some(OrElse(o.serverMessage, "Error deleting project")) else old(error))
    {
      requests := requests + [DeleteProject(projectId)];
      if o.Replied? {
        if o.success {
          BeginFetch();
          showDeleteConfirmModal := false;
          projectToDelete := None;
          if selectedProjectId == Some(projectId) {
            selectCalls := selectCalls + [None];
          }
        }
      } else {
        error := Some(OrElse(o.serverMessage, "Error deleting project"));
      }
    }

    /** The Delete button of the confirm dialog, which is drawn only while
        the dialog is visible: it deletes exactly the staged project. */
    method ConfirmDelete(selectedProjectId: Option<string>, o: AxiosOutcome<()>)
      requires Valid() && DeleteDialogVisible()
      modifies this`requests, this`loading, this`error, this`showDeleteConfirmModal
      modifies this`projectToDelete, this`selectCalls
      ensures Valid()
      ensures o.Ok() ==>
                && requests == old(requests) + [DeleteProject(old(projectToDelete.value.id)), ListProjects]
                && loading && error == None
                && !DeleteDialogVisible() && projectToDelete == None
                && selectCalls == old(selectCalls) + (if selectedProjectId == Some(old(projectToDelete.value.id)) then [None] else [])
      ensures !o.Ok() ==>
                && requests == old(requests) + [DeleteProject(old(projectToDelete.value.id))]
                && loading == old(loading)
                && DeleteDialogVisible() && projectToDelete == old(projectToDelete)
                && selectCalls == old(selectCalls)
                && error == (if o.Threw? then Some(OrElse(o.serverMessage, "Error deleting project")) else old(error))
    {
      DeleteProjectById(projectToDelete.value.id, selectedProjectId, o);
    }

    /** A click on a project card selects it through the callback. */
    method SelectProject(projectId: string)
      modifies this`selectCalls
      ensures selectCalls == old(selectCalls) + [Some(projectId)]
    {
      selectCalls := selectCalls + [Some(projectId)];
    }
  }
}
