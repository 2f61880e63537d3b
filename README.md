# Client workspace: content store, projects, dashboard and web scraper

This project models the client-side core of a small business workspace
written as React components. The models are:

- **Content store panel** (`Datastore`). It holds items of seven types: Text,
  Image, Video, PDF, YouTube, Link and Website. The model covers:
  - the type policy: which input a type needs and the message when it is
    missing;
  - the multipart form sent on add and on edit;
  - the type badge;
  - the panel's state hooks: the add, edit and delete dialogs, the fetch of
    the list, and the error banners.
- **Project list panel** (`ProjectManagement`): the name check, the
  status badge, icon and label, the project dialogs, and the
  `onProjectSelect` callback.
- **Dashboard shell** (`ClientDashboard`): the active tab, the current view
  and the selected project are coupled. The model also covers the mobile
  sidebar rule, the greeting by hour, when the profile is re-fetched, and
  when the content store panel is rendered.
- **Web scraper tool** (`WebScraper`): the case-insensitive search filter,
  the pagination controls, the markdown preview, and the scrape, crawl,
  delete and load handlers.

How the model is built:

- Each component is a Dafny `class` whose fields are the component's
  `useState` hooks.
- Each event handler is a `method`. Its `modifies` clause names the hooks
  the handler sets, plus the request log and effect counters it may
  change, so everything else is unchanged by construction.
- The server's answer is a parameter of the handler. `AxiosOutcome`
  models axios: a reply with `success`, or a thrown request.
  `FetchOutcome` models `fetch` followed by `response.json()`.
- Every request a component sends is appended to its `requests` field.
  A re-fetch that a handler starts without awaiting shows up as an
  appended list request. Its completion is the separate `CompleteFetch` /
  `CompleteLoad` step.
- Every handler runs as one atomic step. React's batching of the updates
  inside one handler gives the same final values.
- The pure rules are functions, and lemmas relate them:
  - validation;
  - payloads;
  - badges;
  - the status label;
  - the greeting;
  - the view and tab rules;
  - the filter;
  - pagination;
  - the preview.
- `Common` holds the shared pieces:
  - `Option`;
  - JavaScript's `a || "fallback"` on strings (`OrElse`, with the empty
    string falsy);
  - ASCII case mapping;
  - `includes`;
  - the decimal rendering of a count.

Files: `common.dfy`, `datastore.dfy`, `project_management.dfy`,
`client_dashboard.dfy`, `web_scraper.dfy`.

Where the code and the system's design intent differ, the model follows
the code:

- The content store takes no properties and never sends a project
  identifier. It lists every item unscoped and creates items without a
  project. The dashboard passes it `selectedProjectId` and
  `onProjectCreated`, but both are ignored.
- Nothing bootstraps a "create your first project" flow. Deleting a
  project does not cascade to content.
- The dashboard never renders the project list panel.
- The content part of a form is not "exactly one representation fixed by
  the type". Text always sends its text. Any other type sends a selected
  file if there is one, even a URL type with a file left over from an
  earlier pick. Otherwise it sends the content string. If that is empty,
  it sends nothing.
- The edit dialog has no file input. The file an edit sends can only be
  one picked in the add dialog that was then closed without saving:
  closing keeps the selection. For a URL item that leftover file replaces
  the edited URL in the update (`LeftoverFileReplacesUrlOnEdit`).

## Model

| member | source | states |
|---|---|---|
| Common.OrElse | src/component/client/Datastore.jsx:585 | `s \|\| fallback`: a non-empty string is kept, while null or "" gives the fallback; the result is non-empty whenever the fallback is |
| Common.Lower | src/component/tools/WebScraper.jsx:190-191 | `toLowerCase` keeps the length and lowers each character, ASCII only |
| Common.LowerIdempotent | src/component/tools/WebScraper.jsx:190-191 | lowering twice is lowering once |
| Common.LowerOfUpper | src/component/tools/WebScraper.jsx:190-191 | lowering after upper-casing equals lowering alone |
| Common.NatToString | src/component/tools/WebScraper.jsx:117 | the interpolated page count is a non-empty string of decimal digits that spells the count, with no leading zero |
| Common.Contains | src/component/tools/WebScraper.jsx:190-191 | `includes` holds exactly when the substring occurs at some index |
| Common.UpperChar | src/component/client/ProjectManagement.jsx:552 | `toUpperCase` of one character: ASCII lower-case letters move up by 32 and nothing else changes; no result is an ASCII lower-case letter |
| Common.Upper | src/component/client/ProjectManagement.jsx:552 | `toUpperCase` keeps the length and upper-cases each character, ASCII only |
| Datastore.TypeName | src/component/client/Datastore.jsx:384-390 | every content type has a non-empty name, and only Text is named "Text" |
| Datastore.InputKindOf | src/component/client/Datastore.jsx:417-466 | the add form shows the inline text input exactly for Text |
| Datastore.MissingInputMessage | src/component/client/Datastore.jsx:522-547 | the missing-input message ends with "<type> type" |
| Datastore.AddValidationError | src/component/client/Datastore.jsx:517-548 | an empty title gives "Title is required"; otherwise the add is refused exactly when the input the type requires (text, file or URL) is missing, and then with that type's message |
| Datastore.MultipartBody | src/component/client/Datastore.jsx:558-565 | Text sends its text; another type sends the selected file if any, else non-empty content, else nothing; the part is empty exactly when the type is not Text, there is no file and the content is empty |
| Datastore.AddPayload | src/component/client/Datastore.jsx:554-565 | the add form carries the type's name and the title; a form that passed validation always has a content part, and for file types that part is the file; a URL type with a leftover file sends the file |
| Datastore.EditPayload | src/component/client/Datastore.jsx:111-121 | the edit form reuses the item's own type and title; Text sends its text; any other type sends the selected file if one is still selected, otherwise the item's existing content; it is empty exactly when a non-Text item has no file and no content |
| Datastore.TypeBadgeColor | src/component/client/Datastore.jsx:32-51 | every string gets one of five badge classes; gray exactly for types other than Text, Image, Video, YouTube and Link |
| Datastore.DatastoreState.DeleteDialogVisible | src/component/client/Datastore.jsx:151 | the confirm dialog renders only with an item staged; while the dialog flags are paired with their targets, the flag alone decides |
| Datastore.DatastoreState.EditDialogVisible | src/component/client/Datastore.jsx:203 | the edit dialog renders only with an item to edit; while the dialog flags are paired with their targets, the flag alone decides |
| Datastore.DatastoreState.constructor | src/component/client/Datastore.jsx:13-56 | the initial hooks (lines 13-29), with the first list request of the mount effect (lines 54-56) sent and loading on |
| Datastore.DatastoreState.BeginFetch | src/component/client/Datastore.jsx:59-64 | starting a fetch turns loading on, clears the error and sends one list request |
| Datastore.DatastoreState.CompleteFetch | src/component/client/Datastore.jsx:65-80 | a successful answer replaces the list; otherwise the list is kept; a thrown request sets the server's message or "Error fetching datastore contents"; loading ends |
| Datastore.DatastoreState.OpenAddModal | src/component/client/Datastore.jsx:664 | opens the add dialog and nothing else |
| Datastore.DatastoreState.CloseAddModal | src/component/client/Datastore.jsx:368 | closing the add dialog (the close button or Cancel) keeps the typed form |
| Datastore.DatastoreState.SelectContentType | src/component/client/Datastore.jsx:382 | the type selector changes only the type; a picked file stays selected |
| Datastore.DatastoreState.SetNewTitle | src/component/client/Datastore.jsx:407-412 | the title input changes only the title of the add form |
| Datastore.DatastoreState.SetNewContent | src/component/client/Datastore.jsx:425-430 | the text or URL input changes only the content of the add form |
| Datastore.DatastoreState.FileChange | src/component/client/Datastore.jsx:350-358 | the file input exists only in the open add dialog under Image, Video or PDF; a picked file is selected, its name overwrites the content and the error clears; an empty pick changes nothing |
| Datastore.DatastoreState.AddContent | src/component/client/Datastore.jsx:516-595 | a form failing validation only shows the error and sends nothing; otherwise the payload is posted; on success the list is re-fetched, the form resets to Text with no file and the dialog closes; on failure the dialog stays with the server's message or "Error adding content" |
| Datastore.DatastoreState.StartEdit | src/component/client/Datastore.jsx:749-752 | the row's edit button opens the edit dialog on that item, keeping every dialog flag paired with its target |
| Datastore.DatastoreState.SetEditingTitle | src/component/client/Datastore.jsx:238-243 | the edit title input changes only the edited item's title |
| Datastore.DatastoreState.SetEditingContent | src/component/client/Datastore.jsx:256-261 | the edit dialog draws a content input only for Text, YouTube, Link and Website items, and it changes only the edited item's content |
| Datastore.DatastoreState.CancelEdit | src/component/client/Datastore.jsx:306-310 | cancelling the edit closes the dialog, drops the item and the selected file |
| Datastore.DatastoreState.EditContent | src/component/client/Datastore.jsx:101-147 | an empty title only shows "Title is required"; otherwise the item's update is sent; on success the list is re-fetched and the dialog closes; a thrown request keeps the dialog with the message or "Error updating content"; a non-success answer leaves no message |
| Datastore.DatastoreState.RequestDelete | src/component/client/Datastore.jsx:757-760 | the row's delete button stages the item and shows the confirm dialog |
| Datastore.DatastoreState.CancelDelete | src/component/client/Datastore.jsx:161-164 | cancelling the confirm dialog hides it and drops the staged item |
| Datastore.DatastoreState.DeleteContentById | src/component/client/Datastore.jsx:83-98 | the delete request is sent; success re-fetches and dismisses the dialog; a thrown request shows the message or "Error deleting content" and keeps the dialog |
| Datastore.DatastoreState.ConfirmDelete | src/component/client/Datastore.jsx:151-191 | the dialog's Delete button, available only while the dialog is visible, deletes exactly the staged item; success dismisses the dialog, failure leaves it showing |
| Datastore.LeftoverFileReplacesUrlOnEdit | src/component/client/Datastore.jsx:350-368 | a file picked in the add dialog under a file type, which is then closed, is sent when a Link item is next edited, in place of the item's URL |
| Datastore.FileItemEditKeepsReference | src/component/client/Datastore.jsx:267-279 | an Image, Video or PDF item renamed with no file selected is sent back with its stored content reference unchanged |
| ProjectManagement.EditPayload | src/component/client/ProjectManagement.jsx:114-118 | the update body carries exactly the edited project's name, description and status: writing it back over the project leaves the project unchanged |
| ProjectManagement.NameCheck | src/component/client/ProjectManagement.jsx:66-69 | a project is refused with "Project name is required" exactly when its name is empty |
| ProjectManagement.EditPayloadIgnoresIdentity | src/component/client/ProjectManagement.jsx:113-117 | the update body depends only on the name, description and status, never on the id or creation date |
| ProjectManagement.StatusBadgeColor | src/component/client/ProjectManagement.jsx:171-182 | green exactly for "active", blue exactly for "completed", gray for anything else |
| ProjectManagement.IconForStatus | src/component/client/ProjectManagement.jsx:185-196 | the closed gray folder appears exactly for unknown statuses |
| ProjectManagement.IconMatchesBadge | src/component/client/ProjectManagement.jsx:171-196 | a status's icon and badge always share one colour |
| ProjectManagement.StatusLabel | src/component/client/ProjectManagement.jsx:552 | the label upper-cases the first character and keeps the rest and the length |
| ProjectManagement.LabelLowersBack | src/component/client/ProjectManagement.jsx:552 | for a status without capitals, lower-casing the label gives the status back |
| ProjectManagement.ProjectManagementState.DeleteDialogVisible | src/component/client/ProjectManagement.jsx:424 | the confirm dialog renders only with a project staged; while the dialog flags are paired with their targets, the flag alone decides |
| ProjectManagement.ProjectManagementState.EditDialogVisible | src/component/client/ProjectManagement.jsx:309 | the edit dialog renders only with a project to edit; while the dialog flags are paired with their targets, the flag alone decides |
| ProjectManagement.ProjectManagementState.constructor | src/component/client/ProjectManagement.jsx:17-36 | the initial hooks, the default form {"", "", "active"} and the mount effect's list request |
| ProjectManagement.ProjectManagementState.BeginFetch | src/component/client/ProjectManagement.jsx:39-43 | starting a fetch turns loading on, clears the error and sends one list request |
| ProjectManagement.ProjectManagementState.CompleteFetch | src/component/client/ProjectManagement.jsx:44-61 | success replaces the list, failure keeps it; a thrown request sets the message or "Error fetching projects"; loading ends |
| ProjectManagement.ProjectManagementState.OpenAddModal | src/component/client/ProjectManagement.jsx:482 | opens the add dialog and nothing else |
| ProjectManagement.ProjectManagementState.CloseAddModal | src/component/client/ProjectManagement.jsx:281 | closing the add dialog keeps the typed form |
| ProjectManagement.ProjectManagementState.SetNewProjectData | src/component/client/ProjectManagement.jsx:231-273 | the add form's inputs change only the form, and its status select offers only active, archived and completed, so the form's status stays one of the three |
| ProjectManagement.ProjectManagementState.AddProject | src/component/client/ProjectManagement.jsx:65-99 | an empty name only shows the error; otherwise the form is posted, and every project the panel has created has one of the three statuses; success re-fetches, resets the form and closes the dialog; a thrown request shows the message or "Error adding project"; a non-success answer leaves no message |
| ProjectManagement.ProjectManagementState.StartEdit | src/component/client/ProjectManagement.jsx:521-525 | the card's edit button opens the edit dialog on that project |
| ProjectManagement.ProjectManagementState.SetEditingFields | src/component/client/ProjectManagement.jsx:343-385 | the edit inputs change only the edited project's three fields; the new status is one of the three the select offers, or the server's status left untouched |
| ProjectManagement.ProjectManagementState.CancelEdit | src/component/client/ProjectManagement.jsx:393-396 | cancelling the edit closes the dialog and drops the project |
| ProjectManagement.ProjectManagementState.EditProject | src/component/client/ProjectManagement.jsx:102-140 | an empty name only shows the error; otherwise the update of name, description and status is sent; success re-fetches and closes the dialog; a thrown request shows the message or "Error updating project" |
| ProjectManagement.ProjectManagementState.RequestDelete | src/component/client/ProjectManagement.jsx:531-535 | the card's delete button stages the project and shows the confirm dialog |
| ProjectManagement.ProjectManagementState.CancelDelete | src/component/client/ProjectManagement.jsx:454-457 | cancelling the confirm dialog hides it and drops the staged project |
| ProjectManagement.ProjectManagementState.DeleteProjectById | src/component/client/ProjectManagement.jsx:143-168 | the delete is sent; on success the list is re-fetched, the dialog dismissed and `onProjectSelect(null)` called exactly when the deleted project was the selected one; a thrown request shows the message or "Error deleting project" and keeps the dialog |
| ProjectManagement.ProjectManagementState.ConfirmDelete | src/component/client/ProjectManagement.jsx:424-464 | the dialog's Delete button, available only while the dialog is visible, deletes exactly the staged project; on success `onProjectSelect(null)` is called exactly when that project was the selected one |
| ProjectManagement.ProjectManagementState.SelectProject | src/component/client/ProjectManagement.jsx:509 | a card click reports its id through `onProjectSelect` |
| ClientDashboard.Greeting | src/component/dashboards/ClientDashboard.jsx:343-347 | morning exactly before 12, afternoon exactly from 12 to before 18, evening exactly from 18 |
| ClientDashboard.ViewForTab | src/component/dashboards/ClientDashboard.jsx:143-148 | the view is "datastore" exactly for the Datastore tab, "overview" otherwise |
| ClientDashboard.TriggersProfileFetch | src/component/dashboards/ClientDashboard.jsx:109-115 | among the navigation items only "Business Profile" triggers a profile fetch; the other literal, with its two trailing spaces, matches none |
| ClientDashboard.DatastoreRendered | src/component/dashboards/ClientDashboard.jsx:557 | the content store panel is rendered exactly when the tab's view is "datastore" |
| ClientDashboard.DashboardState.constructor | src/component/dashboards/ClientDashboard.jsx:44-131 | the initial tab and view; one profile fetch on mount; below 768 pixels mobile with the sidebar closed, otherwise open |
| ClientDashboard.DashboardState.SetActiveTab | src/component/dashboards/ClientDashboard.jsx:109-115 | the profile is re-fetched and the content store mounted only when the tab actually changes to a tab that calls for them |
| ClientDashboard.DashboardState.HandleTabClick | src/component/dashboards/ClientDashboard.jsx:137-149 | the tab is set and the view follows it; the sidebar closes only on mobile; the selected project is kept |
| ClientDashboard.DashboardState.HandleProjectSelect | src/component/dashboards/ClientDashboard.jsx:151-157 | the selection is always set; a truthy id also opens the content store tab and view, while null or "" leaves tab and view alone |
| ClientDashboard.DashboardState.HandleProjectCreated | src/component/dashboards/ClientDashboard.jsx:159-163 | the selection is set and the content store tab and view always open |
| ClientDashboard.DashboardState.ToggleSidebar | src/component/dashboards/ClientDashboard.jsx:133-135 | the sidebar flag is negated |
| ClientDashboard.DashboardState.CheckIfMobile | src/component/dashboards/ClientDashboard.jsx:118-126 | below 768 pixels the layout is mobile and the sidebar closed; otherwise desktop and open |
| ClientDashboard.SelectionSurvivesTabSwitch | src/component/dashboards/ClientDashboard.jsx:137-157 | a selected project survives switching away and back, and the view stays tied to the tab |
| WebScraper.FilteredData | src/component/tools/WebScraper.jsx:189-192 | the filter keeps exactly the items whose title or url contains the term, ignoring case, each as often as it occurs and in its original order |
| WebScraper.EmptySearchKeepsTitledOrLinked | src/component/tools/WebScraper.jsx:189-192 | with an empty search an item is shown exactly when it has a title or a url |
| WebScraper.SearchIgnoresCase | src/component/tools/WebScraper.jsx:189-192 | two terms that lower-case alike show the same items |
| WebScraper.UpperCaseSearch | src/component/tools/WebScraper.jsx:189-192 | a term typed in capitals shows the same items |
| WebScraper.FilterIdempotent | src/component/tools/WebScraper.jsx:189-192 | filtering the shown items again changes nothing |
| WebScraper.PageTarget | src/component/tools/WebScraper.jsx:426-436 | Previous is disabled exactly on page 1, Next exactly on the last page; an enabled button loads the neighbouring page |
| WebScraper.PaginationShown | src/component/tools/WebScraper.jsx:420 | for at least one page, the bar is drawn exactly when Next is enabled on the first page |
| WebScraper.PageTargetInRange | src/component/tools/WebScraper.jsx:420-438 | from a page in range, an enabled button never leaves the range |
| WebScraper.MarkdownPreview | src/component/tools/WebScraper.jsx:375-381 | non-empty markdown shows at most its first 100 characters followed by "..."; otherwise "No markdown" |
| WebScraper.ScraperState.constructor | src/component/tools/WebScraper.jsx:6-51 | the initial hooks and the mount request for page 1 |
| WebScraper.ScraperState.BeginLoad | src/component/tools/WebScraper.jsx:29-32 | starting a load turns loading on and requests the page, leaving an earlier error in place |
| WebScraper.ScraperState.CompleteLoad | src/component/tools/WebScraper.jsx:33-46 | success takes the items, page count and current page from the answer; otherwise "Failed to load scraped data" or "Error loading scraped data: " with the reason; loading ends |
| WebScraper.ScraperState.SetScrapeUrl | src/component/tools/WebScraper.jsx:238 | the scrape URL input changes only the URL |
| WebScraper.ScraperState.SetCrawlUrl | src/component/tools/WebScraper.jsx:275 | the crawl URL input changes only the URL |
| WebScraper.ScraperState.SetCrawlLimit | src/component/tools/WebScraper.jsx:288-289 | the limit input changes only the limit |
| WebScraper.ScraperState.SetSearchTerm | src/component/tools/WebScraper.jsx:322 | the search input sets the term, and the shown rows become the filter of the loaded items by it |
| WebScraper.ScraperState.ScrapeSingle | src/component/tools/WebScraper.jsx:54-88 | an empty URL gives "Please enter a URL" and sends nothing; otherwise the URL is posted; success shows the banner, resets the form to {"", "single"} and requests page 1; failure shows the answer's error or "Scraping failed", or "Error scraping URL: " with the reason |
| WebScraper.ScraperState.Crawl | src/component/tools/WebScraper.jsx:91-128 | an empty URL gives "Please enter a URL" and sends nothing; otherwise URL and limit are posted; success reports the number of pages crawled, resets the form to {"", 10} and requests page 1; failure shows the answer's error or "Crawling failed", or "Error crawling website: " with the reason |
| WebScraper.ScraperState.Delete | src/component/tools/WebScraper.jsx:131-152 | a declined confirmation changes nothing; otherwise the delete is sent; success shows "Data deleted successfully!" and requests page 1; failure shows the answer's error or "Delete failed", or "Error deleting data: " with the reason |
| WebScraper.ScraperState.GoToPage | src/component/tools/WebScraper.jsx:426-436 | an enabled pagination button requests the neighbouring page |

## Left out

- The network, authentication tokens, `sessionStorage`, toasts and
  console logging are not modelled. Server answers are parameters, and
  a request is recorded as a value.
- Interleaving of asynchronous completions is not modelled: two fetches
  in flight whose answers arrive out of order. Each handler is one atomic
  step. The start and the end of a list fetch are separate steps.
- A click during a save is not modelled. The Save and Create buttons are
  disabled while `addingContent` or `addingProject` is set, so the add and
  edit handlers require that flag to be off.
- Rendering, styling and icons are left out, except where a function
  above names the classes or glyph.
- The clock and the window width are parameters. The greeting reads the
  hour twice; the model reads it once.
- Case mapping covers ASCII letters only. Other characters are left as
  they are, whereas JavaScript's `toLowerCase` / `toUpperCase` also map
  non-ASCII letters.
- Datastore search box and filter dropdown: they change no displayed
  data. The search input is uncontrolled and the dropdown only toggles
  its own visibility.
- The details and markdown viewers of the scraper (`handleView`,
  `handleViewMarkdown`) are not modelled: they only fill a modal.
- WebScraper.ScraperState.Crawl: the crawl limit is an integer. The
  source sends `parseInt` of the input text, so non-numeric text would
  become NaN.
- WebScraper.MarkdownPreview: the cut counts Unicode scalar values. The
  source's `substring(0, 100)` counts UTF-16 code units, so for text
  outside the Basic Multilingual Plane (emoji, for example) the source
  shows fewer characters, and it can split a surrogate pair.
- `fetchClientProfile` is left out: its profile data, loading and error
  hooks. The dashboard model only counts how often it is called.
- Dates (`createdAt`, `scrapedAt`) and metadata are only displayed, so
  they are not modelled.
- `src/pages/Home.jsx` and `src/main.jsx` are not part of this model.
