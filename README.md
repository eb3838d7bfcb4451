# coscon rules in Dafny

coscon is a storyboard web app for cosplay photo shoots. A project has
scenes, a scene has ordered shots, and a shot has a status (構想 idea,
未撮影 to-do, 撮影済 shot, 現像済 edited, 共有済 shared). A shot also has
reference files stored in Google Drive and a lighting diagram. Projects can
be exported as a PDF storyboard, and members are invited by e-mail. Sign-in
uses Supabase with Google OAuth.

This project models the deterministic rules of the app in Dafny and proves
what they promise:

- **Drive naming** (`drive.dfy`):
  - query escaping and its inverse;
  - folder-name sanitising;
  - the date prefix;
  - the `date_title_id` project folder name;
  - subfolder resolution.
- **PDF storyboard** (`pdf.dfy`):
  - status codes and text clamping;
  - the page cursor (`ensureSpace`/`writeLine`) as a class with `page`, `y` and the lines drawn so far;
  - the export as a method whose loops over scenes, shots and comments draw exactly the lines of a specification function, each on its page and inside the margin.
- **Project workspace** (`workspace.dfy`):
  - tab labels;
  - shot flattening;
  - the delivery filter and its empty notice;
  - the `moveShot` swap over an array copy and its dense sort-key payload;
  - the empty-input guards of the forms.
- **Shot detail** (`shotdetail.dfy`):
  - the reference-file allow-list;
  - the Drive preview URL;
  - the reference filter;
  - `uploadAsset`: its guard chain and its upload loop that stops at the first failure.
- **Lighting editor** (`lighting.dfy`):
  - the default diagram;
  - the defensive `parseInitial`;
  - the JSON the editor saves and its round trip through `parseInitial`;
  - the editor state (`objects`, `notes`, `selectedId`) as a class with `updateObject`, `addObject`, selection and notes.
- **Server data** (`serverdata.dfy`):
  - how each loader handles its query outcomes (thrown errors, missing rows);
  - comments decorated with profiles;
  - user-id de-duplication;
  - shots grouped into scenes;
  - member profile normalisation;
  - the deliverables `42P01` fallback.
- **Input schemas** (`validators.dfy`): each zod schema as a parser from a JSON value to a typed result or `Invalid`.
- **Middleware** (`middleware.dfy`): public paths and the redirect chain of `updateSession`.
- **Auth callback** (`authcallback.dfy`):
  - the `next` rule;
  - `encodeURIComponent`, with its decoding round trip;
  - the three outcomes of the callback.
- **Auth** (`auth.dfy`):
  - display-name and Google-subject inference;
  - the profile row that is upserted;
  - `getAuthenticatedContext`.
- **Reorder endpoint** (`reorder.dfy`):
  - the `shots` table as a class holding a map from id to row;
  - `POST /api/shots/reorder` as a method with its update loop.
- **Shared code**:
  - `constants.dfy`: the shared enumerations;
  - `types.dfy`: the entity records;
  - `text.dfy`: JavaScript whitespace, `trim` and lower-casing;
  - `json.dfy`: JSON values;
  - `seqs.dfy`: order-preserving filters;
  - `wrappers.dfy`: Option/Result.

Database queries, Drive uploads, the OAuth code exchange, clocks and
randomness are modelled as inputs. A query is its outcome (`Rows<T>`, a
`Result`). The database's per-update errors are an oracle indexed by update
number. "Now" and `toLocaleString` are string parameters. The random id
suffix is a parameter.

## Model

| member | source | states |
|---|---|---|
| Constants.ShotStatusesShape | src/lib/constants.ts:3-9 | five distinct shot statuses; the first is 構想, the create default; 共有済 is one of them |
| Constants.ProjectStatusesShape | src/lib/constants.ts:11-16 | four distinct project statuses |
| Constants.MemberRolesMatchRole | src/lib/constants.ts:18 | the role list is exactly the role names, distinct, and parsing a listed name gives back its role |
| Constants.DeliverableKindsMatchKind | src/lib/constants.ts:27 | the deliverable-kind list is exactly the kind names, distinct, and parsing inverts naming |
| Constants.SubfolderNamesDistinct | src/lib/constants.ts:38-43 | the four subfolder folder names are distinct, the keys are distinct, and no key is a folder name |
| Drive.EscapeDriveQuery | src/lib/drive.ts:42-44 | modelled as the two global replaces, backslashes first; its meaning is stated by Drive.EscapeDriveQueryRoundTrip and Drive.EscapeDriveQueryLength |
| Drive.EscapeDriveQueryRoundTrip | src/lib/drive.ts:42-44 | dropping each backslash and keeping the next character undoes the escaping |
| Drive.EscapeDriveQueryLength | src/lib/drive.ts:43 | the escaped length is the input length plus the number of backslashes and single quotes |
| Drive.EscapeQuotesAppend | src/lib/drive.ts:43 | quote escaping distributes over concatenation |
| Drive.EscapeDriveQueryCons | src/lib/drive.ts:42-44 | the two global replaces act character by character |
| Drive.ReplaceForbidden | src/lib/drive.ts:48 | replacing the forbidden characters keeps the length |
| Drive.SanitizeFolderName | src/lib/drive.ts:46-52 | a sanitised name has at most 80 characters |
| Drive.SanitizeFolderNameShape | src/lib/drive.ts:46-52 | the sanitised name: has no forbidden character; every whitespace is a single plain space; has at most 80 characters and no leading space; has no trailing space when the trimmed text fits in 80 |
| Drive.SanitizeSteps | src/lib/drive.ts:48-51 | each step keeps "no forbidden character" and "single-spaced" |
| Drive.TakeKeeps | src/lib/drive.ts:51 | cutting to 80 keeps both properties |
| Drive.CollapseKeepsForbiddenFree | src/lib/drive.ts:49 | collapsing whitespace introduces no forbidden character |
| Drive.TrimKeeps | src/lib/drive.ts:50 | trimming keeps both properties |
| Drive.SanitizeCleanName | src/lib/drive.ts:46-52 | a name of at most 80 characters with no forbidden and no whitespace character is left unchanged |
| Drive.FormatDatePrefix | src/lib/drive.ts:54-60 | a non-empty date gives its first min(10, length) characters; a missing or empty one gives the same prefix of the current ISO time |
| Drive.ProjectFolderName | src/lib/drive.ts:156 | the folder name's length is bounded by 10 + 1 + 80 + 1 + 8 |
| Drive.ProjectFolderNameDecodes | src/lib/drive.ts:156 | when the date prefix and id prefix hold no "_", the parts come back: text before the first "_" is the date prefix, text after the last "_" is the first 8 characters of the id, and the middle is the sanitised title |
| Drive.Between | src/lib/drive.ts:156 | the middle part's length is what is left after the front and back parts |
| Drive.SplitParts | src/lib/drive.ts:156 | `p_mid_id` splits back into its three parts when p and id hold no "_" |
| Drive.AfterLastAppend | src/lib/drive.ts:156 | the text after the last separator of `front + sep + id` is id |
| Drive.AfterLast | src/lib/drive.ts:156 | the result is a suffix free of the separator |
| Drive.ResolveSubfolderName | src/lib/drive.ts:136-141 | a subfolder key resolves to its folder name; any other text, a folder name included, is taken unchanged; a key or a folder name always resolves to a folder name |
| Pdf.MapStatus | src/lib/pdf.ts:11-26 | modelled as the switch; Pdf.MapStatusCodes and Pdf.MapStatusInjective state its table |
| Pdf.MapStatusCodes | src/lib/pdf.ts:11-26 | the five statuses map to idea/todo/shot/edited/shared; any other string is passed through |
| Pdf.MapStatusInjective | src/lib/pdf.ts:13-22 | two statuses with the same code are the same status |
| Pdf.ClampText | src/lib/pdf.ts:28-33 | modelled as written; Pdf.ClampTextShort, Pdf.ClampTextLong and Pdf.ClampTextBound state its contract |
| Pdf.SliceTo | src/lib/pdf.ts:32 | `slice(0, end)` is a prefix of the clamped length, with negative ends counted from the back |
| Pdf.ClampTextShort | src/lib/pdf.ts:29-31 | text within the limit is unchanged |
| Pdf.ClampTextLong | src/lib/pdf.ts:32 | longer text becomes its first limit-3 characters plus "...", exactly limit long |
| Pdf.ClampTextBound | src/lib/pdf.ts:28-33 | the clamped text never exceeds the limit (limit ≥ 3) |
| Pdf.Contents | src/lib/pdf.ts:68-74 | one drawn text per line |
| Pdf.PlacedOrdered | src/lib/pdf.ts:52-75 | in a laid-out document every line fits inside the margin, and a later line is on a later page or lower on the same page |
| Pdf.PlacedFits | src/lib/pdf.ts:52-75 | every line fits: drawn at y ≤ 800 with y - (size+8) ≥ 42 when size ≤ 750 |
| Pdf.ContentsAppend | src/lib/pdf.ts:68-74 | drawing one more line appends its text |
| Pdf.LaidNewPage | src/lib/pdf.ts:58-59 | a fresh page keeps the layout valid |
| Pdf.LaidLower | src/lib/pdf.ts:90 | moving the cursor down keeps the layout valid |
| Pdf.LaidDraw | src/lib/pdf.ts:67-75 | drawing at the cursor and lowering it by size+8 keeps the layout valid |
| Pdf.Cursor.constructor | src/lib/pdf.ts:52-54 | the first page with y at 800 and nothing drawn |
| Pdf.Cursor.EnsureSpace | src/lib/pdf.ts:56-61 | starts a new page at y = 800 exactly when y - required < 42, otherwise changes nothing |
| Pdf.Cursor.WriteLine | src/lib/pdf.ts:63-76 | appends one line with the given text and size, on a new page only when it would not fit, and lowers y by exactly size+8 |
| Pdf.Cursor.Skip | src/lib/pdf.ts:90 | lowers y by the gap on the same page |
| Pdf.ShotsLinesCount | src/lib/pdf.ts:105-112 | a scene's shots give one line each plus one per non-empty memo |
| Pdf.EmptySceneLines | src/lib/pdf.ts:99-103 | a scene without shots gives its heading and exactly one "(no shots)" line |
| Pdf.NoShotsOnlyWhenEmpty | src/lib/pdf.ts:99-112 | "(no shots)" never comes from a shot's lines |
| Pdf.CommentSectionCount | src/lib/pdf.ts:117-130 | the comments section appears only for a present, non-empty comment list: a heading plus one line per comment |
| Pdf.CommentsLinesCount | src/lib/pdf.ts:125-129 | one line per comment |
| Pdf.SceneHeadingAt | src/lib/pdf.ts:93 | every scene's heading (numbered sort_order + 1) is among the scene lines |
| Pdf.BuildProjectSummary | src/lib/pdf.ts:48-130 | the cursor draws exactly the summary's lines in order (header, scenes, then comments) and the layout is valid |
| Pdf.WriteHeader | src/lib/pdf.ts:78-90 | appends the four header lines |
| Pdf.WriteScene | src/lib/pdf.ts:92-115 | appends the scene's heading and its shot lines, or "(no shots)" |
| Pdf.WriteShots | src/lib/pdf.ts:105-113 | appends every shot's lines in order |
| Pdf.WriteShot | src/lib/pdf.ts:106-112 | appends the shot line and, for a non-empty memo, the memo |
| Pdf.WriteComments | src/lib/pdf.ts:117-130 | appends the heading and one line per comment in order |
| Workspace.TabLabel | src/components/project-workspace.tsx:17-30 | modelled as the switch; Workspace.TabLabelsDistinct states that the labels are distinct |
| Workspace.TabLabelsDistinct | src/components/project-workspace.tsx:17-30 | the tab list holds every tab once, and distinct tabs have distinct labels |
| Workspace.AllShots | src/components/project-workspace.tsx:114-116 | `flatMap` over the scenes; Workspace.AllShotsMembers, Workspace.AllShotsLength and Workspace.AllShotsAppend state its contract |
| Workspace.AllShotsAppend | src/components/project-workspace.tsx:114-116 | flattening distributes over concatenating scene lists |
| Workspace.AllShotsMembers | src/components/project-workspace.tsx:114-116 | a shot is listed iff some scene holds it; scenes without shots contribute nothing |
| Workspace.AllShotsLength | src/components/project-workspace.tsx:114-116 | the flattened list has as many shots as the scenes together |
| Workspace.DeliveryCandidates | src/components/project-workspace.tsx:446-447 | the filter on status 共有済; Workspace.DeliveryCandidatesMembers and Workspace.DeliveryCandidatesInOrder state its contract |
| Workspace.DeliveryCandidatesMembers | src/components/project-workspace.tsx:446-447 | the candidates are exactly the shots with status 共有済 |
| Workspace.DeliveryCandidatesInOrder | src/components/project-workspace.tsx:446-447 | the candidates keep the shot order |
| Workspace.NoticeIffNoCandidates | src/components/project-workspace.tsx:446-459 | the empty notice shows iff there is no candidate |
| Workspace.Swap | src/components/project-workspace.tsx:183-185 | swapping keeps the length |
| Workspace.SwapShape | src/components/project-workspace.tsx:183-185 | the two positions are exchanged, others unchanged, and the multiset is kept |
| Workspace.SwapTwice | src/components/project-workspace.tsx:183-185 | swapping back restores the order |
| Workspace.Ids | src/components/project-workspace.tsx:188 | one id per shot |
| Workspace.ReorderPayload | src/components/project-workspace.tsx:186-191 | one payload item per shot |
| Workspace.PayloadIds | src/components/project-workspace.tsx:188 | one id per item |
| Workspace.ReorderPayloadShape | src/components/project-workspace.tsx:186-191 | the payload lists the shots' ids in order with sortOrder = position and no scene |
| Workspace.MovePayloadIsPermutation | src/components/project-workspace.tsx:180-191 | after a move, the payload ids are a permutation of the scene's ids and the keys strictly increase |
| Workspace.MoveShot | src/components/project-workspace.tsx:179-191 | no request when index + direction is out of range; otherwise the payload of the copy with the two positions swapped |
| Workspace.MoveDownThenUp | src/components/project-workspace.tsx:183-185 | moving down and then up restores the order |
| Workspace.AddSceneBody | src/components/project-workspace.tsx:128-135 | nothing is sent iff the trimmed title is empty; the body holds the trimmed title |
| Workspace.AddShotBody | src/components/project-workspace.tsx:146-153 | nothing is sent iff the trimmed title is empty; the body holds the trimmed title and status 構想 |
| Workspace.PostCommentBody | src/components/project-workspace.tsx:207-214 | nothing is sent iff the trimmed comment is empty; the body is trimmed |
| Workspace.InviteMemberBody | src/components/project-workspace.tsx:225-236 | nothing is sent iff the trimmed e-mail is empty; the body carries the chosen role and the e-mail trimmed, then lower-cased |
| Workspace.InviteEmailAgreesWithSchema | src/components/project-workspace.tsx:233 | the sent e-mail (trim, then lower-case) equals lower-case-then-trim, and the server's normalisation leaves it unchanged |
| ShotDetail.IsAllowedReferenceFile | src/components/shot-detail-workspace.tsx:25-44 | modelled as written; ShotDetail.AllowedReferenceFileIff, ShotDetail.AllowedReferenceFileIgnoresCase and ShotDetail.UpperCaseExtensionAccepted state its contract |
| ShotDetail.AllowedReferenceFileIff | src/components/shot-detail-workspace.tsx:25-44 | allowed iff the lower-cased MIME type is one of the three, or the lower-cased name ends with one of the four extensions |
| ShotDetail.AllowedReferenceFileIgnoresCase | src/components/shot-detail-workspace.tsx:32-37 | the file-type test gives the same answer on the lower-cased name and type |
| ShotDetail.UpperCaseExtensionAccepted | src/components/shot-detail-workspace.tsx:37-43 | a name ending in ".JPG", ".JPEG", ".PNG" or ".PDF" is accepted, whatever its stem and MIME type |
| ShotDetail.DrivePreviewUrlRecoversId | src/components/shot-detail-workspace.tsx:46-48 | the URL is the Drive file prefix, the id, then "/preview", and the id can be read back |
| ShotDetail.DrivePreviewUrlInjective | src/components/shot-detail-workspace.tsx:46-48 | different file ids give different URLs |
| ShotDetail.ReferenceAssets | src/components/shot-detail-workspace.tsx:69-72 | the filter on kind "reference"; ShotDetail.ReferenceAssetsMembers states its contract |
| ShotDetail.ReferenceAssetsMembers | src/components/shot-detail-workspace.tsx:69-72 | exactly the assets of kind "reference", in order |
| ShotDetail.SelectedFiles | src/components/shot-detail-workspace.tsx:135-137 | every selected file has a positive size |
| ShotDetail.SelectedFilesMembers | src/components/shot-detail-workspace.tsx:135-137 | the selection is exactly the form's file entries of positive size |
| ShotDetail.FindDisallowed | src/components/shot-detail-workspace.tsx:155-156 | finds a disallowed file of the batch iff there is one |
| ShotDetail.UploadAsset | src/components/shot-detail-workspace.tsx:132-193 | the guards run in the order empty, count, type, and the first failure rejects with no upload; an accepted batch has refs + files ≤ 3; the files are sent in order and the first failed upload stops the rest, with the server's message or the default; success reports the count; a batch that passes every guard is never rejected; the k-th upload of the batch gets the k-th answer |
| Lighting.ParseType | src/components/lighting-editor.tsx:7 | a parsed type names exactly the string |
| Lighting.ParseTypeName | src/components/lighting-editor.tsx:7 | parsing a type's name gives the type back |
| Lighting.Ids | src/components/lighting-editor.tsx:147 | one id per object |
| Lighting.DefaultDiagram | src/components/lighting-editor.tsx:38-77 | modelled as the literal; Lighting.DefaultDiagramShape states its contents |
| Lighting.DefaultDiagramShape | src/components/lighting-editor.tsx:38-77 | version 1, canvas 980×560 with grid 40 in px, empty notes, and three objects subject_1, camera_1, light_1 with distinct ids and their types |
| Lighting.AsObjects | src/components/lighting-editor.tsx:92-105 | one typed object per kept entry |
| Lighting.KeptObjects | src/components/lighting-editor.tsx:92-105 | every kept entry passes the shape check |
| Lighting.KeptObjectsMembers | src/components/lighting-editor.tsx:92-105 | kept entries are exactly the entries passing the shape check, as a subsequence of the input |
| Lighting.ParseInitial | src/components/lighting-editor.tsx:79-124 | modelled as written; Lighting.ParseInitialShape, Lighting.DiagramRoundTrip and Lighting.ParseInitialStable state its contract |
| Lighting.ParseInitialShape | src/components/lighting-editor.tsx:79-124 | null or malformed input gives the default; the result always has version 1, grid 40 and unit px; width, height and notes come from the input when they have the right type, else 980, 560 and ""; the objects are the kept ones |
| Lighting.ObjectsToJson | src/components/lighting-editor.tsx:191 | one JSON entry per object |
| Lighting.CanvasDimensions | src/components/lighting-editor.tsx:110-117 | a saved canvas's width and height read back |
| Lighting.DiagramFields | src/components/lighting-editor.tsx:183-193 | a saved diagram passes the guard and holds its canvas, objects and notes |
| Lighting.ObjectRoundTrip | src/components/lighting-editor.tsx:92-105 | a saved object passes the shape check and reads back as itself |
| Lighting.ObjectsRoundTrip | src/components/lighting-editor.tsx:92-105 | saved objects are all kept and read back in order |
| Lighting.DiagramRoundTrip | src/components/lighting-editor.tsx:79-124 | parsing a saved diagram (version 1, grid 40, px) gives it back |
| Lighting.ParseInitialStable | src/components/lighting-editor.tsx:79-124 | re-parsing a parsed diagram after saving changes nothing |
| Lighting.Updated | src/components/lighting-editor.tsx:155-160 | the list keeps its length |
| Lighting.UpdatedShape | src/components/lighting-editor.tsx:151-161 | only items whose id matches are replaced by the updater's result; ids are kept when the updater keeps them; an unknown id changes nothing |
| Lighting.UpdatersKeepId | src/components/lighting-editor.tsx:279-396 | the drag, label, rotation, modifier and power updaters keep the id |
| Lighting.NewObject | src/components/lighting-editor.tsx:163-174 | modelled as written; Lighting.NewObjectShape states the new object |
| Lighting.NewObjectShape | src/components/lighting-editor.tsx:163-174 | the new object is at (500, 280) with rotation 0, id `type_suffix`, the type's label, and modifier softbox and power 1/16 only for lights |
| Lighting.Find | src/components/lighting-editor.tsx:146-149 | the first object with the selected id, and none iff there is no such object |
| Lighting.Editor.constructor | src/components/lighting-editor.tsx:135-140 | starts with the parsed objects and notes, the first object selected (or none) |
| Lighting.Editor.Selected | src/components/lighting-editor.tsx:146-149 | a selected object is in the list and has the selected id |
| Lighting.Editor.UpdateObject | src/components/lighting-editor.tsx:151-161 | the objects become the updated list; notes and selection unchanged |
| Lighting.Editor.AddObject | src/components/lighting-editor.tsx:163-177 | exactly the new object is appended and becomes selected |
| Lighting.Editor.Select | src/components/lighting-editor.tsx:241-245 | sets or clears the selection only |
| Lighting.Editor.SetNotes | src/components/lighting-editor.tsx:407 | sets the notes only |
| Lighting.Editor.Saved | src/components/lighting-editor.tsx:179-193 | the saved diagram has version 1, the fixed canvas, the current objects and notes, and parses back to itself |
| ServerData.RowsOrThrow | src/lib/server-data.ts:111-115 | a query error throws its message; null data is an empty list |
| ServerData.ProfileMapLookup | src/lib/server-data.ts:24 | an id is in the profile map iff some profile has it, and it maps to the last profile with that id |
| ServerData.DecorateComments | src/lib/server-data.ts:20-29 | one comment out per comment in |
| ServerData.DecorateCommentsShape | src/lib/server-data.ts:20-29 | every field but `user` is kept; `user` is null iff no profile has the comment's user id, else the last profile with that id |
| ServerData.Dedup | src/lib/server-data.ts:116 | `Array.from(new Set(...))`; ServerData.DedupShape states its contract |
| ServerData.DedupShape | src/lib/server-data.ts:116 | the de-duplicated ids have the same members, no duplicates, and are empty iff the input is |
| ServerData.UserIds | src/lib/server-data.ts:116 | one user id per comment |
| ServerData.LoadComments | src/lib/server-data.ts:115-129 | modelled as written; ServerData.LoadCommentsShape states its outcomes |
| ServerData.LoadCommentsShape | src/lib/server-data.ts:115-129 | no comments gives them back without a profile lookup; otherwise the profile query is asked for the distinct user ids, and its error is thrown or its profiles decorate the comments |
| ServerData.GroupScenes | src/lib/server-data.ts:89-93 | one scene out per scene in |
| ServerData.GroupScenesShape | src/lib/server-data.ts:89-93 | each scene keeps its fields and gets exactly the shots with its id, in order |
| ServerData.OrphanShotsDropped | src/lib/server-data.ts:89-93 | a shot whose scene matches none appears in no scene |
| ServerData.LoadProjectDetail | src/lib/server-data.ts:47-99 | errors are thrown in the order project, scenes, shots; a missing project gives null; when all queries succeed the project comes back with its scenes grouped, and only then |
| ServerData.NormaliseProfile | src/lib/server-data.ts:172 | an array gives its first element or null; a single profile is kept; null stays null |
| ServerData.LoadMembers | src/lib/server-data.ts:164-173 | a query error throws; otherwise one member per row, with the profile normalised |
| ServerData.LoadDeliverables | src/lib/server-data.ts:185-192 | error code 42P01 gives an empty list, any other error throws, null data is empty |
| ServerData.LoadShotWorkspace | src/lib/server-data.ts:195-270 | a shot error throws; a missing shot gives null; later errors are thrown in the order project, scenes, assets, lighting; a missing lighting row is null; when every query succeeds the workspace holds exactly their results |
| Validators.TitleAccepted | src/lib/validators.ts:7 | a title is accepted iff its trimmed length is 1..120; the value is the trimmed string and re-parsing it is stable |
| Validators.TitleNeedsString | src/lib/validators.ts:7 | a non-string title is rejected |
| Validators.NonNegativeInt | src/lib/validators.ts:18 | accepted iff a number that is a whole number from 0 to 2^53 - 1 (zod 4 `.int()` takes safe integers only), with that value |
| Validators.ShotStatus | src/lib/validators.ts:4 | accepted iff a string among the shot statuses, with that value |
| Validators.CreateProject | src/lib/validators.ts:6-10 | modelled as the object schema; Validators.CreateProjectAccepted states what an accepted project holds |
| Validators.CreateProjectAccepted | src/lib/validators.ts:6-10 | an accepted project has a trimmed title of 1..120, a trimmed location of at most 200 when given, and a date of the date format when given |
| Validators.CreateScene | src/lib/validators.ts:12-14 | accepted iff an object whose title is a string trimming to 1..120 characters; the value is the trimmed title |
| Validators.UpdateScene | src/lib/validators.ts:16-19 | modelled as the object schema; Validators.UpdateSceneAccepted states its contract |
| Validators.UpdateSceneAccepted | src/lib/validators.ts:16-19 | an update object is accepted iff each field present passes its rule; a field is given iff its key is sent, with the trimmed title or the safe sort order |
| Validators.CreateShot | src/lib/validators.ts:21-25 | modelled as the object schema; Validators.CreateShotStatus states its contract |
| Validators.CreateShotStatus | src/lib/validators.ts:21-25 | the status is a shot status, 構想 when absent, the given one otherwise; a memo has at most 2000 characters |
| Validators.UpdateShot | src/lib/validators.ts:27-33 | modelled as the object schema; Validators.UpdateShotTitle, Validators.UpdateShotStatusAndMemo, Validators.UpdateShotSortAndScene and Validators.UpdatesMayBeEmpty state its contract |
| Validators.UpdateShotTitle | src/lib/validators.ts:28 | a given title is trimmed and 1..120 characters long |
| Validators.UpdateShotStatusAndMemo | src/lib/validators.ts:29-30 | a given status is one of the five, a given memo at most 2000 characters |
| Validators.UpdateShotSortAndScene | src/lib/validators.ts:31-32 | a given sort order is at most 2^53 - 1, a given scene id passes the uuid format |
| Validators.OptionalGiven | src/lib/validators.ts:27-33 | an optional (or optional and nullable) field that is given is what its rule made of the key's value |
| Validators.UpdatesMayBeEmpty | src/lib/validators.ts:16-33 | an empty object is a valid scene update and a valid shot update, with every field missing |
| Validators.UpdateSortOrder | src/lib/validators.ts:16-33 | a given sortOrder must be a non-negative integer, and an accepted update carries it |
| Validators.ReorderEntries | src/lib/validators.ts:36-43 | the items are accepted iff each one is, and parse one for one in order |
| Validators.ReorderShots | src/lib/validators.ts:35-45 | modelled as the object schema; Validators.ReorderShotsAccepted, Validators.ReorderEntries and Validators.ReorderNeedsItems state its contract |
| Validators.ReorderShotsAccepted | src/lib/validators.ts:35-45 | an accepted reorder has at least one item; each item has a uuid id, a sortOrder from 0 to 2^53 - 1, and a uuid scene when one is given |
| Validators.ReorderNeedsItems | src/lib/validators.ts:44 | an empty item list is rejected |
| Validators.CommentBody | src/lib/validators.ts:47-49 | modelled as the object schema; Validators.CommentAccepted states its contract |
| Validators.CommentAccepted | src/lib/validators.ts:47-49 | a comment is accepted iff its trimmed length is 1..2000, with the trimmed value |
| Validators.LightingDiagram | src/lib/validators.ts:51-53 | modelled as the object schema; Validators.LightingDiagramNeedsObject states its contract |
| Validators.LightingDiagramNeedsObject | src/lib/validators.ts:51-53 | accepted iff `diagramJson` is an object; arrays and null are rejected |
| Validators.NormaliseEmailIdempotent | src/lib/validators.ts:56 | lower-case-then-trim is idempotent, and its result has no outer whitespace and is lower-case |
| Validators.InviteMember | src/lib/validators.ts:55-57 | modelled as the format check then the transform; Validators.InviteMemberAccepted states its contract |
| Validators.InviteMemberAccepted | src/lib/validators.ts:55-57 | accepted iff the e-mail as sent passes the format; the kept address is lower-cased then trimmed, and normalising it again changes nothing |
| Validators.ExportProjectPdf | src/lib/validators.ts:59-61 | accepted iff an object whose `includeComments`, if present, is a boolean; the value defaults to false |
| Middleware.IsPublicPath | src/lib/supabase/middleware.ts:5-11 | modelled as written; Middleware.PublicPathPrefixes states its boundaries |
| Middleware.PublicPathPrefixes | src/lib/supabase/middleware.ts:5-11 | every path under "/auth/" is public; no path under "/projects" or "/login/" is, nor "/auth" itself |
| Middleware.RemoveParam | src/lib/supabase/middleware.ts:52 | removes every pair with that name and keeps all others |
| Middleware.SetParamShape | src/lib/supabase/middleware.ts:52 | after `set`, the name occurs once with the value, and the pairs with other names are kept in order and with repeats |
| Middleware.RemoveParamCount | src/lib/supabase/middleware.ts:52 | after removal the name does not occur |
| Middleware.RemoveParamTwice | src/lib/supabase/middleware.ts:52 | removing a name a second time changes nothing |
| Middleware.UpdateSession | src/lib/supabase/middleware.ts:13-63 | modelled as the decision chain; Middleware.UpdateSessionCases and Middleware.NoRedirectLoop state its contract |
| Middleware.UpdateSessionCases | src/lib/supabase/middleware.ts:13-63 | no config or an /api path passes through; a redirect happens iff there is no user on a non-public path or a user on /login; the first goes to /login with next = pathname + search, the second to /projects with the search cleared |
| Middleware.NoRedirectLoop | src/lib/supabase/middleware.ts:49-60 | following a redirect, with any query text, passes through |
| AuthCallback.Utf8 | src/app/auth/callback/route.ts:18 | one to four bytes per character, ASCII as itself |
| AuthCallback.Escape | src/app/auth/callback/route.ts:18 | a byte escapes to three characters |
| AuthCallback.PercentBytes | src/app/auth/callback/route.ts:18 | three characters per byte |
| AuthCallback.PercentBytesSafe | src/app/auth/callback/route.ts:18 | escaped bytes are URI-safe |
| AuthCallback.SafeAppend | src/app/auth/callback/route.ts:18 | URI-safe text concatenates into URI-safe text |
| AuthCallback.EncodeUriComponent | src/app/auth/callback/route.ts:18 | UTF-8 bytes with every byte outside the unreserved set percent-escaped; AuthCallback.EncodeUriComponentSafe, AuthCallback.EncodeUriComponentOfUnreserved and AuthCallback.EncodeUriComponentRoundTrip state its contract |
| AuthCallback.EncodeUriComponentSafe | src/app/auth/callback/route.ts:18 | the encoded message holds only unreserved characters and %XX escapes |
| AuthCallback.EncodeUriComponentOfUnreserved | src/app/auth/callback/route.ts:18 | unreserved text encodes to itself |
| AuthCallback.HexDigitValue | src/app/auth/callback/route.ts:18 | a hex digit decodes to its value |
| AuthCallback.DecodeEscape | src/app/auth/callback/route.ts:18 | a byte's escape decodes to the byte |
| AuthCallback.PercentBytesDecode | src/app/auth/callback/route.ts:18 | escaped bytes decode back |
| AuthCallback.EncodeUriComponentRoundTrip | src/app/auth/callback/route.ts:18 | percent-decoding the encoded message gives its UTF-8 bytes |
| AuthCallback.RedirectPath | src/app/auth/callback/route.ts:8 | the target starts with "/"; it is `next` whenever that starts with "/", and "/projects" otherwise |
| AuthCallback.RedirectPathOpenRedirect | src/app/auth/callback/route.ts:8 | next = "//evil.example" is kept and leaves the site |
| AuthCallback.StripTabOrNewline | src/app/auth/callback/route.ts:22 | the reference without the tabs and newlines the URL parser removes: no longer, and free of them |
| AuthCallback.StripTabOrNewlineCons | src/app/auth/callback/route.ts:22 | the removal distributes over concatenation |
| AuthCallback.StaysOnSite | src/app/auth/callback/route.ts:11-18 | a path whose second character is not a slash, backslash, tab or newline stays on the site |
| AuthCallback.TabbedSlashLeavesSite | src/app/auth/callback/route.ts:8 | next = "/\t/evil.example" is kept by the written rule, leaves the site, and is replaced by "/projects" in the corrected rule |
| AuthCallback.SafeRedirectPath | src/app/auth/callback/route.ts:8 | the target starts with "/" and stays on the site; it is `next` whenever that starts with "/" and stays on the site, and "/projects" otherwise |
| AuthCallback.SafeRedirectPathAgrees | src/app/auth/callback/route.ts:8 | the corrected rule agrees with the written one on every next that stays on the site |
| AuthCallback.CallbackAsWritten | src/app/auth/callback/route.ts:4-23 | the callback with the written rule; AuthCallback.RedirectPathOpenRedirect and AuthCallback.CallbackFixOnlyChangesOffsiteNext state where it goes |
| AuthCallback.Callback | src/app/auth/callback/route.ts:4-23 | the callback with the corrected rule; AuthCallback.CallbackOutcomes states its three outcomes |
| AuthCallback.CallbackOutcomes | src/app/auth/callback/route.ts:6-22 | a missing or empty code goes to the missing_code page without depending on the exchange; a failed exchange goes to /login?error= with the encoded message, which decodes to it; success goes to the redirect path; every target is a same-site path |
| AuthCallback.CallbackFixOnlyChangesOffsiteNext | src/app/auth/callback/route.ts:8-22 | the corrected callback differs from the written one only on an off-site next |
| Auth.NonEmptyString | src/lib/auth.ts:14-15 | the metadata value when it is a non-empty string, else nothing |
| Auth.EmailLocalPart | src/lib/auth.ts:16 | the part of the e-mail before its first "@" (or all of it without one), and none iff there is no e-mail or that part is empty |
| Auth.EmailLocalPartOf | src/lib/auth.ts:16 | an e-mail `local@domain` with a non-empty local part free of "@" gives that local part, whatever the domain |
| Auth.InferDisplayName | src/lib/auth.ts:11-19 | modelled as the fallback chain; Auth.InferDisplayNameChain states its contract |
| Auth.InferDisplayNameChain | src/lib/auth.ts:11-19 | full_name, else name, else the e-mail's text before the first "@", else "User", each used only when non-empty; never empty |
| Auth.FirstGoogle | src/lib/auth.ts:27 | the first identity with provider google, and none iff there is no such identity |
| Auth.InferGoogleSub | src/lib/auth.ts:21-32 | modelled as the fallback chain; Auth.InferGoogleSubChain states its contract |
| Auth.InferGoogleSubChain | src/lib/auth.ts:21-32 | metadata sub when a non-empty string, else the first google identity's id when non-empty, else the user id |
| Auth.ProfileFor | src/lib/auth.ts:38-49 | the upserted row; Auth.ProfileForShape states its columns |
| Auth.ProfileForShape | src/lib/auth.ts:38-49 | the row keeps the id; a missing e-mail becomes `<id>@example.local`; the avatar is kept iff it is a string; the display name is non-empty |
| Auth.EnsureProfileForUser | src/lib/auth.ts:34-58 | the row is upserted, and an upsert error becomes "Failed to sync user profile: " + message |
| Auth.AuthenticatedContext | src/lib/auth.ts:60-85 | a lookup error or a missing user ("Unauthorized") is thrown; a context is returned only after the profile sync succeeds; its Google token is the session's provider token or null; with a user found, a sync error is thrown and a successful sync gives the user, the session and its token |
| Reorder.PayloadFor | src/app/api/shots/reorder/route.ts:16-21 | the payload sets sort_order, and scene_id only for a non-empty sceneId |
| Reorder.LastFor | src/app/api/shots/reorder/route.ts:15-27 | some item naming the id with no later item naming it, and none iff no item names the id |
| Reorder.LastSceneFor | src/app/api/shots/reorder/route.ts:19-20 | a non-empty scene given for the id with no later non-empty scene for it, and none iff every item naming the id gives no scene or an empty one |
| Reorder.ApplyItemsRows | src/app/api/shots/reorder/route.ts:15-27 | after the updates each row: is there iff it was; changes only sort_order and scene_id; has the sort order of the last item naming it; has the last scene given for it, else its old scene |
| Reorder.ApplyItemsFrame | src/app/api/shots/reorder/route.ts:23-26 | the table keeps its ids, and rows no item names are unchanged |
| Reorder.FirstError | src/app/api/shots/reorder/route.ts:27-29 | the index of the first failing update, or the item count |
| Reorder.ShotsTable.constructor | src/app/api/shots/reorder/route.ts:23-24 | the table holds the given rows |
| Reorder.ShotsTable.Update | src/app/api/shots/reorder/route.ts:23-26 | the row with the id, if any, takes the payload's columns |
| Reorder.UpdateAll | src/app/api/shots/reorder/route.ts:15-32 | the items before the first failing update are applied in order and stay applied; the failure answers 400 with its message, and otherwise the answer is `{updated: true}` |
| Reorder.Reorder | src/app/api/shots/reorder/route.ts:6-36 | an auth or body error answers 500 with its message and changes nothing; an invalid payload answers 400 "Invalid request payload" and changes nothing; otherwise the update loop's outcome |
| Text.TrimStart | src/lib/drive.ts:50 | drops exactly the leading whitespace |
| Text.TrimEnd | src/lib/drive.ts:50 | drops exactly the trailing whitespace |
| Text.Trim | src/lib/drive.ts:50 | the result is the slice of the input left after removing whitespace at both ends: only whitespace lies outside it, and it neither starts nor ends with whitespace |
| Text.TrimOfPadded | src/lib/drive.ts:50 | whitespace around text without outer whitespace is exactly what trim removes |
| Text.TrimOfClean | src/lib/drive.ts:50 | text without outer whitespace is unchanged |
| Text.TrimIdempotent | src/lib/validators.ts:7 | trimming twice is trimming once |
| Text.ToLowerIdempotent | src/lib/validators.ts:56 | lower-casing twice is lower-casing once |
| Text.TrimToLower | src/lib/validators.ts:56 | trimming and lower-casing commute |
| Text.BeforeFirst | src/lib/auth.ts:16 | `split(sep)[0]`: a prefix without the separator, ending just before the first one |
| Text.BeforeFirstAppend | src/lib/auth.ts:16 | the text before the first separator of `p + sep…` is p when p holds no separator |
| Text.CollapseSpaces | src/lib/drive.ts:49 | the result is single-spaced, empty iff the input is, and starts and ends with whitespace iff the input does; it agrees with the one-character-at-a-time reading (Text.CollapseSpacesIsScan) |
| Text.CollapseScanAfterSpace | src/lib/drive.ts:49 | after a whitespace character, the reading skips the whitespace that follows |
| Text.CollapseSpacesIsScan | src/lib/drive.ts:49 | each maximal whitespace run becomes exactly one plain space and every other character is copied, in order |
| Text.CollapseSpacesOfNoSpace | src/lib/drive.ts:49 | text without whitespace is unchanged |
| Text.Take | src/lib/drive.ts:51 | `slice(0, n)`: the prefix of length min(n, length) |
| Text.NatToString | src/lib/pdf.ts:93 | decimal digits whose value is the number, with a leading zero only for 0 |
| Seqs.FilterMembers | src/components/project-workspace.tsx:446-447 | the filter keeps exactly the elements satisfying the predicate |
| Seqs.FilterIsSubsequence | src/components/project-workspace.tsx:446-447 | the filter keeps the order |
| Seqs.FilterEmpty | src/components/project-workspace.tsx:457 | the filter is empty iff no element satisfies the predicate (the `every` test) |
| Json.TypeOfStringIsGetString | src/lib/auth.ts:46 | `typeof v === "string"` holds iff the value reads as a string; likewise for numbers |

## Left out

- Supabase, Google Drive, `fetch` and cookies are foreign calls. Their outcomes are inputs: `Rows<T>` results, the `exchange`/`upsert`/`server` functions, and the update-error oracle of the reorder endpoint. Drive folder creation, permissions, uploads and the `Promise.all` fan-out are not modelled. The cookie copying in `updateSession` is not modelled either.
- Only the error message of a failed query is modelled. The zod error details (`parsed.error.flatten()`) and the `details` field of `fail` are not.
- zod's email, uuid and ISO-date formats are regular expressions. They are the `Formats` parameter of predicates.
- The schemas follow zod 4, whose API `z.email()` the source uses. Its `.int()` takes safe integers only, which is the bound in Validators.NonNegativeInt.
- Drive.ResolveSubfolderName takes any string. The source types its argument as a key or a folder name. For other text, JavaScript's `in` would also find inherited names such as "toString"; that type rules them out.
- Text.ToLower maps ASCII letters only. JavaScript's `toLowerCase` also maps non-ASCII letters.
- String lengths count Unicode code points, not UTF-16 code units. This matters for `slice`, the 80/120/200/2000 limits and `clampText` only on text outside the Basic Multilingual Plane.
- pdf-lib drawing, fonts, colours and the `Uint8Array` output are not modelled. The model keeps the text, size, page and y of each drawn line. `new Date().toISOString()` and `toLocaleString()` are parameters.
- Pdf.Cursor.WriteLine: the margin guarantee (Pdf.PlacedFits) holds for sizes up to 750. The export only uses sizes 10 to 18.
- Workspace.MoveShot: its preconditions (direction ±1, index inside the scene's shots) are guaranteed by the buttons that call it. The request it sends and the reload after it are left out.
- Only the guards and request bodies of the form handlers are modelled (`addScene`, `addShot`, `postComment`, `inviteMember`). The `fetch`, error display and reload are not. `updateShotStatus` and the workspace loaders only send requests, and are left out.
- ShotDetail.UploadAsset: the `loadShot` refresh, the form reset and the `uploading` flag are left out. A network error that `fetch` throws is represented by a server answer that is not ok and carries that error's message. The server's answers are indexed by upload number within the batch.
- Lighting: parsed objects keep `modifier` and `power` only when they are strings. The original keeps any value there, and also any extra fields. x, y and rotation are reals that are only copied. The `Number(...) || 0` coercion of the inspector inputs is left out.
- Lighting: the random suffix of `makeId` is a parameter. `exportPng`, the `saving`/`exporting`/`error` flags and the Konva rendering are left out. `onSave` is modelled as the diagram value it receives (Lighting.Editor.Saved).
- The next-path rule of src/components/login-card.tsx:14-20 is the callback's rule. It is modelled once, in AuthCallback.
- AuthCallback.Callback uses the corrected redirect rule (see Findings). AuthCallback.CallbackAsWritten keeps the original rule.
- AuthCallback.LeavesSite models two steps of the WHATWG URL parser: tabs and newlines are removed, and a reference starting with two slashes or backslashes names another host. The rest of URL parsing is not modelled.
- `request.json()` and authentication failures in the reorder endpoint are `Result` inputs. The `catch` that turns a non-`Error` into "Unexpected error" is not modelled, because every modelled failure carries a message.
- Not modelled: the UI pages, layout and navigation components, the project-creation route, src/lib/http.ts and src/lib/env.ts. These are rendering, orchestration or one-line wrappers. src/types/app.ts only shapes the datatypes in `types.dfy`.

## Findings

| source | as written | input that shows it | evidently intended | confidence | as-written member | corrected member |
|---|---|---|---|---|---|---|
| src/app/auth/callback/route.ts:8 | `next` is used as the redirect target whenever it starts with "/" | next = "//evil.example", or "/\t/evil.example" once the URL parser drops the tab: a protocol-relative URL that resolves to another host (AuthCallback.RedirectPathOpenRedirect, AuthCallback.TabbedSlashLeavesSite) | redirect only to a path on the same site, falling back to "/projects" | not executed | AuthCallback.RedirectPath, AuthCallback.CallbackAsWritten | AuthCallback.SafeRedirectPath, AuthCallback.Callback (AuthCallback.SafeRedirectPathAgrees, AuthCallback.CallbackFixOnlyChangesOffsiteNext, AuthCallback.TabbedSlashLeavesSite) |
