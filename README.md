# provider-hub core, modelled in Dafny

This project models the logic of the provider-hub web portal. Each module follows one source file of the repository:

- **ReportGeometry**, **ReportEditor** and **ReportPreview** (`src/components/ReportBuilder.tsx`).
  - The report builder's canvas: page sizes, block layout (explicit or auto-flow), block creation, and the clamps for the position/size popover, drag-to-move and drag-to-resize.
  - The editor's block list and selection, modelled as a class.
  - What the preview shows.
- **RosterSearch** (`src/lib/rosterSearch.ts`): the roster filter, which is three successive filters (text query, site, work status).
- **Roles** (`src/lib/roles.ts`): the deny-by-default route table, `canAccess`, and the loop in `getAccessiblePaths`.
- **ProtectedRoute** (`src/components/ProtectedRoute.tsx`): the route guard's four outcomes.
- **AuthContext** (`src/contexts/AuthContext.tsx`):
  - the mock user lookup, the mock Microsoft sign-in, and stored-user migration;
  - the `AuthProvider` state machine, modelled as a class whose fields hold the session and its two storage entries.
- **SignIn** (`src/pages/SignIn.tsx`): the form validator and its two handlers, on a page class.
- **Assignments** and **Documents** (`src/pages/Assignments.tsx`, `src/pages/Documents.tsx`): page-local search filters, counts and status mappings.

Shared helpers:

- **JsText**: the JavaScript `trim`, `toLowerCase` and `includes` on strings.
- **Seqs**: `Array.prototype.filter` and its order and counting properties.
- **Wrappers**: `Option`.

Where the design intent and the code differ, the model follows the code:

- **Auto-flow reads stored fields.** An auto-flow block sits below its predecessor's *stored* `y` and `height`, not its computed layout. So consecutive auto-flow blocks can overlap (`ReportGeometry.AutoFlowBlocksOverlap`).
- **Editor-made blocks never auto-flow.** Every block the editor creates has explicit `x` and `y`. So moving the first block never moves the second (`ReportEditor.MovingFirstBlockLeavesSecond`): after a drag of the chart to (50, 50), a click-added table stays at y = 110, not 140.
- **Blocks can leave the canvas.** Clamping does not keep every block inside the canvas:
  - a block added by click below the lowest block is not clamped (`ReportGeometry.ClickAddCanLeaveCanvas`);
  - the popover clamps each axis against the *requested*, unclamped value of the other (`ReportGeometry.PopoverNarrowWidthOverflows`, `ReportGeometry.AxisOverflowsOutsideRange`).

## Model

| member | source | states |
|---|---|---|
| ReportGeometry.GetCanvasSize | src/components/ReportBuilder.tsx:27-38 | both page sizes hold the default 360×80 block and the 80×40 minimum |
| ReportGeometry.LandscapeIsTransposedPortrait | src/components/ReportBuilder.tsx:34-38 | portrait is 400×560 and landscape is the same with width and height swapped |
| ReportGeometry.GetBlockLayout | src/components/ReportBuilder.tsx:130-152 | size defaults to 360×80; a block with both x and y keeps them; otherwise x is the margin and y is the margin for index 0, else one gap below the predecessor's stored bottom |
| ReportGeometry.LayoutIgnoresCanvas | src/components/ReportBuilder.tsx:130-152 | the canvas-size arguments never change a layout |
| ReportGeometry.OneCoordinateIgnored | src/components/ReportBuilder.tsx:139-151 | a block with only one of x and y set is laid out as if it had neither |
| ReportGeometry.AutoFlowLooksBackOneBlock | src/components/ReportBuilder.tsx:142-150 | an auto-flow layout depends only on the predecessor's stored y and height |
| ReportGeometry.AutoFlowBlocksOverlap | src/components/ReportBuilder.tsx:142-151 | of three blocks without geometry, the second and third get the same box and overlap |
| ReportGeometry.MaxStoredBottom | src/components/ReportBuilder.tsx:115-117 | at least 0, at least every stored bottom, and equal to 0 or to one of them |
| ReportGeometry.Clamp | src/components/ReportBuilder.tsx:100-101 | the result is the point of [lo, hi] nearest the value, or lo when the range is empty |
| ReportGeometry.ClampIdempotent | src/components/ReportBuilder.tsx:100-101 | clamping twice equals clamping once |
| ReportGeometry.CreateBlock | src/components/ReportBuilder.tsx:90-128 | every new block is 360×80 with explicit x and y, and has text "" exactly when it is a text block. With a cursor it lies inside the canvas, at the cursor when that is in range. Without one it sits at the margin, a gap below every stored bottom |
| ReportGeometry.DroppedBlockFits | src/components/ReportBuilder.tsx:99-110 | a block dropped anywhere lies inside either page |
| ReportGeometry.ClickAddCanLeaveCanvas | src/components/ReportBuilder.tsx:112-127 | below a block touching the portrait bottom, a click-added block lands at y = 570, outside the canvas |
| ReportGeometry.PaletteClampRedundant | src/components/ReportBuilder.tsx:605-610 | the palette's pre-clamp of the drop point changes nothing that createBlock produces |
| ReportGeometry.ClampAxis | src/components/ReportBuilder.tsx:297-308 | one axis of the popover clamp: start ≥ 0 and length ≥ minimum; the span fits when the requested length is in [minimum, extent]; a span already inside is kept |
| ReportGeometry.AxisOverflowsOutsideRange | src/components/ReportBuilder.tsx:304-307 | for any requested length outside [minimum, extent], some position overflows the canvas |
| ReportGeometry.PopoverClamp | src/components/ReportBuilder.tsx:297-308 | x, y ≥ 0, width ≥ 80 and height ≥ 40 always; the box fits horizontally (vertically) whenever the requested width (height) is within range |
| ReportGeometry.PopoverPatch | src/components/ReportBuilder.tsx:350-362 | each input sends exactly its own field; an emptied width or height sends the minimum |
| ReportGeometry.PopoverSingleEditKeepsFit | src/components/ReportBuilder.tsx:297-362 | one popover edit on a box inside the canvas keeps it inside |
| ReportGeometry.PopoverNarrowWidthOverflows | src/components/ReportBuilder.tsx:301-306 | x = 340 with a requested width of 50 on a 400-wide canvas yields width 80 and right edge 420 |
| ReportGeometry.MoveTarget | src/components/ReportBuilder.tsx:636-638 | the new x and y are ≥ 0; they keep the block inside when its size fits; they follow the pointer 1:1 while in range |
| ReportGeometry.MoveKeepsFit | src/components/ReportBuilder.tsx:637-638 | a move keeps a block whose size fits the canvas inside it |
| ReportGeometry.ResizeTarget | src/components/ReportBuilder.tsx:656-659 | size ≥ minimum; size ≤ the room left of the origin when that room is at least the minimum, and exactly the minimum when it is not; follows the pointer while in range |
| ReportGeometry.ResizeKeepsFit | src/components/ReportBuilder.tsx:658-659 | a resize keeps a box that starts inside the canvas inside |
| ReportEditor.Merge | src/components/ReportBuilder.tsx:594 | `{...b, ...upd}`: each field the update carries replaces the block's; id, type and the other fields stay |
| ReportEditor.UpdateById | src/components/ReportBuilder.tsx:593-595 | same length; every block with the id is merged, all others are unchanged |
| ReportEditor.RemoveByIdSpec | src/components/ReportBuilder.tsx:588-589 | exactly the blocks with another id remain, in order; an absent id changes nothing |
| ReportEditor.UpdateKeepsIds | src/components/ReportBuilder.tsx:593-595 | ids, and hence indices and auto-flow predecessors, stay; an absent id changes nothing |
| ReportEditor.UpdateTouchesOnlyPatchedFields | src/components/ReportBuilder.tsx:594 | an update changes only the fields its patch carries |
| ReportEditor.PositionedLayoutIsStored | src/components/ReportBuilder.tsx:139-140 | in a list where every block has x and y, each layout is the stored position |
| ReportEditor.EditsKeepPositioned | src/components/ReportBuilder.tsx:583-595 | add, remove and update keep every block positioned, so editor-made blocks never auto-flow |
| ReportEditor.FindIndex | src/components/ReportBuilder.tsx:627-628 | None iff no block has the id; otherwise the first index holding it |
| ReportEditor.MovePatch | src/components/ReportBuilder.tsx:635-639 | a move sends only x and y, and they keep the dragged layout inside when its size fits |
| ReportEditor.ResizePatch | src/components/ReportBuilder.tsx:652-660 | a resize sends only width and height, at least the minimum, keeping a box that starts inside the canvas inside |
| ReportEditor.Editor.constructor | src/components/ReportBuilder.tsx:561-581 | the editor starts with the given blocks, no selection and no gesture |
| ReportEditor.Editor.AddBlock | src/components/ReportBuilder.tsx:583-586 | exactly one created block is appended; earlier blocks are kept, and a positioned list stays positioned |
| ReportEditor.Editor.RemoveBlock | src/components/ReportBuilder.tsx:588-591 | the blocks with the id go; the selection is cleared iff it was that id |
| ReportEditor.Editor.UpdateBlock | src/components/ReportBuilder.tsx:593-595 | the list becomes UpdateById of the old list; the length is kept |
| ReportEditor.Editor.Select | src/components/ReportBuilder.tsx:711-724 | the selection becomes the clicked block, or none for a canvas click |
| ReportEditor.Editor.PaletteClick | src/components/ReportBuilder.tsx:693 | "+" appends a block created without a cursor |
| ReportEditor.Editor.PaletteDrop | src/components/ReportBuilder.tsx:604-612 | a drop inside the canvas appends a block created at the drop point; outside, nothing changes |
| ReportEditor.Editor.PopoverEdit | src/components/ReportBuilder.tsx:297-308 | the input is clamped against the edited block's own layout (as rendered at line 719), and the clamped box replaces its four geometry fields. One edit on a block whose layout lies inside the canvas leaves that layout inside |
| ReportEditor.Editor.EditText | src/components/ReportBuilder.tsx:731 | typing replaces the text of the block |
| ReportEditor.Editor.BeginMove | src/components/ReportBuilder.tsx:623-634 | records the block's layout and the pointer's offset from it; nothing happens for an unknown id |
| ReportEditor.Editor.Move | src/components/ReportBuilder.tsx:635-640 | while dragging, the dragged block gets the move patch; otherwise nothing changes |
| ReportEditor.Editor.EndMove | src/components/ReportBuilder.tsx:641-645 | the drag ends |
| ReportEditor.Editor.BeginResize | src/components/ReportBuilder.tsx:674-682 | records the pointer and the clicked block's layout, taken at the first index holding its id; with unique ids, that is the block's own layout |
| ReportEditor.Editor.Resize | src/components/ReportBuilder.tsx:652-664 | while resizing, the block gets the resize patch; otherwise nothing changes |
| ReportEditor.Editor.EndResize | src/components/ReportBuilder.tsx:666-672 | the resize ends |
| ReportEditor.MovingFirstBlockLeavesSecond | src/components/ReportBuilder.tsx:583-595 | after two click-adds, moving the chart to (50, 50) leaves the table at (20, 110); only a table without stored position would go to y = 140 |
| ReportPreview.IsPie | src/components/ReportBuilder.tsx:412 | the chart is a pie iff the category is status or type |
| ReportPreview.EffectiveSelection | src/components/ReportBuilder.tsx:754 | a non-empty selection is used as is; an empty one means every column id, in table order |
| ReportPreview.PreviewColumnsSpec | src/components/ReportBuilder.tsx:413 | the columns are a subsequence of the table's columns: the selected ones, or all of them when the selection is empty |
| ReportPreview.SelectionOrderIrrelevant | src/components/ReportBuilder.tsx:413 | two selections with the same ids give the same columns, whatever their order |
| ReportPreview.SelectedColumnsCount | src/components/ReportBuilder.tsx:729 | the count is the length of the effective selection, and 0 only when both lists are empty |
| ReportPreview.DisplayRows | src/components/ReportBuilder.tsx:414 | a prefix of the rows, at most 12 long, and all of them when there are at most 12 |
| ReportPreview.MoreRowsNote | src/components/ReportBuilder.tsx:461-462 | the note appears iff the total exceeds the rows shown, and N is their difference |
| ReportPreview.MoreRowsCountsCutRows | src/components/ReportBuilder.tsx:414-462 | with the total equal to the rows given, the note appears iff there are more than 12, and counts the cut rows |
| ReportPreview.CellText | src/components/ReportBuilder.tsx:455 | the cell shows the row's value, or "—" when the key is missing |
| ReportPreview.PreviewCells | src/components/ReportBuilder.tsx:452-457 | one line per shown row, one cell per column, each the cell text of that row and column |
| ReportPreview.TextPreviewSpec | src/components/ReportBuilder.tsx:476 | a text block shows "—" when its text is missing or blank; otherwise it shows the trimmed, non-empty text |
| ReportPreview.TextPreviewIgnoresSurroundingSpace | src/components/ReportBuilder.tsx:476 | surrounding whitespace never changes the preview |
| RosterSearch.FilterRosterProviders | src/lib/rosterSearch.ts:153-179 | the result is a subsequence of the input, holding exactly the providers that pass all three filters |
| RosterSearch.FilterRosterIsConjunction | src/lib/rosterSearch.ts:157-178 | each step, applied or skipped, is a filter by its own predicate, so the three compose into one |
| RosterSearch.FilterRosterIsSingleFilter | src/lib/rosterSearch.ts:153-179 | the result equals a single filter by the conjunction |
| RosterSearch.FilterRosterIdempotent | src/lib/rosterSearch.ts:153-179 | filtering the result again with the same filters changes nothing |
| RosterSearch.BlankQueryIgnored | src/lib/rosterSearch.ts:158-160 | an absent, empty or whitespace-only query filters like no query |
| RosterSearch.QueryKeepsExactlyMatches | src/lib/rosterSearch.ts:158-171 | a non-blank query keeps a provider iff one of the seven fields contains the trimmed query, ignoring case |
| RosterSearch.SiteFilterExact | src/lib/rosterSearch.ts:172-174 | with a site, every result lists exactly that site |
| RosterSearch.StatusFilterExact | src/lib/rosterSearch.ts:175-177 | with one status, every result has it; "All" filters like no status |
| RosterSearch.QueryCaseInsensitive | src/lib/rosterSearch.ts:143-145 | lower-casing either side does not change a match |
| RosterSearch.MatchesQueryIffOccurs | src/lib/rosterSearch.ts:143-145 | a match is an occurrence of the lower-cased query in the lower-cased field |
| JsText.TrimSpec | src/lib/rosterSearch.ts:158 | `trim` yields a trimmed string no longer than its input, empty exactly for all-whitespace input |
| JsText.TrimIdempotent | src/lib/rosterSearch.ts:158 | trimming twice is trimming once |
| JsText.ToLowerIdempotent | src/lib/rosterSearch.ts:144 | lower-casing twice is lower-casing once |
| JsText.ContainsIffOccurs | src/lib/rosterSearch.ts:144 | `includes` holds iff the query occurs at some index |
| JsText.ContainsEmpty | src/pages/Documents.tsx:127-130 | every string includes the empty string |
| Roles.RoleFromName | src/lib/roles.ts:10-16 | reading a role back from its string value finds exactly the role with that value |
| Roles.RoleNameInjective | src/lib/roles.ts:10-16 | distinct roles have distinct string values |
| Roles.AllNonAdminHoldsEveryRole | src/lib/roles.ts:20-26 | the list named "all non-admin" holds all five roles, admin roles included |
| Roles.Lookup | src/lib/roles.ts:54 | absent iff no row has the key; otherwise the roles of a row with that key |
| Roles.RoleRoutesDistinct | src/lib/roles.ts:29-44 | the table's keys are pairwise distinct |
| Roles.Normalize | src/lib/roles.ts:53 | one trailing slash is dropped and an emptied path becomes "/"; the result is never empty |
| Roles.CanAccess | src/lib/roles.ts:50-57 | no role means denied; otherwise access iff the normalised path is a key whose row lists the role |
| Roles.NonAdminRoutesOpenToAll | src/lib/roles.ts:29-42 | every role may open each of the thirteen ordinary routes, with or without a trailing slash |
| Roles.AdminAccess | src/lib/roles.ts:43 | "/admin" is open to exactly the three corporate roles |
| Roles.UnlistedDenied | src/lib/roles.ts:54-55 | a path whose normal form is not a key is denied to every role |
| Roles.DoubleSlashDenied | src/lib/roles.ts:53-56 | "/schedule/" is open but "/schedule//" is denied |
| Roles.PathsListingIsAccess | src/lib/roles.ts:60-67 | the rows that list a role are exactly the keys canAccess grants it |
| Roles.GetAccessiblePaths | src/lib/roles.ts:60-67 | the loop collects exactly the keys the role may open; no role gives the empty set |
| Roles.KeysAreNormal | src/lib/roles.ts:29-44 | every key is its own normal form |
| ProtectedRoute.RoleToCheck | src/components/ProtectedRoute.tsx:30 | the active role, else the user's first role, else none |
| ProtectedRoute.Guard | src/components/ProtectedRoute.tsx:14-35 | spinner iff loading; sign-in redirect (carrying the location) iff signed out; unauthorized redirect iff a user with a role to check may not open the path; otherwise render |
| ProtectedRoute.RenderedMeansPermitted | src/components/ProtectedRoute.tsx:25-35 | a rendered page has a signed-in user, and the checked role may open it unless there is no role to check |
| ProtectedRoute.GuardFollowsTable | src/components/ProtectedRoute.tsx:30-35 | with a role to check, render iff canAccess, else the unauthorized redirect |
| ProtectedRoute.AdminRedirectsOrdinaryRoles | src/components/ProtectedRoute.tsx:31-33 | Provider and Coordinator are redirected from "/admin" and "/admin/" |
| ProtectedRoute.RolelessUserPassesEverywhere | src/components/ProtectedRoute.tsx:30-35 | a user with no roles is shown every path, although canAccess denies a missing role |
| ProtectedRoute.SignedOutGoesToSignIn | src/components/ProtectedRoute.tsx:25-27 | signed out, every location redirects to sign-in |
| ProtectedRoute.ProviderStateFollowsActiveRole | src/components/ProtectedRoute.tsx:25-35 | over the provider's exposed state, a signed-in user sees a page iff the active role may open it |
| AuthContext.FindRow | src/contexts/AuthContext.tsx:108 | absent iff no row has the email; otherwise a row with that email |
| AuthContext.MockRowsWellFormed | src/contexts/AuthContext.tsx:40-104 | each email row's base has that email, every row has roles, and every email is longer than any role name |
| AuthContext.GetAuthUserByEmail | src/contexts/AuthContext.tsx:106-113 | a user iff the trimmed, lower-cased email is a demo email; that user has the row's roles, the normalised email and at least one role |
| AuthContext.DemoCredentialsAreTheMockKeys | src/contexts/AuthContext.tsx:88-104 | the credential list and the email table list the same emails in the same order |
| AuthContext.RoleNameIsNoDemoEmail | src/contexts/AuthContext.tsx:97-113 | looking up any role's string value finds no user |
| AuthContext.RoleUser | src/contexts/AuthContext.tsx:123-126 | the user has exactly the given roles; several roles give the dual-role base, one role its own base |
| AuthContext.AsWrittenNeverReturns | src/contexts/AuthContext.tsx:116-122 | a string that is not a demo email never returns, whatever the number of waits |
| AuthContext.AsWrittenFallsBack | src/contexts/AuthContext.tsx:118-121 | one wait turns an unknown string into the call with "Provider" |
| AuthContext.FallbackNeverReturns | src/contexts/AuthContext.tsx:121 | the "Provider" fallback never returns |
| AuthContext.BareRoleNeverSignsIn | src/contexts/AuthContext.tsx:118-121 | a role passed as a string, including the default, never signs in |
| AuthContext.MockEntraSignIn | src/contexts/AuthContext.tsx:116-127 | a demo email gives its user; any other string gives the role it names, or Provider; a role list gives a user with exactly those roles |
| AuthContext.CorrectedAgreesWhereAsWrittenReturns | src/contexts/AuthContext.tsx:116-127 | wherever the original returns, the corrected sign-in returns the same user |
| AuthContext.LoadStoredUser | src/contexts/AuthContext.tsx:129-143 | a user iff a record parsed, with the record's id, display name and email; its stored roles are kept, or a legacy single role (default Provider) becomes the list |
| AuthContext.SavedUserLoadsBack | src/contexts/AuthContext.tsx:129-170 | a saved user loads back unchanged |
| AuthContext.MigrationIsStable | src/contexts/AuthContext.tsx:133-139 | saving a migrated user and loading it again changes nothing |
| AuthContext.HeldRoleNamed | src/contexts/AuthContext.tsx:149 | the held role whose value is the string, present iff the user holds such a role |
| AuthContext.LoadActiveRole | src/contexts/AuthContext.tsx:145-154 | none iff no user or no roles; otherwise a held role: the stored one when held, else the first |
| AuthContext.ReloadRestoresSession | src/contexts/AuthContext.tsx:129-162 | a saved user and a saved role the user holds are restored after reload |
| AuthContext.AuthProvider.constructor | src/contexts/AuthContext.tsx:173-177 | the initial user and active role are loaded from storage; not loading |
| AuthContext.AuthProvider.ReloadFromStorage | src/contexts/AuthContext.tsx:179-183 | the mount effect reloads the user and keeps the previous role when storage yields none |
| AuthContext.AuthProvider.SetActiveRole | src/contexts/AuthContext.tsx:185-188 | the role becomes active and is stored, without checking that the user holds it |
| AuthContext.AuthProvider.ReconcileActiveRole | src/contexts/AuthContext.tsx:190-196 | afterwards the active role is held; a held role is untouched; an unheld one becomes the first role, which is also stored |
| AuthContext.AuthProvider.SignInWithMicrosoft | src/contexts/AuthContext.tsx:198-211 | with the corrected sign-in: the signed-in user is stored, the active role is loaded for that user and is held, and loading ends |
| AuthContext.AuthProvider.SignInWithMicrosoftAsWritten | src/contexts/AuthContext.tsx:198-211 | returns what the as-written call settled to; until the as-written sign-in settles, loading stays on and user, role and storage are unchanged; once it settles, its user is stored, a held role is loaded, and loading ends |
| AuthContext.AuthProvider.Settle | src/contexts/AuthContext.tsx:203-209 | after the awaited call: the user is set and saved, their active role loaded (held) and saved when there is one, and loading ends |
| AuthContext.AuthProvider.SignOut | src/contexts/AuthContext.tsx:213-222 | user, role and both storage entries are cleared |
| AuthContext.AuthProvider.Exposed | src/contexts/AuthContext.tsx:224-235 | authenticated iff a user; no active role is exposed without a user |
| AuthContext.ExposedIsConsistent | src/contexts/AuthContext.tsx:226-228 | every exposed value is consistent |
| SignIn.LowerEmails | src/pages/SignIn.tsx:22 | the lower-cased credential emails, one per credential, in order |
| SignIn.DemoEmailIsLowerCase | src/contexts/AuthContext.tsx:88-95 | every demo credential email is written in lower case |
| SignIn.DemoEmailsAreMockKeys | src/pages/SignIn.tsx:22 | DEMO_EMAILS lists exactly the keys of the email table, in order |
| SignIn.InDemoEmailsIff | src/pages/SignIn.tsx:39 | listed in DEMO_EMAILS iff a key of the email table |
| SignIn.NormalizeIdempotent | src/pages/SignIn.tsx:34 | normalising an email twice is normalising it once |
| SignIn.SignInDecision | src/pages/SignIn.tsx:33-43 | blank email or empty password first; then an email outside the demo list; otherwise sign in with the normalised demo email |
| SignIn.AcceptedIffDemoEmail | src/pages/SignIn.tsx:34-43 | with a password, the form signs in iff the normalised email is a demo email |
| SignIn.PasswordContentIgnored | src/pages/SignIn.tsx:35 | any two non-empty passwords decide alike |
| SignIn.AcceptedEmailSignsIn | src/pages/SignIn.tsx:43 | an accepted email signs in as its own mock user, both as written and corrected |
| SignIn.EnabledSubmitPassesBlankCheck | src/pages/SignIn.tsx:193-197 | an enabled submit button never yields the missing-fields error |
| SignIn.MicrosoftSignInArg | src/pages/SignIn.tsx:49-54 | the normalised email iff it is a demo email, else no argument |
| SignIn.MicrosoftButtonWithoutDemoEmail | src/pages/SignIn.tsx:52-53 | without a demo email, the Microsoft button never returns as written, and signs in as Provider when corrected |
| SignIn.MicrosoftButtonAsWritten | src/pages/SignIn.tsx:47-54 | what the button's as-written call returns: nothing, however many waits, without a demo email in the field; that email's user at the first wait with one |
| SignIn.MicrosoftButtonCorrected | src/pages/SignIn.tsx:47-54 | what the button's corrected call returns: the demo email's user, or a user whose only role is Provider |
| SignIn.MicrosoftButtonAgreesWithForm | src/pages/SignIn.tsx:47-54 | whenever the form would sign in, the Microsoft button passes the same email |
| SignIn.SignInPage.constructor | src/pages/SignIn.tsx:27-29 | the fields start empty and nothing is navigated |
| SignIn.SignInPage.EditEmail | src/pages/SignIn.tsx:166-170 | typing an email also clears the error |
| SignIn.SignInPage.EditPassword | src/pages/SignIn.tsx:183-184 | typing a password changes only the password |
| SignIn.SignInPage.HandleSignIn | src/pages/SignIn.tsx:31-45 | an error stays on the page with the session, its storage and its loading flag untouched; a demo email signs in and navigates to "/" |
| SignIn.SignInPage.HandleMicrosoftSignIn | src/pages/SignIn.tsx:47-56 | with the corrected sign-in: the session user becomes MicrosoftButtonCorrected (the demo email's user, or a Provider), a held role is active, loading ends, and the page navigates to "/" |
| SignIn.SignInPage.HandleMicrosoftSignInAsWritten | src/pages/SignIn.tsx:47-56 | while MicrosoftButtonAsWritten has not returned (always, without a demo email), the page does not navigate, loading stays on and the session is unchanged; once it returns, that user is signed in and the page navigates to "/" |
| Assignments.FilteredSpec | src/pages/Assignments.tsx:118-126 | the list is an ordered subsequence holding exactly the assignments matching both search and status |
| Assignments.NoFilterKeepsAll | src/pages/Assignments.tsx:119-124 | an empty search with the "all" tab lists everything, in order |
| Assignments.StatusTabExact | src/pages/Assignments.tsx:124 | any other tab lists only assignments with exactly that status |
| Assignments.SpaceSearchStillFilters | src/pages/Assignments.tsx:119-123 | the search is not trimmed: " " drops an assignment whose facility, department and unit have no space |
| Assignments.CountsWithinTotal | src/pages/Assignments.tsx:128-129 | the two counts sum to exactly the number of assignments with one of the three statuses, so none is counted twice; the sum is at most the list length |
| Assignments.TabsWithinCounts | src/pages/Assignments.tsx:118-129 | the counts are over the full list, so a tab never lists more than its card counts |
| Assignments.StatusConfig | src/pages/Assignments.tsx:107-112 | configured exactly for active, upcoming, pending and completed |
| Assignments.StatusLabel | src/pages/Assignments.tsx:280 | the configured caption, or the raw status when unconfigured |
| Assignments.StatusClass | src/pages/Assignments.tsx:278 | empty exactly for an unconfigured status |
| Assignments.ReleaseOnlyForConfiguredStatuses | src/pages/Assignments.tsx:299 | release is offered only for configured statuses, never for active or completed |
| Assignments.EmptyListHint | src/pages/Assignments.tsx:230-232 | the "adjust" hint shows iff a search or a status tab is in effect |
| Documents.FilteredDocsSpec | src/pages/Documents.tsx:127-130 | an ordered subsequence holding exactly the documents whose name or type contains the query, ignoring case; an empty query keeps all |
| Documents.GetStats | src/pages/Documents.tsx:132-138 | the total is the list length; each status count is at most the total, and so is their sum |
| Documents.StatusCountsDisjoint | src/pages/Documents.tsx:134-137 | the four status counts sum to exactly the number of documents with one of the four statuses, so none is counted twice; the sum is at most the total |
| Documents.ActionNeededCountsBoth | src/pages/Documents.tsx:209 | "Action Needed" is the number of expiring or rejected documents |
| Documents.SearchWithinStats | src/pages/Documents.tsx:127-138 | the search result never holds more documents of a status than its card counts |
| Documents.StatusIcon | src/pages/Documents.tsx:94-107 | an icon exactly for approved, pending, expiring and rejected, in the tone of the row |
| Documents.StatusBadge | src/pages/Documents.tsx:109-122 | a badge exactly where there is an icon |
| Documents.DocumentTone | src/pages/Documents.tsx:254-265 | destructive iff rejected; warning iff expiring or pending; success otherwise |
| Documents.RejectionNote | src/pages/Documents.tsx:277-281 | the reason shows iff the document is rejected and has a non-empty reason |
| Documents.NotesExclusive | src/pages/Documents.tsx:277-286 | no document shows both the rejection and the expiry note |
| Seqs.Filter | src/lib/rosterSearch.ts:161-176 | `filter`: no longer than its input; every kept element satisfies the predicate; every satisfying element is kept; nothing new appears |
| Seqs.FilterIsSubsequence | src/lib/rosterSearch.ts:161-176 | filtering preserves relative order |
| Seqs.FilterCompose | src/lib/rosterSearch.ts:161-176 | two successive filters are one filter by the conjunction |

## Left out

- Rendering, JSX, styling, icons and chart drawing are not modelled. Only the values they display are.
- Pointer plumbing is not modelled:
  - DOM listeners and pointer capture;
  - `getBoundingClientRect`, `getCanvasCoords` and `isPointInCanvas`.
  - The model takes the canvas-relative point and whether it lies inside the canvas as parameters.
- Numbers:
  - Coordinates and sizes are integers. Fractional pointer coordinates, `NaN` from a malformed popover entry and `Math.round` in the popover display are not modelled.
  - Percentages computed with floating point are not modelled.
- Block ids built from `Date.now()` are passed in as parameters.
- The orientation prop is not modelled: canvas sizes are passed in as parameters, so blocks are not re-laid out when the orientation switches.
- Storage, timers and async:
  - `localStorage` is modelled as fields of `AuthProvider`. The 800 ms wait of the mock sign-in becomes a fuel bound.
  - A write to storage that throws is not modelled.
  - React's effect scheduling, stale closures and interleaving of async handlers are not modelled. Each handler runs to completion.
- Navigation is recorded as the target path (`navigatedTo`). The router is not modelled.
- `toLowerCase` is modelled on ASCII letters only. Other characters are left unchanged.
- A stored user whose roles contain strings that are no role is not modelled. Stored roles are typed.
- The `avatar` field of mock users is not modelled.
- A user built from an empty role list has undefined id, name and email in the source. They are modelled as empty strings.
- Object lookups on inherited property names (`ROLE_ROUTES["constructor"]` and the like) are not modelled. Route paths always start with "/", so they never reach one.
- The roster dataset, the assignment and document mock data, and the other pages are data or display only.
- The report export and the export wizard are outside these files.
- AuthContext.AuthProvider.SignInWithMicrosoft: runs the corrected mock sign-in, so it always settles and ends loading. The source's behaviour, where a missing argument or a non-demo string never settles and loading stays on, is AuthContext.AuthProvider.SignInWithMicrosoftAsWritten.
- SignIn.SignInPage.HandleMicrosoftSignIn: runs the corrected sign-in, so it always navigates to "/". In the source, the button without a demo email in the field never navigates; that is SignIn.SignInPage.HandleMicrosoftSignInAsWritten.
- AuthContext.MockEntraSignInAsWritten: the non-terminating recursion is cut off by a fuel bound. "No result within the fuel" stands for "never returns".

## Findings

| source | as written | input that shows it | evidently intended | confidence | as-written member | corrected member |
|---|---|---|---|---|---|---|
| src/contexts/AuthContext.tsx:116-122 | a string that is not a demo email falls back to `mockEntraSignIn(ROLES.Provider)`. "Provider" is itself a string and not a demo email, so the call recurses forever | `signInWithMicrosoft()` with no argument, e.g. the Microsoft button with an empty email field (src/pages/SignIn.tsx:53) | sign in as the Provider mock user, i.e. resolve the role the string names before falling back | not executed | AuthContext.AsWrittenNeverReturns | AuthContext.MockEntraSignIn |
