# pwde-job client components, modelled in Dafny

This project models the decision logic of ten React Native components of the
pwde-job app, a job board for persons with disabilities. Each component gets a Dafny module:

- **Employer dashboard.** It fetches the employer's jobs and each job's application count. It shows a statistics summary, the most popular job and a listing.
- **Two searchable dropdowns.** The plain `Dropdown` and the modal `JobTypeDropdown`. Both filter an option list case-insensitively as the user types.
- **Two swipe decks.**
  - `JobCard` fetches open jobs with their employers and moves to the next card on each swipe. As written, its swipe handlers never call `onSwipeRight` or `onSwipeLeft` (see Findings). The corrected handler in the model reports each right swipe as an application and each left swipe as an ignore.
  - `CardSwiper` stacks five fixed pictures.
- **Five upload fields.**
  - Front ID, back ID and profile picture each take one image of at most 2 MiB and upload it once to object storage.
  - The employer ID takes a picked document of at most 5 MiB, uploads it once and keeps the picker's file record in secure storage.
  - The resume keeps the picker's record in secure storage and uploads nothing.

How the model is built:

- **Component state is a class.** Each component's `useState` fields become the class's fields. Each handler or effect becomes a `method` with a `modifies` clause. Its `ensures` gives the complete new state for every branch of the source: early returns, throws caught by the `catch` block, and success, for a parent that passes the callbacks the component calls (see Left out).
- **Callbacks are a log.** The calls a component makes to its parent (`onFileSelect`, `onError`, `onSelect`, `onSwipeRight`, …) are recorded in order in an append-only sequence field. "No callback" therefore reads `notices == old(notices)`.
- **Pure rules are functions.** This covers the filter, statistics, render-branch choice, gesture rule, extension, path and JSON encoding. Lemmas relate these functions to one another.
- **External results are parameters.** Each method receives what the outside world answers as parameters: the permission prompt, pickers, `fetch(...).blob()`, storage `upload`, `getPublicUrl`, database queries, the session, `Date.now()`, and whether secure-storage calls throw. Secure storage itself is a small class over a map.

There is no retry engine: every upload is one call to storage `upload`, with no connectivity probe, backoff or timeout, and the size limits are 2 MiB for images and 5 MiB for documents.

## Model

| member | source | states |
|---|---|---|
| Text.Lower | components/Dropdown.jsx:9 | `toLowerCase` keeps the length and lowers each character in place |
| Text.LowerIdempotent | components/Dropdown.jsx:9 | lowering twice is lowering once |
| Text.Truthy | components/JobCard.jsx:157 | a value is truthy only when it is present, and then exactly when it is non-empty |
| Text.Includes | components/Dropdown.jsx:9 | `includes` holds iff the needle occurs at some position of the text |
| Text.IncludesSelfAndEmpty | components/Dropdown.jsx:9 | every text includes itself and the empty text |
| Text.Extension | components/FrontIdUpload.jsx:57 | `split('.').pop()` has no '.', is a suffix of the URI, follows a '.' when it is not the whole URI, and is the whole URI when the URI has no '.' |
| Text.ExtensionOfDotted | components/FrontIdUpload.jsx:57-58 | a name ending in '.' + ext, where ext has no '.', yields ext back as its extension |
| Text.Decimal | components/FrontIdUpload.jsx:58 | the timestamp's text is non-empty, all digits and has no '.' |
| Text.DecimalRoundTrip | components/FrontIdUpload.jsx:58 | the timestamp's text reads back as the same number |
| FileJson.ReadEscaped | components/EmployerIdUpload.jsx:38 | reading an escaped string back stops exactly at its closing quote and yields the original text |
| FileJson.Stringify | components/EmployerIdUpload.jsx:90 | the stored text opens with the `uri` key and closes with `}` |
| FileJson.Parse | components/EmployerIdUpload.jsx:38 | a text that parses opens with the `uri` key; anything else is a parse failure |
| FileJson.ParseStringify | components/EmployerIdUpload.jsx:90 | parsing the stored text of a picker file gives back the same file (uri, name, mimeType, size) |
| FileJson.StringifyInjective | components/EmployerIdUpload.jsx:90 | two different picker files are never stored as the same text |
| SecureStorage.SecureStore.GetItem | components/EmployerIdUpload.jsx:36 | a key's value is returned iff the key is present |
| SecureStorage.SecureStore.SetItem | components/EmployerIdUpload.jsx:90 | the key maps to the new value and every other key is unchanged |
| Upload.FilePath | components/FrontIdUpload.jsx:58 | the path is `userId/`, the decimal digits of `Date.now()`, '.', then the extension; so it starts with `userId/` and its extension is the file's extension |
| Upload.FilePathDeterminesTime | components/FrontIdUpload.jsx:58 | a user's two paths with the same extension are equal only when their timestamps are equal, so uploads at different instants never share a path |
| Upload.ErrorMessage | components/FrontIdUpload.jsx:82 | `error.message`, or the fallback when the message is empty; never empty when the fallback is not |
| Upload.ImageAttempt | components/FrontIdUpload.jsx:30-86 | the shared image handler uploads iff permission is granted, an asset is picked, its blob is read and is at most 2 MiB, and storage accepts it; cancel returns quietly; a denied permission or oversize blob throws its fixed message; a picker, blob-fetch or storage failure throws that failure's own message |
| Upload.StoredPathKeepsExtension | components/FrontIdUpload.jsx:57-58 | an uploaded file's storage path ends in the picked URI's extension |
| Upload.SizeLimitBoundary | components/FrontIdUpload.jsx:52-54 | exactly 2 MiB passes the check; one byte more is rejected with 'Image size must be less than 2MB' |
| Upload.ReadSaved | components/EmployerIdUpload.jsx:34-46 | a mount restores nothing iff the read succeeds and the key holds null or ''; a restored file is the parse of the stored text |
| Upload.ReadAfterPersist | components/EmployerIdUpload.jsx:36-39 | the file written under a key by a successful pick is exactly what the next mount restores |
| FrontIdUpload.ButtonLabel | components/FrontIdUpload.jsx:97 | the file's name when a file is set, else 'Upload Front ID' |
| FrontIdUpload.Request | components/FrontIdUpload.jsx:57-69 | the upload goes to 'front_valid_id' under `FilePath(userId, Date.now(), ext)` for the URI's extension ext, typed 'image/'+ext and named 'front_id.'+ext |
| FrontIdUpload.FrontIdField.constructor | components/FrontIdUpload.jsx:17-25 | the field starts as `initialValue`, with no error and no callbacks |
| FrontIdUpload.FrontIdField.SyncInitialValue | components/FrontIdUpload.jsx:21-25 | a given initial file replaces the field; an absent one leaves it |
| FrontIdUpload.FrontIdField.Catch | components/FrontIdUpload.jsx:80-85 | the error message (or 'Error uploading front ID') is shown and passed to `onError`; the file is unchanged |
| FrontIdUpload.FrontIdField.HandleFrontIdUpload | components/FrontIdUpload.jsx:30-86 | an upload is issued iff the checks pass; cancel changes nothing; failures leave the file and report the message; success sets 'front_id.'+ext, clears the error and calls `onFileSelect(path)` then `onError(null)` |
| FrontIdUpload.FrontIdField.ShowUploaded | components/FrontIdUpload.jsx:73-79 | success shows 'front_id.'+ext as the label, clears the error and reports the path, then `null` |
| BackIdUpload.ButtonLabel | components/BackIdUpload.jsx:97 | the file's name when a file is set, else 'Upload Back ID' |
| BackIdUpload.Request | components/BackIdUpload.jsx:57-69 | the upload goes to 'back_valid_Id' under `FilePath(userId, Date.now(), ext)` for the URI's extension ext, named 'back_id.'+ext and typed 'image/'+ext |
| BackIdUpload.BackIdField.constructor | components/BackIdUpload.jsx:17-25 | a truthy `initialValue` becomes the file; otherwise the field is empty |
| BackIdUpload.BackIdField.SyncInitialValue | components/BackIdUpload.jsx:21-25 | a given initial file replaces the field; an absent one leaves it |
| BackIdUpload.BackIdField.Catch | components/BackIdUpload.jsx:80-85 | the error message (or 'Error uploading back ID') is shown and reported; the file is unchanged |
| BackIdUpload.BackIdField.HandleBackIdUpload | components/BackIdUpload.jsx:30-86 | as for the front ID, with the back ID's bucket, name and fallback |
| BackIdUpload.BackIdField.ShowUploaded | components/BackIdUpload.jsx:73-79 | success shows 'back_id.'+ext as the label, clears the error and reports the path, then `null` |
| ProfilePicture.PreviewOf | components/ProfilePicture.jsx:109-119 | the placeholder text is shown iff `imageUrl` is falsy; otherwise the image at that URL |
| ProfilePicture.Request | components/ProfilePicture.jsx:65-77 | the upload goes to 'profile_picture' under `FilePath(userId, Date.now(), ext)` for the URI's extension ext, named 'profile.'+ext and typed 'image/'+ext |
| ProfilePicture.AvatarField.constructor | components/ProfilePicture.jsx:17-32 | a truthy initial path is shown by its public URL; otherwise nothing is shown |
| ProfilePicture.AvatarField.SyncInitialImageUrl | components/ProfilePicture.jsx:21-32 | a truthy initial path replaces the URL with its public URL; a falsy one leaves it |
| ProfilePicture.AvatarField.Catch | components/ProfilePicture.jsx:92-97 | the error message (or 'Error uploading image') is shown and reported; the URL is unchanged |
| ProfilePicture.AvatarField.HandleImageSelect | components/ProfilePicture.jsx:37-98 | an upload is issued iff the checks pass; success shows the public URL of the new path and calls `onImageSelect(path)` then `onError(null)`; failures keep the URL |
| ProfilePicture.AvatarField.ShowUploaded | components/ProfilePicture.jsx:82-91 | success shows the public URL of the new path (as an image whenever that URL is non-empty), clears the error and reports the path, then `null` |
| EmployerIdUpload.ButtonLabel | components/EmployerIdUpload.jsx:111 | the file's name, else 'Upload Employer ID (Image)' |
| EmployerIdUpload.Request | components/EmployerIdUpload.jsx:72-84 | the upload goes to 'employer_id' with the picker's mimeType and name, under `FilePath(userId, Date.now(), ext)` for the file's extension ext |
| EmployerIdUpload.EmployerIdField.constructor | components/EmployerIdUpload.jsx:18-29 | a given `initialValue` wins; otherwise the saved file is restored and passed to `onFileSelect`, or 'Error loading saved employer ID' is reported |
| EmployerIdUpload.EmployerIdField.InitialValueChanged | components/EmployerIdUpload.jsx:23-29 | each run of the `[initialValue]` effect: a given value replaces the file; an absent one restores the saved employer ID exactly as a load does |
| EmployerIdUpload.EmployerIdField.LoadEmployerIdData | components/EmployerIdUpload.jsx:34-46 | restores the saved file and reports it, reports the load error, or does nothing when nothing is saved |
| EmployerIdUpload.EmployerIdField.Catch | components/EmployerIdUpload.jsx:94-98 | whatever was thrown, the message is 'Error selecting employer ID' |
| EmployerIdUpload.EmployerIdField.HandleEmployerIdUpload | components/EmployerIdUpload.jsx:51-100 | cancel changes nothing; over 5 MiB is rejected before upload with the file unchanged; success sets the file, persists it under 'employerIdFile' and calls `onFileSelect(path)` then `onError(null)`; a failed persist keeps the file but shows the fixed error |
| EmployerIdUpload.EmployerIdField.KeepUploaded | components/EmployerIdUpload.jsx:89-98 | after the upload the file is shown; a successful persist writes its record under 'employerIdFile' and reports the path, then `null`; a failed one shows the fixed error with the file still shown |
| EmployerIdUpload.UploadThenRemount | components/EmployerIdUpload.jsx:23-93 | after a successful pick, a remount with no `initialValue` shows the same file; after whatever the first mount reported, the parent hears the storage path and then `null`, and on remount the file object |
| ResumeUpload.ButtonLabel | components/ResumeUpload.jsx:94 | the file's name, else 'Upload Resume (PDF)' |
| ResumeUpload.ResumeField.constructor | components/ResumeUpload.jsx:18-29 | a given `initialValue` wins; otherwise the saved resume is restored and passed to `onFileSelect`, or 'Error loading saved resume' is reported |
| ResumeUpload.ResumeField.InitialValueChanged | components/ResumeUpload.jsx:23-29 | each run of the `[initialValue]` effect: a given value replaces the file; an absent one restores the saved resume exactly as a load does |
| ResumeUpload.ResumeField.LoadResumeData | components/ResumeUpload.jsx:34-46 | restores the saved resume and reports it, reports the load error, or does nothing |
| ResumeUpload.ResumeField.Catch | components/ResumeUpload.jsx:77-82 | whatever was thrown, the message is 'Error selecting resume' |
| ResumeUpload.ResumeField.HandleResumeUpload | components/ResumeUpload.jsx:51-83 | cancel changes nothing; over 5 MiB is rejected with the file unchanged; success sets the file, persists it under 'resumeFile' and calls `onFileSelect(file)` then `onError(null)`; no upload |
| ResumeUpload.PickThenRemount | components/ResumeUpload.jsx:23-76 | a resume of exactly 5 MiB is accepted, and a remount restores it and reports the same object |
| Dropdown.Matches | components/Dropdown.jsx:9 | the empty query matches every option, and a matching query is never longer than the option |
| Dropdown.Filter | components/Dropdown.jsx:8-10 | the result is no longer than the options, and an option is in it iff it is an option whose lowercase contains the lowercase query |
| Dropdown.FilterAppend | components/Dropdown.jsx:8-10 | filtering keeps the original order (it distributes over concatenation) |
| Dropdown.FilterSingle | components/Dropdown.jsx:8-10 | a single option is kept exactly when it matches |
| Dropdown.FilterEmptyQuery | components/Dropdown.jsx:5-10 | with nothing typed, every option is listed, in order |
| Dropdown.FilterIgnoresCase | components/Dropdown.jsx:9 | queries that differ only in letter case list the same options |
| Dropdown.MatchesItself | components/Dropdown.jsx:38-42 | a selected item passes the filter against itself |
| Dropdown.DropdownField.FilteredOptions | components/Dropdown.jsx:8-10 | the list shown is no longer than the options and drawn from them |
| Dropdown.DropdownField.constructor | components/Dropdown.jsx:5-10 | the text starts empty, the list hidden, and the filter lists every option |
| Dropdown.DropdownField.ChangeText | components/Dropdown.jsx:21-24 | typing sets the text and opens the list |
| Dropdown.DropdownField.Focus | components/Dropdown.jsx:25 | focusing opens the list and leaves the text |
| Dropdown.DropdownField.Select | components/Dropdown.jsx:38-42 | the item becomes the text, the list closes, `onSelect` gets exactly that item, and the item still passes the filter |
| Dropdown.DropdownField.TapOutside | components/Dropdown.jsx:13 | an outside tap closes the list and leaves the text |
| JobTypeDropdown.PlaceholderOf | components/JobTypeDropdown.jsx:15 | the placeholder defaults to 'Select job type' |
| JobTypeDropdown.FieldText | components/JobTypeDropdown.jsx:42 | the field shows the text when it is non-empty, else the placeholder |
| JobTypeDropdown.EmptyListNote | components/JobTypeDropdown.jsx:86-88 | 'No options found' is shown iff no option matches the text |
| JobTypeDropdown.JobTypePicker.FilteredOptions | components/JobTypeDropdown.jsx:27-29 | the listed options are no more than, and drawn from, the options |
| JobTypeDropdown.JobTypePicker.constructor | components/JobTypeDropdown.jsx:15-24 | the text starts as `value` or '', the modal closed, the placeholder defaulted |
| JobTypeDropdown.JobTypePicker.ValueChanged | components/JobTypeDropdown.jsx:20-24 | a defined `value` replaces the text; undefined leaves it |
| JobTypeDropdown.JobTypePicker.Open | components/JobTypeDropdown.jsx:38 | pressing the field opens the modal and leaves the text |
| JobTypeDropdown.JobTypePicker.Close | components/JobTypeDropdown.jsx:53-57 | a close request or backdrop press closes the modal and leaves the text |
| JobTypeDropdown.JobTypePicker.ChangeText | components/JobTypeDropdown.jsx:65 | typing sets the text and never calls `onSelect` |
| JobTypeDropdown.JobTypePicker.Select | components/JobTypeDropdown.jsx:77-81 | the item becomes the text and the field's label, the modal closes, `onSelect` gets the item |
| Gesture.Classify | components/JobCard.jsx:21-28 | dx > 120 swipes right, dx < -120 swipes left, and everything in [-120, 120] springs back |
| Gesture.ClassifyMirror | components/JobCard.jsx:21-28 | the rule is symmetric: negating dx mirrors the outcome |
| Gesture.CompletesIffBeyondThreshold | components/CardSwiper.jsx:60-84 | a drag completes a swipe iff it is longer than 120 either way; exactly ±120 springs back |
| JobCard.EmployerOf | components/JobCard.jsx:58-63 | a failed profile lookup gives the employer {Unknown, Unknown}; a successful one gives the profile |
| JobCard.WithEmployers | components/JobCard.jsx:50-65 | the enriched list has the fetched list's length and order, each row with its own lookup's employer |
| JobCard.ScreenOf | components/JobCard.jsx:149-189 | loading first, then a truthy error, then 'No jobs available', then 'No more jobs' iff the index is at or past the end, else the card of `jobs[currentIndex]`; the error screen shows the error's own text |
| JobCard.NoticeFor | components/JobCard.jsx:89-112 | a completed swipe reports `jobs[currentIndex]` to the matching callback iff that job exists and that callback is passed; at most one report |
| JobCard.MountTimeHandlerNeverNotifies | components/JobCard.jsx:14-31 | a handler reading the first render's state reports no job, whatever the deck holds |
| JobCard.MountTimeHandlerMissesLoadedJob | components/JobCard.jsx:15-31 | with one loaded job and a right swipe, the current state would apply to it but the mount-time state does not |
| JobCard.JobDeck.constructor | components/JobCard.jsx:8-12 | the deck starts loading, empty, at index 0, with no error |
| JobCard.JobDeck.FetchJobs | components/JobCard.jsx:37-74 | loading is false on every exit; success stores the enriched list; failure sets 'Failed to load jobs'; the index is never reset and an error never cleared |
| JobCard.JobDeck.NextCard | components/JobCard.jsx:117-123 | the index rises by exactly one |
| JobCard.JobDeck.CompleteSwipe | components/JobCard.jsx:83-115 | a finished swipe reports the current job when there is one, then advances the index by one either way |
| JobCard.JobDeck.Release | components/JobCard.jsx:21-28 | on the shown card, which alone carries the pan handlers, a release advances the index by one iff it completes a swipe, never decreases it, and reports as `NoticeFor` says |
| JobCard.JobDeck.ReleaseAsWritten | components/JobCard.jsx:15-31 | on the shown card, with the responder built at mount, a release advances the index but never calls `onSwipeRight` or `onSwipeLeft` |
| JobCard.ShownCardInRange | components/JobCard.jsx:185-189 | a shown card's index is in range and its job is in the list |
| JobCard.ExhaustedStaysExhausted | components/JobCard.jsx:185-187 | once the index is past the end, further swipes, or a refresh with no more rows than were swiped, keep showing 'No more jobs' |
| CardSwiper.CardAt | components/CardSwiper.jsx:90-121 | an entry before `currentIndex` renders nothing, the one at it is the draggable card, later ones wait behind |
| CardSwiper.Reverse | components/CardSwiper.jsx:122 | the reversal keeps the length and puts element k at position n-1-k |
| CardSwiper.Views | components/CardSwiper.jsx:89-121 | one view per entry, each by `CardAt` |
| CardSwiper.RenderUsers | components/CardSwiper.jsx:88-123 | one view per user, in reverse index order |
| CardSwiper.ExactlyOneTopCard | components/CardSwiper.jsx:88-123 | while cards remain there is exactly one draggable card, the entry at `currentIndex`; afterwards none |
| CardSwiper.TopCardDrawnLast | components/CardSwiper.jsx:88-123 | in the rendering, waiting cards come before the draggable card and only swiped-away entries come after it |
| CardSwiper.Swiper.Rendered | components/CardSwiper.jsx:129 | the stack always has one entry per user (5) |
| CardSwiper.Swiper.constructor | components/CardSwiper.jsx:16-18 | the swiper starts at index 0 at the origin, with the first picture on top |
| CardSwiper.Swiper.Move | components/CardSwiper.jsx:57-59 | while a card remains to carry the handlers, the card follows the drag on both axes and the index stays |
| CardSwiper.Swiper.Release | components/CardSwiper.jsx:60-84 | a swipe either way advances the index by exactly one and a spring-back keeps it; the position ends at (0,0); only the top card can be dragged, so the index never passes the number of cards |
| CardSwiper.FiveSwipesEmptyTheStack | components/CardSwiper.jsx:8-14 | with the five fixed users, one draggable card remains while fewer than five swipes were made, none after |
| EmployerDashboard.ApplicationCount | components/EmployerDashboard.jsx:50-55 | a count-query error gives 0, a null count gives 0, otherwise the count |
| EmployerDashboard.WithCounts | components/EmployerDashboard.jsx:43-57 | each fetched row, in order, gets its own reply's count |
| EmployerDashboard.TotalApplications | components/EmployerDashboard.jsx:164 | no jobs sum to 0 and one job to its own count |
| EmployerDashboard.TotalAppend | components/EmployerDashboard.jsx:164 | the total of a concatenation is the sum of the parts' totals, so every job is counted once |
| EmployerDashboard.TotalZeroIff | components/EmployerDashboard.jsx:164 | the total of applications is 0 iff every job's count is 0 |
| EmployerDashboard.CountWithinTotal | components/EmployerDashboard.jsx:164 | every job's count is at most the total |
| EmployerDashboard.OpenJobs | components/EmployerDashboard.jsx:165 | the open jobs are exactly the jobs with status 'open', so there are at most as many as jobs |
| EmployerDashboard.OpenJobsAppend | components/EmployerDashboard.jsx:165 | filtering a concatenation filters each part and keeps their order |
| EmployerDashboard.OpenJobsSingle | components/EmployerDashboard.jsx:165 | one job is kept, once, exactly when its status is 'open' |
| EmployerDashboard.OpenCount | components/EmployerDashboard.jsx:165 | the number of positions whose job has status 'open' |
| EmployerDashboard.OpenJobsCount | components/EmployerDashboard.jsx:165 | the length of the filtered list is the number of open positions |
| EmployerDashboard.AllActiveIff | components/EmployerDashboard.jsx:165 | the Active figure equals the job count iff every job is open |
| EmployerDashboard.MostPopularIndex | components/EmployerDashboard.jsx:132 | the head of the stable descending sort: a job whose count is at least every count, and every earlier job has a smaller count |
| EmployerDashboard.MostPopular | components/EmployerDashboard.jsx:129-135 | no panel for no jobs; a shown job is the most popular and has at least one application |
| EmployerDashboard.MostPopularHiddenIff | components/EmployerDashboard.jsx:129-135 | the most-popular panel is hidden iff the total of applications is 0 |
| EmployerDashboard.Statistics | components/EmployerDashboard.jsx:161-166 | no summary iff there are no jobs; otherwise the job count, the open count (at most the job count, and equal to the number of open positions) and the total |
| EmployerDashboard.ApplicantLabel | components/EmployerDashboard.jsx:112 | 'Applicant' iff the count is 1, otherwise 'Applicants' |
| EmployerDashboard.LocationLabel | components/EmployerDashboard.jsx:101 | the location when it is truthy, else 'Remote' |
| EmployerDashboard.JobRoute | components/EmployerDashboard.jsx:72 | the route is '/job/' followed by exactly the job id |
| EmployerDashboard.ApplicantsRoute | components/EmployerDashboard.jsx:80 | the route is '/job-applicants/' followed by exactly the job id |
| EmployerDashboard.ViewOf | components/EmployerDashboard.jsx:197-248 | spinner while loading, then a truthy error, then the no-listings prompt for no jobs, else the summary, popular panel and list; the error view shows the error's own text |
| EmployerDashboard.Dashboard.constructor | components/EmployerDashboard.jsx:10-13 | the dashboard starts loading with no jobs and no error |
| EmployerDashboard.Dashboard.FetchJobsWithApplications | components/EmployerDashboard.jsx:23-66 | loading is false on every exit; no session redirects to '/sign-in'; a query error sets its message; success stores every row with its count |
| EmployerDashboard.Dashboard.ViewJob | components/EmployerDashboard.jsx:71-73 | pushes the job's route |
| EmployerDashboard.Dashboard.ViewApplicants | components/EmployerDashboard.jsx:79-81 | pushes the job's applicants route |
| EmployerDashboard.Dashboard.CreateJob | components/EmployerDashboard.jsx:86-88 | pushes '/create-job' |

## Findings

| source | as written | input that shows it | evidently intended | confidence | as-written member | corrected member |
|---|---|---|---|---|---|---|
| components/JobCard.jsx:15-31 | the pan responder is created once inside `useRef`, so its `swipeRight`/`swipeLeft` close over the first render's `jobs` (`[]`) and `currentIndex` (0); `jobs[currentIndex]` is always undefined there and neither `onSwipeRight` nor `onSwipeLeft` is ever called | jobs loaded as one job `j`, a drag with dx = 121, released | `onSwipeRight(j)` is called, then the next card is shown | high, from React's closure semantics; not executed | JobCard.JobDeck.ReleaseAsWritten, JobCard.MountTimeHandlerMissesLoadedJob | JobCard.JobDeck.Release |

## Left out

- Retry engine: there is no retry, backoff, jitter, timeout or abort logic in the components, so none is modelled. Each upload is a single storage `upload` call.
- I/O is not modelled. Backend queries, storage, pickers, `fetch`, secure storage and the router are external. Their results are method parameters; the router calls and parent callbacks are logged in sequence fields.
- Clock and locale: `Date.now()` is a parameter, rendered as its decimal digits. Locale date formatting (components/EmployerDashboard.jsx:106) is not modelled.
- Loading while awaiting: the loading flag is true between the awaits of `fetchJobs` and `fetchJobsWithApplications`. Those intermediate renders are not modelled; the methods set it first and clear it on every exit.
- Animation: springs, timing, interpolation, opacity and rotation are floating-point presentation. Drag distances are integers, and only each animation's end state is modelled.
- Concurrency: `Promise.all` fan-out is modelled as a sequential map that keeps order. Interleaved handler runs (a second tap before the first finishes) are not modelled.
- Text.Lower: lowercases ASCII letters only; JavaScript's full Unicode case mapping is not modelled.
- FileJson.Stringify: a stand-in encoding of the four picker fields it keeps (uri, name, mimeType, size), with a proved round trip. It escapes only the quote and the backslash; JSON's other escapes and any further picker fields are not modelled.
- Picker sizes: a document picker result without a `size` (where `size > limit` is false in JavaScript) is not modelled; sizes are natural numbers.
- JobTypeDropdown.JobTypePicker.ValueChanged: a `value` of `null` (which the source would store and then fail on in `toLowerCase`) is not modelled; the prop is either a string or undefined.
- Missing callbacks: FrontIdUpload.FrontIdField.HandleFrontIdUpload, BackIdUpload.BackIdField.HandleBackIdUpload, ProfilePicture.AvatarField.HandleImageSelect, EmployerIdUpload.EmployerIdField.HandleEmployerIdUpload, ResumeUpload.ResumeField.HandleResumeUpload and the two load methods assume the parent passes `onFileSelect`/`onImageSelect` and `onError`. The screens app/(menu)/profile.jsx:23-44 and app/(addscreens)/additional-info-employee.jsx:51-65 pass none. There, a successful upload throws a TypeError at the callback call into the `catch`, which sets `uploadError` to that TypeError's message for the front ID, back ID and profile picture, and to the fixed 'Error selecting employer ID' or 'Error selecting resume' for the other two, and the `catch`'s own `onError` call throws again, out of the handler. A load that restores a file fails the same way at `onFileSelect`, and its `catch` throws at `onError`. That path is not modelled.
- Disabled buttons and the `isSubmitting` prop are presentation and are not modelled.
- Dropdown: the `title`, `otherStyles` and `placeholder` props of `Dropdown` are presentation and are not modelled.
- The dashboard's `order('created_at')` sorting is done by the database. The model takes the rows in the order the query returns them.
- The test double __tests__/utils/supabaseMock.js and the test of a screen outside these components are not part of this model.
- Presentation widgets, layout, navigation structure and configuration files are not part of this model.
