# snapcast-frontend: the client-side state logic, in Dafny

This project models the state logic of the snapcast web client. That logic is the code that decides what the client shows and requests. It consists of:

- **The play queue** of the audio provider (`src/contexts/audioContext.tsx`). This is a list of snap ids with an index into it, a current snap and a play/pause flag. Operations append, remove, clear, replace, step forward and back, and jump to an id. At the end of the queue, autoplay appends one recommended snap.
- **The navigation state** (`src/hooks/useWorkflow.ts`). This is a back-stack of steps plus the overlay flags, the search query and the selections.
- **The three step-by-step forms**, each a linear wizard that advances only when the validator of its current step passes:
  - registration (`src/hooks/useRegistration.ts`);
  - channel creation (`src/hooks/useChannelCreation.ts`);
  - snap creation (`src/hooks/useSnapCreation.ts`), which ends in a bounded status poll of at most 60 requests.
- **The upload helpers** (`src/hooks/useFileUpload.ts`). These are MIME-type allow-lists, size limits, and the three-field upload status record.
- **Size and colour resolution** against a theme (`src/ui/utils.ts`). For example, `"2xl"` becomes `calc(2 * 20px)`.
- **The CSS declaration builders** of `src/ui/css.ts`. Each builds a list of declarations with conditional pushes, then joins them with `"; "`.
- **The player-sheet and gesture rules** (`src/ui/components/advanced/AudioBottomSheet.tsx`, `ControllBar.tsx`):
  - the progress percentage and the clamped seek value;
  - which script line is highlighted;
  - the automatic top-up of a short queue;
  - the tap-versus-drag classification and the toggle thresholds.

How the React code becomes Dafny:

- Each hook or context whose callbacks update state cells in sequence is a `class`. Its fields are those cells, and each callback is a method whose `ensures` gives the whole new state.
- Pure `prev => next` updates and the validators are functions.
- The navigation reducer is a set of functions on a `WorkflowState` datatype.
- Each `Apply*` builder of `css.ts` is a method that pushes onto a local sequence. Each is proved equal to a declarative list of declarations, and the lemmas state the properties of that list.

Every callback is one atomic transition on the current state. Whatever the network, the Web Audio pipeline or a random choice would produce is a parameter of the method. For example:

- `pick` is the popular snap chosen at random;
- `load` is the outcome of fetching a snap and starting its audio;
- `responses` is the sequence of status answers the poll receives;
- `outcome` is what a create or register request returned or threw.

Types used in the model:

- Strings are `seq<char>`. `trim()` removes the JavaScript whitespace and line-terminator set.
- Pixel sizes are integers.
- Times, velocities and the player sheet's progress percentage are reals. Millisecond timestamps and the progress values of the snap-status poll are integers.

Modules, one file each: `JsText` (shared string helpers), `AudioQueue`, `Workflow`, `Registration`, `ChannelCreation`, `SnapCreation`, `FileUpload`, `UiUtils`, `Css`, `AudioSheet`, `ControlBar`.

## Model

| member | source | states |
|---|---|---|
| JsText.LeadingSpaces | src/hooks/useRegistration.ts:83-88 | the whitespace run that `trim()` removes at the front: all whitespace, and followed by a non-whitespace character or the end |
| JsText.TrailingEnd | src/hooks/useRegistration.ts:83-88 | the whitespace run that `trim()` removes at the back: all whitespace, and preceded by a non-whitespace character or the start |
| JsText.TrimIsInnerSlice | src/hooks/useChannelCreation.ts:161-163 | `trim()` returns a contiguous slice of its input that starts after the leading whitespace |
| JsText.TrimHasNoOuterSpace | src/hooks/useChannelCreation.ts:161-163 | a trimmed string is empty, or starts and ends with non-whitespace |
| JsText.TrimEmptyIff | src/hooks/useRegistration.ts:45 | `!s.trim()` holds exactly when the string is all whitespace (including empty) |
| JsText.NatToString | src/ui/utils.ts:56 | the decimal rendering of a number is a non-empty digit string with no leading zero unless the number is 0 |
| JsText.NatToStringRoundTrip | src/ui/utils.ts:56 | reading the decimal rendering back gives the number |
| JsText.NatToStringInjective | src/ui/utils.ts:56 | distinct numbers render differently |
| JsText.IntToString | src/ui/utils.ts:56 | `${n}` has a '-' sign exactly for negative n, followed by the rendering of the magnitude |
| JsText.IntToStringInjective | src/ui/utils.ts:56 | distinct integers give distinct `${n}`, so distinct pixel values give distinct sizes |
| JsText.JoinLength | src/ui/css.ts:30 | `join(sep)` of k parts has the parts' total length plus k-1 separators |
| JsText.JoinEnds | src/ui/css.ts:30 | a join starts with its first part and ends with its last |
| AudioQueue.Loaded | src/contexts/audioContext.tsx:160-171 | `loadSnapById`: a failed fetch changes nothing; a fetched snap becomes current with its id; once its audio starts there is a source and playback is on |
| AudioQueue.IndexOf | src/contexts/audioContext.tsx:193 | `indexOf`: -1 iff the id is absent; otherwise a position holding the id with no earlier occurrence |
| AudioQueue.Without | src/contexts/audioContext.tsx:154 | `filter(id => id !== x)`: keeps exactly the other ids and never grows |
| AudioQueue.WithoutAppend | src/contexts/audioContext.tsx:154 | the filter distributes over concatenation, so it keeps the relative order of the other ids |
| AudioQueue.WithoutCounts | src/contexts/audioContext.tsx:154 | the filter deletes every occurrence of the id and keeps every other id as often as before |
| AudioQueue.AudioPlayer.constructor | src/contexts/audioContext.tsx:38-48 | the initial cells: empty queue, index -1, no snap, paused, no source, autoplay on |
| AudioQueue.AudioPlayer.TogglePlayPause | src/contexts/audioContext.tsx:62-70 | flips `isPlaying` and nothing else |
| AudioQueue.AudioPlayer.SetAutoPlayEnabled | src/contexts/audioContext.tsx:48 | sets the autoplay flag |
| AudioQueue.AudioPlayer.AddToQueue | src/contexts/audioContext.tsx:88-90 | appends exactly the id at the end; nothing else changes |
| AudioQueue.AudioPlayer.AddAllToQueue | src/contexts/audioContext.tsx:211-213 | appends the ids in order; nothing else changes |
| AudioQueue.AudioPlayer.LoadSnapById | src/contexts/audioContext.tsx:160-171 | the playback cells become `Loaded` of the old ones; queue and index stay |
| AudioQueue.AudioPlayer.PlayNext | src/contexts/audioContext.tsx:106-121 | before the end: index + 1 and that entry loaded, queue unchanged. At the end with autoplay and a truthy pick: the pick appended, the index at the old length, which is the pick, and the pick loaded. Otherwise nothing changes |
| AudioQueue.AudioPlayer.TrackEnded | src/contexts/audioContext.tsx:139-142 | the end of a track: playback stops, then `playNext` with the same three cases; with no next track only `isPlaying` changes (to false); autoplay is kept |
| AudioQueue.AudioPlayer.RemoveFromQueue | src/contexts/audioContext.tsx:153-158 | the queue becomes the filtered queue, and the index is not adjusted. When the removed id was playing, `playNext` runs on the filtered queue, in each of its three cases; when it finds no next track the removed snap stays current and nothing else changes. Autoplay is kept |
| AudioQueue.AudioPlayer.ClearQueue | src/contexts/audioContext.tsx:173-181 | empty queue, index -1, no snap or snap id, no source, paused; autoplay kept |
| AudioQueue.AudioPlayer.PlayPrevious | src/contexts/audioContext.tsx:183-190 | with index > 0: index - 1 and that entry loaded. A past-the-end index only moves back. Otherwise nothing changes. The queue never changes |
| AudioQueue.AudioPlayer.PlaySnapById | src/contexts/audioContext.tsx:192-202 | a present id: the index jumps to its first occurrence, queue unchanged. An absent id: appended and the index at the old length. Both: `queue[currentIndex] == id` and the id loaded |
| AudioQueue.AudioPlayer.PlaySnap | src/contexts/audioContext.tsx:204-209 | the queue becomes exactly `[id]`, the index 0, and the id is loaded |
| Workflow.Initial | src/hooks/useWorkflow.ts:34-43 | step home, no previous step, stack `[home]`, overlays closed, empty query, no selection |
| Workflow.NavigateTo | src/hooks/useWorkflow.ts:45-54 | previous := old current, current := step, the step pushed iff `addToStack`, all else unchanged; the stack stays non-empty |
| Workflow.GoBack | src/hooks/useWorkflow.ts:56-73 | a stack of length ≤ 1 leaves the state unchanged. Otherwise the last entry is popped, the new top becomes current and the old current becomes previous |
| Workflow.NavigateToHome | src/hooks/useWorkflow.ts:75-82 | stack `[home]`, current home, previous the old current; flags, query and selections unchanged |
| Workflow.HandleProfileClick | src/hooks/useWorkflow.ts:84-93 | signed in: only the profile overlay opens; signed out: login is pushed onto the old stack and becomes current, the old step becomes the previous one, and the overlays, query and selections stay |
| Workflow.HandleMyChannelClick | src/hooks/useWorkflow.ts:102-117 | closes the overlay, then pushes the user's channel (selected) or channel creation onto the old stack; the old step becomes the previous one; the trackbar, query and selected snap stay |
| Workflow.HandleChannelClick | src/hooks/useWorkflow.ts:119-125 | selects the channel and pushes the channel step onto the old stack; the old step becomes the previous one; the overlays, query and selected snap stay |
| Workflow.HandleSearchQuery | src/hooks/useWorkflow.ts:137-146 | records the query; a non-blank query also pushes the search step onto the old stack with the old step as the previous one and the overlays and selections kept, and a blank one changes nothing else |
| Workflow.ToggleAudioTrackbar | src/hooks/useWorkflow.ts:152-157 | flips only the trackbar flag |
| Workflow.CloseProfileOverlay | src/hooks/useWorkflow.ts:95-100 | the profile overlay is closed and nothing else changes |
| Workflow.HandleSnapClick | src/hooks/useWorkflow.ts:127-135 | the snap is selected and nothing else changes; playing it is not this hook's concern |
| Workflow.OpenAudioTrackbar | src/hooks/useWorkflow.ts:159-164 | the trackbar is open and nothing else changes |
| Workflow.CloseAudioTrackbar | src/hooks/useWorkflow.ts:166-171 | the trackbar is closed and nothing else changes |
| Workflow.ClearSearch | src/hooks/useWorkflow.ts:193-198 | the query is empty and nothing else changes |
| Workflow.ToggleSearchModal | src/hooks/useWorkflow.ts:213-219 | on the search step it is `goBack`; elsewhere search is pushed onto the old stack, the old step becomes the previous one, and the overlays, query and selections stay |
| Workflow.ApplyKeepsStack | src/hooks/useWorkflow.ts:45-219 | every callback keeps the stack non-empty, and a pushing callback keeps the current step on top |
| Workflow.RunKeepsStack | src/hooks/useWorkflow.ts:45-219 | any sequence of callbacks keeps the stack non-empty. With only pushing navigations, the current step stays the top of the stack |
| Workflow.BackUndoesNavigate | src/hooks/useWorkflow.ts:45-73 | `goBack` after a pushing `navigateTo` restores the step and the stack |
| Workflow.ToggleTwice | src/hooks/useWorkflow.ts:152-157 | toggling the trackbar twice is the identity |
| Workflow.ResetIsInitial | src/hooks/useWorkflow.ts:200-211 | `resetWorkflow` from any state gives exactly the initial state |
| Registration.Find | src/hooks/useRegistration.ts:50 | the first position of a character, or the length when it is absent |
| Registration.EmailShapeIsPattern | src/hooks/useRegistration.ts:50 | the scan for `x@y.z` accepts exactly the strings the regex `^[^\s@]+@[^\s@]+\.[^\s@]+$` matches |
| Registration.ShapeMatchesPattern | src/hooks/useRegistration.ts:50 | an accepted shape has a split into three whitespace-free, `@`-free, non-empty parts |
| Registration.PatternPassesScan | src/hooks/useRegistration.ts:50 | any such split is found by the scan |
| Registration.EmailErrorIff | src/hooks/useRegistration.ts:42-78 | `validateEmail` passes iff the trimmed email is non-empty, the email has the `x@y.z` shape, and the password has ≥ 8 characters with a lower-case letter, an upper-case letter and a digit and equals the confirmation |
| Registration.EmailErrorOrder | src/hooks/useRegistration.ts:45-54 | a blank email reports "Email is required" before anything else; a malformed one reports "Invalid email format" |
| Registration.NameError | src/hooks/useRegistration.ts:80-94 | passes iff the trimmed name has ≥ 2 characters; a blank name reports "Name is required" |
| Registration.GenderError | src/hooks/useRegistration.ts:96-105 | passes iff a gender is chosen |
| Registration.AvatarError | src/hooks/useRegistration.ts:107-116 | passes iff the avatar is non-empty |
| Registration.FormValidHasGender | src/hooks/useRegistration.ts:187-199 | when all four validators pass, a gender is set, so the request's `gender!` is defined |
| Registration.FormValidIff | src/hooks/useRegistration.ts:187 | the guard of `completeRegistration` holds iff all four step conditions hold |
| Registration.StepsAreLinear | src/hooks/useRegistration.ts:123-164 | `previousStep` undoes `nextStep`'s step change and vice versa: email → name → gender → avatar → completed |
| Registration.Updated | src/hooks/useRegistration.ts:34-40 | `updateData(field, v)` changes only that field |
| Registration.FailureMessage | src/hooks/useRegistration.ts:205-207 | a thrown Error's message, or "Registration failed" |
| Registration.RegistrationFlow.constructor | src/hooks/useRegistration.ts:22-32 | step email, empty data, not loading, no error |
| Registration.RegistrationFlow.UpdateData | src/hooks/useRegistration.ts:34-40 | the data becomes `Updated(old, u)` and the error is cleared |
| Registration.RegistrationFlow.Validate | src/hooks/useRegistration.ts:42-116 | a validator returns true iff its step's error is None, and on failure writes that error |
| Registration.RegistrationFlow.ValidateAll | src/hooks/useRegistration.ts:187 | the short-circuit chain passes iff the form is valid, and otherwise writes the first failing error |
| Registration.RegistrationFlow.GoToStep | src/hooks/useRegistration.ts:118-121 | sets the step and clears the error |
| Registration.RegistrationFlow.NextStep | src/hooks/useRegistration.ts:123-146 | returns the current validator's verdict and advances exactly on success; at completed it returns false and changes nothing |
| Registration.RegistrationFlow.PreviousStep | src/hooks/useRegistration.ts:148-164 | moves one step back (no-op at email) and always clears the error |
| Registration.RegistrationFlow.Submit | src/hooks/useRegistration.ts:191-210 | sends the request with the trimmed name; success completes the form, failure keeps the step and writes the message; loading ends either way |
| Registration.RegistrationFlow.CompleteRegistration | src/hooks/useRegistration.ts:186-211 | sends a request iff the form is valid, and returns true iff it was sent and succeeded; an invalid form writes the first error and sends nothing |
| Registration.RegistrationFlow.Reset | src/hooks/useRegistration.ts:213-225 | step email, all fields empty, no gender, no error, not loading |
| ChannelCreation.NameErrorIff | src/hooks/useChannelCreation.ts:37-56 | passes iff the trimmed name length is in [3, 50], so 50 passes; "Channel name is required" exactly for a blank name |
| ChannelCreation.ImageError | src/hooks/useChannelCreation.ts:58-67 | passes iff the avatar is non-empty |
| ChannelCreation.ConceptErrorIff | src/hooks/useChannelCreation.ts:69-88 | passes iff the trimmed instruction length is in [10, 500]; "AI DJ concept is required" exactly for a blank one |
| ChannelCreation.FormValidIff | src/hooks/useChannelCreation.ts:152 | the guard of `completeChannelCreation` holds iff the three step conditions hold |
| ChannelCreation.StepsAreLinear | src/hooks/useChannelCreation.ts:95-129 | `previousStep` undoes `nextStep`'s step change and vice versa: name → image → concept → completed |
| ChannelCreation.Updated | src/hooks/useChannelCreation.ts:29-35 | `updateData(field, v)` changes only that field |
| ChannelCreation.RequestOfValidForm | src/hooks/useChannelCreation.ts:160-164 | for a valid form the request carries a trimmed name of 3..50 and a trimmed instruction of 10..500 characters, each starting and ending with a non-whitespace character, and the avatar as given |
| ChannelCreation.FailureMessage | src/hooks/useChannelCreation.ts:170-176 | no channel: "Failed to create channel"; a thrown Error: its message; anything else thrown: "Channel creation failed" |
| ChannelCreation.ChannelCreationFlow.constructor | src/hooks/useChannelCreation.ts:19-27 | step name, empty data, no channel, not loading, no error |
| ChannelCreation.ChannelCreationFlow.UpdateData | src/hooks/useChannelCreation.ts:29-35 | the data becomes `Updated(old, u)` and the error is cleared |
| ChannelCreation.ChannelCreationFlow.Validate | src/hooks/useChannelCreation.ts:37-88 | a validator returns true iff its step's error is None, and on failure writes that error |
| ChannelCreation.ChannelCreationFlow.ValidateAll | src/hooks/useChannelCreation.ts:152 | passes iff the form is valid, and otherwise writes the first failing error |
| ChannelCreation.ChannelCreationFlow.GoToStep | src/hooks/useChannelCreation.ts:90-93 | sets the step and clears the error |
| ChannelCreation.ChannelCreationFlow.NextStep | src/hooks/useChannelCreation.ts:95-114 | returns the current validator's verdict and advances exactly on success; at completed it returns false and changes nothing |
| ChannelCreation.ChannelCreationFlow.PreviousStep | src/hooks/useChannelCreation.ts:116-129 | moves one step back (no-op at name) and always clears the error |
| ChannelCreation.ChannelCreationFlow.Submit | src/hooks/useChannelCreation.ts:156-179 | a returned channel is stored and completes the form; otherwise the step stays and the failure message is written; loading ends either way |
| ChannelCreation.ChannelCreationFlow.CompleteChannelCreation | src/hooks/useChannelCreation.ts:151-180 | sends the trimmed request iff the form is valid, and returns a channel iff it was sent and one came back, which completes the form and clears the error; an invalid form writes the first error |
| ChannelCreation.ChannelCreationFlow.Reset | src/hooks/useChannelCreation.ts:182-192 | step name, empty data, no channel, no error, not loading |
| SnapCreation.ProgressOf | src/hooks/useSnapCreation.ts:142-144 | a status carrying a progress overwrites the progress; nothing else changes |
| SnapCreation.PollIsBounded | src/hooks/useSnapCreation.ts:133-175 | the poll makes at most 60 status requests, and no more than it receives answers for |
| SnapCreation.CompletedStopsPoll | src/hooks/useSnapCreation.ts:147-150 | a completed status after one request sets step completed and progress 100, and stops |
| SnapCreation.FailedStopsPoll | src/hooks/useSnapCreation.ts:151-153 | a failed status writes the server's error (or "Snap generation failed") and stops |
| SnapCreation.PendingTimesOut | src/hooks/useSnapCreation.ts:154-161 | answers that stay pending or processing stop the poll after exactly 60 requests with "Snap generation timed out" |
| SnapCreation.Spread | src/hooks/useSnapCreation.ts:51 | `[...prev]` turns a hole into an undefined entry and keeps every other entry |
| SnapCreation.WithAnswer | src/hooks/useSnapCreation.ts:49-55 | the copy with entry `index` written: every earlier hole becomes undefined, an index past the end grows the array with holes between, and a negative index writes no element |
| SnapCreation.ScanAnswers | src/hooks/useSnapCreation.ts:58 | `answers.some(a => !a.trim())` skips holes and, scanning in order, is false iff every entry passes, true iff a blank answer comes before any undefined entry, and throws iff an undefined entry comes before any blank answer |
| SnapCreation.InRangeKeepsEntries | src/hooks/useSnapCreation.ts:36-55 | writing at most one past the end of an array of strings, such as the one `generateQuestions` fills, keeps every entry a string |
| SnapCreation.SkippedSlotThrows | src/hooks/useSnapCreation.ts:49-58 | after a write two or more past the end and an edit of an earlier answer, the skipped slot is undefined and the guard of `createSnap` throws |
| SnapCreation.MessageOr | src/hooks/useSnapCreation.ts:42 | a thrown Error's message, or the fallback |
| SnapCreation.SnapCreationFlow.constructor | src/hooks/useSnapCreation.ts:21-28 | step story, no story, questions or answers, no snap, not loading, no error, progress 0 |
| SnapCreation.SnapCreationFlow.GenerateQuestions | src/hooks/useSnapCreation.ts:30-47 | success: the questions, one empty answer per question, the story kept, step questions. Failure: only the error is written. Loading ends either way |
| SnapCreation.SnapCreationFlow.UpdateAnswer | src/hooks/useSnapCreation.ts:49-55 | the answers become `WithAnswer` of the old ones |
| SnapCreation.SnapCreationFlow.SetStory | src/hooks/useSnapCreation.ts:22 | sets the story |
| SnapCreation.SnapCreationFlow.PollSnapStatus | src/hooks/useSnapCreation.ts:133-175 | the loop over the answers reaches the state of `Poll` and makes at most 60 requests |
| SnapCreation.SnapCreationFlow.CreateSnap | src/hooks/useSnapCreation.ts:57-89 | with no story, no questions or a blank answer first: returns null, writes the incomplete message and changes nothing else. When the scan meets an undefined entry first: throws, with no state changed. Otherwise generation starts and is polled |
| SnapCreation.SnapCreationFlow.GeneratePodcast | src/hooks/useSnapCreation.ts:91-112 | generating at 0 %, then the new snap id recorded and polled, or the thrown message |
| SnapCreation.SnapCreationFlow.Submit | src/hooks/useSnapCreation.ts:63-88 | the shared body of both requests: generating at 0 %, then the snap id and the poll's effects, or the failure message; loading ends |
| SnapCreation.SnapCreationFlow.Reset | src/hooks/useSnapCreation.ts:177-185 | step story, no story, questions, answers, snap id or error, progress 0; loading untouched |
| SnapCreation.SnapCreationFlow.GoToStep | src/hooks/useSnapCreation.ts:187-189 | sets the step |
| FileUpload.AudioFileRules | src/hooks/useFileUpload.ts:103-131 | accepted iff one of the six audio types and ≤ 100 MiB (the limit itself passes); a wrong type is reported whatever the size |
| FileUpload.ImageFileRules | src/hooks/useFileUpload.ts:133-160 | accepted iff one of the five image types and ≤ 10 MiB; a wrong type is reported whatever the size |
| FileUpload.Finished | src/hooks/useFileUpload.ts:30-44 | success gives `{100, false, null}`; failure `{0, false, message}` with "Upload failed" when nothing better is known |
| FileUpload.FileUploader.constructor | src/hooks/useFileUpload.ts:11-15 | the record starts `{0, false, null}` |
| FileUpload.FileUploader.Validate | src/hooks/useFileUpload.ts:113-130 | accepts iff there is no error; a rejection writes only the record's error |
| FileUpload.FileUploader.ValidateAudioFile | src/hooks/useFileUpload.ts:103-131 | accepts iff `AudioFileError` is None; a rejection changes only the error |
| FileUpload.FileUploader.ValidateImageFile | src/hooks/useFileUpload.ts:133-160 | accepts iff `ImageFileError` is None; a rejection changes only the error |
| FileUpload.FileUploader.Upload | src/hooks/useFileUpload.ts:21-45 | `{0, true, null}` while the request runs, then `Finished`; the URL iff success |
| FileUpload.FileUploader.UploadAudio | src/hooks/useFileUpload.ts:17-46 | the same record transitions and answer as `Upload` |
| FileUpload.FileUploader.UploadExternalAudio | src/hooks/useFileUpload.ts:48-77 | the same record transitions and answer as `Upload` |
| FileUpload.FileUploader.ResetUploadState | src/hooks/useFileUpload.ts:162-168 | the record becomes `{0, false, null}` |
| UiUtils.LeadingDigits | src/ui/utils.ts:7 | the `\d+` prefix of the unit regex: all digits, and followed by a non-digit or the end |
| UiUtils.UnitMatchIff | src/ui/utils.ts:7 | `/^(\d+)([a-zA-Z-]+)$/` matches exactly a non-empty digit run followed by a non-empty unit, and splits the string there |
| UiUtils.LeadingDigitsOfSplit | src/ui/utils.ts:7 | the digit run of digits-then-non-digit is exactly the digits |
| UiUtils.ParseText | src/ui/utils.ts:19-50 | the resolution of a non-empty size string is never empty |
| UiUtils.ParseSize | src/ui/utils.ts:11-57 | undefined, "" and 0 give "0"; a non-zero number n gives `n + "px"`; the result is never empty |
| UiUtils.ScalesDimension | src/ui/utils.ts:20-32 | digits + a dimension key give `calc(<digits> * <dimension>)` |
| UiUtils.ScalesFontSize | src/ui/utils.ts:33-35 | digits + a typography key that is no dimension key give `calc(<digits> * <fontSize>)` |
| UiUtils.KeepsPlainUnit | src/ui/utils.ts:36-37 | digits + a unit that is no theme key come back unchanged |
| UiUtils.ResolvesBareKey | src/ui/utils.ts:39-45 | a bare dimension key gives its dimension; failing that a typography key gives its font size |
| UiUtils.AppendsPixels | src/ui/utils.ts:46-50 | any other string is kept when it ends in digits plus a listed CSS unit, and gets "px" appended otherwise |
| UiUtils.ParseColor | src/ui/utils.ts:59-68 | undefined or "" give "transparent"; a theme colour key gives its colour; any other colour is used as written |
| UiUtils.PercentFailsUnitMatch | src/ui/utils.ts:7 | "100%" does not match the unit regex, because '%' is no unit character |
| UiUtils.PercentHasUnits | src/ui/utils.ts:48 | "100%" passes the `hasUnits` test |
| UiUtils.PercentIsNoKey | src/ui/utils.ts:39-45 | "100%" is no theme key |
| UiUtils.PercentStays | src/ui/utils.ts:46-49 | "100%" stays "100%" |
| Css.SizeDecl | src/ui/css.ts:9 | a size declaration is emitted exactly when the prop is truthy |
| Css.RenderShape | src/ui/css.ts:30 | the rendered block is empty iff there are no declarations, and otherwise is the `"; "` join plus ";" |
| Css.PairDecl | src/ui/css.ts:14-21 | `ph`/`pv` emit two declarations with the same parsed size, in order, iff truthy |
| Css.SpacingCount | src/ui/css.ts:6-30 | one declaration per truthy field (two for `ph`/`pv`); the block is empty iff nothing is set |
| Css.HorizontalPadding | src/ui/css.ts:14-17 | `ph` alone emits `padding-left` then `padding-right` with the same size |
| Css.RenderTwo | src/ui/css.ts:30 | two declarations render as `a; b;` |
| Css.PushSize | src/ui/css.ts:9-13 | a guarded push appends `SizeDecl` |
| Css.PushPair | src/ui/css.ts:14-21 | a guarded double push appends `PairDecl` |
| Css.ApplySpacingProps | src/ui/css.ts:6-31 | the built string is the rendering of the declarations in source order |
| Css.FlagDecl | src/ui/css.ts:94-97 | a flag declaration is emitted exactly when the flag is set |
| Css.NumberDecl | src/ui/css.ts:102 | `z-index` is emitted exactly when the number is truthy (non-zero) |
| Css.TextDecl | src/ui/css.ts:147-148 | a text declaration is emitted exactly when the text is non-empty; the easing push of line 145 is the same guard |
| Css.ColorDecl | src/ui/css.ts:110-112 | a colour declaration is emitted exactly when the colour is non-empty |
| Css.PushFlag | src/ui/css.ts:94-97 | a guarded push appends `FlagDecl` |
| Css.PushNumber | src/ui/css.ts:102 | a guarded push appends `NumberDecl` |
| Css.PushText | src/ui/css.ts:147-148 | a guarded push appends `TextDecl`, as do the direction, fill-mode and (line 145) easing pushes |
| Css.PushColor | src/ui/css.ts:110-112 | a guarded push appends `ColorDecl` |
| Css.SizeCount | src/ui/css.ts:33-44 | one declaration per truthy size field; empty iff none is set |
| Css.ApplySizeProps | src/ui/css.ts:33-44 | the built string is the rendering of the size declarations |
| Css.FirstSetSpec | src/ui/css.ts:57-78 | a ternary chain yields a value iff some flag is set, and then the value of the first set flag |
| Css.OptionDecl | src/ui/css.ts:65-67 | a `justify-content`/`align-items` declaration is emitted iff the chain yields a value |
| Css.LayoutShape | src/ui/css.ts:46-89 | empty unless row or col; otherwise starts `display: flex`, then the direction, with row taking precedence; the count is exact; `flex: 0` is emitted |
| Css.JustifyIsChain | src/ui/css.ts:57-63 | the justify value is that of the first set flag in the order start, end, center, between, around, evenly |
| Css.AlignIsChain | src/ui/css.ts:69-74 | the align value is that of the first set flag in the order start, end, center, baseline, stretch |
| Css.JustifyContent | src/ui/css.ts:57-63 | the ternary chain computes the first-set justify value |
| Css.AlignItems | src/ui/css.ts:69-74 | the ternary chain computes the first-set align value |
| Css.ApplyLayoutProps | src/ui/css.ts:46-89 | the built string is the rendering of the layout declarations |
| Css.PushOption | src/ui/css.ts:65-67 | a guarded push appends `OptionDecl` |
| Css.PositionFlagDecls | src/ui/css.ts:94-97 | one `position:` declaration per set flag |
| Css.PositionCount | src/ui/css.ts:91-105 | one declaration per set flag or truthy offset; empty iff none is set |
| Css.PositionFlagOrder | src/ui/css.ts:94-97 | absolute comes first and sticky last; relative and fixed are emitted when set |
| Css.ApplyPositionProps | src/ui/css.ts:91-105 | the built string is the rendering of the position declarations |
| Css.PushOffsets | src/ui/css.ts:98-102 | the offset pushes append the offset declarations |
| Css.StyleCount | src/ui/css.ts:107-116 | one declaration per truthy colour or border width; empty iff none is set |
| Css.ApplyStyleProps | src/ui/css.ts:107-116 | the built string is the rendering of the style declarations |
| Css.FunctionDecl | src/ui/css.ts:126-135 | a transform function is emitted exactly when its prop is truthy |
| Css.TranslateDecl | src/ui/css.ts:121-125 | `translate(x, y)` is emitted iff x or y is set |
| Css.TransformShape | src/ui/css.ts:118-138 | translate comes first, with a missing y rendered '0'; the count is exact; `z` has no effect |
| Css.ApplyTransformProps | src/ui/css.ts:118-138 | the built string is one `transform:` declaration of the space-joined functions, or empty |
| Css.PushFunction | src/ui/css.ts:126-135 | a guarded push appends `FunctionDecl` |
| Css.AnimationCount | src/ui/css.ts:140-151 | one declaration per truthy animation field; empty iff none is set |
| Css.ApplyAnimationProps | src/ui/css.ts:140-151 | the built string is the rendering of the animation declarations |
| AudioSheet.Progress | src/ui/components/advanced/AudioBottomSheet.tsx:77 | 0 while the duration is not positive, and otherwise the percentage `currentTime / duration * 100` |
| AudioSheet.ProgressBounds | src/ui/components/advanced/AudioBottomSheet.tsx:77 | inside the track the progress lies in [0, 100], and it is 100 at the end |
| AudioSheet.Clamp | src/ui/components/advanced/AudioBottomSheet.tsx:27 | `max(0, min(100, x))` lies in [0, 100] and is x inside that range |
| AudioSheet.SeekValue | src/ui/components/advanced/AudioBottomSheet.tsx:22-28 | the seek value is in [0, 100], proportional to the click inside the bar, 0 left of it and 100 right of it |
| AudioSheet.AtMostOneActive | src/ui/components/advanced/AudioBottomSheet.tsx:172-173 | with ordered start times, at most one script line is highlighted |
| AudioSheet.SomeActive | src/ui/components/advanced/AudioBottomSheet.tsx:172-173 | once playback reaches the first line, some line is highlighted |
| AudioSheet.NoneActiveBeforeStart | src/ui/components/advanced/AudioBottomSheet.tsx:172-173 | before the first line no line is highlighted |
| AudioSheet.Pick | src/ui/components/advanced/AudioBottomSheet.tsx:110 | `slice(0, 3)`: the first min(3, n) snaps |
| AudioSheet.NotQueued | src/ui/components/advanced/AudioBottomSheet.tsx:111 | the filter keeps exactly the ids not in the queue |
| AudioSheet.TopUp | src/ui/components/advanced/AudioBottomSheet.tsx:108-111 | at most 3 ids, each among the first three popular snaps and not queued, and all such ids |
| AudioSheet.OnDragEnd | src/ui/components/advanced/AudioBottomSheet.tsx:142-147 | only the trackbar flag may change, and it flips iff \|deltaY\| > 50 or \|velocity\| > 0.5 |
| AudioSheet.OnTap | src/ui/components/advanced/AudioBottomSheet.tsx:149-151 | a tap always flips the trackbar, and nothing else |
| AudioSheet.AudioSheet.constructor | src/ui/components/advanced/AudioBottomSheet.tsx:73 | no top-up is in flight |
| AudioSheet.AudioSheet.AutoAddToQueue | src/ui/components/advanced/AudioBottomSheet.tsx:99-121 | nothing happens with autoplay off, a top-up in flight or more than two queued ids. Otherwise `TopUp` of the fetched snaps is appended in order, or nothing when the fetch failed, and the flag is false again |
| AudioSheet.AudioSheet.WatchQueue | src/ui/components/advanced/AudioBottomSheet.tsx:124-128 | a top-up is attempted exactly when autoplay is on and at most one id is queued |
| ControlBar.Classify | src/ui/components/advanced/ControllBar.tsx:51-66 | a tap iff it travelled < 10 px in < 300 ms; otherwise a drag reporting its travel and travel / elapsed time (0 when no time passed) |
| ControlBar.StillTouch | src/ui/components/advanced/ControllBar.tsx:60 | a touch that does not move is a tap iff it lasted < 300 ms |
| ControlBar.DragDirection | src/ui/components/advanced/ControllBar.tsx:53-57 | an upward drag has positive travel and non-negative velocity, and a downward one the reverse |
| ControlBar.ControlBar.constructor | src/ui/components/advanced/ControllBar.tsx:15-21 | not dragging, no record |
| ControlBar.ControlBar.TouchStart | src/ui/components/advanced/ControllBar.tsx:23-32 | the record starts and ends at the touch's position and time; dragging |
| ControlBar.ControlBar.TouchMove | src/ui/components/advanced/ControllBar.tsx:34-46 | ignored unless dragging with a record. Otherwise the last position and time move, and `startY - clientY` is reported |
| ControlBar.ControlBar.TouchEnd | src/ui/components/advanced/ControllBar.tsx:48-70 | with no active drag nothing happens. Otherwise exactly one of tap or drag end is reported and the drag state is cleared |
| ControlBar.ControlBar.TouchCancel | src/ui/components/advanced/ControllBar.tsx:72-75 | not dragging, no record |
| ControlBar.PressAndRelease | src/ui/components/advanced/ControllBar.tsx:23-70 | start then end without moving: a tap iff held < 300 ms, a drag end iff held ≥ 300 ms |

## Left out

- The Web Audio pipeline: `AudioContext`, `decodeAudioData`, buffer sources, gain nodes, `loadAudio`, `setVolume` and `setCurrentTime`. These are foreign calls. Only their effect on the playback cells is kept, as the `load` parameter (fetch failed, or fetched with the audio started or not).
- Random choices are parameters. `getRandomPopularSnap` is the `pick` argument of `PlayNext`. The shuffled popular list of `autoAddToQueue` is the `popular` argument, already shuffled.
- `fetchSnap` is left out as a network call. So is `fetchSnapData` in the player sheet, with the script lines it loads. The popular snaps are represented by their ids.
- `uploadAvatar` and `convertFileToBase64` in `useFileUpload.ts`, and `uploadAvatar`/`uploadImage` in the two form hooks, are left out. They wrap `FileReader`, which is foreign I/O; the two in `useFileUpload.ts` only resolve to the data URL, or to null when reading fails. On success `uploadAvatar`/`uploadImage` have the effect of `updateData` of the avatar. On failure they return false and are not modelled: an invalid file leaves its message in the upload record rather than the form, and a failed read writes the form's own message ("Failed to process avatar image" or "Failed to upload avatar" for registration, "Failed to process channel image" or "Failed to upload channel image" for channel creation) into its error cell.
- `generateScript` in `useSnapCreation.ts` is left out. It only calls the network and writes the loading and error cells.
- `parseCache` in `utils.ts` is not modelled; `ParseSize` is the uncached function. The cache key includes only the theme's colours, so with two themes that differ only in dimensions or typography the cached function can return the other theme's result. The model does not capture that.
- UiUtils.ParseSize: numeric sizes are integers. Fractional numbers, NaN and Infinity, and their JavaScript renderings, are left out.
- The theme is reduced to its dimension table, the font size of each typography style, and its colour table. The light theme's tables appear only as sample data for the "100%" example.
- Css.ApplyLayoutProps, Css.ApplyPositionProps, Css.ApplyAnimationProps: the number props `flex`, `zIdx` and `iterationCount` are integers, whereas the source's are JavaScript numbers. Fractional values such as `flex: 0.5` or an iteration count of 1.5, and their JavaScript renderings, are not modelled.
- The `css` tagged template of Emotion is left out; each builder returns the declaration string it would be given.
- Unused props are left out: `rt`, `rb`, `rl` and `rr` of the spacing props, which no builder reads. The transform's `z` is kept but has no effect, as in the source.
- Sequential semantics: each callback is one atomic transition on the current state. React's batching, re-renders and stale closures are not modelled. For example, `removeFromQueue`'s call of `playNext` sees the filtered queue here; in the source it sees the closure's values.
- `pollSnapStatus` schedules its retries with `setTimeout` and is not awaited by its callers. The model runs the poll to the end, over a given sequence of answers, before loading ends. Timing and interleaving with other callbacks are not modelled.
- SnapCreation.Poll: when the given answers run out before the poll stops, the state reached so far is returned. In the source this corresponds to a poll still waiting.
- SnapCreation.ProgressOf: progress values are integers. The source stores whatever number the status answer carries, so fractional progress values are not modelled.
- A status answer that does not carry a progress value counts as "no progress". A `null` progress, which the source would write, is not modelled.
- AudioQueue.AudioPlayer.PlayPrevious: with an index past the end of a queue that shrank, the source asks for the snap `undefined`. The model takes that request to fail, so only the index moves. This depends on the backend, which is not part of this model.
- AudioSheet.Progress, AudioSheet.SeekValue, ControlBar.Classify: times, widths, progress and velocities are exact reals. IEEE double rounding is not modelled, so `SeekValue`'s exact proportionality and `Progress`'s `p * duration == currentTime * 100` hold in the source only up to rounding. NaN is not modelled either: a NaN `currentTime` gives a NaN progress in the source.
- AudioSheet.SeekValue: requires a positive bar width. With a width of 0 the source passes 100 for a click right of the edge, 0 for one left of it, and NaN for a click on it; the model requires a positive width.
- `handleSeek` and `handleControllBarDrag` are left out. Their bodies do nothing.
- ControlBar.ControlBar.TouchStart: takes one timestamp, whereas the source calls `Date.now()` twice. The two calls can differ by a millisecond.
- Strings are sequences of characters. JavaScript's UTF-16 code-unit lengths, used by `trim().length`, are not distinguished from character counts.
- Page components, presentational primitives, the API service, authentication and the other hooks are not part of this model.
