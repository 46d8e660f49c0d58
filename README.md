# Kiosk face and chat application — a Dafny model

This project models the controller logic of a Tk kiosk application. The
kiosk shows a home screen with live face recognition, a settings area, a chat
screen backed by a small intent classifier, and an idle screen that appears
after ten seconds without input. The model covers these parts:

- **App** (`app.dfy`): the window controller. It registers screens,
  `show`s them with `on_hide`/`on_show` in order, toggles settings and chat,
  arms and cancels the idle timer, goes idle and comes back on activity,
  releases the camera on close.
- **Camera** (`camera.dfy`): the shared camera handle with `open`,
  `read_rgb_frame` and `release`.
- **Clock** (`clock.dfy`): `time_strings`, the status bar's `H:MM AM` and
  `MM/DD/YYYY` texts.
- **Capture** (`capture.dfy`): the capture screen, which covers the preview
  loop, the one-time Space binding, the saved counter, the photo's folder and
  file name, and the OpenCV-then-PIL save with its error dialog.
- **TrainFaces** (`train.dfy`): the training screen. It covers the start
  guard, the worker's scan over the dataset (labels, progress messages, stop
  flag, collected encodings, final `done`/`error`), and the UI pump that
  applies queued messages to the log, progress bar, counter and dialogs and
  reloads the home recogniser.
- **Bot** (`bot.dfy`): the tokenizer and its regex fallback,
  `_bag_of_words`, `_parse_intents` (tags, responses, documents, the sorted
  de-duplicated vocabulary), and the guards and choice in `reply`.
- **FaceId** (`faceid.dfy`): the recogniser's scaler clamp, the
  first-closest-match naming rule, the box upscale, and `reload`.
- **Chat** (`chat.dfy`): the chat transcript. It covers the one-time
  greeting, sending a stripped message, the deferred bot reply, and grid
  placement of the bubbles.
- **Text** (`text.dfy`): Python's `strip`, `lstrip`, `str(n)`, zero-padded
  fields, `split` and POSIX `os.path.join`, as the screens use them.

Every class the source mutates is a Dafny `class`. Each has a `View()`
datatype, and each method is proved to move that view by a specification
function. Loops are `while` loops proved against those functions: the
training scan, the intent parsing and its pattern loop, and the pump. The
properties are proved as lemmas about the specification functions.

External libraries and effects are inputs:

- OpenCV, `face_recognition`, NLTK, the torch network, `random.choice`, the
  clock and the file system are all given as inputs;
- the model never performs I/O.

## Model

| member | source | states |
|---|---|---|
| App.AlternatingStep | Face+Chat/main.py:97-107 | hiding the current screen and showing the next keeps the hook log alternating show/hide, each hide naming the screen shown just before |
| App.ShowRegistered | Face+Chat/main.py:97-111 | showing a registered screen hides the old one before showing the new one, makes it current, tracks `_last_non_settings`, sets the gear label, and leaves exactly one fresh idle callback pending (none on the idle screen); camera and screens untouched |
| App.ShowUnregistered | Face+Chat/main.py:97-107 | an unregistered name raises after the old screen is already hidden and `current` moved: the old idle callback stays pending and the controller invariant is lost |
| App.ToggleSettingsTarget | Face+Chat/main.py:113-117 | from settings the toggle returns to the last non-settings screen, from anywhere else it goes to settings; the invariant is kept |
| App.ToggleSettingsTwice | Face+Chat/main.py:113-117 | two settings toggles return to the starting screen |
| App.ToggleChatTarget | Face+Chat/main.py:119-124 | the chat toggle goes to home from chat and to chat from anywhere else |
| App.GoIdleReleases | Face+Chat/main.py:147-149 | going idle shows the idle screen, releases the camera, and leaves no idle callback pending |
| App.ActivityWhileIdle | Face+Chat/main.py:151-154 | activity while idle shows home, reopens the camera and arms one idle callback |
| App.ActivityWhileActive | Face+Chat/main.py:155-157 | activity elsewhere only replaces the pending idle callback by a fresh one; screen, hooks and camera unchanged |
| App.FireIdle | Face+Chat/main.py:138-149 | a pending idle callback firing goes idle with the camera released; a cancelled id changes nothing |
| App.StartupInv | Face+Chat/main.py:63-87 | startup registers the screens, shows home once, arms one idle callback and establishes the invariant |
| App.StepInv | Face+Chat/main.py:97-157 | every input (navigation to a registered screen, the two toggles, activity, a timer firing) keeps the invariant and the registered screens and only extends the hook log |
| App.RunInv | Face+Chat/main.py:97-157 | over any input sequence navigating to registered screens: one screen shown and it is current, hooks alternate, at most one idle callback pending |
| App.IdleRoundTrip | Face+Chat/main.py:138-157 | from startup with a working camera, the timeout goes idle with the camera released and the next activity returns home with it open again |
| App.Startup | Face+Chat/main.py:25-87 | the state after `__init__`: camera opened, four screens registered, home shown, idle timer armed; `StartupInv` proves its invariant |
| App.AfterShow | Face+Chat/main.py:97-111 | `show(name)`: hide the current screen, update `_last_non_settings` and `current`, then (if registered) show, set the gear label and reset the idle timer; `ShowRegistered` and `ShowUnregistered` state both cases |
| App.AfterReset | Face+Chat/main.py:138-145 | `_reset_idle_timer`: cancel the recorded id, arm a fresh one unless idle, keeping the stale id while idle; used by `ShowRegistered` and `ActivityWhileActive` |
| App.AfterToggleSettings | Face+Chat/main.py:113-117 | the gear button's target, proved in `ToggleSettingsTarget` and `ToggleSettingsTwice` |
| App.AfterToggleChat | Face+Chat/main.py:119-124 | the centre button's target, proved in `ToggleChatTarget` |
| App.AfterGoIdle | Face+Chat/main.py:147-149 | `_go_idle`: show idle, then release the camera; proved in `GoIdleReleases` |
| App.AfterActivity | Face+Chat/main.py:151-157 | `on_activity`: from idle show home and reopen the camera, else reset the timer; proved in `ActivityWhileIdle` and `ActivityWhileActive` |
| App.AfterFire | Face+Chat/main.py:145-149 | the scheduler running a callback: `_go_idle` if still pending, nothing otherwise; proved in `FireIdle` |
| App.AfterClose | Face+Chat/main.py:159-161 | `on_close`: release the camera and mark the window destroyed |
| App.AfterRegister | Face+Chat/main.py:92-95 | `register_screen`: add the name to the registry |
| App.Step | Face+Chat/main.py:97-157 | one user or timer input dispatched to its handler; `StepInv` proves it keeps the invariant |
| App.Run | Face+Chat/main.py:97-157 | a sequence of inputs in order; `RunInv` proves the invariant over any sequence |
| App.AppWindow.constructor | Face+Chat/main.py:25-87 | the window starts in the state `Startup` describes |
| App.AppWindow.RegisterScreen | Face+Chat/main.py:92-95 | a screen is added to the registry |
| App.AppWindow.ResetIdleTimer | Face+Chat/main.py:138-145 | the recorded callback is cancelled and a fresh one armed unless idle |
| App.AppWindow.Show | Face+Chat/main.py:97-111 | `show` moves the state as `AfterShow` says and reports the `KeyError` case |
| App.AppWindow.ToggleSettings | Face+Chat/main.py:113-117 | the gear button moves the state as `AfterToggleSettings` says |
| App.AppWindow.ToggleChat | Face+Chat/main.py:119-124 | the centre button moves the state as `AfterToggleChat` says |
| App.AppWindow.GoIdle | Face+Chat/main.py:147-149 | `_go_idle` moves the state as `AfterGoIdle` says |
| App.AppWindow.Fire | Face+Chat/main.py:145 | the scheduler running callback `id` moves the state as `AfterFire` says |
| App.AppWindow.OnActivity | Face+Chat/main.py:151-157 | `on_activity` moves the state as `AfterActivity` says |
| App.AppWindow.OnClose | Face+Chat/main.py:159-161 | closing releases the camera and destroys the window |
| Camera.AfterOpen | Face+Chat/shared/camera.py:18-28 | `open` does nothing without OpenCV or with a device already open; otherwise the device is open exactly when acquisition yields an opened handle, and an exception empties the slot |
| Camera.AfterRelease | Face+Chat/shared/camera.py:39-42 | `release` empties the slot and releases an open device exactly once |
| Camera.FrameFrom | Face+Chat/shared/camera.py:30-37 | a frame is returned exactly when the device is open and the read succeeds, and it is the frame read |
| Camera.OpenIdempotent | Face+Chat/shared/camera.py:21-22 | once the device is open, opening again changes nothing |
| Camera.ReleaseIdempotent | Face+Chat/shared/camera.py:39-42 | releasing twice is releasing once, and afterwards no frame can be read |
| Camera.CameraManager.constructor | Face+Chat/shared/camera.py:11-16 | the manager keeps index and size, starts with an empty slot and opens the device |
| Camera.CameraManager.Open | Face+Chat/shared/camera.py:18-28 | `open` moves the state as `AfterOpen` says |
| Camera.CameraManager.ReadRgbFrame | Face+Chat/shared/camera.py:30-37 | a frame is returned exactly when the device is open and the read succeeds |
| Camera.CameraManager.Release | Face+Chat/shared/camera.py:39-42 | `release` moves the state as `AfterRelease` says |
| Clock.Hour12 | Face+Chat/shared/utils.py:3 | `%I` is between 1 and 12 and agrees with the hour modulo 12 |
| Clock.Meridiem | Face+Chat/shared/utils.py:5 | `%p` is two characters |
| Clock.StrippedPad | Face+Chat/shared/utils.py:3 | stripping the leading zero of a two-digit 1..12 field gives its decimal digits |
| Clock.HourTextIsHour12 | Face+Chat/shared/utils.py:3 | the hour text is the 12-hour hour in decimal, one or two digits, no leading zero, never empty (the `or "0"` never fires) |
| Clock.TimePieces | Face+Chat/shared/utils.py:6 | the hour, minute and suffix can be cut back out of `h:mm p` |
| Clock.MeridiemHour | Face+Chat/shared/utils.py:3-5 | AM exactly before noon; the 12-hour hour and the meridiem give back the 24-hour hour |
| Clock.TimeStringRoundTrip | Face+Chat/shared/utils.py:2-8 | the time string has the shape `H:MM AM/PM` and reads back to the hour and minute it came from |
| Clock.DateStringRoundTrip | Face+Chat/shared/utils.py:7 | the date string has the shape `MM/DD/YYYY` and reads back to month, day and year |
| Clock.Hour12Meridiem | Face+Chat/shared/utils.py:3-5 | equal 12-hour hours with equal meridiems mean equal hours |
| Clock.TimeTextPieces | Face+Chat/shared/utils.py:6 | equal time strings have equal hour, minute and suffix pieces |
| Clock.TimeStringDeterminesClock | Face+Chat/shared/utils.py:2-8 | two readings with the same time string agree on hour and minute |
| Clock.HourText | Face+Chat/shared/utils.py:3 | `strftime("%I").lstrip("0") or "0"`; `HourTextIsHour12` proves it is the decimal 12-hour hour |
| Clock.TimeText | Face+Chat/shared/utils.py:3-6 | `f"{hour}:{minute} {ampm}"`; `TimeStringRoundTrip` proves its shape and read-back |
| Clock.DateText | Face+Chat/shared/utils.py:7 | `strftime("%m/%d/%Y")`; `DateStringRoundTrip` proves its shape and read-back |
| Clock.TimeStrings | Face+Chat/shared/utils.py:2-8 | `time_strings(dt)`: the pair of time and date texts; `TimeStringDeterminesClock` proves the time text fixes hour and minute |
| Capture.InitialConsistent | GUIproject/screens/capture.py:31-52 | a new screen's counter, label and Space binding agree |
| Capture.LifecycleConsistent | GUIproject/screens/capture.py:55-89 | render passes, showing and hiding keep the counter equal to the photos written, the label showing it, and at most one Space handler |
| Capture.CaptureConsistent | GUIproject/screens/capture.py:98-129 | a capture keeps the counter equal to the photos written, with the label showing it |
| Capture.NameTrimmed | GUIproject/screens/capture.py:99 | the subject name is never empty and has no surrounding whitespace |
| Capture.DefaultTrimmed | GUIproject/screens/capture.py:99 | the default subject is already trimmed |
| Capture.NameDefault | GUIproject/screens/capture.py:99 | a blank entry gives `Subject1`; a trimmed non-blank entry is used as typed |
| Capture.StampRoundTrip | GUIproject/screens/capture.py:107 | the time stamp has the shape `YYYYmmdd_HHMMSS` and each field reads back to the clock reading |
| Capture.StampInjective | GUIproject/screens/capture.py:107 | captures at different seconds get different stamps |
| Capture.FileNameShape | GUIproject/screens/capture.py:108 | the file name is the subject, `_`, the 15-character stamp and `.jpg`; subject and stamp can be cut back out |
| Capture.CaptureRule | GUIproject/screens/capture.py:98-129 | without a frame only a "No Frame" warning; otherwise the folder is created and the frame is written and counted if OpenCV or PIL wrote it, or "Save Failed" with PIL's error and no count; nothing else changes |
| Capture.PhotoPath | GUIproject/screens/capture.py:92-109 | a relative subject's photo lands at `<root>/dataset/<name>/<name>_<stamp>.jpg` |
| Capture.FolderPath | GUIproject/screens/capture.py:92-96 | a relative subject's folder is `<root>/dataset/<name>` with no trailing slash |
| Capture.FileNameStart | GUIproject/screens/capture.py:108 | the file name starts with the subject's first character |
| Capture.RenderRule | GUIproject/screens/capture.py:71-89 | a render pass only replaces the kept frame by one just read; a stopped loop, closed camera or failed read keeps it |
| Capture.HideStopsRender | GUIproject/screens/capture.py:66-73 | after `on_hide` a render pass does nothing |
| Capture.BindOnce | GUIproject/screens/capture.py:62-64 | showing the screen again never adds a second Space handler |
| Capture.CaptureName | GUIproject/screens/capture.py:99 | `name_var.get().strip() or "Subject1"`; `NameTrimmed` and `NameDefault` prove it |
| Capture.Stamp | GUIproject/screens/capture.py:107 | `strftime("%Y%m%d_%H%M%S")`; `StampRoundTrip` and `StampInjective` prove it |
| Capture.FileName | GUIproject/screens/capture.py:108 | `f"{name}_{ts}.jpg"`; `FileNameShape` proves it |
| Capture.Folder | GUIproject/screens/capture.py:92-96 | `<root>/dataset/<name>`; `FolderPath` and `PhotoPath` prove it |
| Capture.CountText | GUIproject/screens/capture.py:129 | the counter label `Saved: <n>`, kept in step by `Consistent` |
| Capture.Initial | GUIproject/screens/capture.py:31-52 | the state `__init__` sets up; `InitialConsistent` proves it consistent |
| Capture.AfterRender | GUIproject/screens/capture.py:71-89 | one `_render_loop` pass; `RenderRule` and `HideStopsRender` prove it |
| Capture.AfterShow | GUIproject/screens/capture.py:55-64 | `on_show`: open the camera, start the loop, bind Space once; `BindOnce` and `LifecycleConsistent` prove it |
| Capture.AfterHide | GUIproject/screens/capture.py:66-68 | `on_hide`: stop the loop; `HideStopsRender` proves it |
| Capture.AfterCapture | GUIproject/screens/capture.py:98-129 | `capture()`: the no-frame warning, or the folder, the path and the save; `CaptureRule` and `CaptureConsistent` prove it |
| Capture.AfterSave | GUIproject/screens/capture.py:112-129 | the OpenCV write, the PIL fallback, the error box and the count; stated in `CaptureRule` |
| Capture.CaptureScreen.constructor | GUIproject/screens/capture.py:31-52 | a new screen is in the `Initial` state over the shared camera |
| Capture.CaptureScreen.RenderLoop | GUIproject/screens/capture.py:71-89 | one render tick moves the state as `AfterRender` says |
| Capture.CaptureScreen.OnShow | GUIproject/screens/capture.py:55-64 | `on_show` moves the state as `AfterShow` says |
| Capture.CaptureScreen.OnHide | GUIproject/screens/capture.py:66-68 | `on_hide` stops the loop |
| Capture.CaptureScreen.EnsureFolder | GUIproject/screens/capture.py:92-96 | the folder returned is `Folder(root, name)` and is recorded as created |
| Capture.CaptureScreen.Capture | GUIproject/screens/capture.py:98-129 | `capture` moves the state as `AfterCapture` says |
| Capture.CaptureScreen.Save | GUIproject/screens/capture.py:112-129 | the save and count steps move the state as `AfterSave` says |
| Capture.CaptureScreen.OnSpace | GUIproject/screens/capture.py:131-133 | Space captures exactly like the button |
| Chat.PlacementKept | GUIproject/screens/chat.py:58-102 | every bubble sits in the row equal to its position, in its sender's lane, and showing, sending and replying keep that |
| Chat.WithMessagePlaced | GUIproject/screens/chat.py:68-72 | a new bubble goes in the next free row in its sender's lane |
| Chat.GreetOnce | GUIproject/screens/chat.py:46-51 | the greeting is posted on the first show only, as a bot bubble in row 0, left lane |
| Chat.SendRule | GUIproject/screens/chat.py:87-102 | a blank entry changes nothing (both directions); otherwise the entry is cleared, the stripped text is the user's bubble in the right lane, and its reply is queued after the pending ones |
| Chat.UserBeforeReply | GUIproject/screens/chat.py:87-102 | the user's text is posted before its reply, which lands in the next row of the left lane; without an assistant the reply is the loading text |
| Chat.Lane | GUIproject/screens/chat.py:69-72 | column 2 for the user and column 0 for anyone else |
| Chat.WithMessage | GUIproject/screens/chat.py:58-74 | `add_message`: a bubble in the next row and its sender's lane; `WithMessagePlaced` proves it |
| Chat.AfterShow | GUIproject/screens/chat.py:46-51 | `on_show`: greet on the first show; `GreetOnce` proves it |
| Chat.AfterSend | GUIproject/screens/chat.py:87-102 | `_on_send`: ignore blank, otherwise clear, post and queue the reply; `SendRule` proves it |
| Chat.AfterReply | GUIproject/screens/chat.py:94-99 | the deferred `bot_reply`: the loading text without an assistant, else the assistant's reply, nothing when it raises; `UserBeforeReply` and `PlacementKept` prove it |
| Chat.ChatScreen.constructor | GUIproject/screens/chat.py:4-8 | a new chat screen is ungreeted and empty |
| Chat.ChatScreen.AddMessage | GUIproject/screens/chat.py:58-74 | `add_message` moves the state as `WithMessage` says |
| Chat.ChatScreen.OnShow | GUIproject/screens/chat.py:46-51 | `on_show` moves the state as `AfterShow` says |
| Chat.ChatScreen.OnSend | GUIproject/screens/chat.py:87-102 | `_on_send` moves the state as `AfterSend` says |
| Chat.ChatScreen.BotReply | GUIproject/screens/chat.py:94-99 | the oldest deferred `bot_reply` posts the assistant's answer, or the loading text without an assistant |
| Text.StripStart | GUIproject/screens/chat.py:88 | `lstrip` keeps a suffix whose first character is not whitespace and drops only whitespace |
| Text.StripEnd | GUIproject/screens/chat.py:88 | `rstrip` keeps a prefix whose last character is not whitespace and drops only whitespace |
| Text.StripEmptyIffBlank | GUIproject/screens/chat.py:88-89 | the stripped text is empty exactly when the input is all whitespace |
| Text.StripIdempotent | GUIproject/screens/capture.py:99 | a stripped string has no surrounding whitespace, and stripping again changes nothing |
| Text.StripFixed | GUIproject/screens/capture.py:99 | a string with no surrounding whitespace is its own strip |
| Text.LStripChar | Face+Chat/shared/utils.py:3 | `lstrip("0")` drops exactly the leading zeros |
| Text.NatToString | GUIproject/screens/capture.py:129 | `str(n)` is non-empty decimal digits, with a leading zero only for 0, reading back to `n` |
| Text.Pad2 | Face+Chat/shared/utils.py:4 | a two-digit field is two digits reading back to its value |
| Text.Pad4 | Face+Chat/shared/utils.py:7 | a four-digit year field is four digits reading back to its value |
| Text.DigitsValueAppend | GUIproject/screens/capture.py:107 | reading concatenated digits is reading the first part shifted plus the second |
| Text.Split | GUIproject/screens/train_faces.py:119 | `split` gives at least one piece, no piece contains the separator, and joining the pieces gives the input back |
| Text.Join | GUIproject/screens/capture.py:94 | `os.path.join` gives an absolute second part as it is, and otherwise joins with one slash |
| Text.Strip | GUIproject/screens/chat.py:88 | `str.strip()`; `StripEmptyIffBlank`, `StripIdempotent` and `StripFixed` prove it |
| FaceId.Trunc | GUIproject/shared/faceid.py:20 | `int(x)` truncates toward zero |
| FaceId.ClampScalerBounds | GUIproject/shared/faceid.py:20 | the scaler is at least 1, the truncated request when that is at least 1, and 1 below that |
| FaceId.ArgMin | GUIproject/shared/faceid.py:68 | `argmin` is an index of the smallest distance, before which every distance is larger |
| FaceId.FirstMinUnique | GUIproject/shared/faceid.py:68 | an index is the first minimum exactly when it is `ArgMin` |
| FaceId.Distances | GUIproject/shared/faceid.py:67 | one distance per known encoding, each the distance to the face |
| FaceId.NameRule | GUIproject/shared/faceid.py:61-72 | a face gets the name at the first closest known encoding when that one matches, and "Unknown" when it does not |
| FaceId.NameTotal | GUIproject/shared/faceid.py:62-72 | no known encodings gives "Unknown"; with at least as many names as encodings a name is always found, and it is a known name or "Unknown" |
| FaceId.Upscale | GUIproject/shared/faceid.py:74-76 | one box per detected box |
| FaceId.UpscaleInverts | GUIproject/shared/faceid.py:74-76 | every coordinate is multiplied by the scaler, and dividing gives the detected box back |
| FaceId.ReloadReplaces | GUIproject/shared/faceid.py:79-99 | reload succeeds exactly when the file exists and then holds that file's store; a missing file empties it; the old store is forgotten, so reloading twice is reloading once; no path and an empty path both mean `<root>/encodings.pickle` |
| FaceId.FaceIdentifier.constructor | GUIproject/shared/faceid.py:19-30 | the scaler is clamped; the store is loaded exactly when the library imported and the file exists, and is empty otherwise |
| FaceId.FaceIdentifier.AnnotatePil | GUIproject/shared/faceid.py:36-77 | disabled (no library, nothing loaded, no image) gives empty lists; otherwise upscaled boxes and one `NameFor` name per encoding, failing where `names[best]` raises |
| FaceId.FaceIdentifier.Reload | GUIproject/shared/faceid.py:79-99 | `reload` moves the store as `AfterReload` says and keeps the scaler |
| FaceId.ClampScaler | GUIproject/shared/faceid.py:20 | `max(1, int(scaler))`; `ClampScalerBounds` proves it |
| FaceId.NameFor | GUIproject/shared/faceid.py:62-72 | the label of one face: "Unknown" without encodings, else the first closest known name when it matches; `NameRule` and `NameTotal` prove it |
| FaceId.ReloadPath | GUIproject/shared/faceid.py:82-90 | a non-empty given path, else `<root>/encodings.pickle`; stated in `ReloadReplaces` |
| FaceId.AfterReload | GUIproject/shared/faceid.py:91-99 | `reload`: load the file when it exists, else empty the store; `ReloadReplaces` proves it |
| Bot.Fields | GUIproject/shared/bot.py:43 | the pieces between non-word characters are at least one |
| Bot.NonEmptyAppend | GUIproject/shared/bot.py:43 | dropping empty pieces distributes over concatenation |
| Bot.RunsAreFields | GUIproject/shared/bot.py:43 | the scanning `findall` equals the non-empty fields, with the run already read prefixed |
| Bot.FindAllIsFields | GUIproject/shared/bot.py:43 | `findall(r"[A-Za-z']+")` is the non-empty pieces between characters outside the class |
| Bot.FieldsAreWords | GUIproject/shared/bot.py:43 | every field consists of word characters only |
| Bot.NonEmptyKeeps | GUIproject/shared/bot.py:43 | every kept piece is non-empty and one of the inputs |
| Bot.LowerWord | GUIproject/shared/bot.py:50 | lower-casing keeps the length and maps each character |
| Bot.FallbackTokens | GUIproject/shared/bot.py:34-51 | without NLTK, no text and empty text give no tokens, and every token is a non-empty run of lower-case letters and apostrophes |
| Bot.Bag | GUIproject/shared/bot.py:80-81 | one entry per vocabulary word |
| Bot.BagCounts | GUIproject/shared/bot.py:80-81 | entry `k` is 1 exactly when vocabulary word `k` occurs in the input, 0 otherwise; over a duplicate-free vocabulary the entries add up to the number of vocabulary words present |
| Bot.LessIrreflexive | GUIproject/shared/bot.py:99 | string `<` is irreflexive |
| Bot.LessTotal | GUIproject/shared/bot.py:99 | string `<` is total |
| Bot.LessTransitive | GUIproject/shared/bot.py:99 | string `<` is transitive |
| Bot.LessAsymmetric | GUIproject/shared/bot.py:99 | string `<` is asymmetric |
| Bot.Insert | GUIproject/shared/bot.py:99 | inserting keeps a list strictly sorted and adds exactly the new word |
| Bot.SortedSet | GUIproject/shared/bot.py:99 | `sorted(set(xs))` is strictly sorted with exactly the elements of `xs` |
| Bot.SortedEverywhere | GUIproject/shared/bot.py:99 | in a strictly sorted list any earlier word is smaller and different |
| Bot.SortedDistinct | GUIproject/shared/bot.py:99 | a strictly sorted list has no duplicates |
| Bot.PatternDocs | GUIproject/shared/bot.py:95-98 | one document per pattern |
| Bot.FirstResponsesSnoc | GUIproject/shared/bot.py:92-94 | the first entry carrying a tag keeps its responses when more entries follow |
| Bot.ParseInvariant | GUIproject/shared/bot.py:88-98 | after any number of intents: each tag listed once and never empty; responses exactly for the listed tags, from their first entry; one document per pattern, repeated tags included; the word list is every pattern's tokens in order |
| Bot.ParseFileFacts | GUIproject/shared/bot.py:83-99 | a missing file leaves everything empty; otherwise tags, responses and documents are as the loop left them and the vocabulary is sorted, duplicate-free and exactly the pattern words |
| Bot.ParseIntents | GUIproject/shared/bot.py:83-99 | the parsing loop computes `ParseFile` |
| Bot.ParseOne | GUIproject/shared/bot.py:89-98 | one intent is processed as `AddIntent` says |
| Bot.TokenizePatterns | GUIproject/shared/bot.py:95-98 | the inner loop yields every pattern's tokens in order and one document per pattern |
| Bot.ReplyCases | GUIproject/shared/bot.py:106-147 | the "not loaded" text whenever the model is not loaded or there are no intents or no vocabulary; otherwise the network's shape error, whatever the text, when the vocabulary's size is not the trained `input_size`; otherwise a failure exactly when the predicted class is beyond the intents, else one of the predicted intent's responses, or the "no response" text when it has none |
| Bot.ChatbotAssistant.constructor | GUIproject/shared/bot.py:58-77 | construction parses the intents file and, exactly when both model files exist, records the network's `input_size` from the dimensions file |
| Bot.ChatbotAssistant.Reply | GUIproject/shared/bot.py:119-147 | `reply` returns `ReplyFor` of the assistant's state, including the shape error of a vocabulary that no longer fits the network |
| Bot.FindAll | GUIproject/shared/bot.py:43 | `re.findall(r"[A-Za-z']+", s)`; `FindAllIsFields` and `FieldsAreWords` prove it |
| Bot.Tokenize | GUIproject/shared/bot.py:34-51 | `safe_tokenize_and_lemmatize`: NLTK's tokens lower-cased, or the regex fallback; `FallbackTokens` proves the fallback |
| Bot.AddIntentStep | GUIproject/shared/bot.py:89-98 | one pass of the intents loop keeps those facts: tags listed once and never empty, first responses per tag, one document per pattern, the word list in order, now counting the new entry |
| Bot.AddIntent | GUIproject/shared/bot.py:89-98 | one pass of the intents loop; `ParseInvariant` proves what it keeps |
| Bot.ParsePrefix | GUIproject/shared/bot.py:88-98 | the loop after `k` intents; `ParseInvariant` proves it |
| Bot.ParseFile | GUIproject/shared/bot.py:83-99 | `_parse_intents`: nothing for a missing file, else the loop and `sorted(set(vocabulary))`; `ParseFileFacts` proves it |
| Bot.ReplyFor | GUIproject/shared/bot.py:119-147 | `reply(text)`: the not-loaded guard, the network's shape error, the index error, the random response or the no-response text; `ReplyCases` proves each case |
| TrainFaces.Max1 | GUIproject/screens/train_faces.py:162 | `max(1, n)` is at least 1 and at least `n`, and is `n` when `n` is positive |
| TrainFaces.DatasetDirTrimmed | GUIproject/screens/train_faces.py:78 | the dataset directory is non-empty and trimmed, and is `dataset` exactly when the entry is blank or says `dataset` |
| TrainFaces.StartRule | GUIproject/screens/train_faces.py:74-94 | a run starts only when none is alive and the folder exists: it clears the log to the start line, zeroes bar and counter, and lowers the stop flag; a refusal only adds the matching dialog |
| TrainFaces.SplitLastPiece | GUIproject/screens/train_faces.py:119 | splitting `x/b` with no slash in `b` is splitting `x` with `b` as the last piece |
| TrainFaces.LabelIsParentFolder | GUIproject/screens/train_faces.py:119 | an image at `<dataset>/<person>/<file>` is labelled `person` |
| TrainFaces.LabelAtDatasetRoot | GUIproject/screens/train_faces.py:119 | an image directly in the dataset folder is labelled with the dataset folder's last component |
| TrainFaces.HarvestSnoc | GUIproject/screens/train_faces.py:134-136 | the training data of one more image is the old data plus that image's encodings under its label |
| TrainFaces.HarvestPrefix | GUIproject/screens/train_faces.py:134-136 | the training data of the first `k` images extends that of the first `k - 1` |
| TrainFaces.ProgressAppend | GUIproject/screens/train_faces.py:121 | progress numbers distribute over concatenated messages |
| TrainFaces.VisitReported | GUIproject/screens/train_faces.py:115-136 | one iteration keeps the progress numbering gap-free and the messages to log lines and progress |
| TrainFaces.AnnouncedReported | GUIproject/screens/train_faces.py:120-121 | an image's log line and progress extend the numbering by that image |
| TrainFaces.WarnReported | GUIproject/screens/train_faces.py:123-126 | a warning line leaves the numbering as it was |
| TrainFaces.ScanProgress | GUIproject/screens/train_faces.py:115-136 | the loop posts progress for images 1, 2, ... in order without gaps, against the full total, with only log and progress messages, encodings and names in step |
| TrainFaces.ScanAbsorbs | GUIproject/screens/train_faces.py:116-117 | once the loop stopped or raised, later iterations change nothing |
| TrainFaces.StopHonoured | GUIproject/screens/train_faces.py:116-117 | no image at or after the one before which the stop flag is seen is processed |
| TrainFaces.VisitHarvested | GUIproject/screens/train_faces.py:115-136 | one iteration keeps the collected data equal to the training data of the images reported |
| TrainFaces.ScanHarvest | GUIproject/screens/train_faces.py:112-136 | unless it raised, the loop has collected exactly the training data of the images it reported |
| TrainFaces.WorkerResult | GUIproject/screens/train_faces.py:96-151 | a run posts the total first (once set up), then only logs and progress, and ends with exactly one `done` (pickle written, with its path) or `error`; the pickle holds the training data of every image reported, even after a stop |
| TrainFaces.ScanImages | GUIproject/screens/train_faces.py:115-136 | the loop computes `Scan` over all images |
| TrainFaces.VisitImage | GUIproject/screens/train_faces.py:116-136 | one loop body computes `Visit` |
| TrainFaces.ApplyAllAppend | GUIproject/screens/train_faces.py:153-186 | pumping in two batches is pumping once, so how timer ticks split the queue does not matter |
| TrainFaces.ApplyEffect | GUIproject/screens/train_faces.py:157-182 | one message adds its own lines and dialog, keeps the bar maximum at least 1, and never adds or removes the home recogniser |
| TrainFaces.ApplyAllEffect | GUIproject/screens/train_faces.py:153-186 | the pump appends exactly the messages' lines in queue order, one "Training Error" dialog per error message, keeps the bar maximum at least 1, and never adds or removes the home recogniser |
| TrainFaces.ErrorDialogsAppend | GUIproject/screens/train_faces.py:180-182 | error dialogs distribute over concatenated messages |
| TrainFaces.NoErrorDialogs | GUIproject/screens/train_faces.py:180-182 | messages without errors raise no dialog |
| TrainFaces.FinalDialog | GUIproject/screens/train_faces.py:169-182 | a list ending in its only final message raises one dialog if that is an error, none otherwise |
| TrainFaces.WorkerDialogs | GUIproject/screens/train_faces.py:139-182 | pumping a whole run shows exactly one error dialog, with the exception's text, when the pickle was not written, and none when it was |
| TrainFaces.PumpProgress | GUIproject/screens/train_faces.py:160-168 | a progress message sets the counter to `i / total` and the bar to `i` out of at least 1, and log lines after it keep them; a total resets the counter to `0 / total` |
| TrainFaces.QuietKeepsProgress | GUIproject/screens/train_faces.py:158-159 | log lines leave bar, maximum and counter unchanged |
| TrainFaces.TrainFacesScreen.constructor | GUIproject/screens/train_faces.py:39-66 | the entry reads `dataset`, the counter `0 / 0`, no worker, an empty queue |
| TrainFaces.TrainFacesScreen.StartTraining | GUIproject/screens/train_faces.py:74-94 | `start_training` moves the screen as `AfterStart` says |
| TrainFaces.TrainFacesScreen.TrainWorker | GUIproject/screens/train_faces.py:88-151 | a started worker appends `WorkerMsgs` to the queue and writes `WorkerSaved` to `<root>/encodings.pickle`; the thread then ends |
| TrainFaces.TrainFacesScreen.DrainLogs | GUIproject/screens/train_faces.py:153-186 | one pump tick applies the whole queue in order and empties it |
| TrainFaces.TrainFacesScreen.Handle | GUIproject/screens/train_faces.py:157-182 | one message changes the widgets as `Apply` says and nothing else |
| TrainFaces.NoDoneKeepsHome | GUIproject/screens/train_faces.py:157-182 | messages other than `done` leave the home recogniser untouched |
| TrainFaces.PickleReachesHome | GUIproject/screens/train_faces.py:139-177 | once a run that wrote its pickle is pumped, the home recogniser holds exactly the saved encodings and names, marked loaded |
| TrainFaces.DatasetDir | GUIproject/screens/train_faces.py:78 | `dataset_var.get().strip() or "dataset"`; `DatasetDirTrimmed` proves it |
| TrainFaces.AfterStart | GUIproject/screens/train_faces.py:74-94 | `start_training`: the already-running box, the not-found box, or the reset and start; `StartRule` proves it |
| TrainFaces.LabelOf | GUIproject/screens/train_faces.py:119 | `imagePath.split(os.path.sep)[-2]`; `LabelIsParentFolder` and `LabelAtDatasetRoot` prove it |
| TrainFaces.Visit | GUIproject/screens/train_faces.py:115-136 | one loop iteration; `VisitReported` and `VisitHarvested` prove what it keeps |
| TrainFaces.Scan | GUIproject/screens/train_faces.py:115-136 | the loop after `k` images; `ScanProgress`, `ScanAbsorbs`, `StopHonoured` and `ScanHarvest` prove it |
| TrainFaces.Harvest | GUIproject/screens/train_faces.py:134-136 | the reference training data of a list of images; `ScanHarvest` ties the loop to it |
| TrainFaces.WorkerMsgs | GUIproject/screens/train_faces.py:101-151 | every message `_train_worker` posts; `WorkerResult` and `WorkerDialogs` prove their order and ending |
| TrainFaces.WorkerSaved | GUIproject/screens/train_faces.py:139-145 | the pickle a run writes; `WorkerResult` and `PickleReachesHome` prove what it holds and where it goes |
| TrainFaces.Apply | GUIproject/screens/train_faces.py:157-182 | one message of `_drain_logs`; `ApplyEffect`, `PumpProgress` and `QuietKeepsProgress` prove it |
| TrainFaces.ApplyAll | GUIproject/screens/train_faces.py:153-186 | the queue pumped in order; `ApplyAllAppend` and `ApplyAllEffect` prove it |

## Left out

- Drawing and layout: widget placement, fonts, colours, the preview's resize
  and letterboxing, bubble wrap width, scrolling and keyboard focus. These are
  presentation only.
- Threads: the training worker runs to completion as one step, and the UI pump
  drains the queue per tick. The worker posts in FIFO order and
  `ApplyAllAppend` shows the split into ticks does not matter, so any
  interleaving of posts and ticks gives the same widgets.
- Wall-clock time: the `after` delays (10 s idle, 33 ms preview, 50/100 ms
  pump, 1 s clock, 10 ms bot reply) are not modelled. A timer firing is an
  operation of its own. `update_clock`'s re-arming is left out, and its
  formatting is `Clock.TimeStrings`.
- Libraries: OpenCV, `face_recognition`, PIL, NLTK, torch and pickle are
  inputs or opaque values. The network's prediction is a function from the
  bag of words to a class index. `random.choice` is an index taken modulo the
  number of responses.
- File system: directories that exist are a set, pickles are a map from path
  to store, and `os.makedirs` errors are not modelled.
- Bot.ChatbotAssistant.constructor: `_load_model` is reduced to the
  `input_size` read from the dimensions file when both files exist. Loading
  the weights, `output_size`, and the exceptions `torch.load`,
  `load_state_dict` or `json.load` may raise, are not modelled.
- `function_mappings` in `reply` is left out. It only triggers optional side
  effects whose exceptions are swallowed.
- The FPS bookkeeping of `annotate_pil` is left out. It reads the clock and
  does not affect boxes or names.
- Pickle `.get` defaults: a pickle is taken to hold both `encodings` and
  `names`.
- FaceId.Upscale: box coordinates are unbounded integers. NumPy's integer
  width is not modelled.
- Clock.TimeStrings: years are limited to 1000..9999, so `%Y` is four digits.
- Clock.Meridiem: `%p` gives "AM"/"PM" only under the C or an English
  `LC_TIME` locale, which the model takes as given; other locales' names
  are not modelled.
- The training stop flag is never raised by the source. It is an input that is
  read before each image.
- TrainFaces.TrainFacesScreen.Handle: an exception from `reload` is
  swallowed by the source. The model's reload does not raise, so that path
  is not modelled.
- Chat.ChatScreen.BotReply: an exception from `assistant.reply` escapes the
  callback and posts nothing. The model does the same; Tk's error report is
  not modelled.
- Capture: each `on_show` schedules another `_render_loop` chain while the old
  one may still be pending. The model treats a render tick as one operation
  and does not count concurrent chains.
- The `Back` button's `app.show("settings")` is `App.AppWindow.Show`.
- Capture: `_ensure_folder`'s project root is a constructor parameter.
- The settings, home and idle screens' own bodies, and the `on_show`/`on_hide`
  calls the controller makes, are recorded as hooks rather than executed.
