# Hanbat-Agent UI core, modelled in Dafny

Hanbat-Agent ("한밭메이트") is a Next.js front end for a university chat assistant.
This project models the client-side logic of its pages. Markup, styling and the
network are not modelled.

- **Landing page** (`app/page.tsx`):
  - a composer with an attachment tray and a preview overlay;
  - model and tool selection, including the dialog that asks before leaving the `hanbat` model;
  - `handleSend`, which stores a snapshot of the composer in session storage and navigates to `/chat`.
- **Chat page** (`app/chat/page.tsx`):
  - the same tray and tools, plus a transcript fed by a mocked reply generator driven by `setTimeout`;
  - message editing, like and dislike, the thinking panel, regeneration and verification;
  - the new-chat dialog;
  - the mount effect `inheritState`, which consumes the landing page's snapshot once.
- **Sign-up wizard** (`app/components/forms/SignUpForm.tsx`): six steps with a Google shortcut, an auto-advance effect and the final submission.
- **Older stand-alone sign-up page** (`app/auth/signup/page.tsx`), modelled separately.
- **Login form** and **password-reset form** (`app/components/forms/LoginForm.tsx`, `app/components/forms/forgotForm.tsx`).

Structure:

- Each component with state is a `class`. Its fields are the component's `useState` variables.
- Each handler is a method, proved against a pure transition function on a state datatype. A method's `ensures` ties the new state to that function of the old one.
- Lemmas state what the transitions promise.
- Firebase results, clock-based ids and `file.text()` results are inputs to the handlers.
- Object URLs are numeric handles handed out by a counter. The ghost set of live handles states the release discipline:
  - A handle is created by `URL.createObjectURL` and is live until `URL.revokeObjectURL`.
  - Every live handle is held by exactly one of: an attached item's thumbnail, the preview, or a sent message.

Modules, one per file:

| file | module | role |
|---|---|---|
| `common.dfy` | `Common` | shared vocabulary |
| `text.dfy` | `Text` | JavaScript string operations |
| `file_kinds.dfy` | `FileKinds` | extension table, extension helpers |
| `attachments.dfy` | `Attachments` | attachment tray and preview, shared by both pages; a `Page` parameter selects where the two copies differ |
| `transcript.dfy` | `Transcript` | chat messages and their updates |
| `tools.dfy` | `Tools` | model and tool selection |
| `handoff.dfy` | `Handoff` | the session-storage snapshot between the pages |
| `chat_page.dfy` | `ChatApp` | the chat page |
| `landing_page.dfy` | `LandingApp` | the landing page |
| `signup_form.dfy` | `SignUp` | the sign-up wizard |
| `legacy_signup.dfy` | `LegacySignUp` | the older sign-up page |
| `login_form.dfy` | `Login` | the login form |
| `forgot_form.dfy` | `Forgot` | the password-reset form |

## Model

| member | source | states |
|---|---|---|
| Text.Trim | app/chat/page.tsx:431-444 | `trim()` returns the contiguous piece of the input that starts after its leading white space and has no white space at either end; everything cut away on either side is ECMAScript white space |
| Text.LowerNormalises | app/chat/page.tsx:108-118 | ASCII lower-casing yields a lower-case string, leaves lower-case strings unchanged, and is idempotent |
| Text.AfterLastDot | app/chat/page.tsx:393 | `split('.').pop()` is the suffix after the last `.`; it contains no `.`, and it is the whole name exactly when the name has no `.` |
| FileKinds.CategoryOfExtension | app/chat/page.tsx:108-118 | `getFileCategory` gives `other` exactly when no list holds the lower-cased extension; otherwise the category's own list holds it and the list of no earlier category does |
| FileKinds.CategoryIgnoresCase | app/page.tsx:75-85 | the classification is the same for an extension and its lower-case form |
| FileKinds.TxtIsDocument | app/chat/page.tsx:108-118 | `txt` and `TXT` are documents |
| FileKinds.MdIsDocumentNotPreviewable | app/chat/page.tsx:484-489 | `md` is a document, but unlike `txt` it is not previewable |
| FileKinds.OggIsAudio | app/chat/page.tsx:108-118 | `ogg` is audio: the video list, tested before the audio list, does not hold it |
| FileKinds.GetFileExtensionSegments | app/chat/page.tsx:478-483 | no extension for a name without `.`; otherwise the lower-cased text of the name after its last `.` |
| FileKinds.PopExtensionIsLastSegment | app/chat/page.tsx:393 | the extension computed when a file is attached is the lower-cased segment after the last `.`: the whole lower-cased name when it has no `.`, and never containing a `.` |
| FileKinds.UndottedName | app/chat/page.tsx:478-483 | on a file named `png` the two extractions differ: `png` when attaching, empty for the preview |
| FileKinds.PreviewableExtensions | app/chat/page.tsx:484-489 | `isPreviewableExt` holds exactly for the image, video and audio extensions in any case, and for `txt` in lower case |
| Attachments.LandingThumbsAreChatThumbs | app/page.tsx:313-333 | every file that gets a thumbnail URL on the landing page (`png`, `jpg`, `jpeg`) also gets one on the chat page (every image extension) |
| Attachments.PastedName | app/chat/page.tsx:446-476 | a pasted image keeps its non-empty file name; a nameless one is named `붙여넣은 이미지` |
| Attachments.TextItem | app/chat/page.tsx:431-444 | `addTextAttachment` builds an item exactly when the trimmed text has at least 50 characters; the item is the trimmed text, named `복사된 텍스트`, of type `text/plain` |
| Attachments.FindImageItem | app/chat/page.tsx:446-476 | `items.find` returns the first clipboard entry that counts as an image, or none when no entry does |
| Attachments.ClipboardImageTests | app/page.tsx:371-400 | the chat page's test `kind !== 'text'` ignores the entry kind, since no entry has kind `text`; the landing page's test `kind === 'file'` implies the chat page's |
| Attachments.PasteRules | app/chat/page.tsx:446-476 | an image on the clipboard wins over text; text is attached exactly when there is no image and it has at least 50 characters after trimming; shorter raw text is pasted normally |
| Attachments.IndexOfId | app/chat/page.tsx:411-429 | `findIndex` is -1 exactly when the id is absent; otherwise it is the first index holding the id |
| Attachments.RemoveById | app/chat/page.tsx:411-429 | `filter` drops every item with the id and keeps every other item |
| Attachments.RemoveByIdKeepsOrder | app/chat/page.tsx:411-429 | `filter` works item by item: removing from a concatenation is removing from each part, so the kept items stay in their original order |
| Attachments.RemoveByIdOne | app/chat/page.tsx:411-429 | a single item is kept exactly when its id differs from the removed one |
| Attachments.RemoveAt | app/page.tsx:335-354 | `filter` by index drops exactly the item at the index and keeps the order of the rest; an index outside the list drops nothing |
| Attachments.RemoveByIdIsRemoveAt | app/chat/page.tsx:411-429 | with distinct ids, removing by id is removing at the id's index |
| Attachments.PreviewRules | app/chat/page.tsx:518-575 | a text item shows its whole text; a non-previewable file leaves the preview as it was and is downloaded; a media file is shown in its category's view with a new URL; a `txt` file shows its first 50 characters, or closes the preview when it cannot be read |
| Attachments.OpenReleasesReplacedUrl | app/chat/page.tsx:518-575 | with the release fixed, opening a preview loses no URL: each URL of the old preview is revoked or still held |
| Attachments.TextPreviewLeaksUrlAsWritten | app/chat/page.tsx:518-525 | as written, opening a text item over an image preview leaves the image's URL live and held by nothing |
| Attachments.AttachmentTray.constructor | app/chat/page.tsx:324-325 | the tray starts with no items, no preview and no live URL |
| Attachments.AttachmentTray.AttachFile | app/chat/page.tsx:388-409 | one attached file: appended once, with a new URL exactly when the page wants a thumbnail |
| Attachments.AttachmentTray.AddFiles | app/chat/page.tsx:388-409 | `handleFileChange` appends one item per file, in input order after the existing ones; each item gets a new thumbnail URL exactly when its page wants one; the preview is unchanged |
| Attachments.AttachmentTray.AddText | app/chat/page.tsx:431-444 | appends the text item exactly when `TextItem` builds one; otherwise nothing changes |
| Attachments.AttachmentTray.Paste | app/page.tsx:371-400 | the paste outcome is `PasteRules`' decision, and the list grows by exactly the item that decision names |
| Attachments.AttachmentTray.RemoveAttachment | app/chat/page.tsx:411-429 | drops the item with the id and revokes exactly its thumbnail; closes the preview, revoking its URL, exactly when the preview shows that item |
| Attachments.AttachmentTray.RemoveFile | app/page.tsx:335-354 | the same for an index |
| Attachments.AttachmentTray.OpenPreview | app/chat/page.tsx:518-575 | the new preview and outcome are those of `PreviewRules`; the URL of a replaced preview is revoked and the new URL is live |
| Attachments.AttachmentTray.ShowFile | app/chat/page.tsx:540-574 | the previewable-file branch: a media file gets a new URL; a `txt` file shows a 50-character snippet, or nothing when it cannot be read |
| Attachments.AttachmentTray.ClosePreview | app/chat/page.tsx:1700 | the overlay's close button revokes the preview's URL and clears the preview |
| Attachments.AttachmentTray.TakeAll | app/chat/page.tsx:602-647 | the items move into the sent message together with their thumbnails, and the list becomes empty; no URL is revoked |
| Transcript.AiReply | app/chat/page.tsx:714-738 | the generated reply carries its kind's fixed text and the three thinking steps, folded and without feedback |
| Transcript.ApplyChangesOnlyItsFields | app/chat/page.tsx:649-672 | like and dislike change only the two flags: they flip their own and clear the other; toggling changes only `showThinking`; the id, role and files never change |
| Transcript.TogglesInvolutive | app/chat/page.tsx:649-672 | toggling twice restores the message; liking twice restores the like flag and leaves the dislike flag cleared |
| Transcript.MapWhere | app/chat/page.tsx:649-653 | `map` over the id updates exactly the messages with the id and keeps the length |
| Transcript.MapWhereKeepsShape | app/chat/page.tsx:649-672 | the ids and their order are unchanged, and messages with other ids are untouched |
| Transcript.UpdatesKeepNoConflict | app/chat/page.tsx:660-672 | no update makes a message both liked and disliked; after a like or dislike the touched messages hold at most one of the two flags |
| Transcript.FeedbackKeepsNoConflict | app/chat/page.tsx:660-672 | any run of likes and dislikes, on any ids, keeps the flags exclusive and the ids unchanged |
| Transcript.IndexOfMessage | app/chat/page.tsx:690-712 | `findIndex` is -1 exactly when the id is absent; otherwise it is the first index holding the id |
| Transcript.EditTruncate | app/chat/page.tsx:690-712 | an absent id leaves the transcript unchanged; otherwise it is cut after the edited message, whose content alone is replaced |
| Transcript.EditTruncateIdempotent | app/chat/page.tsx:690-712 | saving the same edit twice gives the same transcript as saving it once |
| Transcript.StartRegenerate | app/chat/page.tsx:740-764 | the first message with the id gets the placeholder text and loses its verification; the ids are unchanged |
| Transcript.RegenerateClearsVerification | app/chat/page.tsx:740-764 | after the placeholder, the regenerated message has no verification and every other message is unchanged |
| Transcript.RegenerateOutcome | app/chat/page.tsx:740-764 | when no verification of that message completes in between, the placeholder followed by the finishing timer leaves the regenerated message with the new text and thought and no verification; its feedback and thinking steps are kept |
| Transcript.VerifyBeforeRegenerateFinishes | app/chat/page.tsx:740-790 | a verification finishing between the placeholder and the new text leaves the regenerated message with the new text and the segments and sources checked for the old one |
| Transcript.EditsKeepNoConflict | app/chat/page.tsx:690-712 | truncating an edit, writing the regeneration placeholder, and appending a message without both flags all keep likes and dislikes exclusive |
| Tools.ToggleRules | app/chat/page.tsx:809-817 | `activateTool` selects the tool exactly when it was not selected; toggling twice restores an empty selection or the same tool |
| Tools.ClickRules | app/chat/page.tsx:793-807 | during a chat a click only records the tool for the new-chat dialog; on `hanbat`, a click on another tool only records it for the switch dialog; any other click toggles; the model never changes |
| Tools.SwitchDialog | app/chat/page.tsx:819-831 | confirming the switch dialog selects the `standard` model with the tool toggled, as a direct click would; cancelling leaves the model and the tool as they were |
| Tools.ToolPicker.constructor | app/chat/page.tsx:296-305 | the initial selection is the `standard` model (`MODELS[1]`) with no tool |
| Tools.ToolPicker.ChangeModel | app/chat/page.tsx:369-374 | only the model changes, and it stays one of `MODELS` |
| Tools.ToolPicker.ActivateTool | app/page.tsx:579-587 | the selected tool is toggled and nothing else changes |
| Tools.ToolPicker.ToolClick | app/page.tsx:570-577 | the selection becomes `Click`'s, on either page |
| Tools.ToolPicker.ConfirmSwitch | app/page.tsx:589-596 | the selection becomes that of `Confirmed` |
| Tools.ToolPicker.CancelSwitch | app/page.tsx:598-601 | only `toolToActivate` is cleared |
| Tools.ToolPicker.CancelToolSwitch | app/chat/page.tsx:846-850 | only `pendingTool` is cleared |
| Handoff.Serialised | app/page.tsx:546-567 | every attachment is stored without its file object, in the same order |
| Handoff.SnapshotKeepsAttachments | app/page.tsx:546-567 | the snapshot records whether files are attached, and keeps every attachment's id, kind, name, type, text and thumbnail |
| Handoff.RestoredModel | app/chat/page.tsx:330-366 | on mount the model becomes the stored one when it is one of `MODELS`, and is kept otherwise; it stays one of `MODELS` |
| Handoff.ModelRestoredOnlyFromModels | app/chat/page.tsx:330-366 | the model changes only to a stored id of `MODELS`, and always to such an id when one is stored |
| Handoff.OpeningMessages | app/chat/page.tsx:330-366 | the conversation opens with the user's stored text (or empty) and stored attachments, followed by the greeting |
| Handoff.HandoffRoundTrip | app/page.tsx:546-567 | what the landing page sends reaches the chat page: the model, the tool when one is selected, and a conversation opening with the sent text and attachments |
| Handoff.ToolSwitchHandoffOpensNoChat | app/chat/page.tsx:833-844 | the new-chat dialog's snapshot restores the model and the tool but opens no conversation |
| ChatApp.SendRules | app/chat/page.tsx:602-647 | with nothing to send and no edit in progress, a send changes nothing; a real send appends exactly one user message with the composer text and the attachments, clears the composer and starts the generator |
| ChatApp.SendThenReply | app/chat/page.tsx:602-647 | a send and the generator's two stages leave the user message and the fixed reply at the end of the transcript, the generator idle, and no extra timer |
| ChatApp.UpdateRules | app/chat/page.tsx:690-712 | saving is a no-op without an edit in progress or when the message has vanished; otherwise it truncates after the message, replaces its text, ends the edit and schedules the reply |
| ChatApp.EditThenReply | app/chat/page.tsx:714-738 | a saved edit and the generator's three stages leave the truncated transcript followed by the fixed edit reply |
| ChatApp.EditKeepsOldTextAsWritten | app/chat/page.tsx:690-712 | as written, an edit saves the message's old text whatever was typed; saving the composer text stores what was typed |
| ChatApp.RegenerateThenDone | app/chat/page.tsx:740-764 | regenerating and letting the timer fire rewrites only that message and leaves no timer behind |
| ChatApp.VerifyOutlivesRegenerate | app/chat/page.tsx:740-790 | regenerating does not cancel a verification already scheduled for the message: when that timer fires between the placeholder and the new text, the regenerated message carries the segments and sources checked for the old text |
| ChatApp.VerifyThenDone | app/chat/page.tsx:766-790 | the spinner shows on the message until its timer fires; firing attaches the fixed segments and sources to the messages with the id and clears the spinner |
| ChatApp.OverlappingSendsClearIndicatorEarly | app/chat/page.tsx:627-645 | with two sends pending, the first reply turns the generating indicator off while the second reply is still due |
| ChatApp.SendKeepsNoConflict | app/chat/page.tsx:602-647 | saving an edit and sending keep likes and dislikes exclusive |
| ChatApp.FireKeepsNoConflict | app/chat/page.tsx:714-790 | every generator, regeneration and verification timer keeps likes and dislikes exclusive |
| ChatApp.MountKeepsNoConflict | app/chat/page.tsx:330-366 | the opening messages carry no feedback |
| ChatApp.ChatSession.constructor | app/chat/page.tsx:294-325 | the initial page state: empty composer and transcript, no edit, idle generator, empty tray, default model |
| ChatApp.ChatSession.Mount | app/chat/page.tsx:330-366 | `inheritState` restores the model and tool, sets the opening messages when the snapshot has text or attachments, and always empties the slot |
| ChatApp.ChatSession.Type | app/chat/page.tsx:1496 | only the composer text changes |
| ChatApp.ChatSession.StartEdit | app/chat/page.tsx:1147-1171 | the edit buttons start editing the message and copy its text into `editInput`; for a file-only message they also copy it into the composer |
| ChatApp.ChatSession.Send | app/chat/page.tsx:602-647 | the state follows `Sent`; the attachments leave the tray exactly when a new message is sent, and their thumbnails then move to the sent message; no URL is revoked or created and the preview is kept |
| ChatApp.ChatSession.UpdateMessage | app/chat/page.tsx:690-712 | the state follows the corrected `Saved`, and likes and dislikes stay exclusive |
| ChatApp.ChatSession.Fire | app/chat/page.tsx:714-790 | any pending timer may fire, and the state follows `Fired` |
| ChatApp.ChatSession.ToggleThinking | app/chat/page.tsx:649-653 | the thinking panel of the messages with the id is toggled |
| ChatApp.ChatSession.Like | app/chat/page.tsx:660-665 | the like is applied to the messages with the id |
| ChatApp.ChatSession.Dislike | app/chat/page.tsx:667-672 | the dislike is applied to the messages with the id |
| ChatApp.ChatSession.Regenerate | app/chat/page.tsx:740-764 | the placeholder is written and the timer that finishes it is scheduled |
| ChatApp.ChatSession.VerifyAnswer | app/chat/page.tsx:766-790 | the spinner is set on the message, and the timer that attaches the sources is scheduled |
| ChatApp.ChatSession.ToolClick | app/chat/page.tsx:793-807 | the selection follows `Click`; a non-empty transcript counts as chatting |
| ChatApp.ChatSession.ConfirmToolSwitch | app/chat/page.tsx:833-844 | when a tool is pending, stores the current model and that tool; always clears the pending tool and goes to `/` |
| ChatApp.ChatSession.NewChat | app/chat/page.tsx:577-580 | removes any stored snapshot and goes to `/` |
| LandingApp.LandingComposer.constructor | app/page.tsx:262-298 | empty composer, empty tray, default model |
| LandingApp.LandingComposer.Type | app/page.tsx:1029 | only the composer text changes |
| LandingApp.LandingComposer.Send | app/page.tsx:546-567 | with text or attachments, the snapshot is stored and the page goes to `/chat`; otherwise the stored value is untouched and the page stays |
| LandingApp.LandingComposer.ToolClick | app/page.tsx:570-577 | the selection follows `Click` with no chat; no tool is ever pending |
| LandingApp.LandingComposer.NewChat | app/page.tsx:501-503 | goes to `/` |
| SignUp.OnlyRequiredAgreementsCount | app/components/forms/SignUpForm.tsx:109 | the optional agreements never affect `isAllAgreed`; withdrawing a required one always does |
| SignUp.NextStep | app/components/forms/SignUpForm.tsx:49-62 | moving on never touches the form or the Google flag |
| SignUp.NextStepRules | app/components/forms/SignUpForm.tsx:111-119 | each step's own condition moves it on; after Google the department step jumps to the agreements; a move never goes back; on steps 1 to 4 the button is enabled exactly when it would move |
| SignUp.GoBackRules | app/components/forms/SignUpForm.tsx:33-39 | after Google, back returns from the agreements straight to the department; otherwise one step back, never below 1 |
| SignUp.SettleRules | app/components/forms/SignUpForm.tsx:95-101 | the re-running effect reaches its fixed point in two runs, moves only forward, and advances the name and department steps past their thresholds |
| SignUp.GoBackUndoneByEffect | app/components/forms/SignUpForm.tsx:95-101 | going back onto a step whose input already passes its threshold is undone at once |
| SignUp.VisibilityRules | app/components/forms/SignUpForm.tsx:103-107 | after Google the e-mail and password sections never show; otherwise every section up to the active step does |
| SignUp.EnterMovesBackAsWritten | app/components/forms/SignUpForm.tsx:64-69 | as written, Enter in the name input on the password step sends the wizard back to step 2 |
| SignUp.KeyNeverMovesBack | app/components/forms/SignUpForm.tsx:64-69 | the corrected Enter moves on from the active step, as the button does, or not at all |
| SignUp.OrElse | app/components/forms/SignUpForm.tsx:78-79 | `x \|\| fallback` on an optional string |
| SignUp.GoogleSignInRules | app/components/forms/SignUpForm.tsx:71-93 | a successful pop-up takes the shortcut to step 2 and fills the name and e-mail, with fixed fallbacks; everything else is kept; a failure changes nothing |
| SignUp.FinalSubmitRules | app/components/forms/SignUpForm.tsx:121-148 | nothing is submitted without both required agreements; a Google sign-up creates no account; a failed creation alerts with the message for its error code |
| SignUp.UpdatesStayReachable | app/components/forms/SignUpForm.tsx:95-101 | every handler keeps the step in 1..6 and the effect settled; after Google only steps 1, 2 and 6 are reached |
| SignUp.SignUpForm.constructor | app/components/forms/SignUpForm.tsx:17-31 | step 1, no shortcut, empty form |
| SignUp.SignUpForm.ChangeText | app/components/forms/SignUpForm.tsx:41-47 | only that field changes, then the effect settles |
| SignUp.SignUpForm.ChangeAgreement | app/components/forms/SignUpForm.tsx:41-47 | only that agreement changes |
| SignUp.SignUpForm.NextClick | app/components/forms/SignUpForm.tsx:409-416 | a disabled button does nothing; below step 6 it moves on; on step 6 it submits, leaving the wizard as it is |
| SignUp.SignUpForm.KeyDown | app/components/forms/SignUpForm.tsx:64-69 | the corrected Enter, then the effect settles |
| SignUp.SignUpForm.GoBack | app/components/forms/SignUpForm.tsx:33-39 | back, then the effect settles |
| SignUp.SignUpForm.VerifyEmailClick | app/components/forms/SignUpForm.tsx:262 | the verify button goes to step 4 once an address is typed, whichever step is active |
| SignUp.SignUpForm.GoogleLogin | app/components/forms/SignUpForm.tsx:71-93 | the shortcut applies; a failed pop-up alerts |
| LegacySignUp.NextStep | app/auth/signup/page.tsx:39-52 | moving on never touches the form |
| LegacySignUp.NextStepRules | app/auth/signup/page.tsx:39-52 | from the active step a move reaches only the next step; it is unconditional from the e-mail step and needs that step's input otherwise |
| LegacySignUp.SixOnlyFromConfirmation | app/auth/signup/page.tsx:39-66 | step 6 is reached only by Enter in the confirmation input with matching passwords |
| LegacySignUp.ButtonRules | app/auth/signup/page.tsx:250-255 | the button completes only from step 5 on with both agreements; below step 5 it moves on as the active step's Enter does |
| LegacySignUp.EnterOnEarlierInputMovesBack | app/auth/signup/page.tsx:55-60 | Enter in the name input on step 5 moves the page back to step 2 |
| LegacySignUp.VisibilityRules | app/auth/signup/page.tsx:68-71 | a section shows once its step is reached or its input holds something; the agreements show exactly from step 5 |
| LegacySignUp.StepsStayInRange | app/auth/signup/page.tsx:22-66 | every update keeps the step between 1 and 6 |
| LegacySignUp.SignUpPage.constructor | app/auth/signup/page.tsx:9-20 | step 1, empty form |
| LegacySignUp.SignUpPage.ChangeText | app/auth/signup/page.tsx:30-36 | only that field changes; a change of name or department runs the effect once |
| LegacySignUp.SignUpPage.ChangeAgreement | app/auth/signup/page.tsx:30-36 | only that agreement changes |
| LegacySignUp.SignUpPage.KeyDown | app/auth/signup/page.tsx:55-60 | Enter in a shown input performs that input's move, unguarded |
| LegacySignUp.SignUpPage.ButtonClick | app/auth/signup/page.tsx:250-255 | follows `Button` |
| LegacySignUp.SignUpPage.VerifyEmailClick | app/auth/signup/page.tsx:138 | goes to step 4 unconditionally |
| LegacySignUp.SignUpPage.GoBack | app/auth/signup/page.tsx:22-28 | one step back, or home from step 1 |
| Login.ChangeTouchesOnlyItsField | app/components/forms/LoginForm.tsx:26-32 | a change sets its own field and keeps the other |
| Login.LoginRules | app/components/forms/LoginForm.tsx:61-82 | a login is attempted exactly with an e-mail and a password of at least 8 characters; success goes home without a callback; a failure alerts with a fixed message; Enter is the button |
| Login.LoginForm.constructor | app/components/forms/LoginForm.tsx:17-20 | empty credentials |
| Login.LoginForm.Change | app/components/forms/LoginForm.tsx:26-32 | follows `WithField` |
| Login.LoginForm.Submit | app/components/forms/LoginForm.tsx:61-80 | the e-mail login's result; the form is unchanged |
| Login.LoginForm.Key | app/components/forms/LoginForm.tsx:34-39 | Enter submits only while the button is enabled |
| Login.LoginForm.Google | app/components/forms/LoginForm.tsx:41-59 | success goes home or calls back; failure alerts |
| Login.LoginForm.GoBack | app/components/forms/LoginForm.tsx:22-24 | the browser's back |
| Forgot.DisabledExactlyWithoutAt | app/components/forms/forgotForm.tsx:52 | the button is disabled exactly when the address has no `@` |
| Forgot.ResetRules | app/components/forms/forgotForm.tsx:33-50 | only a successful reset of an enabled form confirms; a failure alerts and keeps the screen; the address is always kept; Enter does nothing on the confirmation; back from the confirmation returns to the entry screen |
| Forgot.ForgotPasswordForm.constructor | app/components/forms/forgotForm.tsx:11-12 | empty address, entry screen |
| Forgot.ForgotPasswordForm.Change | app/components/forms/forgotForm.tsx:22-24 | only the address changes |
| Forgot.ForgotPasswordForm.ResetPassword | app/components/forms/forgotForm.tsx:33-50 | follows `Reset` |
| Forgot.ForgotPasswordForm.Key | app/components/forms/forgotForm.tsx:26-31 | Enter resets only on the entry screen with the button enabled |
| Forgot.ForgotPasswordForm.GoBack | app/components/forms/forgotForm.tsx:14-20 | returns to the entry screen from the confirmation, keeping the address; otherwise the browser's back |
| Forgot.ForgotPasswordForm.GoToLogin | app/components/forms/forgotForm.tsx:153 | the confirmation's button goes to `/login` |

## Left out

- Markup, styling, menus, modal open flags, click-outside handling, scrolling, the sidebar, notifications (`showNotification`) and `isSearchMode`: they carry no logic.
- Firebase:
  - sign-in, account creation and password reset are not performed; they are inputs (`AuthOutcome`). A Google sign-in is an optional user.
  - The landing page's authentication effect and logout are not modelled.
- Session storage and JSON:
  - The stored snapshot is the decoded `Handoff` record.
  - A missing field is `None`.
  - A parse error, which `inheritState` swallows, is not modelled.
- Object URLs are numeric handles. The browser's own reclamation when the page unloads is not modelled.
- `file.text()`: its outcome is an input. A failed read is `None`.
  - The read completes within the same open in the model. In the page it completes later (app/chat/page.tsx:564-572). Meanwhile the tray stays clickable, because no preview is shown yet. If another file's preview opens before the read completes, the read's `setPreview` replaces that preview without revoking its URL. That interleaving is not modelled.
- Ids from `Date.now()` are parameters.
  - `AttachmentTray.AttachFile`, `AttachmentTray.AddFiles`, `AttachmentTray.AddText` and `AttachmentTray.Paste` require ids not already present. Clock-based ids are taken to be unique; their collisions are not modelled.
- `setTimeout` delays:
  - Each pending callback is a `Timer`, and any pending one may fire next.
  - The particular order that the delays (500, 1000, 1500 and 2000 ms) force is not modelled.
- `toLowerCase` is ASCII-only here. String lengths count Dafny characters rather than UTF-16 code units. The two differ only for characters outside the Basic Multilingual Plane.
- Not modelled:
  - `formatItemSize` and `getFileIconByExt`, which are display only;
  - `handleDownload`, a browser download;
  - `handleAttachmentClick`, which opens the file picker;
  - fetching and displaying the terms and privacy documents;
  - the `RegExp` split that highlights verified segments.
- The module-level `getFileExtension` and `isPreviewableExt` at app/chat/page.tsx:77-85 are shadowed by the component's own and are never called. Only the component's versions are modelled.
- AI and greeting messages have no `files` in the source. The model gives them an empty list.
- app/auth/login/page.tsx and the layouts are not part of this model.
- Observed behaviours, modelled as written and not counted as findings:
  - Overlapping sends clear the generating indicator early (`ChatApp.OverlappingSendsClearIndicatorEarly`).
  - A verification pending when a message is regenerated still lands on the regenerated text (`ChatApp.VerifyOutlivesRegenerate`).
  - Going back is undone by the auto-advance effect (`SignUp.GoBackUndoneByEffect`).
  - The sign-up wizard's verify button can jump from a later step back to step 4.
  - The older sign-up page's Enter is unguarded (`LegacySignUp.EnterOnEarlierInputMovesBack`).
  - The new-chat dialog stores its snapshot and goes to `/`, which never reads it; a later visit to `/chat` would restore it.
  - The landing page keeps its composer after sending.
  - The chat page does not clear the composer when an edit is saved.

## Findings

| source | as written | input that shows it | evidently intended | confidence | as-written member | corrected member |
|---|---|---|---|---|---|---|
| app/chat/page.tsx:518-525 (also app/page.tsx:442-449) | opening a pasted-text item replaces the preview without revoking the old preview's object URL | an image preview holding URL 7, then a text item opened; latent in the current markup, because the open preview's overlay (`fixed inset-0 z-40`, app/chat/page.tsx:1680) covers the tray tiles | the replaced preview's URL is revoked in every branch that replaces it, as the file branches do | low: latent in the current markup, not executed | Attachments.TextPreviewLeaksUrlAsWritten | Attachments.OpenReleasesReplacedUrl |
| app/chat/page.tsx:690-712 | saving an edit stores `editInput`, which only the edit buttons write (with the message's current text, lines 1151 and 1170); no input is bound to it | start editing a message, type new text in the composer, send: the message keeps its old text | the edited message receives the text the user typed (the composer's `input`) | medium, not executed | ChatApp.EditKeepsOldTextAsWritten | ChatApp.ChatSession.UpdateMessage |
| app/components/forms/SignUpForm.tsx:64-69 | Enter checks the active step's guard but moves as the pressed input's step | step 4, name `홍길동`, password `password1`: Enter in the name input gives step 2 | Enter moves on from the active step, like the bottom button | high, not executed | SignUp.EnterMovesBackAsWritten | SignUp.KeyNeverMovesBack |
