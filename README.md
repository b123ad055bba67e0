# Task planner: authentication, task list and AI summary, modelled in Dafny

This project models the deterministic core of a SwiftUI task-planner app that
keeps its users' tasks in a Firestore "tasks" collection and asks a
generative-language endpoint for a daily summary. It covers three parts.

* **The authentication view model and its three forms.**
  - The e-mail check is the whole-string pattern
    `[A-Z0-9a-z._%+-]+@[A-Za-z0-9.-]+\.[A-Za-z]{2,64}`. It is written as a
    recognizer that splits at the first `@` and the last `.`, and is proved to
    accept exactly the strings `L@D.T` of the pattern.
  - The password check is a six-character minimum.
  - The view model's guarded transitions are `signIn`, `signUp`,
    `resetPassword`, `signOut` and `clearError`. Each answer from the
    authentication service is a completion event of its own.
  - The register, login and forgot-password screens each keep one error per
    field, a `hasAttemptedSubmit` flag and an alert. Their submit-time and
    real-time checks, `onChange` handlers, submit buttons and
    `isButtonDisabled` rules are modelled in full.
* **The task record and the owner-scoped list operations.**
  - The record is `TaskItem`, with its two category enumerations, the hour
    wheel and a UUID.
  - Its field-map encoding is proved to round-trip.
  - The collection is the sequence of its documents in document-id order,
    the order a query without an explicit ordering lists them in.
  - The operations are: saving a task (add screen), fetching and deleting one
    (home screen), and deleting all of a user's tasks and logging out (profile
    screen).
  - Also modelled: the reversed display order and the colour of the state
    badge.
* **The summary.**
  - The owner's documents pass through the lax guard-chain decode.
  - Each task becomes one line of text, and the lines are joined with line
    breaks.
  - The result goes under a fixed instruction, and the prompt is wrapped in the
    request body.
  - The screen shows the reply's `candidates[0].content.parts[0].text`.

Services are not called. Each answer a service would give is a parameter of
the operation that receives it:

| Answer | Parameter |
|---|---|
| A query's completion | `QueryStatus` |
| A delete error, or the save's encoding error | `Option<string>` |
| A failed sign-out | `Option<string>` |
| The parsed HTTP reply | `Option<Json>` |
| The signed-in user's id | `Option<string>` |
| A fresh UUID, or the document id the store assigns | a parameter of the operation |

Files, one module each:

* `wrappers.dfy`: `Option`.
* `credentials.dfy`: the e-mail and password checks and the error translation.
* `auth_view_model.dfy`: the `AuthViewModel` class.
* `form_validation.dfy`: the submit-time and real-time rules shared by the three forms.
* `register_view.dfy`, `login_view.dfy`, `forgot_password_view.dfy`: one class per form.
* `tasks.dfy`: the record, the UUID, the enumerations, the hours, and encoding and decoding.
* `task_store.dfy`: the collection, with query and delete.
* `add_view.dfy`, `home_view.dfy`, `ai_view.dfy`, `about_view.dfy`: the four tab screens.

## Model

| member | source | states |
|---|---|---|
| Credentials.ValidEmailIffPattern | FinalProject/Controller/AuthViewModel.swift:128-132 | The recognizer accepts a string exactly when it splits as `L@D.T`: L is non-empty over `[A-Za-z0-9._%+-]`, D is non-empty over `[A-Za-z0-9.-]`, and T is 2 to 64 ASCII letters. |
| Credentials.IsValidEmail | FinalProject/Controller/AuthViewModel.swift:128-132 | Splits at the first `@` and at the last `.` after it. It accepts exactly the strings that match the whole pattern `L@D.T`; ValidEmailIffPattern proves this. |
| Credentials.IsValidPassword | FinalProject/Controller/AuthViewModel.swift:134-136 | Accepts a password of at least six characters. |
| Credentials.ValidEmailSplits | FinalProject/Controller/AuthViewModel.swift:128-132 | A string the recognizer accepts has a split of the pattern. |
| Credentials.SplitIsValidEmail | FinalProject/Controller/AuthViewModel.swift:128-132 | A string with a split of the pattern is accepted. |
| Credentials.EmailSplitPositions | FinalProject/Controller/AuthViewModel.swift:128-132 | In a split, no other position holds `@`, and no `.` follows the split's dot. |
| Credentials.EmailSplitUnique | FinalProject/Controller/AuthViewModel.swift:128-132 | A string has at most one split, so T is what follows the last `.`. |
| Credentials.ValidEmailHasOneAt | FinalProject/Controller/AuthViewModel.swift:128-132 | A valid address holds exactly one `@`. |
| Credentials.AcceptedFieldsAreLong | FinalProject/Controller/AuthViewModel.swift:128-136 | Both checks accept only strings of at least six characters, so an accepted field is never empty. |
| Credentials.FirstIndexOf | FinalProject/Controller/AuthViewModel.swift:128-132 | The result is the first position of the character, or there is none. |
| Credentials.LastIndexOf | FinalProject/Controller/AuthViewModel.swift:128-132 | The result is the last position of the character, or there is none. |
| Credentials.TranslateFirebaseError | FinalProject/Controller/AuthViewModel.swift:139-163 | An unlisted code yields the localized description, and a listed code yields a non-empty fixed message. |
| Credentials.KnownMessagesDistinct | FinalProject/Controller/AuthViewModel.swift:139-163 | Two errors with listed codes translate to the same message exactly when their codes are equal. |
| Auth.AuthViewModel.constructor | FinalProject/Controller/AuthViewModel.swift:13-28 | The model starts with the service's current user and is authenticated exactly when there is one. Both messages start empty and it is not loading. |
| Auth.AuthViewModel.SignIn | FinalProject/Controller/AuthViewModel.swift:30-43 | A request goes out exactly when both checks pass. The first failing check alone sets its message and leaves loading unchanged. Otherwise loading starts with an empty error. Authentication is untouched either way. |
| Auth.AuthViewModel.SignUp | FinalProject/Controller/AuthViewModel.swift:58-76 | The checks run in order: e-mail, then password, then confirmation equality. The first failure alone sets its message. A request goes out only when all three pass, with loading started and the error emptied. |
| Auth.AuthViewModel.SignInCompleted | FinalProject/Controller/AuthViewModel.swift:44-54 | Loading always stops. Then either the translated error is set and authentication is untouched, or the user is stored and the model is authenticated. |
| Auth.AuthViewModel.SignUpCompleted | FinalProject/Controller/AuthViewModel.swift:77-88 | The same as the sign-in completion. |
| Auth.AuthViewModel.SignOut | FinalProject/Controller/AuthViewModel.swift:91-102 | Success clears the user, authentication and the error. A thrown error only sets the error message. |
| Auth.AuthViewModel.ResetPassword | FinalProject/Controller/AuthViewModel.swift:104-108 | The address is not checked. Loading starts, both messages are emptied, and authentication is untouched. |
| Auth.AuthViewModel.ResetPasswordCompleted | FinalProject/Controller/AuthViewModel.swift:109-119 | Loading stops. An error sets the translated message; otherwise the reset-mail notice is set. The other message is untouched. |
| Auth.AuthViewModel.ClearError | FinalProject/Controller/AuthViewModel.swift:122-125 | Both messages are emptied, and authentication, the user and loading are unchanged. |
| FormValidation.SubmitTimeError | FinalProject/View/RegisterView.swift:27-55 | A field gets an error exactly when it is empty after a submit attempt, or non-empty and invalid. The empty-field message wins for an empty field. |
| FormValidation.RealTimeError | FinalProject/View/RegisterView.swift:58-80 | A field gets an error exactly when it is non-empty and invalid, so an empty field never carries one. |
| FormValidation.RealTimeIsSubmitBeforeAttempt | FinalProject/View/RegisterView.swift:27-80 | The real-time check agrees with the submit-time check before any attempt. |
| FormValidation.SubmitAttemptPasses | FinalProject/View/RegisterView.swift:328-331 | After an attempt, a field passes exactly when it is non-empty and acceptable. |
| Register.RegisterForm.constructor | FinalProject/View/RegisterView.swift:12-24 | The fields are empty, there are no errors and no attempt, the alert is hidden and titled "註冊失敗". |
| Register.RegisterForm.ValidateEmail | FinalProject/View/RegisterView.swift:27-35 | The e-mail error follows the submit-time rule with the current attempt flag. |
| Register.RegisterForm.ValidatePassword | FinalProject/View/RegisterView.swift:37-45 | The password error follows the submit-time rule. |
| Register.RegisterForm.ValidateConfirmPassword | FinalProject/View/RegisterView.swift:47-55 | The confirmation error follows the submit-time rule, with "equal to the password" as the acceptability test. |
| Register.RegisterForm.ValidateEmailRealTime | FinalProject/View/RegisterView.swift:58-64 | The e-mail error follows the real-time rule. |
| Register.RegisterForm.ValidatePasswordRealTime | FinalProject/View/RegisterView.swift:66-72 | The password error follows the real-time rule. |
| Register.RegisterForm.ValidateConfirmPasswordRealTime | FinalProject/View/RegisterView.swift:74-80 | The confirmation error follows the real-time rule. |
| Register.RegisterForm.ValidateAll | FinalProject/View/RegisterView.swift:82-86 | All three errors follow the submit-time rule. |
| Register.RegisterForm.ClearValidationErrors | FinalProject/View/RegisterView.swift:88-93 | All three errors and the attempt flag are reset. |
| Register.RegisterForm.ShowErrorAlert | FinalProject/View/RegisterView.swift:95-99 | The alert shows the message under "註冊失敗". |
| Register.RegisterForm.EditEmail | FinalProject/View/RegisterView.swift:195-197 | The new text is stored. It carries an error exactly when it is non-empty and invalid. Sound errors stay sound. |
| Register.RegisterForm.EditPassword | FinalProject/View/RegisterView.swift:241-246 | The password is re-checked. The confirmation is re-checked only when it is non-empty, and is otherwise left alone. Sound errors stay sound. |
| Register.RegisterForm.EditConfirmPassword | FinalProject/View/RegisterView.swift:291-293 | The confirmation carries an error exactly when it is non-empty and differs from the password. |
| Register.RegisterForm.CheckForSubmit | FinalProject/View/RegisterView.swift:328-331 | After the attempt and all checks, the three fields pass exactly when the input is acceptable. They always pass when the button was enabled with sound errors. |
| Register.RegisterForm.Submit | FinalProject/View/RegisterView.swift:328-337 | A sign-up request goes out exactly when all three errors are clear, which is exactly when the input is acceptable. Otherwise the model is untouched and the "請修正上述錯誤後再試" alert shows. |
| Register.RegisterForm.GoToLogin | FinalProject/View/RegisterView.swift:386-389 | The checks are cleared and the login screen is selected. |
| Register.RegisterForm.AuthenticationChanged | FinalProject/View/RegisterView.swift:406-414 | Becoming authenticated empties all three fields and the checks. Otherwise nothing changes. |
| Register.RegisterForm.ErrorMessageChanged | FinalProject/View/RegisterView.swift:415-420 | A non-empty service error shows in the alert only when not loading. |
| Register.RegisterForm.AlertDismissed | FinalProject/View/RegisterView.swift:421-425 | The alert closes and both service messages are cleared. |
| Register.RegisterForm.IsButtonDisabled | FinalProject/View/RegisterView.swift:102-110 | The button is disabled while a field is empty, a field shows an error, or a request is running. EnabledButtonMeansAcceptableInput says what an enabled button guarantees. |
| Register.RegisterForm.EnabledButtonMeansAcceptableInput | FinalProject/View/RegisterView.swift:102-110 | With sound errors, an enabled button means the input is acceptable. |
| Login.LoginForm.constructor | FinalProject/View/LoginView.swift:12-22 | The fields are empty, there are no errors and no attempt, the alert is hidden and titled "登入失敗". |
| Login.LoginForm.ValidateEmail | FinalProject/View/LoginView.swift:26-34 | The e-mail error follows the submit-time rule. |
| Login.LoginForm.ValidatePassword | FinalProject/View/LoginView.swift:36-44 | The password error follows the submit-time rule. |
| Login.LoginForm.ValidateEmailRealTime | FinalProject/View/LoginView.swift:47-53 | The e-mail error follows the real-time rule. |
| Login.LoginForm.ValidatePasswordRealTime | FinalProject/View/LoginView.swift:55-61 | The password error follows the real-time rule. |
| Login.LoginForm.ValidateAll | FinalProject/View/LoginView.swift:63-66 | Both errors follow the submit-time rule. |
| Login.LoginForm.ClearValidationErrors | FinalProject/View/LoginView.swift:68-72 | Both errors and the attempt flag are reset. |
| Login.LoginForm.ShowErrorAlert | FinalProject/View/LoginView.swift:74-78 | The alert shows the message under "錯誤". |
| Login.LoginForm.EditEmail | FinalProject/View/LoginView.swift:172-174 | The new text carries an error exactly when it is non-empty and invalid. |
| Login.LoginForm.EditPassword | FinalProject/View/LoginView.swift:218-220 | The new text carries an error exactly when it is non-empty and shorter than six characters. |
| Login.LoginForm.CheckForSubmit | FinalProject/View/LoginView.swift:246-249 | After the attempt and both checks, the fields pass exactly when the input is acceptable. They always pass when the button was enabled. |
| Login.LoginForm.Submit | FinalProject/View/LoginView.swift:245-254 | A sign-in request goes out exactly when both errors are clear. Otherwise the model is untouched and an alert titled "錯誤" shows. |
| Login.LoginForm.GoToRegister | FinalProject/View/LoginView.swift:313-316 | Both errors and the attempt flag are cleared, and the register screen is selected. |
| Login.LoginForm.AuthenticationChanged | FinalProject/View/LoginView.swift:334-341 | Becoming authenticated empties both fields and the checks. Otherwise nothing changes. |
| Login.LoginForm.ErrorMessageChanged | FinalProject/View/LoginView.swift:342-347 | A non-empty service error shows only when not loading. |
| Login.LoginForm.AlertDismissed | FinalProject/View/LoginView.swift:348-352 | The alert closes and both service messages are cleared. |
| Login.LoginForm.IsButtonDisabled | FinalProject/View/LoginView.swift:81-87 | The button is disabled while a field is empty, a field shows an error, or a request is running. EnabledButtonMeansAcceptableInput says what an enabled button guarantees. |
| Login.LoginForm.EnabledButtonMeansAcceptableInput | FinalProject/View/LoginView.swift:81-87 | With sound errors, an enabled button means both fields are acceptable. |
| ForgotPassword.ForgotPasswordForm.constructor | FinalProject/View/ForgotPasswordView.swift:12-20 | The sheet is shown, the field is empty and has no error, and the alert is titled "錯誤". |
| ForgotPassword.ForgotPasswordForm.ValidateEmail | FinalProject/View/ForgotPasswordView.swift:23-31 | The error follows the submit-time rule. |
| ForgotPassword.ForgotPasswordForm.ValidateEmailRealTime | FinalProject/View/ForgotPasswordView.swift:34-40 | The error follows the real-time rule. |
| ForgotPassword.ForgotPasswordForm.ClearValidationErrors | FinalProject/View/ForgotPasswordView.swift:42-45 | The error and the attempt flag are reset. |
| ForgotPassword.ForgotPasswordForm.ShowErrorAlert | FinalProject/View/ForgotPasswordView.swift:47-51 | The alert shows the message under "錯誤". |
| ForgotPassword.ForgotPasswordForm.ShowSuccessAlert | FinalProject/View/ForgotPasswordView.swift:53-57 | The alert shows the message under "成功". |
| ForgotPassword.ForgotPasswordForm.EditEmail | FinalProject/View/ForgotPasswordView.swift:151-153 | The new text carries an error exactly when it is non-empty and invalid. |
| ForgotPassword.ForgotPasswordForm.Submit | FinalProject/View/ForgotPasswordView.swift:178-187 | A reset request goes out exactly when the address passes. Otherwise the model is untouched and the fix-errors alert shows. |
| ForgotPassword.ForgotPasswordForm.BackToLogin | FinalProject/View/ForgotPasswordView.swift:231-234 | The check is cleared and the sheet closes. |
| ForgotPassword.ForgotPasswordForm.Cancel | FinalProject/View/ForgotPasswordView.swift:252-255 | The check is cleared and the sheet closes. |
| ForgotPassword.ForgotPasswordForm.ErrorMessageChanged | FinalProject/View/ForgotPasswordView.swift:264-269 | A non-empty error shows under "錯誤" only when not loading. |
| ForgotPassword.ForgotPasswordForm.SuccessMessageChanged | FinalProject/View/ForgotPasswordView.swift:270-274 | A non-empty success message shows under "成功" only when not loading. |
| ForgotPassword.ForgotPasswordForm.AlertDismissed | FinalProject/View/ForgotPasswordView.swift:280-284 | The alert closes and both service messages are cleared. |
| ForgotPassword.ForgotPasswordForm.IsButtonDisabled | FinalProject/View/ForgotPasswordView.swift:60-64 | The button is disabled while the field is empty, the field shows an error, or a request is running. |
| ForgotPassword.ForgotPasswordForm.EnabledButtonMeansAcceptableInput | FinalProject/View/ForgotPasswordView.swift:60-64 | With a sound error, an enabled button means the address is accepted. |
| Tasks.UpperHex | FinalProject/View/AddView.swift:13 | Turns a hexadecimal digit into its upper-case form, as `uuidString` writes it. Upper-case digits and hyphens stay as they are. |
| Tasks.ParseUuid | FinalProject/View/AddView.swift:13 | A string reads as a UUID exactly when it has the 8-4-4-4-12 hexadecimal layout. The UUID is the string with its letters in upper case. |
| Tasks.ParseUuidRoundTrip | FinalProject/View/AddView.swift:13 | A UUID's string reads back as the same UUID. |
| Tasks.ParseUuidIgnoresCase | FinalProject/View/AddView.swift:13 | Strings that differ only in letter case read as the same UUID. |
| Tasks.CategoryFromRaw | FinalProject/View/AddView.swift:23-29 | A raw value gives the category that has it. When no category has it, the result is none. |
| Tasks.Category.RawValue | FinalProject/View/AddView.swift:23-27 | The three categories' raw values "工作", "家庭" and "學習". CategoryFromRaw inverts them and CategoriesDistinct shows they differ. |
| Tasks.CategoriesDistinct | FinalProject/View/AddView.swift:23-29 | There are three categories, listed once each, with pairwise different raw values that read back. |
| Tasks.StateCategoryFromRaw | FinalProject/View/AddView.swift:31-37 | A raw value gives the state that has it. When no state has it, the result is none. |
| Tasks.StateCategory.RawValue | FinalProject/View/AddView.swift:31-35 | The three states' raw values "緊急且重要", "不緊急但重要" and "不重要也不緊急". StateCategoryFromRaw inverts them and StateCategoriesDistinct shows they differ. |
| Tasks.StateCategoriesDistinct | FinalProject/View/AddView.swift:31-37 | There are three states with pairwise different raw values that read back. |
| Tasks.HourChoices | FinalProject/View/AddView.swift:91-97 | The wheel offers 25 tags, with `Int.max` first, and a value is a tag exactly when it is `Int.max` or between 1 and 24. |
| Tasks.EncodeTask | FinalProject/View/AddView.swift:12-21 | A stored task has exactly the eight keys of the record. It carries its owner's id and its UUID string. |
| Tasks.DecodeTask | FinalProject/View/AddView.swift:12-21 | A field map decodes exactly when every key is present with its type and the id has the UUID layout. The decoded owner is the stored one. |
| Tasks.DecodeEncodeRoundTrip | FinalProject/View/AddView.swift:12-21 | A stored task decodes to itself. |
| Tasks.DecodeKeepsFields | FinalProject/View/AddView.swift:12-21 | Decoding keeps every stored property, and only the id's letter case may change. |
| TaskStore.IdBeforeIrreflexive | FinalProject/View/HomeView.swift:81 | No document id comes before itself in the id order a query lists documents in. |
| TaskStore.IdBeforeTransitive | FinalProject/View/HomeView.swift:81 | The id order is transitive. |
| TaskStore.IdBeforeTotal | FinalProject/View/HomeView.swift:81 | Of two different ids, one comes before the other, so the id order is a strict total order. |
| TaskStore.SortedIdsAreDistinct | FinalProject/View/HomeView.swift:81 | A collection in strictly increasing id order has distinct document ids. |
| TaskStore.Query | FinalProject/View/HomeView.swift:81 | The query never lists more documents than the collection holds. Which documents it lists is stated by `QueryMembers`. |
| TaskStore.QueryMembers | FinalProject/View/HomeView.swift:81 | The query lists exactly the stored documents whose field holds the value. |
| TaskStore.QueryConcat | FinalProject/View/HomeView.swift:81 | A query over two runs is the two queries, in stored order. |
| TaskStore.QueryKeepsSorted | FinalProject/View/HomeView.swift:81 | A query over a collection in document-id order lists its documents in document-id order. |
| TaskStore.RemoveIds | FinalProject/View/AboutView.swift:84-91 | Deleting never grows the collection. Which documents remain is stated by `RemoveIdsMembers`. |
| TaskStore.RemoveIdsMembers | FinalProject/View/AboutView.swift:84-91 | Exactly the documents whose id was not deleted remain. |
| TaskStore.RemoveIdsKeepsSorted | FinalProject/View/AboutView.swift:84-91 | Deleting keeps the remaining documents in document-id order. |
| TaskStore.RemoveAbsentIds | FinalProject/View/AboutView.swift:84-91 | Deleting ids that are not stored changes nothing. |
| TaskStore.RemoveIdsTwice | FinalProject/View/AboutView.swift:84-91 | Two rounds of deletes equal one round over both sets of ids. |
| TaskStore.RemoveStoredId | FinalProject/View/HomeView.swift:38-44 | With distinct ids, deleting a stored document's id removes exactly that document and keeps the order of the rest. |
| TaskStore.SameIdSameDocument | FinalProject/View/AboutView.swift:84-85 | With distinct ids, a document id names one stored document. |
| TaskStore.SavedDocumentIsListedForOwner | FinalProject/View/AddView.swift:146 | The owner's query after a save is the owner's documents before the insert position, then the saved document, then the owner's documents from that position on. Before the save it was the same two runs without it. Every other user's query is unchanged. |
| TaskStore.SavedDocumentSitsByItsId | FinalProject/View/AddView.swift:146 | With the collection in id order and a fresh id, the owner's documents before the saved one have smaller ids and those after it larger ones, and the owner's list stays in id order. |
| TaskStore.InsertPosition | FinalProject/View/AddView.swift:146 | Every document before the position has an id that comes before the new one, and the document at the position does not. |
| TaskStore.InsertPositionSplitsIds | FinalProject/View/AddView.swift:146 | In an id-ordered collection, a fresh id comes after every id before the insert position and before every id from it on. |
| TaskStore.InsertById | FinalProject/View/AddView.swift:146 | The collection after an add, with the new document at its id's place. InsertByIdContents shows it gains exactly that document. InsertByIdKeepsSorted shows it stays in id order. |
| TaskStore.InsertByIdContents | FinalProject/View/AddView.swift:146 | Storing a document adds exactly that document: one more element, and the multiset gains just it. |
| TaskStore.InsertByIdKeepsSorted | FinalProject/View/AddView.swift:146 | Storing a document with a fresh id keeps the collection in strictly increasing id order. |
| TaskStore.TaskCollection.constructor | FinalProject/View/HomeView.swift:79-81 | The collection holds the given documents, which are in strictly increasing id order. |
| TaskStore.TaskCollection.AddDocument | FinalProject/View/AddView.swift:146 | A document with a fresh, store-assigned id is stored at its id's place, and the collection stays in id order. |
| TaskStore.TaskCollection.Delete | FinalProject/View/AboutView.swift:85-91 | The document with that id is removed and the rest stay in id order. |
| Add.AddForm.constructor | FinalProject/View/AddView.swift:40-47 | The defaults are an empty title and note, "工作", "緊急且重要", `Int.max` hours, and today's date. |
| Add.AddForm.SelectHour | FinalProject/View/AddView.swift:91-97 | The hour is always one of the wheel's tags. |
| Add.AddForm.Save | FinalProject/View/AddView.swift:126-156 | Without a user, nothing is written and the "❌ 請先登入" alert shows. When the task cannot be encoded, the form and store are unchanged and the failure alert carries the error's description. On success, exactly one document is stored at its id's place holding the selected values, the owner's id and the fresh UUID; only the title and note are cleared and "儲存成功！" shows. An empty title is saved as-is. |
| Add.SavedRecordIsWellFormed | FinalProject/View/AddView.swift:135-143 | A saved record decodes to itself, its category and state read back as the selected ones, and its hour is a wheel tag. |
| Home.BackgroundColor | FinalProject/View/HomeView.swift:135-146 | The badge is blue exactly when the string is none of the three state raw values. |
| Home.BackgroundColorSeparatesStates | FinalProject/View/HomeView.swift:135-146 | The urgent-and-important state is red, the important-but-not-urgent one orange and the third gray, so the three states get three different colours. |
| Home.AllSome | FinalProject/View/HomeView.swift:86-93 | When the throwing map succeeds, it keeps one result per element. |
| Home.AllSomeIsPointwise | FinalProject/View/HomeView.swift:86-93 | The throwing map succeeds exactly when every step does, and then each result is in place. |
| Home.AllSomeConcat | FinalProject/View/HomeView.swift:86-93 | Mapping two runs is mapping each, and one failure fails the whole. |
| Home.DecodeAll | FinalProject/View/HomeView.swift:86-93 | The throwing decode of a snapshot: the tasks of all documents in order, or none as soon as one document fails. DecodeAllIsPointwise and DecodeAllConcat state this. |
| Home.DecodeAllIsPointwise | FinalProject/View/HomeView.swift:86-93 | A snapshot decodes exactly when every document does, and the k-th task is the k-th document's. |
| Home.DecodeAllConcat | FinalProject/View/HomeView.swift:86-93 | Decoding two runs is decoding each. One bad document fails the whole fetch. |
| Home.FetchedTasksBelongToOwner | FinalProject/View/HomeView.swift:79-93 | Every fetched task belongs to the signed-in user. |
| Home.SavedTaskIsFetchedInIdOrder | FinalProject/View/HomeView.swift:79-93 | After a save, the owner's next fetch succeeds exactly when it did before. It is then the tasks of the owner's documents before the insert position, the saved task, and the tasks of those after it. So it has gained exactly the saved task. |
| Home.DisplayOrder | FinalProject/View/HomeView.swift:22-23 | The k-th row from the top shows index n-1-k. |
| Home.ShowsDivider | FinalProject/View/HomeView.swift:53-55 | A divider follows every row except the one for index 0. DisplayOrderShowsEachIndexOnce places that row at the bottom. |
| Home.DisplayOrderShowsEachIndexOnce | FinalProject/View/HomeView.swift:22-55 | Every index is shown exactly once, and each row except the bottom one is followed by a divider. |
| Home.HomeScreen.constructor | FinalProject/View/HomeView.swift:15 | The list starts empty. |
| Home.HomeScreen.FetchTasks | FinalProject/View/HomeView.swift:72-96 | With no user, a query error, no snapshot, or an undecodable document, the list is unchanged. Otherwise it becomes the owner's decoded documents in order. |
| Home.HomeScreen.OnDelete | FinalProject/View/HomeView.swift:29-44 | A delete happens exactly when the lookup succeeds, finds a document whose "id" field matches, and the delete succeeds. It removes the first match and exactly the i-th row. Otherwise nothing changes. |
| Home.RemoveAtKeepsOthers | FinalProject/View/HomeView.swift:43 | `remove(at:)` drops exactly the i-th element, and the others keep their order and multiplicity. |
| Home.DeleteRemovesFirstMatchOnly | FinalProject/View/HomeView.swift:29-44 | With distinct ids, the delete removes one document, the lookup's first match, and nothing else. |
| AiSummary.DecodeForSummary | FinalProject/View/AIView.swift:68-80 | A document becomes a task exactly when its seven fields are present with their types. The task has the fresh UUID and the stored owner. |
| AiSummary.SummaryDecodeIsLaxer | FinalProject/View/AIView.swift:68-80 | Every document the home screen decodes is read by the summary as the same task up to its id. A document without "id" fails only the home screen's decode. |
| AiSummary.CompactDecode | FinalProject/View/AIView.swift:68-80 | At most one task per document. Every document yields one exactly when all have the seven fields. |
| AiSummary.CompactDecodeConcat | FinalProject/View/AIView.swift:68-80 | Decoding two runs is decoding each, in order. |
| AiSummary.CompactDecodeOne | FinalProject/View/AIView.swift:68-80 | A document yields its task, or is silently dropped. |
| AiSummary.CompactDecodeKeepsOwner | FinalProject/View/AIView.swift:68-80 | Documents that all belong to one user give tasks that all belong to that user. |
| AiSummary.SummarisedTasksBelongToOwner | FinalProject/View/AIView.swift:57-80 | Every summarised task belongs to the signed-in user. |
| AiSummary.NatToString | FinalProject/View/AIView.swift:83 | An hour is written as a non-empty string of decimal digits. |
| AiSummary.NatToStringValue | FinalProject/View/AIView.swift:83 | The digits written for a number denote that number. |
| AiSummary.IntToString | FinalProject/View/AIView.swift:83 | A number is written with a leading minus exactly when it is negative, and never with a line break. |
| AiSummary.SummaryLine | FinalProject/View/AIView.swift:82-83 | One task's line: title, category, state, hour in decimal, date text and note, each after its label. SummaryLineIsOneLine shows it has no line break unless a field does. |
| AiSummary.SummaryLineIsOneLine | FinalProject/View/AIView.swift:82-84 | A task's line has no line break unless one of its text fields or its date text does. |
| AiSummary.JoinLines | FinalProject/View/AIView.swift:82-84 | No lines join to "", and a single line joins to itself. |
| AiSummary.SplitJoinRoundTrip | FinalProject/View/AIView.swift:82-84 | Lines without breaks, once joined, split back into the same lines, so there is no separator at either end. |
| AiSummary.SummaryLines | FinalProject/View/AIView.swift:82-84 | There is one line per task, in task order. |
| AiSummary.Digest | FinalProject/View/AIView.swift:82-84 | The task lines joined by line breaks. DigestHasOneLinePerTask shows it splits back into one line per task, in order; SplitJoinRoundTrip supplies the split. |
| AiSummary.DigestHasOneLinePerTask | FinalProject/View/AIView.swift:82-84 | No tasks give the empty digest. Otherwise the digest splits into exactly the task lines, in order. |
| AiSummary.Prompt | FinalProject/View/AIView.swift:92 | The prompt is the fixed instruction, a line break, then the digest. |
| AiSummary.PromptLines | FinalProject/View/AIView.swift:92 | The prompt's first line is the instruction, followed by the digest's lines. |
| AiSummary.RequestBody | FinalProject/View/AIView.swift:94-98 | The body is an object whose only key is "contents". It holds one content with only "parts", and one part with only "text", and that text reads back as the prompt. |
| AiSummary.AsObjectArray | FinalProject/View/AIView.swift:106-111 | The cast succeeds exactly on an array of objects, and keeps every object in place. |
| AiSummary.ExtractText | FinalProject/View/AIView.swift:105-119 | Text `t` is extracted exactly when the body is an object and "candidates" is a non-empty array of objects. The first candidate must have an object "content" whose "parts" is a non-empty array of objects, and the first part must map "text" to `t`. Any missing step, wrong type or empty array gives none. |
| AiSummary.SummaryScreen.constructor | FinalProject/View/AIView.swift:48 | The summary text starts empty. |
| AiSummary.SummaryScreen.GenerateSummary | FinalProject/View/AIView.swift:48-88 | Without a user, the text becomes "❌ 請先登入". A query error or missing snapshot sets its message. In none of these cases is a request sent. Otherwise the request carries the prompt over the digest of the owner's decoded tasks, and is sent even when the digest is empty. |
| AiSummary.SummaryScreen.ResponseReceived | FinalProject/View/AIView.swift:105-119 | The text becomes the extracted reply. When nothing is extracted, it becomes "❌ 無法取得 AI 回應". |
| About.DeleteEach | FinalProject/View/AboutView.swift:84-91 | Each listed document is deleted unless its own delete fails. One failure does not stop the others. |
| About.DeleteAllTasks | FinalProject/View/AboutView.swift:67-93 | With no user, a query error or no snapshot, nothing is deleted. Otherwise exactly the owner's documents whose deletes succeed are removed. |
| About.DeleteAllSparesOthers | FinalProject/View/AboutView.swift:76-91 | With distinct ids, every other user's document survives. What remains of the owner's documents is exactly those whose delete failed. |
| About.Logout | FinalProject/View/AboutView.swift:48-51 | The row only performs the view model's sign-out, with its outcome. |

## Left out

- SwiftUI presentation is left out: layout, gradients, animation, keyboard dismissal, sheets, tabs, and the Markdown rendering of the summary. So is the login screen's "忘記密碼" button, which only presents the forgot-password sheet.
- Firebase Auth, Firestore and URLSession are not modelled. Each completion is an event method, or a parameter carrying the service's answer.
- Network behaviour, latency, main-queue hops and the interleaving of completions are not modelled. Each completion runs to its end before the next event. In particular, the home screen's delete completion captures a row index and removes that index later; a list that changed in between is not modelled.
- Query results are in document-id order, the order Firestore uses when a query names none. Ids compare character by character by code point, which is the order of their UTF-8 bytes. Firestore's special ordering of numeric ids (`__id<n>__`) is not modelled.
- A saved task therefore lands at its random id's place in the owner's list, not at the end. The model states that place, and does not predict where a given random id falls.
- The regex engine is replaced by the recognizer. Lengths count Dafny characters, not Swift grapheme clusters, for both the 2 to 64 letter suffix and the six-character password.
- The summary's `\(deadline)` interpolation is `Date`'s fixed description, the instant in UTC as `yyyy-MM-dd HH:mm:ss +0000`. It is kept abstract as the `describe` function parameter. The home row's locale-dependent `formatted` date is presentation and is left out. A `Date` is an exact integer instant, with no floating-point seconds.
- JSON byte parsing and serialisation are left out. The reply is a `Json` value, or none when there was no body or it did not parse.
- The 2-second timer that closes the forgot-password sheet after a success alert is left out.
- `UUID()` and store-assigned document ids are parameters, assumed fresh.
- Swift `Int` is modelled as the 64-bit range `Int64`. Arithmetic that could overflow does not occur in the core.
- Auth.AuthViewModel.SignInCompleted: assumes the service returns a user whenever it returns no error. If the result were also missing, the code would set `isAuthenticated` without a user.
- Auth.AuthViewModel.SignUpCompleted: the same assumption as the sign-in completion.
- AiSummary.DigestHasOneLinePerTask: states one line per task only when no title, category, state, note or date text holds a line break. The date text never holds one, since `Date`'s description is a single line. A note with a line break spreads one task over several lines of the digest, as the code does.
- The authentication error codes are the eight named cases plus one case for every other code. Numeric code values are not modelled.
- The home screen's delete looks up the "id" field across the whole collection, not only the owner's documents. The model follows the code here.
- Add.AddForm.Save: the only failure it models is the error `addDocument(from:)` throws when the task cannot be encoded. A write the store rejects after the call is reported to a completion handler, and the code passes none, so the screen still shows "儲存成功！" and clears the title and note. The model assumes every encoded document is stored.
- There are no typed error results, no check on the title or hour before saving, and no not-found outcome. Failures only print or set message strings, and the model does the same.
