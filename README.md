# EnPathOS in Dafny

EnPathOS is a SwiftUI companion app for older adults. It has these screens:

- **Home:** a greeting and the day's reminders.
- **Health:** medication reminders, appointments and the medical history.
- **Wellness:** water intake, mood and meals.
- **Cognitive:** memory and logic games.
- **Profile:** the user's details and the settings sheet.

Around them sit three more pieces:

- a voice assistant that answers typed or spoken questions with canned replies;
- an emergency overlay;
- an onboarding pager, which the splash screen leads into.

All screens share one `AppState` object. It holds the session, the profile and the health lists.

This project models the logic inside these screens and inside `AppState`, and proves properties of it. The views are not modelled.

- **Pure rules become functions with lemmas.** These are:
  - the assistant's keyword responder;
  - the send and save guards;
  - which card rows and captions are shown;
  - the greeting by hour;
  - the colour, icon and star rules of the games screen.
- **State a view or `AppState` updates in place becomes a class.** These are:
  - `AppState`;
  - the assistant panel;
  - the emergency overlay;
  - the water counter, mood picker, reminder cards, profile form, settings, pager and root view.

  Each method states the new state.

Three things the app gets from its platform become explicit in the model:

- A closure scheduled with `DispatchQueue.main.asyncAfter` becomes a pending entry. A separate step method consumes it, for example `Panel.DeliverReply` or `AppState.CompleteLoadUserData`.
- `Date()` becomes a `now` parameter, and the hour of the day becomes a parameter.
- `UUID()` becomes a counter, `nextId`.

Modules:

| module | file | models |
|---|---|---|
| `Text` | text.dfy | `lowercased()`, `contains(_:)`, `trimmingCharacters(in: .whitespacesAndNewlines)` |
| `Models`, `Palette` | models.dfy | the record and enum types of `Models.swift`, the count of filled icons shared by the drop and star rows, and the colours |
| `Assistant`, `AssistantExamples` | assistant.dfy | `generateResponse(to:)`, the send guard, and replies to concrete queries |
| `AssistantView` | assistant_panel.dfy | `AssistantMessage`, `sendMessage`, its delayed reply, `toggleVoiceRecording` |
| `Session` | session.dfy | `AppState`, `UserProfile`, the simulated login |
| `Emergency` | emergency.dfy | `EmergencyAlertView` |
| `Wellness` | wellness.dfy | `WaterIntakeView`, `MoodView`, `MoodHistoryChart`, `AddMealView` |
| `Health` | health.dfy | `MedicationReminderCard`, the two entry forms, the appointment and record cards |
| `Profile` | profile.dfy | `ProfileView`, `EditProfileView`, `SettingsView` |
| `Onboarding` | onboarding.dfy | `OnboardingView` |
| `Content` | content.dfy | `ContentView` |
| `Home` | home.dfy | `HomeView`, its `ReminderCard` |
| `Cognitive` | cognitive.dfy | `CognitiveView`, `FeaturedGameCard`, `GameCard` |

## Model

| member | source | states |
|---|---|---|
| Text.LowerChar | EnPathOS/VoiceAssistantView.swift:170 | A capital letter moves down by 0x20. Every other character is kept. The result is never a capital. |
| Text.Lowercased | EnPathOS/VoiceAssistantView.swift:170 | Lower-casing keeps the length and maps each character on its own. |
| Text.StartsWithIff | EnPathOS/VoiceAssistantView.swift:172-178 | The recursive prefix test agrees with slicing: `s[..\|p\|] == p`. |
| Text.ContainsIff | EnPathOS/VoiceAssistantView.swift:172-178 | The recursive `contains` holds iff the keyword occurs at some index, in both directions. |
| Text.ContainsPiece | EnPathOS/VoiceAssistantView.swift:172-178 | A string contains every infix of it. |
| Text.LowercasedConcat | EnPathOS/VoiceAssistantView.swift:170 | Lower-casing distributes over concatenation. |
| Text.LowercasedIdempotent | EnPathOS/VoiceAssistantView.swift:170 | Lower-casing twice is lower-casing once. |
| Text.ContainsLowercased | EnPathOS/VoiceAssistantView.swift:170-172 | If a query contains a word, the lower-cased query contains the lower-cased word. |
| Text.LowercasedUnchanged | EnPathOS/VoiceAssistantView.swift:170 | A text with no capital is its own lower-case form. |
| Text.MissingCharNotContained | EnPathOS/VoiceAssistantView.swift:172-178 | A text lacking one character of a keyword does not contain the keyword. |
| Text.MissingPairNotContained | EnPathOS/VoiceAssistantView.swift:172-178 | A text in which the keyword's first two characters never stand side by side does not contain it. |
| Text.ContainsPrefix | EnPathOS/VoiceAssistantView.swift:172-178 | A text that contains a keyword contains every prefix of it. |
| Text.TrimStart | EnPathOS/VoiceAssistantView.swift:128 | Dropping leading whitespace leaves no whitespace at the front. |
| Text.TrimEnd | EnPathOS/VoiceAssistantView.swift:128 | Dropping trailing whitespace leaves no whitespace at the back. |
| Text.Trim | EnPathOS/VoiceAssistantView.swift:128 | The trimmed text starts and ends with a non-whitespace character, or is empty. |
| Text.TrimStartSuffix | EnPathOS/VoiceAssistantView.swift:128 | What is left is a suffix of the input, and everything dropped is whitespace. |
| Text.TrimEndPrefix | EnPathOS/VoiceAssistantView.swift:128 | What is left is a prefix of the input, and everything dropped is whitespace. |
| Text.TrimStartEmptyIff | EnPathOS/VoiceAssistantView.swift:128 | Trimming the front gives the empty text iff every character is whitespace. |
| Text.TrimEndEmptyIff | EnPathOS/VoiceAssistantView.swift:128 | Trimming the back gives the empty text iff every character is whitespace. |
| Text.TrimEmptyIffAllWhitespace | EnPathOS/VoiceAssistantView.swift:105 | The trimmed text is empty iff every character is whitespace. |
| Text.IsBlank | EnPathOS/VoiceAssistantView.swift:105 | The send guard's "blank" holds iff every character of the input is whitespace, in both directions. |
| Text.IsWhitespace | EnPathOS/VoiceAssistantView.swift:128 | No letter of A-Z, a-z or the Latin-1 capitals is whitespace, so trimming never removes part of a word. |
| Text.StartsWith | EnPathOS/VoiceAssistantView.swift:172-178 | A text starts with p only if p is no longer than it. The exact agreement with slicing is Text.StartsWithIff. |
| Text.Contains | EnPathOS/VoiceAssistantView.swift:172-178 | A text contains p only if p is no longer than it. The exact agreement with an occurrence at an index is Text.ContainsIff. |
| Models.CountSet | EnPathOS/WellnessView.swift:622-623 | The count is the size of the set of positions drawn filled, and at most the row's length. |
| Models.FilledPositionsSnoc | EnPathOS/WellnessView.swift:622-623 | The filled positions of a row are those without its last icon, plus the last position iff that icon is filled. |
| Models.CountSetOfPrefix | EnPathOS/WellnessView.swift:622-623 | A row filled exactly on its first k icons has k icons filled. |
| Models.NewReminder | EnPathOS/Models.swift:44-51 | A reminder built without `isCompleted` is not completed, and keeps every given field. |
| Models.AllGameTypes | EnPathOS/Models.swift:86-90 | There are exactly three game types, each listed once. |
| Models.AllUserRoles | EnPathOS/Models.swift:21-24 | There are exactly two roles, senior and caregiver. |
| Assistant.CannedReplies | EnPathOS/VoiceAssistantView.swift:172-181 | There are five replies, and the help text is the last. |
| Assistant.MentionsMedication | EnPathOS/VoiceAssistantView.swift:172 | The medication rule fires only on queries of at least 8 characters, the length of "medicina". |
| Assistant.MentionsAppointment | EnPathOS/VoiceAssistantView.swift:174 | The appointment rule fires only on queries of at least 4 characters, the length of "cita". |
| Assistant.MentionsExercise | EnPathOS/VoiceAssistantView.swift:176 | The exercise rule fires only on queries of at least 9 characters, the length of "ejercicio" and "actividad". |
| Assistant.MentionsFeelingUnwell | EnPathOS/VoiceAssistantView.swift:178 | The feeling-unwell rule fires only on queries of at least 6 characters, the length of "sentir". |
| Assistant.GenerateResponse | EnPathOS/VoiceAssistantView.swift:167-183 | The responder is total and always returns one of the five fixed replies. |
| Assistant.SendEnabled | EnPathOS/VoiceAssistantView.swift:105 | The send button is enabled iff the input has a non-whitespace character. |
| Assistant.CannedRepliesDistinct | EnPathOS/VoiceAssistantView.swift:172-181 | The five replies are pairwise different. |
| Assistant.ResponsePrecedence | EnPathOS/VoiceAssistantView.swift:172-181 | Each reply is given iff its rule fires on the lower-cased query and no earlier rule does, in both directions. The help text is given iff no rule fires. |
| Assistant.ResponseIgnoresCase | EnPathOS/VoiceAssistantView.swift:170 | The reply depends only on the lower-cased query. |
| Assistant.MedicationKeywordWins | EnPathOS/VoiceAssistantView.swift:172-173 | A query containing "medicamento" or "medicina", in any capitalisation, gets the medication reply, whatever else it contains. |
| Assistant.AppointmentKeywordWins | EnPathOS/VoiceAssistantView.swift:174-175 | A query containing "cita" and no medication keyword gets the appointment reply. |
| AssistantExamples.GreetingGetsHelp | EnPathOS/VoiceAssistantView.swift:180-181 | "hola" gets the help text. |
| AssistantExamples.NoRuleFires | EnPathOS/VoiceAssistantView.swift:172-181 | A lower-cased text without the letters d, c, j, v and r matches none of the four rules, and every query that lower-cases to it gets the help text. |
| AssistantExamples.SientoMalMatchesNoRule | EnPathOS/VoiceAssistantView.swift:172-178 | "me siento mal" matches none of the four rules; in particular it does not contain "sentir". |
| AssistantExamples.SientoMalGetsHelp | EnPathOS/VoiceAssistantView.swift:178-181 | Any query that lower-cases to "me siento mal" gets the help text, not the sympathy reply. |
| AssistantExamples.PromptLacksMedication | EnPathOS/VoiceAssistantView.swift:172 | The spoken question contains neither medication keyword. |
| AssistantExamples.PromptMentionsAppointment | EnPathOS/VoiceAssistantView.swift:174 | The spoken question contains "cita". |
| AssistantExamples.PromptAroundCita | EnPathOS/VoiceAssistantView.swift:159 | The spoken question is "cita" with the text before and after it. |
| AssistantExamples.VoicePromptGetsAppointmentReply | EnPathOS/VoiceAssistantView.swift:159-175 | The question the simulated recogniser fills in gets the appointment reply. |
| AssistantView.UserTurns | EnPathOS/VoiceAssistantView.swift:130-131 | The text of every user bubble in the log is among the user turns, which are no more than the bubbles. |
| AssistantView.Replies | EnPathOS/VoiceAssistantView.swift:144-145 | Every reply is the text of some assistant bubble of the log, and there are no more replies than bubbles. |
| AssistantView.TurnsAndRepliesCoverLog | EnPathOS/VoiceAssistantView.swift:130-145 | Every bubble is either a user turn or a reply: the two counts add up to the log's length. |
| AssistantView.IdsAfterAppend | EnPathOS/VoiceAssistantView.swift:210-211 | Appending a bubble with the next fresh id keeps ids strictly increasing. |
| AssistantView.TurnsAfterAppend | EnPathOS/VoiceAssistantView.swift:131 | Appending a bubble extends exactly one of the two projections, by its content. |
| AssistantView.FollowAfterAppend | EnPathOS/VoiceAssistantView.swift:141-147 | After an append, there are still never more replies than questions at any point of the log. |
| AssistantView.AnsweredAfterSend | EnPathOS/VoiceAssistantView.swift:128-138 | Sending a non-blank query keeps every reply matched to its query, with the new query queued last. |
| AssistantView.AnsweredAfterReply | EnPathOS/VoiceAssistantView.swift:141-147 | Answering the oldest queued query with its response keeps every reply matched to its query. |
| AssistantView.Panel.constructor | EnPathOS/VoiceAssistantView.swift:12-15 | The panel starts with empty input, not listening, no messages and not processing. |
| AssistantView.Panel.Type | EnPathOS/VoiceAssistantView.swift:12 | Editing the field sets the input and keeps the panel's invariant. |
| AssistantView.Panel.SendMessage | EnPathOS/VoiceAssistantView.swift:127-139 | Blank input changes nothing. Otherwise the method appends one user bubble with the untrimmed input, clears the input, sets processing and queues the query. Earlier bubbles are kept, and each reply still answers its query. |
| AssistantView.Panel.DeliverReply | EnPathOS/VoiceAssistantView.swift:141-147 | The delayed step appends one assistant bubble holding the response to the oldest queued query, dequeues it and clears processing. |
| AssistantView.Panel.ToggleVoiceRecording | EnPathOS/VoiceAssistantView.swift:150-153 | Listening flips. Turning it on schedules one recognition step. |
| AssistantView.Panel.VoiceRecognitionFires | EnPathOS/VoiceAssistantView.swift:156-161 | If still listening, listening stops and the fixed question fills the input. Otherwise the input is unchanged. |
| Session.DefaultProfile | EnPathOS/AppState.swift:27-34 | The launch profile is named "Usuario", with email "usuario@ejemplo.com", blood type "Desconocido", empty allergies and contact, and today's birth date. |
| Session.MockUser | EnPathOS/AppState.swift:41-49 | The simulated user is a senior with two emergency contacts. |
| Session.MockRecords | EnPathOS/AppState.swift:51-54 | There are two simulated records, the first dated now and the second earlier. |
| Session.MockReminders | EnPathOS/AppState.swift:56-59 | There are two simulated reminders, the first due before the second. |
| Session.ContactLine | EnPathOS/AppState.swift:67 | The contact line is the contact's name, then " - ", then the phone, with nothing else. |
| Session.PrimaryContact | EnPathOS/AppState.swift:108 | The first contact exists iff there is a user with a contact, and it is that user's first contact. |
| Session.MockUserContacts | EnPathOS/AppState.swift:41-49 | The simulated user is a senior with two contacts of distinct ids. The first contact is the daughter. |
| Session.MockRemindersPending | EnPathOS/AppState.swift:56-59 | The two simulated reminders are daily, not completed and due after now, in order, with distinct ids. |
| Session.MockRecordsNewestFirst | EnPathOS/AppState.swift:51-54 | The two simulated records have attachments, are listed newest first and have distinct ids. |
| Session.MockContactLine | EnPathOS/AppState.swift:66-68 | After the simulated login the contact line is "María Ramírez - +34600123456". |
| Session.AppState.constructor | EnPathOS/AppState.swift:16-34 | The state starts logged out, with no user, empty lists, the alert hidden and the default profile. |
| Session.AppState.LoadUserData | EnPathOS/AppState.swift:37-39 | `loadUserData` only schedules the login. |
| Session.AppState.CompleteLoadUserData | EnPathOS/AppState.swift:39-72 | The login step installs the simulated user, records and reminders, copies the name and first contact into the profile, and logs in. Appointments, the wellness log and the other fields stay as they were. |
| Session.AppState.UpdateProfile | EnPathOS/AppState.swift:76-96 | All six profile fields are overwritten, and the current user, if any, is renamed with its other fields kept. Nothing else changes. |
| Session.AppState.Logout | EnPathOS/AppState.swift:99-103 | Logging out clears `isLoggedIn` and the user. Every other field is unchanged. |
| Session.AppState.ActivateEmergency | EnPathOS/AppState.swift:105-114 | The alert is shown, one location request is made and the first contact is named. Nothing else changes. |
| Emergency.AllEmergencyTypes | EnPathOS/EmergencyAlertView.swift:17-26 | `allCases` lists the six types once each, each at its position in declaration order. |
| Emergency.RawValue | EnPathOS/EmergencyAlertView.swift:17-25 | The raw value "Otro" names the `other` case and no other case. |
| Emergency.RawValuesDistinct | EnPathOS/EmergencyAlertView.swift:17-25 | Different types have different raw values, so the picker ids are unique. |
| Emergency.PhaseOf | EnPathOS/EmergencyAlertView.swift:41-47 | Calling beats confirmation, which beats selection, each as an iff. |
| Emergency.BackdropClosesOnlyInSelection | EnPathOS/EmergencyAlertView.swift:32-38 | The backdrop's guard holds exactly in the selection phase. |
| Emergency.ConfirmationSummary | EnPathOS/EmergencyAlertView.swift:153-157 | The summary has a "Detalles" line iff extra information was typed, between the symptom and the location lines. |
| Emergency.EmergencyAlert.constructor | EnPathOS/EmergencyAlertView.swift:12-15 | The overlay opens on general discomfort, with no details, in the selection phase. |
| Emergency.EmergencyAlert.TapBackdrop | EnPathOS/EmergencyAlertView.swift:32-38 | A backdrop tap hides the overlay in selection and changes nothing otherwise. |
| Emergency.EmergencyAlert.Cancel | EnPathOS/EmergencyAlertView.swift:71-75 | Closing from selection hides the overlay. |
| Emergency.EmergencyAlert.Choose | EnPathOS/EmergencyAlertView.swift:88-91 | The picker sets the type and stays in selection. |
| Emergency.EmergencyAlert.EditAdditionalInfo | EnPathOS/EmergencyAlertView.swift:99 | The field sets the details and stays in selection. |
| Emergency.EmergencyAlert.Next | EnPathOS/EmergencyAlertView.swift:120-123 | "Siguiente" moves to confirmation and changes only that flag. |
| Emergency.EmergencyAlert.Back | EnPathOS/EmergencyAlertView.swift:165-168 | "Atrás" returns to selection and changes only that flag. |
| Emergency.EmergencyAlert.Call | EnPathOS/EmergencyAlertView.swift:179-183 | "Llamar" enters the calling phase and schedules one hang-up. |
| Emergency.EmergencyAlert.HangUp | EnPathOS/EmergencyAlertView.swift:183-187 | The timed step hides the overlay and leaves the phase as it was. |
| Emergency.NextThenBack | EnPathOS/EmergencyAlertView.swift:120-168 | Confirming and going back restores the type, the details and the phase. |
| Wellness.DropRow | EnPathOS/WellnessView.swift:622-623 | The eight drops are filled exactly below the count. |
| Wellness.FilledDropsMatchCount | EnPathOS/WellnessView.swift:622-623 | The number of filled drops equals the counter. |
| Wellness.WaterIntake.constructor | EnPathOS/WellnessView.swift:606 | The counter starts at 4, within 0..8. |
| Wellness.WaterIntake.TapDrop | EnPathOS/WellnessView.swift:622-628 | Tapping drop i sets the count to i+1, so drop i is filled, and the count stays within 0..8. |
| Wellness.WaterIntake.Decrement | EnPathOS/WellnessView.swift:634-638 | Minus decrements only above 0 and stays within 0..8. |
| Wellness.WaterIntake.Increment | EnPathOS/WellnessView.swift:646-650 | Plus increments only below 8 and stays within 0..8. |
| Wellness.MoodIcon | EnPathOS/WellnessView.swift:352-361 | The neutral face is shown iff the score is not 1, 2, 4 or 5, which covers 3 and every score outside 1..5. |
| Wellness.MoodText | EnPathOS/WellnessView.swift:363-372 | The caption reads "Normal" iff the score is not 1, 2, 4 or 5. |
| Wellness.MoodColor | EnPathOS/WellnessView.swift:420-429 | The bar is gray iff the score is outside 1..5. |
| Wellness.MoodTablesDistinct | EnPathOS/WellnessView.swift:352-372 | Scores 1..5 have five different icons, captions and colours. |
| Wellness.MoodFallbacks | EnPathOS/WellnessView.swift:352-372 | Outside 1..5 the icon and caption are those of 3. The colour is gray, which no score in 1..5 gets. |
| Wellness.MoodHistoryInRange | EnPathOS/WellnessView.swift:382 | The seven charted scores are in 1..5, so no bar is gray. |
| Wellness.MoodPicker.constructor | EnPathOS/WellnessView.swift:267-268 | The picker starts at 3 with empty notes. |
| Wellness.MoodPicker.Select | EnPathOS/WellnessView.swift:281-286 | A face button sets the score, within 1..5. |
| Wellness.MoodPicker.EditNotes | EnPathOS/WellnessView.swift:311 | The editor sets the notes. |
| Wellness.MoodPicker.SaveMoodEntry | EnPathOS/WellnessView.swift:374-378 | Saving reports the score and notes, clears the notes and keeps the score. |
| Wellness.MealSaveEnabled | EnPathOS/WellnessView.swift:594 | The meal can be saved iff both the name and the food list are non-empty. |
| Health.ReminderCard | EnPathOS/HealthView.swift:120-161 | The card strikes the title through iff completed, shows "Diario" iff the reminder is daily, and chooses the check icon by the flag. |
| Health.MedicationReminderCard.constructor | EnPathOS/HealthView.swift:114-117 | The card's flag starts as the reminder's own `isCompleted`. |
| Health.MedicationReminderCard.Toggle | EnPathOS/HealthView.swift:154-157 | A tap flips only the card's flag. The reminder is a constant. |
| Health.ToggleTwice | EnPathOS/HealthView.swift:154-157 | Two taps restore the flag. |
| Health.ReminderSaveEnabled | EnPathOS/HealthView.swift:200 | The reminder can be saved iff its title is non-empty. |
| Health.AppointmentSaveEnabled | EnPathOS/HealthView.swift:303 | The appointment can be saved iff both the title and the doctor are non-empty. |
| Health.AppointmentsSectionOf | EnPathOS/HealthView.swift:66-81 | The placeholder is shown iff there are no appointments. Otherwise there is one card per appointment, in order. |
| Health.RecordRows | EnPathOS/HealthView.swift:328-368 | A record card has at most four optional rows. |
| Health.RecordRowsShowNonEmptyFields | EnPathOS/HealthView.swift:328-368 | The diagnosis, medications and notes rows appear iff their text is non-empty. The attachment row appears iff the record has one. No other row appears. |
| Health.AppointmentRows | EnPathOS/HealthView.swift:254-255 | An appointment card shows its notes iff they are non-empty. |
| Profile.AllergiesDisplay | EnPathOS/ProfileView.swift:91 | Allergies read "Ninguna" when empty and verbatim otherwise, never blank. |
| Profile.BloodTypesDistinct | EnPathOS/ProfileView.swift:217-227 | The picker offers nine different values, among them the default "Desconocido". |
| Profile.EditProfileForm.constructor | EnPathOS/ProfileView.swift:196-204 | The form opens with all six fields equal to the current profile. |
| Profile.EditProfileForm.Apply | EnPathOS/ProfileView.swift:209-233 | An edit changes exactly the field it names, and only in the form. |
| Profile.EditProfileForm.Save | EnPathOS/ProfileView.swift:249-259 | Saving makes the profile equal the form and renames the user. Nothing else changes. |
| Profile.OpenAndSave | EnPathOS/ProfileView.swift:196-259 | Opening and saving with no edits leaves every published field unchanged. |
| Profile.EditThenCancel | EnPathOS/ProfileView.swift:238-240 | Any edits followed by "Cancelar" leave the state unchanged. |
| Profile.Settings.constructor | EnPathOS/ProfileView.swift:264-266 | Notifications are on, dark mode is off and the font size is 1. |
| Profile.Settings.ToggleNotifications | EnPathOS/ProfileView.swift:272 | The switch flips notifications. |
| Profile.Settings.ToggleDarkMode | EnPathOS/ProfileView.swift:273 | The switch flips dark mode. |
| Profile.Settings.SelectFontSize | EnPathOS/ProfileView.swift:277-280 | The font size is set to one of 0, 1, 2. |
| Profile.FontSizeLabel | EnPathOS/ProfileView.swift:278-280 | The default size 1 reads "Mediano". |
| Profile.FontSizeLabelsDistinct | EnPathOS/ProfileView.swift:278-280 | The three segments have different captions. |
| Onboarding.PagesTagged | EnPathOS/OnboardingView.swift:18-46 | There are four pages, one per tag 0..3, with different symbols. |
| Onboarding.ButtonLabel | EnPathOS/OnboardingView.swift:58 | The button reads "Siguiente" before page 3 and "Comenzar" on it. |
| Onboarding.ButtonLabelTellsLastPage | EnPathOS/OnboardingView.swift:58 | Two pages share a caption iff both are, or both are not, before the last page. |
| Onboarding.Pager.constructor | EnPathOS/OnboardingView.swift:10 | The pager opens on page 0. |
| Onboarding.Pager.Swipe | EnPathOS/OnboardingView.swift:18 | A swipe selects a page within 0..3. |
| Onboarding.Pager.Tap | EnPathOS/OnboardingView.swift:49-56 | On pages 0-2 the page advances by one. On page 3 one login is scheduled and the page stays 3. |
| Onboarding.TapThrough | EnPathOS/OnboardingView.swift:49-56 | From page p, 4 - p taps reach page 3 and schedule exactly one login. |
| Content.Route | EnPathOS/ContentView.swift:17-33 | The splash is shown iff `showSplash` is set. After the splash, the main tabs show iff logged in, and onboarding otherwise. |
| Content.Root.constructor | EnPathOS/ContentView.swift:11 | The root opens on the splash. |
| Content.Root.SplashAppears | EnPathOS/ContentView.swift:20-21 | The splash schedules its timer only while shown. |
| Content.Root.SplashTimerFires | EnPathOS/ContentView.swift:21-25 | The timer hides the splash for good. This is the only assignment of `showSplash`. |
| Content.LogoutShowsOnboarding | EnPathOS/ContentView.swift:27-32 | Logging out after the splash routes to onboarding. |
| Content.LoginShowsMainTabs | EnPathOS/ContentView.swift:27-29 | The simulated login completing after the splash routes to the main tabs. |
| Home.Greeting | EnPathOS/HomeView.swift:15-24 | Hours before 12 give "Buenos días", 12-18 "Buenas tardes" and 19 on "Buenas noches", each as an iff, so the ranges partition the day. |
| Home.GreetingsDistinct | EnPathOS/HomeView.swift:18-22 | The three greetings differ. |
| Home.GreetingMonotone | EnPathOS/HomeView.swift:15-24 | Later in the day the greeting never goes back to an earlier one. |
| Home.Header | EnPathOS/HomeView.swift:32-40 | The header is the greeting, then the user's name iff there is a current user. |
| Home.ReminderCard.constructor | EnPathOS/HomeView.swift:173 | The card starts uncompleted, whatever the reminder says. |
| Home.ReminderCard.Toggle | EnPathOS/HomeView.swift:197-200 | A tap flips the card's flag. |
| Home.CardsDisagreeOnCompleted | EnPathOS/HomeView.swift:173 | For a completed reminder, the home card and the health card open in different states. |
| Cognitive.GamesWellFormed | EnPathOS/CognitiveView.swift:10-14 | The three games have distinct ids, difficulties in 1..5, and one game of each type. |
| Cognitive.ColorForIndex | EnPathOS/CognitiveView.swift:132-135 | For i ≥ 0 the colour is one of red, blue, green and yellow. |
| Cognitive.ColorForIndexPeriodic | EnPathOS/CognitiveView.swift:132-135 | Colours repeat with period 4. |
| Cognitive.FeaturedCirclesDistinct | EnPathOS/CognitiveView.swift:97-99 | The four featured circles have four different colours. |
| Cognitive.StarRow | EnPathOS/CognitiveView.swift:162-166 | There are five stars, and star i is filled iff i < difficulty. |
| Cognitive.FilledStars | EnPathOS/CognitiveView.swift:162-166 | The filled count is the difficulty clamped to 0..5. |
| Cognitive.ColorForType | EnPathOS/CognitiveView.swift:187-193 | A game's tint is purple, blue or green. |
| Cognitive.IconForType | EnPathOS/CognitiveView.swift:195-201 | The brain symbol is used iff the game is a memory game. |
| Cognitive.TypeStylesDistinct | EnPathOS/CognitiveView.swift:187-201 | Each game type has its own colour and its own symbol. |

## Left out

- **Timing.** Delays of `asyncAfter` are not modelled, nor are callbacks that run after their view has gone.
  - Each scheduled closure is a pending entry, and its step method may run at any later point.
  - Replies are queued first in, first out, because every reply has the same delay.
- **Dates, UUIDs and the calendar.** These are integers: a `now` timestamp, an hour, and a counter for ids. Date formatting and weekday names are not modelled.
- Text.Lowercased: maps only ASCII and Latin-1 capitals, not full Unicode case mapping. Every keyword and every fixed text involved is ASCII or Latin-1.
- Text.Contains: matches keywords scalar by scalar. It has no grapheme-cluster boundaries and no canonical equivalence, so "cita" followed by the combining accent U+0301 contains "cita" here, while Swift's `contains` does not match it.
- Text.IsWhitespace: enumerates the characters of `.whitespacesAndNewlines`. It is not derived from the Unicode tables.
- AssistantExamples.SientoMalGetsHelp: is stated for queries whose lower-cased form is "me siento mal", because evaluating lower-casing on a literal inside the proof is too costly.
- AssistantExamples.VoicePromptGetsAppointmentReply: is stated for queries whose lower-cased form is the lower-cased spoken question, for the same reason.
- **Location.** `LocationManager.startUpdatingLocation()` is a counter of requests in `AppState`. `LocationManager.swift` and the notification and location permission requests of `EnPathOSApp.swift` are not part of this model.
- **Printing.** `print` calls that stand in for persistence are not modelled: the emergency call, the saved mood entry, the saved reminder, appointment and meal. `SaveMoodEntry` returns what the source prints. The reminder, appointment and meal forms store nothing, so only their save guards are modelled.
- **Persistence of settings.** `@AppStorage` is not modelled; the settings are plain fields.
- **Layout and static content.** Colours beyond the choices above, fonts, sizes, animations and progress bars are not modelled. Nor are the fixed figures of the summary cards, such as "2 Medicinas", "Promedio: 2.5" or "85%". The same goes for the exercise list and activity log of the wellness screen, which hold no logic.
- **Other files.** `SplashView.swift` and `MainTabView.swift` are not part of this model, since they are layout and tab composition. `Item.swift` is an unused SwiftData template and is not part of this model.
- **Presentation.** Dismissal of sheets through `presentationMode`, and the buttons with empty actions ("Jugar ahora", "Ayuda y soporte"), are not modelled.
