# Belladerm clinic app: the decision logic of four screens

The app is a React Native client for a dental and skincare clinic. Its "AI" is canned
text; what it actually decides is done by four screens, and this project models them:

- **Symptom urgency check** (`Urgency`, `urgency.dfy`). Eight weighted yes/no questions
  are asked in order and their answers are kept in a map keyed by question id. The score is
  the sum of the weights of the "yes" answers. The tier is Urgent from 12, High from 8,
  Medium from 4 and Low below that. The screen can be reset.
- **Appointment booking wizard** (`Appointment`, `appointment.dfy`). The user selects a doctor,
  a service, a date and a time. Each selection sets the step counter, and the book button
  checks that all four were made. A four-circle step indicator shows progress. The date
  list has 21 entries, each with today and weekend flags.
- **Photo health check** (`PhotoCheck`, `photo_check.dfy`). The screen asks for camera
  permission, shows the camera and takes a picture. An interval then shows six analysis
  steps, and the results follow. There are also a camera-facing toggle and total
  severity-to-colour and severity-to-icon maps.
- **Sign-in** (`Auth`, `auth.dfy`). The submit handler rejects an email or password that
  trims to the empty string, and it clears the loading flag when it does. There are also
  guest login, login/register tabs and a show-password eye.

`wrappers.dfy` holds the `Option` type the screens share.

Each screen's `useState` variables are fields of a class, with one method per handler.
The two timers of a screen (`setTimeout`, `setInterval`) are methods too: each call is
one firing, which keeps the order of the state changes and drops the delays. A `Valid()`
predicate states the invariant that every handler keeps. A handler's precondition is the
screen state in which its button or field is rendered. For example, the answer buttons
appear only on the question screen, the service cards only after a doctor is chosen, and
the name field only on the register tab. The exception is `HandleBooking`, which is
modelled in every state so that its missing-selection guard is covered; its contract
shows that the visible book button always confirms. The
pure parts are functions with lemmas: the score, the tiers, the step indicator, the
costs, JavaScript's `trim`, the severity maps and the progress fraction.

Three facts about the urgency score that the code fixes:
- A missing answer counts as "no".
- The weights are 3, 2, 4, 3, 2, 3, 4, 2, so a full "yes" scores 23.
- The result screen shows the score out of `questions.length * 4` = 32, although no
  answer set scores more than 23. The model proves both bounds.

The sign-in check trims with JavaScript's `trim`. The characters it removes
(`Auth.IsJsWhitespace`) are ECMAScript's WhiteSpace and LineTerminator code points,
including the Unicode space separators (category Zs).

## Model

| member | source | states |
|---|---|---|
| Urgency.ScoreAnswers | app/urgency-check.tsx:195-200 | the scoring loop returns the sum of the weights of the questions whose id maps to true; missing or false ids add nothing |
| Urgency.ScoreMonotone | app/urgency-check.tsx:195-200 | if every yes answer of one answer set is also yes in another, the first scores no more than the second |
| Urgency.FlipToYesNeverDecreasesScore | app/urgency-check.tsx:195-200 | turning any single answer to yes never decreases the score |
| Urgency.FlipToYesNeverLowersTier | app/urgency-check.tsx:195-213 | turning any single answer to yes never lowers the urgency tier |
| Urgency.ScoreAtMostTotal | app/urgency-check.tsx:195-200 | the score never exceeds the sum of all weights |
| Urgency.AllNoScoresZero | app/urgency-check.tsx:195-200 | when no question is answered yes the score is 0 |
| Urgency.AllYesScoresTotal | app/urgency-check.tsx:195-200 | when every question is answered yes the score is the sum of all weights |
| Urgency.TotalWeightAtMostFourEach | app/urgency-check.tsx:18-67 | with every weight at most 4, the weights sum to at most four per question |
| Urgency.QuestionsTotalWeight | app/urgency-check.tsx:18-67 | the eight weights 3, 2, 4, 3, 2, 3, 4, 2 sum to 23 |
| Urgency.ScoreWithinDisplayedMaximum | app/urgency-check.tsx:325 | every score is at most 23, which is at most the displayed maximum `questions.length * 4` = 32 |
| Urgency.AllNoIsLow | app/urgency-check.tsx:195-213 | all answers no give score 0 and tier Low |
| Urgency.AllYesIsUrgent | app/urgency-check.tsx:195-213 | all answers yes give score 23 and tier Urgent |
| Urgency.BleedingAndPainIsMedium | app/urgency-check.tsx:195-213 | yes to gum bleeding (3) and tooth pain (4), no to the rest, scores 7, which is Medium |
| Urgency.TierThresholds | app/urgency-check.tsx:208-213 | about `UrgencyLevel`, the cascade of getUrgencyLevel: Urgent iff score ≥ 12, High iff 8 ≤ score < 12, Medium iff 4 ≤ score < 8, Low iff score < 4, so each score has exactly one tier |
| Urgency.LevelMonotone | app/urgency-check.tsx:208-213 | a higher score never gives a lower tier |
| Urgency.HandleAnswerChangesOnlyCurrentKey | app/urgency-check.tsx:179 | the answer update sets the current question's id to the answer and leaves every other key and value as it was |
| Urgency.UrgencyQuiz.constructor | app/urgency-check.tsx:125-129 | the quiz starts at question 0 with no answers, no result, score 0 and no analysis |
| Urgency.UrgencyQuiz.HandleAnswer | app/urgency-check.tsx:178-188 | records the answer under the current question's id and keeps every other answer; advances the cursor by one below the last question, and on the last question keeps the cursor and starts the analysis; keeps the cursor within the questions and the answered ids equal to the questions asked |
| Urgency.UrgencyQuiz.AnalysisTimeout | app/urgency-check.tsx:190-206 | the delayed analysis stores the score of the complete answer set, stops analysing and shows the result |
| Urgency.UrgencyQuiz.GetUrgencyLevel | app/urgency-check.tsx:208-213 | the shown tier is the tier of the score of the answers, and Low before any result |
| Urgency.UrgencyQuiz.ResetQuiz | app/urgency-check.tsx:215-222 | callable only from the result screen, where its button is rendered; restores cursor 0, empty answers, no result, score 0 and no analysis |
| Urgency.AnswerAll | app/urgency-check.tsx:178-188 | answering the eight questions from the start ends in the analysis with every question's answer recorded under its id (that no scoring starts earlier is given by HandleAnswer's contract) |
| Appointment.GenerateDates | app/appointment.tsx:122-138 | exactly 21 entries with offsets 0 to 20 and consecutive weekdays; only offset 0 is today; an entry is a weekend iff its weekday is 5 or 6 |
| Appointment.CalendarHasSixWeekendDays | app/appointment.tsx:122-138 | whatever weekday today is, the 21 generated dates hold exactly six weekend days |
| Appointment.SevenDaysTwoWeekendDays | app/appointment.tsx:134 | any seven consecutive days hold exactly two days with weekday 5 or 6 |
| Appointment.WeekHasTwoWeekendDays | app/appointment.tsx:134 | extending a run of calendar days by a week adds exactly two weekend days |
| Appointment.CountWeekendsOfCalendar | app/appointment.tsx:125-135 | the weekend flags of the first n generated entries count the weekend days among those n days |
| Appointment.SummaryTotalMatchesBooking | app/appointment.tsx:405 | about `SummaryTotal`, the summary's total expression: the summary total counts a missing doctor or service as 0, equals doctor price plus service price once both are chosen, and is never below the doctor's price |
| Appointment.CompletedCircles | app/appointment.tsx:196-218 | about `CircleActive` and `CircleCompleted`, the step indicator's comparisons: circle k is active iff the step is at least k and completed iff the step is above k; a completed circle is active, the circles before it are completed too, and the one active circle that is not completed is the current step |
| Appointment.StepsBeforeCurrentAreSelected | app/appointment.tsx:151-172 | in every reachable wizard state, every selection before the current step has been made |
| Appointment.CompletedCircleIsSelected | app/appointment.tsx:196-203 | a completed circle always stands for a selection that was made |
| Appointment.TimeSelectedMeansComplete | app/appointment.tsx:456-501 | with the sections shown in order, a selected time, which shows the summary and the book button, means doctor, service and date are selected too |
| Appointment.AppointmentWizard.constructor | app/appointment.tsx:97-101 | nothing is selected and the step is 1 |
| Appointment.AppointmentWizard.HandleDoctorSelect | app/appointment.tsx:151-155 | sets the doctor and step 2, possibly moving the step back, and leaves the other selections unchanged |
| Appointment.AppointmentWizard.HandleServiceSelect | app/appointment.tsx:157-161 | callable once a doctor is chosen; sets the service and step 3 and leaves the other selections unchanged |
| Appointment.AppointmentWizard.HandleDateSelect | app/appointment.tsx:163-167 | callable once a service is chosen; sets the date and step 4 and leaves the other selections unchanged |
| Appointment.AppointmentWizard.HandleTimeSelect | app/appointment.tsx:169-172 | callable once a date is chosen; sets the time and step 5 and leaves the other selections unchanged |
| Appointment.AppointmentWizard.HandleBooking | app/appointment.tsx:174-192 | rejects, changing nothing, iff doctor, service, date or time is unset; otherwise confirms the selections with total cost doctor price plus service price, equal to the summary total; pressing the visible book button always confirms |
| PhotoCheck.ToggleCameraFacing | app/photo-health-check.tsx:187-189 | back becomes front and front becomes back |
| PhotoCheck.ToggleTwiceIsIdentity | app/photo-health-check.tsx:187-189 | toggling twice gives the original facing |
| PhotoCheck.GetSeverityColor | app/photo-health-check.tsx:198-205 | high, medium and low severities get #F44336, #FF9800 and #4CAF50, and a string gets #7F8C8D iff it is none of them |
| PhotoCheck.GetSeverityIcon | app/photo-health-check.tsx:207-214 | high, medium and low severities get 🚨, ⚠️ and ✅, and a string gets ❓ iff it is none of them |
| PhotoCheck.SeverityBadgesAgree | app/photo-health-check.tsx:198-214 | on the known severities, colours and icons are each distinct iff the severities are |
| PhotoCheck.ProgressFraction | app/photo-health-check.tsx:170 | the progress fraction (step+1)/6 lies in (0, 1] and is 1 exactly at the last step |
| PhotoCheck.ProgressIncreases | app/photo-health-check.tsx:170 | a later step has a larger progress fraction |
| PhotoCheck.PhotoCheckScreen.constructor | app/photo-health-check.tsx:81-87 | the screen starts on the front camera with no camera shown, no analysis, no results, no image and step 0 |
| PhotoCheck.PhotoCheckScreen.StartPhotoCheck | app/photo-health-check.tsx:137-146 | the camera is shown iff the permission was already granted or is granted on request |
| PhotoCheck.PhotoCheckScreen.CancelCamera | app/photo-health-check.tsx:227 | hides the camera |
| PhotoCheck.PhotoCheckScreen.ToggleFacing | app/photo-health-check.tsx:230-233 | the flip button switches the facing as ToggleCameraFacing does |
| PhotoCheck.PhotoCheckScreen.TakePicture | app/photo-health-check.tsx:148-162 | without a mounted camera, or when the capture throws, nothing changes; otherwise stores the picture's uri, or no image for a missing or empty uri, hides the camera, starts analysing and starts the interval at step 0 |
| PhotoCheck.PhotoCheckScreen.IntervalTick | app/photo-health-check.tsx:164-185 | one interval firing shows the counter's step, increments the counter and clears the interval once it reaches 6, scheduling the final timeout; the shown step stays a valid index |
| PhotoCheck.PhotoCheckScreen.FinishTimeout | app/photo-health-check.tsx:179-182 | analysing becomes false and the results are shown |
| PhotoCheck.PhotoCheckScreen.ResetAnalysis | app/photo-health-check.tsx:191-195 | hides the results, clears the image and sets the step to 0 |
| PhotoCheck.RunAnalysis | app/photo-health-check.tsx:164-185 | the interval shows the steps 0, 1, …, 5 in order, stops after exactly six firings, and the final timeout ends the analysis with the results shown |
| Auth.TrimStart | app/auth.tsx:33 | removes exactly the leading whitespace: what is removed is whitespace, and the rest is empty or starts with a non-whitespace character |
| Auth.TrimEnd | app/auth.tsx:33 | removes exactly the trailing whitespace, in the same way |
| Auth.TrimEmptyIffBlank | app/auth.tsx:33 | about `Trim`, which is `TrimEnd` after `TrimStart`: a string trims to the empty string iff all of its characters are whitespace |
| Auth.CredentialsFilled | app/auth.tsx:33-37 | the check passes iff the email and the password each contain a character other than whitespace |
| Auth.BlankPasswordRejected | app/auth.tsx:33-37 | an empty or whitespace-only password is rejected whatever the email |
| Auth.AuthScreen.constructor | app/auth.tsx:23-28 | not loading, login tab, password hidden, all fields empty |
| Auth.AuthScreen.HandleAuth | app/auth.tsx:30-43 | on a blank email or password, loading ends false with no completion scheduled; otherwise loading stays true until the scheduled completion; the name and the tab are not looked at |
| Auth.AuthScreen.CompleteAuth | app/auth.tsx:39-42 | the delayed completion clears loading and navigates to the tabs |
| Auth.AuthScreen.HandleGuestLogin | app/auth.tsx:45-47 | navigates to the tabs without any check |
| Auth.AuthScreen.SelectLoginTab | app/auth.tsx:133 | sets the login tab, so pressing it twice is the same as once |
| Auth.AuthScreen.SelectRegisterTab | app/auth.tsx:141 | sets the register tab, so pressing it twice is the same as once |
| Auth.AuthScreen.TogglePasswordVisibility | app/auth.tsx:185-186 | flips the show-password flag, so `SecureTextEntry`, the input masking that is always the negation of the flag, flips too |
| Auth.AuthScreen.SetEmail | app/auth.tsx:166 | the email field holds the typed text |
| Auth.AuthScreen.SetPassword | app/auth.tsx:178 | the password field holds the typed text |
| Auth.AuthScreen.SetName | app/auth.tsx:149-158 | typing is possible only on the register tab, where the field is rendered; the name field holds the typed text |
| Auth.SubmitFresh | app/auth.tsx:30-43 | a submission from a fresh screen, in login or register mode and with any name, is accepted iff the email and password pass the trimmed check |

## Left out

- Layout, styles and the `Animated` values are presentation, and their interpolations use floating point.
- The timer durations (2000 ms, 800 ms, 1000 ms, 1500 ms, 300 ms) are left out. Only the order of the timer firings is modelled.
- The `Alert` dialogs, `router` navigation, scrolling, the camera view and the permission hook are foreign calls. Their results enter as parameters: `grantedOnRequest`, `cameraMounted`, `Capture`. Navigation is the flag `navigatedToTabs` on the sign-in screen and is absent elsewhere.
- The back buttons and the "book appointment" alert of the urgency result screen only navigate. The lower-case title in the alert text is string formatting.
- The question texts, icons and the tier texts, colours and tips are display-only constants. Tiers are modelled as the four ordered values.
- Doctor and service names, ratings, photos and descriptions are display-only. A doctor is its id and price, and a service is its id and price.
- GenerateDates: works over day offsets and a given weekday for today. JavaScript `Date`, `toISOString` and the `ar-SA` month and weekday names are foreign library calls, so the model leaves out the day-of-month and the formatted strings. The selected date is held as its offset.
- The canned analysis results of the photo check are constants, not computed.
- PhotoCheck.ProgressFraction: the `Math.round` percentage shown beside the bar is display formatting, so only the exact fraction is modelled.
- Each `async` handler is modelled as one atomic step. A second press while `takePictureAsync` or `requestPermission` is still awaiting is not modelled.
- The animation components (AnimatedInput, AnimatedButton, AnimatedCounter, FloatingActionButton, PulseAnimation), the layout files, the framework hook and the tab screens are not part of this model.
