# TeacherHub in Dafny

This is a model of the logic of TeacherHub, a Next.js dashboard for a music school. It covers:

- **The validators** of `lib/validation.ts`. Regular expressions are written out as character checks and proved equal to a literal reading of each expression.
- **The five step editors and the review step** of the teacher wizard. These are the personal, contact, qualifications, availability and emergency steps. Each input yields a patch of its own section. A text input of the personal, contact or emergency step also yields a replacement of the validation ledger; the qualifications and availability steps never touch it. The ledger is the `Record<string, string>` of error messages the steps share.
- **The two wizard containers**, `AceternityTeacherForm` and `AddTeacherForm`. Each is a class whose fields are the React state of the component. Its methods are the handlers: section updates, Next, Previous, and the parts of the submit.
- **The list pages**: messages, teachers, students, courses, time tracking, schedule and settings. Also the profile's schedule grid and qualifications cards. Their searches, counts, slices, sort and badge maps become functions, with lemmas that state what the list shows. The settings page is a class over a key/value record.

JavaScript behaviour is written out where it matters:

- `trim` and `\s` work over ASCII whitespace.
- `includes` works on lower-cased copies.
- `split`, `Number.parseInt`, and the `x || fallback` coercion are modelled; NaN and 0 are both falsy.
- The object spread `{ ...prev, ...data }` is modelled on datatypes whose patch fields are `Option`s.

Values taken from the clock, from randomness or from the browser are parameters. These are today's date string, the current year and birth year, the fresh qualification id (standing for the random `Math.random().toString(36).substr(2, 9)`), the `parseFloat` result and the outcome of the simulated request. Money, hours and rates are exact rationals (`real`).

A few behaviours of the code that a reader might expect otherwise:

- The Aceternity container shows a fixed failure message. It does not show the caught error's text.
- The Aceternity Next button follows the ledger through `validateCurrentStep`. It does not run the field validators.
- The personal step's under-age message is "Must be at least 18 years old". The library's is "Teacher must be at least 18 years old".

## Model

| member | source | states |
|---|---|---|
| Validation.FirstName | lib/validation.ts:2-6 | blank after trim gives "First name is required"; else fewer than 2 characters of the untrimmed value gives the length message; else null (None) |
| Validation.LastName | lib/validation.ts:7-11 | as for the first name, with the "Last name" messages |
| Validation.LengthIsUntrimmed | lib/validation.ts:3-4 | " J" passes the name check and "J" fails it, since the length test counts untrimmed characters |
| Validation.Email | lib/validation.ts:12-17 | blank gives "Email is required"; otherwise the value passes exactly when it matches `^[^\s@]+@[^\s@]+\.[^\s@]+$` |
| Validation.WorkEmail | lib/validation.ts:18-23 | same rule, with the work-email messages; required |
| Validation.EmailIsNotBlank | lib/validation.ts:13-15 | a value the email regex accepts is never blank, so the "required" branch hides no valid address |
| Validation.Phone | lib/validation.ts:24-29 | blank gives "Phone number is required"; otherwise the value passes exactly when it matches the library's phone regex (digits, whitespace, '-', '$') |
| Validation.DateOfBirth | lib/validation.ts:30-38 | "" gives the required message; age under 18 or over 100 fails with its message; 18..100 passes |
| Validation.Gender | lib/validation.ts:39-42 | only "" fails, with "Please select a gender" |
| Validation.Required | lib/validation.ts:46-65 | a blank value gives the message and anything else passes; the five address rules are instances |
| Validation.Street | lib/validation.ts:46-49 | a blank street gives "Street address is required" |
| Validation.City | lib/validation.ts:50-53 | a blank city gives "City is required" |
| Validation.State | lib/validation.ts:54-57 | a blank state gives "State/Province is required" |
| Validation.ZipCode | lib/validation.ts:58-61 | a blank code gives "ZIP/Postal code is required" |
| Validation.Country | lib/validation.ts:62-65 | a blank country gives "Country is required" |
| Validation.EmergencyName | lib/validation.ts:69-72 | a blank name gives "Emergency contact name is required" |
| Validation.EmergencyRelationship | lib/validation.ts:73-76 | a blank relationship gives "Relationship is required" |
| Validation.EmergencyPhone | lib/validation.ts:77-82 | same character rule as `phone`, with the emergency "required" message |
| Validation.EmergencyEmail | lib/validation.ts:83-88 | same shape rule as `email`, with the emergency "required" message |
| Patterns.EmailShapeIsRegex | lib/validation.ts:14 | the matcher accepts exactly the strings split as local '@' middle '.' last, three non-empty runs without whitespace or '@' |
| Patterns.PhoneShapeIsRegex | lib/validation.ts:26 | the matcher accepts exactly an optional '+' followed by one or more characters of the class |
| Patterns.ClassesAgreeWithoutSpecials | components/aceternity-steps/personal-info-step.tsx:42 | without '(', ')' or '$', the library's phone class and the steps' class accept the same strings |
| Patterns.ParenthesesSplitTheCopies | lib/validation.ts:26 | "(416) 555-0100" fails the library's class and passes the steps' class |
| Patterns.DollarSplitsTheCopies | lib/validation.ts:79 | a '$' passes the library's class and fails the steps' class |
| Text.IsBlank | lib/validation.ts:3 | `!value.trim()` holds exactly when every character is whitespace |
| Text.Split | components/aceternity-steps/contact-info-step.tsx:45 | `split` yields at least one part, and two or more exactly when the separator occurs |
| Text.SplitAtSeparator | components/aceternity-steps/contact-info-step.tsx:45 | splitting `a + sep + b`, where `a` has no separator, gives `a` and then the parts of `b` |
| Text.AnyIncludes | app/teachers/page.tsx:95 | `some(... includes ...)` holds exactly when some element contains the term, ignoring case |
| Text.SearchIgnoresTermCase | app/messages/page.tsx:83-88 | lower-casing the search term first does not change any match |
| Text.EmptyTermMatches | app/messages/page.tsx:83-88 | every field contains the empty term |
| Text.InitialsAreWordStarts | app/messages/page.tsx:171-174 | `split(" ").map(n => n[0]).join("")` is the first character of every space-separated word |
| Text.StrLeTotal | app/schedule/page.tsx:216 | any two start times are ordered one way or the other |
| Text.StrLeTransitive | app/schedule/page.tsx:216 | the start-time order is transitive |
| Numbers.ParseIntString | app/settings/page.tsx:280 | `parseInt` of the decimal text of any integer gives that integer |
| Numbers.ParseIntSkipsLeadingSpace | app/settings/page.tsx:289 | a leading whitespace character does not change what `parseInt` reads |
| Numbers.OrElse | components/aceternity-steps/availability-step.tsx:132 | `parsed || fallback` keeps a non-zero number and falls back on NaN or 0 |
| Numbers.RealOrElse | components/aceternity-steps/qualifications-step.tsx:228 | the same coercion for `parseFloat(...) || 0` |
| FormData.InitialFormData | components/aceternity-teacher-form.tsx:20-70 | the blank form: no qualifications, seven unavailable days Monday to Sunday with empty times, at most 10 students, no methods, no image |
| FormData.PersonalMergeLaws | components/aceternity-teacher-form.tsx:126-131 | merging the empty patch keeps the section; merging a patch twice is merging it once; two merges equal one merge of the combined patch |
| FormData.ContactMergeLaws | components/aceternity-teacher-form.tsx:126-131 | the empty patch keeps the contact section and a repeated merge changes nothing more |
| FormData.AvailabilityMergeLaws | components/aceternity-teacher-form.tsx:126-131 | the same for the availability section |
| FormData.EmergencyMergeLaws | components/aceternity-teacher-form.tsx:126-131 | the same for the emergency section |
| Ledger.Record | components/aceternity-steps/personal-info-step.tsx:59 | `{ ...errors, [field]: error }` adds the key if needed, sets it, and keeps every other entry |
| Ledger.RecordDecidesClearance | components/aceternity-teacher-form.tsx:137-141 | recording "" keeps a clear ledger clear; recording a message makes `validateCurrentStep` fail |
| Ledger.RecordLeavesAKey | components/add-teacher-form.tsx:288 | after any recorded edit the ledger has at least one key |
| PersonalStep.KeyInjective | components/aceternity-steps/personal-info-step.tsx:26 | distinct fields have distinct ledger keys |
| PersonalStep.ValidateName | components/aceternity-steps/personal-info-step.tsx:30-35 | a name passes iff it is not blank and has at least 2 characters; the message names the field |
| PersonalStep.ValidateEmail | components/aceternity-steps/personal-info-step.tsx:36-39 | passes iff the email regex matches; the required and invalid messages otherwise |
| PersonalStep.ValidatePhone | components/aceternity-steps/personal-info-step.tsx:40-43 | passes iff not blank and matching the steps' phone class (with parentheses) |
| PersonalStep.ValidateDateOfBirth | components/aceternity-steps/personal-info-step.tsx:44-53 | "" is required; otherwise passes iff 18 <= age <= 100, each failure with its message |
| PersonalStep.ValidateField | components/aceternity-steps/personal-info-step.tsx:26-57 | dispatches each field to its rule; gender fails only on "" |
| PersonalStep.HandleInputChange | components/aceternity-steps/personal-info-step.tsx:62-65 | the patch `{ [field]: value }` sets that field and leaves the other fields, the image and the bio alone; the ledger gains the field's key holding its rule's message, every other entry kept |
| PersonalStep.InputPatchChangesOnlyItsField | components/aceternity-steps/personal-info-step.tsx:63 | merging `{ [field]: value }` sets that field and leaves the other fields, the image and the bio alone |
| PersonalStep.FileChange | components/aceternity-steps/personal-info-step.tsx:67-74 | a patch is produced exactly when a file was picked |
| PersonalStep.ImageAndBioPatches | components/aceternity-steps/personal-info-step.tsx:67-79 | picking stores the file, removing stores null, the bio box sets the bio (line 246); nothing else moves |
| PersonalStep.NamesEmailGenderAgreeWithLibrary | components/aceternity-steps/personal-info-step.tsx:30-39 | the step's name, email and gender answers and messages equal the library's |
| PersonalStep.DateOfBirthAgreesExceptUnderAgeMessage | components/aceternity-steps/personal-info-step.tsx:44-53 | the step and the library pass the same dates; under age, the messages differ |
| PersonalStep.PhoneAgreesWithoutSpecials | components/aceternity-steps/personal-info-step.tsx:40-43 | without '(', ')' or '$' the step's phone check equals the library's |
| ContactStep.KeyInjective | components/aceternity-steps/contact-info-step.tsx:81-193 | the input keys ("workEmail", "address.city", "socialMedia.twitter", ...) are pairwise distinct |
| ContactStep.SplitNestedKey | components/aceternity-steps/contact-info-step.tsx:45 | a dotted key splits into exactly its section and its sub-field |
| ContactStep.SetAddressByName | components/aceternity-steps/contact-info-step.tsx:46-51 | setting an address part by name sets that part |
| ContactStep.SetNetworkByName | components/aceternity-steps/contact-info-step.tsx:46-51 | setting a social network by name sets that link |
| ContactStep.KeyPatchOfEveryField | components/aceternity-steps/contact-info-step.tsx:43-56 | the string-keyed handler produces, for the key of every field, that field's typed patch |
| ContactStep.InputPatchChangesOnlyItsField | components/aceternity-steps/contact-info-step.tsx:44-53 | the nested patch changes that field and no other |
| ContactStep.ValidateField | components/aceternity-steps/contact-info-step.tsx:31-41 | only the work email is checked, and only when non-empty; the one message is "Please enter a valid work email address" |
| ContactStep.HandleInputChange | components/aceternity-steps/contact-info-step.tsx:43-56 | the section patch sets exactly that field; the ledger records that field's message and keeps the rest |
| ContactStep.OnlyWorkEmailCanBlock | components/aceternity-steps/contact-info-step.tsx:31-41 | an input into any other contact field keeps a clear ledger clear |
| ContactStep.WorkEmailOptionalHereRequiredInLibrary | components/aceternity-steps/contact-info-step.tsx:34 | "" passes here but is "Work email is required" in the library; non-blank values get the same answer |
| EmergencyStep.KeyInjective | components/aceternity-steps/emergency-contact-step.tsx:21 | distinct fields have distinct ledger keys |
| EmergencyStep.ValidatePresent | components/aceternity-steps/emergency-contact-step.tsx:25-41 | name, relationship and address pass iff not blank, with each field's required message |
| EmergencyStep.ValidatePhone | components/aceternity-steps/emergency-contact-step.tsx:31-34 | passes iff not blank and matching the steps' phone class |
| EmergencyStep.ValidateEmail | components/aceternity-steps/emergency-contact-step.tsx:35-38 | passes iff the email regex matches, with the emergency messages |
| EmergencyStep.ValidateField | components/aceternity-steps/emergency-contact-step.tsx:21-45 | dispatches each field to its rule |
| EmergencyStep.HandleInputChange | components/aceternity-steps/emergency-contact-step.tsx:47-50 | the patch `{ [field]: value }` sets that field and no other; the ledger records the field's message and keeps the rest |
| EmergencyStep.InputPatchChangesOnlyItsField | components/aceternity-steps/emergency-contact-step.tsx:47-49 | merging `{ [field]: value }` sets only that field |
| EmergencyStep.AgreesWithLibrary | components/aceternity-steps/emergency-contact-step.tsx:21-45 | the name, relationship and email checks equal the library's; the step also requires the address |
| EmergencyStep.PhoneAgreesWithoutSpecials | components/aceternity-steps/emergency-contact-step.tsx:31-34 | without '(', ')' or '$' the step's phone check equals the library's |
| QualificationsStep.WithId | components/aceternity-steps/qualifications-step.tsx:69-72 | the new qualification carries the given id |
| QualificationsStep.RemoveByIdSpec | components/aceternity-steps/qualifications-step.tsx:89-91 | the result has no entry with the id, keeps every other entry, and keeps the order |
| QualificationsStep.RemoveAbsentId | components/aceternity-steps/qualifications-step.tsx:89-91 | removing an id no entry has changes nothing |
| QualificationsStep.AddThenRemove | components/aceternity-steps/qualifications-step.tsx:67-91 | adding under a fresh id and then removing that id restores the list |
| QualificationsStep.RateGatesTheAdd | components/aceternity-steps/qualifications-step.tsx:67-228 | a NaN, zero or negative rate makes the Add click change nothing (`CanAdd` fails); a positive rate is stored |
| QualificationsStep.ExperienceFromText | components/aceternity-steps/qualifications-step.tsx:256 | typed digits are stored as their number and an empty box as 0 |
| QualificationsStep.QualificationsEditor.AddQualification | components/aceternity-steps/qualifications-step.tsx:67-87 | with a subject, a level and a positive rate, appends the draft under the fresh id, resets the draft and closes the form; otherwise changes nothing |
| QualificationsStep.QualificationsEditor.RemoveQualification | components/aceternity-steps/qualifications-step.tsx:89-91 | the list loses the entries with that id |
| QualificationsStep.QualificationsEditor.Edit | components/aceternity-steps/qualifications-step.tsx:140-256 | one draft input updates the draft only |
| QualificationsStep.QualificationsEditor.Open | components/aceternity-steps/qualifications-step.tsx:108-110 | the Add button opens the form and keeps the draft |
| QualificationsStep.QualificationsEditor.Cancel | components/aceternity-steps/qualifications-step.tsx:269 | Cancel closes the form and keeps the draft, which becomes visible again on reopening |
| AvailabilityStep.UpdateTimeSlot | components/aceternity-steps/availability-step.tsx:46-49 | each slot of that day gets the change; every other slot is kept |
| AvailabilityStep.UpdateKeepsDays | components/aceternity-steps/availability-step.tsx:47 | no edit renames a day |
| AvailabilityStep.UpdateOfUnknownDay | components/aceternity-steps/availability-step.tsx:47 | an edit for a day not in the list changes nothing |
| AvailabilityStep.UpdatesOfDifferentDaysCommute | components/aceternity-steps/availability-step.tsx:46-49 | edits of two different days can be applied in either order |
| AvailabilityStep.LaterEditOfSameInputWins | components/aceternity-steps/availability-step.tsx:46-49 | a second edit of the same input of the same day replaces the first |
| AvailabilityStep.ToggleMethod | components/aceternity-steps/availability-step.tsx:51-57 | the clicked method is present afterwards exactly when it was absent before; other methods are kept; an absent method is appended at the end, and removing a present one keeps the others in order |
| AvailabilityStep.ToggleTwiceRestores | components/aceternity-steps/availability-step.tsx:51-57 | clicking an unselected method twice restores the list |
| AvailabilityStep.MaxStudentsFromText | components/aceternity-steps/availability-step.tsx:132 | a typed non-zero integer is stored as itself |
| AvailabilityStep.MaxStudentsFallback | components/aceternity-steps/availability-step.tsx:132 | an empty box and "0" both store 10 |
| AvailabilityStep.InputTouchesOnlyItsKey | components/aceternity-steps/availability-step.tsx:46-132 | each input moves only its own key of the availability section |
| ReviewStep.GetAvailableDays | components/aceternity-steps/review-step.tsx:23-27 | one line per available slot: every available slot's line is present, and every line comes from an available slot |
| ReviewStep.AvailableDaysIsFilterThenMap | components/aceternity-steps/review-step.tsx:23-27 | the lines are the available slots, in order, each mapped to "day (start - end)" |
| ReviewStep.NoAvailabilityIffNoneAvailable | components/aceternity-steps/review-step.tsx:267-276 | "No availability set" shows exactly when no slot is available |
| ReviewStep.InitialFormListsNoDay | components/aceternity-steps/review-step.tsx:267-276 | the blank form lists no day |
| ReviewStep.Render | components/aceternity-steps/review-step.tsx:29-334 | the success panel replaces everything iff `submitSuccess`; otherwise the error banner shows iff the message is non-empty, and the button is disabled and busy while submitting |
| ReviewStep.FreshFormSummary | components/aceternity-steps/review-step.tsx:127-173 | on the blank form: no bio, no social links, an enabled button and no banner |
| Wizard.TablesShareTheSteps | components/aceternity-teacher-form.tsx:72-115 | both step tables list the same six ids in the same order, none completed (components/add-teacher-form.tsx:69-112) |
| Wizard.MarkCompleted | components/aceternity-teacher-form.tsx:133-135 | the step at that index gets `completed: true`; every other step is kept |
| Wizard.MarkCompletedLaws | components/aceternity-teacher-form.tsx:133-135 | marking keeps the table's steps, sets that flag, clears none, and is idempotent |
| Wizard.MarkOutsideIsNoOp | components/add-teacher-form.tsx:130-132 | an index outside the table marks nothing |
| Wizard.MarkCountsOneMore | components/aceternity-teacher-form.tsx:133-135 | marking an uncompleted step completes exactly one more step |
| QualificationsWiring.SpreadMerge | components/aceternity-teacher-form.tsx:126-131 | `{ ...prev, ...data }` with an array `data` yields an object whose index keys hold `data`, with the old keys beyond it kept |
| QualificationsWiring.AsWrittenSecondAddThrows | components/aceternity-steps/qualifications-step.tsx:73 | after the first add the section has no `length`, and the next `[...data, q]` throws |
| QualificationsWiring.AsWrittenRemoveKeepsStaleEntry | components/add-teacher-form.tsx:123-128 | removing the first of two entries leaves the stale second entry under key 1 |
| QualificationsWiring.ReplaceQualifications | components/aceternity-teacher-form.tsx:221 | the intended update: the section becomes the list the step sent, and the other sections are unchanged |
| QualificationsWiring.CorrectedKeepsAnArray | components/aceternity-steps/qualifications-step.tsx:283-334 | with the replacement, the list keeps its length and the next add appends |
| AceternityForm.UntouchedStepPasses | components/aceternity-teacher-form.tsx:137-141 | the empty ledger passes although every personal field of the blank form fails its own check |
| AceternityForm.AceternityTeacherForm.HandleNext | components/aceternity-teacher-form.tsx:143-149 | with a clear ledger and a later step: marks the step, moves on and empties the ledger; otherwise nothing changes |
| AceternityForm.AceternityTeacherForm.HandlePrevious | components/aceternity-teacher-form.tsx:151-156 | above the first step: back one step with an empty ledger; otherwise nothing changes |
| AceternityForm.AceternityTeacherForm.StartSubmit | components/aceternity-teacher-form.tsx:158-160 | sets busy, clears the error, and captures the current step for the continuation |
| AceternityForm.AceternityTeacherForm.CompleteSubmit | components/aceternity-teacher-form.tsx:163-183 | success sets the flag and marks the captured step; failure shows the fixed message; either way not busy |
| AceternityForm.AceternityTeacherForm.ResetAfterDelay | components/aceternity-teacher-form.tsx:172-177 | the timer restores the blank data, the first step, the fresh table and clears the success flag |
| AceternityForm.AceternityTeacherForm.UpdateQualifications | components/aceternity-teacher-form.tsx:221 | stores the step's list through the intended replacement |
| AceternityForm.AceternityTeacherForm.UpdatePersonalInfo | components/aceternity-teacher-form.tsx:126-131 | merges the patch into the personal section only |
| AceternityForm.AceternityTeacherForm.PersonalInput | components/aceternity-teacher-form.tsx:186-200 | one personal input: the section patch, then the step's ledger |
| AceternityForm.AceternityTeacherForm.ContactInput | components/aceternity-teacher-form.tsx:186-253 | one contact input: the section patch, then the step's ledger |
| AceternityForm.AceternityTeacherForm.AvailabilityInput | components/aceternity-teacher-form.tsx:186-253 | one availability input merges its one-key patch; the ledger is untouched |
| AceternityForm.AceternityTeacherForm.EmergencyInput | components/aceternity-teacher-form.tsx:186-253 | one emergency input: the section patch, then the step's ledger |
| AddTeacherForm.AddTeacherForm.HandleNext | components/add-teacher-form.tsx:134-140 | moves on whenever a later step exists, without consulting the ledger, marking the step and emptying the ledger |
| AddTeacherForm.AddTeacherForm.HandlePrevious | components/add-teacher-form.tsx:142-147 | above the first step: back one step with an empty ledger |
| AddTeacherForm.AddTeacherForm.StartSubmit | components/add-teacher-form.tsx:149-153 | sets busy, clears the error and the success flag |
| AddTeacherForm.AddTeacherForm.CompleteSubmit | components/add-teacher-form.tsx:159-173 | success raises the flag and resets data, step and table at once; failure shows the fixed message; either way not busy |
| AddTeacherForm.AddTeacherForm.NextDisabled | components/add-teacher-form.tsx:288 | Next is disabled exactly while the ledger has some key, and so also when every entry is "" |
| AddTeacherForm.AsWrittenValidInputLocksFirstStep | components/add-teacher-form.tsx:288 | a valid first name leaves no message, yet the as-written test disables Next |
| AddTeacherForm.CorrectedNextFollowsMessages | components/add-teacher-form.tsx:288 | the intended test disables Next exactly while some entry holds a message |
| AddTeacherForm.ReviewAfterSuccessShowsPanel | components/add-teacher-form.tsx:161-167 | the success flag survives the reset, so the review step shows the success panel again |
| MessagesPage.FilteredSpec | app/messages/page.tsx:83-88 | the list keeps exactly the messages whose sender, subject or body contains the term, in order; the empty term keeps all |
| MessagesPage.FilteredIgnoresTermCase | app/messages/page.tsx:83-88 | the search does not depend on the case of the term |
| MessagesPage.UnreadCount | app/messages/page.tsx:90 | the count of unread messages, at most the total |
| MessagesPage.MarkAsRead | app/messages/page.tsx:92-94 | the messages with that id become read; the others are kept |
| MessagesPage.MarkAsReadCount | app/messages/page.tsx:90-94 | marking lowers the unread count by exactly the unread messages with that id |
| MessagesPage.MarkAsReadIdempotent | app/messages/page.tsx:92-94 | marking twice is marking once; marking an id with nothing unread changes nothing |
| MessagesPage.SenderColorsDistinct | app/messages/page.tsx:96-107 | teacher, student and admin get three different badges, none of them the fallback |
| MessagesPage.MessagesView.Open | app/messages/page.tsx:163-166 | the clicked copy becomes the selected message, then an unread message is marked read in the list |
| MessagesPage.MessagesView.SetSearchTerm | app/messages/page.tsx:83 | sets the search box |
| TeachersPage.FilteredSpec | app/teachers/page.tsx:91-96 | the list keeps exactly the teachers whose name, email or some subject contains the term, in order; the empty term keeps all |
| TeachersPage.FoundBySubject | app/teachers/page.tsx:95 | a teacher with a matching subject is found |
| TeachersPage.WorkEmailAndPhoneNotSearched | app/teachers/page.tsx:91-96 | the work email and the phone play no part in the search |
| TeachersPage.StatusColors | app/teachers/page.tsx:98-109 | active and pending have their own badges; inactive shares the fallback grey |
| StudentsPage.FilteredSpec | app/students/page.tsx:75-81 | the list keeps exactly the students whose name, email, grade or some course contains the term, in order; the empty term keeps all |
| StudentsPage.FoundByCourse | app/students/page.tsx:80 | a student with a matching course is found |
| StudentsPage.StatusColors | app/students/page.tsx:83-94 | active and graduated have their own badges; inactive shares the fallback grey |
| CoursesPage.FilteredSpec | app/courses/page.tsx:111-117 | the list keeps exactly the courses whose name, code, teacher or description contains the term, in order; the empty term keeps all |
| CoursesPage.StatusColors | app/courses/page.tsx:119-130 | active is green and completed blue; inactive and unknown share grey |
| CoursesPage.PercentAsProducts | app/courses/page.tsx:133-134 | for a positive capacity, `current / max * 100 >= t` is `current * 100 >= t * max` |
| CoursesPage.EnrollmentThresholds | app/courses/page.tsx:132-137 | red iff at least 90 %, yellow iff from 75 % to under 90 %, green iff under 75 % |
| CoursesPage.EnrollmentMonotone | app/courses/page.tsx:132-137 | for a fixed positive capacity, more students never give a less alarming colour |
| CoursesPage.EnrollmentEdges | app/courses/page.tsx:132-137 | a full course is red and an empty one green; with no capacity, 0 students is green (NaN) and 1 is red (Infinity) |
| TimeTrackingPage.TodayEntries | app/time-tracking/page.tsx:102 | every listed entry is dated today, and every entry dated today is listed |
| TimeTrackingPage.TotalHoursTodaySpec | app/time-tracking/page.tsx:103 | the left fold equals the sum of today's hours, and is 0 with no entries |
| TimeTrackingPage.SumFromIsHours | app/time-tracking/page.tsx:103 | `reduce` from `acc` adds the plain sum to `acc` |
| TimeTrackingPage.TotalHoursTodayAppend | app/time-tracking/page.tsx:103 | the total over two logs is the sum of their totals |
| TimeTrackingPage.ActiveTeachers | app/time-tracking/page.tsx:104 | counts today's clocked-in entries, at most the number of today's entries |
| TimeTrackingPage.RecentEntries | app/time-tracking/page.tsx:233-235 | the first ten entries not dated today, in order: at most ten, none dated today |
| TimeTrackingPage.TodayAndRecentDisjoint | app/time-tracking/page.tsx:102-235 | no entry is in both lists; today's and the older entries together are the whole log |
| TimeTrackingPage.StatusMaps | app/time-tracking/page.tsx:76-100 | the three statuses have their icons and anything else the clock; clocked-out shares the fallback grey |
| SchedulePage.TimeSlotsAscending | app/schedule/page.tsx:90-117 | 24 labels from "08:00" to "19:30", each strictly after the previous; seven days |
| SchedulePage.TodaySchedule | app/schedule/page.tsx:150 | exactly the events of the selected date |
| SchedulePage.TodayScheduleIsSubsequence | app/schedule/page.tsx:150 | the day's list keeps the schedule's order |
| SchedulePage.SortByStart | app/schedule/page.tsx:215-216 | the sort is a permutation of its input |
| SchedulePage.SortSorted | app/schedule/page.tsx:215-216 | the sort orders events by start time |
| SchedulePage.SortIsStable | app/schedule/page.tsx:215-216 | events that start at the same time keep their schedule order |
| SchedulePage.RenderDay | app/schedule/page.tsx:209-216 | "No events scheduled" shows exactly when no event has the selected date |
| SchedulePage.RenderDaySpec | app/schedule/page.tsx:209-216 | otherwise the day's events, each once, earliest first, ties in schedule order |
| SchedulePage.BadgeColorsDistinct | app/schedule/page.tsx:124-148 | each status and each type has its own badge, and anything else is grey |
| ScheduleSection.FirstMatch | components/schedule-section.tsx:41-43 | the index `find` stops at: a match with no earlier match, or none exactly when nothing matches |
| ScheduleSection.GetSlotForDayAndTime | components/schedule-section.tsx:41-43 | the returned slot matches the day ignoring case and the exact start time, and no earlier slot matches; none exactly when no slot matches |
| ScheduleSection.LookupIgnoresDayCase | components/schedule-section.tsx:42 | looking up a lower-cased day finds the same slot |
| ScheduleSection.SlotColorsDistinct | components/schedule-section.tsx:45-56 | booked, available and unavailable get distinct classes, and other types the default |
| ScheduleSection.SubjectLabel | components/schedule-section.tsx:108 | the subject when it is non-empty, otherwise "Available" |
| ScheduleSection.RenderCell | components/schedule-section.tsx:97-113 | an empty cell gets the grey class and no label; a slot's cell gets its colour, the label and its type |
| ScheduleSection.EmptyCellLooksLikeUnknownType | components/schedule-section.tsx:54-103 | a slot of an unknown type has the empty cell's background |
| QualificationsSection.PrivateQualifications | components/qualifications-section.tsx:12 | exactly the private entries |
| QualificationsSection.GroupQualifications | components/qualifications-section.tsx:13 | exactly the group entries |
| QualificationsSection.PartitionSpec | components/qualifications-section.tsx:12-13 | both cards keep the order and share no entry; with every type private or group, together they show every entry |
| QualificationsSection.Render | components/qualifications-section.tsx:28-88 | each card shows its entries, or its empty-state line |
| QualificationsSection.EmptyStatesIff | components/qualifications-section.tsx:48-88 | a card's empty state shows exactly when no entry has its type |
| SettingsPage.InitialDefaults | app/settings/page.tsx:17-42 | timeout 30, expiry 90, two-factor off, email on, SMS off, light theme, CAD |
| SettingsPage.SetSetting | app/settings/page.tsx:44-46 | the key holds the new value, every other key is kept, and the key set gains only that key |
| SettingsPage.LastWriteWins | app/settings/page.tsx:44-46 | a second write to a key replaces the first; repeating a write changes nothing more |
| SettingsPage.DifferentKeysCommute | app/settings/page.tsx:44-46 | writes to different keys can be applied in either order |
| SettingsPage.KnownKeyKeepsShape | app/settings/page.tsx:17-46 | writing one of the page's own keys keeps the record's key set |
| SettingsPage.NumberInput | app/settings/page.tsx:280-289 | the number boxes store `parseInt` of the text as it comes |
| SettingsPage.NumberInputUnclamped | app/settings/page.tsx:280-289 | an empty box stores NaN, and any typed integer, even 0 or negative, is stored as itself |
| SettingsPage.SettingsView.HandleSettingChange | app/settings/page.tsx:44-46 | the record becomes `{ ...prev, [key]: value }` |
| SettingsPage.SettingsView.HandleNumberInput | app/settings/page.tsx:280-289 | a number box writes the parsed value to its key |

## Left out

- Rendering, styling beyond the class strings the pages compute, animation, icons other than the time-tracking icon choice, dialogs, and the `alert` after adding a teacher.
- The image preview URL (`URL.createObjectURL`) and the `console` output.
- The asynchronous timing of both submits. Each submit is split into a synchronous start, a continuation taking the request's outcome, and (Aceternity) the reset timer. Interleavings with other clicks during the waits are not modelled.
- The clock and randomness. Today's date string, the selected date and the current year are parameters, and so is the fresh qualification id that `Math.random()` produces.
- `new Date(value).getFullYear()` is a parameter, the birth year. Invalid dates (NaN) are not modelled.
- `Number.parseFloat` is a parameter: its result as an optional real.
- `Number.parseInt` is modelled for decimal text only. Hexadecimal prefixes and radix handling are not modelled.
- Floating point. Hours, rates, prices and salaries are exact rationals, and the enrolment percentage is compared exactly.
- Unicode. Whitespace and case folding cover ASCII only. `localeCompare` is taken as code-unit order, which agrees with it on the zero-padded "HH:MM" times compared.
- AvailabilityStep.ToggleMethod: the `|| []` fallback is not modelled, because `teachingMethods` is typed here as a list that is never undefined.
- The schedule section's am/pm grid labels are not modelled. Their agreement with the slots' start times depends on data outside the component.
- The week view of the schedule page holds no events. It is only the `timeSlots` and `days` constants.
- The list pages' mock data and the dashboard, layout, header, sidebar and profile header components are not part of this model.
- The `mockSchedule` array is not reordered by the sort. This holds in the model by construction, since sequences are values.
- AddTeacherForm.AddTeacherForm.NextDisabled keeps the test as written; the intended test is `NextDisabledIntended`, proved in `CorrectedNextFollowsMessages` (see Findings).
- The qualifications list is stored through the intended replacement. The object spread as written is modelled separately (see Findings).

## Findings

| source | as written | input that shows it | evidently intended | confidence | as-written member | corrected member |
|---|---|---|---|---|---|---|
| components/aceternity-teacher-form.tsx:126-131 | `updateFormData("qualifications", list)` spreads the old array and the new array into an object literal, so the section becomes an object keyed "0", "1", … (also components/add-teacher-form.tsx:123-128) | add one qualification to the empty list: `data.length` is then undefined, and the next add's `[...data, q]` throws | the section is replaced by the list the step sends | high, not executed | QualificationsWiring.AsWrittenSecondAddThrows | QualificationsWiring.CorrectedKeepsAnArray |
| components/add-teacher-form.tsx:288 | Next is disabled while the ledger has any key, and every personal input records its key, even with "" | on the first step type "Jane" as first name: the ledger is `{ firstName: "" }`, Next is disabled and Previous is disabled on step 0 | Next is disabled only while some entry holds a message, as in the other container | medium, not executed | AddTeacherForm.AsWrittenValidInputLocksFirstStep | AddTeacherForm.CorrectedNextFollowsMessages |
