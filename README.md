# Resume portfolio: a Dafny model of its server routes, middleware and dashboard logic

The system is a personal résumé/portfolio site. An Express/Mongoose server keeps one
user document per person. That document embeds ordered sections: projects,
experience, education, skills and the contact messages visitors send. A Next.js
client offers dashboard forms to edit those sections and a public résumé view.

This project models:

- **The `/api/user` router** (`UserRoutes`, over `UserModel` and `Sections`):
  - Every add/update/delete on the embedded sections, with its 400/404/500 answers.
  - Which end of a section an item is added at.
  - The per-field patch rules (truthy-guarded fields, and fields taken whenever not `undefined`).
  - The truthy-field `$set` of the profile, and the public contact form.
- **The user schema** (`UserModel`):
  - Sub-records as datatypes with the schema's validators.
  - Email normalisation, the role enum.
  - The hash-only-if-modified `pre('save')` hook.
- **The request gates:**
  - `auth` (`Auth`): token extraction by first-occurrence replace, verification and user lookup as parameters, the `{ id, email, role }` it attaches.
  - `checkOwnership` (`Ownership`), as written and corrected (see Findings).
  - The client's redirect middleware and its matcher (`RouteGuard`).
- **The stand-alone document routers** (`Documents`, `StandaloneRoutes`, `PortfolioRoutes`):
  - Contact and resume: one per user, create-once.
  - Projects: many per user, reached through an (id, owner) filter.
  - The portfolio router: aggregate reads, upserts, project add-or-update, and deletion behind `[auth, checkOwnership]`.
- **The dashboard logic:**
  - Skill-level bands and colours (`SkillLevels`) and grouping skills by category (`SkillGroups`, `ResumeView`).
  - The achievements and technologies text round trips (`ExperienceManager`, `ProjectManager`).
  - The edit-form state machines (`SkillsManager`, `ExperienceManager`, `ProjectManager`).
  - The relative-time formatter and the contact inbox state (`ContactManager`).
  - GitHub URL detection and the missing-date fallbacks (`DisplayHelpers`).

How the model stands in for the runtime:

- **Values:** JavaScript values are `JsVal` (`undefined`, `null` or a value), and truthiness is modelled explicitly.
- **Stores:** the user document is a class whose section fields the route methods reassign. The stand-alone collections are sequences of documents owned by the routers' classes.
- **Parameters:** ids of new records, "now", the JWT verifier, the user lookup, bcrypt's hash and compare, and the outcome of client service calls.

## Model

| member | source | states |
|---|---|---|
| Sections.FindIndex | backend/src/routes/userRoutes.js:197-203 | `findIndex` on `_id`: -1 exactly when no item has the id, otherwise the FIRST index holding it |
| Sections.RemoveAt | backend/src/routes/userRoutes.js:236 | `splice(k, 1)`: one shorter, items before `k` keep their index, items after move down by one, the multiset loses exactly the removed item |
| Sections.RemoveKeepsOthers | backend/src/routes/projectRoutes.js:60 | every item other than the removed one is still present after a removal |
| Sections.UpdateAt | backend/src/routes/userRoutes.js:207-211 | patching at `k` changes only that item's data, keeps its `_id`, the length and every other item |
| Sections.UpdateAtKeepsIds | backend/src/routes/userRoutes.js:207-213 | an in-place patch keeps the id set, id uniqueness and where `findIndex` finds every id |
| Sections.PrependFresh | backend/src/routes/userRoutes.js:181 | `unshift` of a fresh id keeps ids unique, adds exactly that id, and finds it at index 0 |
| Sections.AppendFresh | backend/src/routes/userRoutes.js:441 | `push` of a fresh id keeps ids unique, adds exactly that id, and finds it at the old length |
| Sections.RemoveFound | backend/src/routes/userRoutes.js:222-244 | deleting the found item from a section with unique ids removes that id and no other; a second delete with the same id finds nothing |
| UserModel.NormalizeEmail | backend/src/models/User.js:47-53 | the stored email is the input lower-cased and then trimmed, so it has no upper-case letter and no leading or trailing white space |
| UserModel.NormalizeEmailIdempotent | backend/src/models/User.js:50-51 | normalising a stored email again changes nothing |
| UserModel.ParseRole | backend/src/models/User.js:59-63 | an absent role becomes `user`; only 'admin' and 'user' are accepted |
| UserModel.UserDocument.constructor | backend/src/models/User.js:45-86 | a new user has the normalised email, a modified password and empty sections |
| UserModel.UserDocument.HashPasswordIfModified | backend/src/models/User.js:88-98 | the password is replaced by its salted hash if and only if it was modified; otherwise it is unchanged |
| UserModel.UserDocument.View | backend/src/routes/userRoutes.js:14 | `.select('-password')`: every path of the document except the password |
| UserModel.ValidEducation | backend/src/models/User.js:6-12 | an education entry passes `save()` exactly when institution, degree, field and startDate are non-empty |
| UserModel.ValidExperience | backend/src/models/User.js:14-21 | an experience passes exactly when company, position, startDate and description are non-empty |
| UserModel.ValidSkill | backend/src/models/User.js:23-27 | a skill passes exactly when name and category are non-empty and the level lies in 0..100, 0 included |
| UserModel.ValidProject | backend/src/models/User.js:29-35 | a project passes exactly when title and description are non-empty |
| UserModel.ValidContact | backend/src/models/User.js:37-43 | a contact message passes exactly when name, email and message are non-empty |
| UserModel.ValidCredentials | backend/src/models/User.js:47-58 | the email is non-empty and the password has at least 6 characters |
| UserModel.AllValid | backend/src/models/User.js:77-82 | every sub-document of an embedded array passes its schema's validators |
| UserModel.DocumentValid | backend/src/models/User.js:45-86 | `save()` accepts the user document exactly when the credentials and every sub-document of the five sections pass |
| UserModel.EditsKeepSectionValid | backend/src/models/User.js:77-82 | in a valid section, adding at either end or patching in place stays valid exactly when the new item is valid, and a removal always stays valid |
| UserRoutes.SkillLevelZero | backend/src/routes/userRoutes.js:428-432 | the number 0 is rejected as a missing level, though the schema accepts a level of 0 and the string "0" stores one |
| UserRoutes.LevelTextAgrees | backend/src/routes/userRoutes.js:428-438 | a level sent as the decimal text of n is checked, created and patched exactly like the number n |
| UserRoutes.HexLevelText | backend/src/routes/userRoutes.js:436 | a level text "0x1f" is stored as 31, and "0X" passes the required check but parses to NaN, so no skill is created |
| UserRoutes.FractionalLevelText | backend/src/routes/userRoutes.js:436 | a level text "50.5" is stored as 50: `parseInt` stops at the '.' |
| UserRoutes.ProjectComplete | backend/src/routes/userRoutes.js:166-169 | `!title \|\| !description`: the project body passes exactly when both are truthy |
| UserRoutes.ExperienceComplete | backend/src/routes/userRoutes.js:252-255 | the experience body passes exactly when company, position, startDate and description are truthy |
| UserRoutes.EducationComplete | backend/src/routes/userRoutes.js:340-343 | the education body passes exactly when institution, degree, field and startDate are truthy |
| UserRoutes.TruthyLevel | backend/src/routes/userRoutes.js:430 | `!!level`: a level is present unless undefined, the number 0 or the empty string; the string "0" is present |
| UserRoutes.SkillComplete | backend/src/routes/userRoutes.js:428-432 | the skill body passes exactly when name, level and category are truthy |
| UserRoutes.ContactComplete | backend/src/routes/userRoutes.js:80-83 | the contact body passes exactly when name, email and message are truthy |
| UserRoutes.ParseLevel | backend/src/routes/userRoutes.js:436 | `parseInt(level)`: a JSON integer is itself, the empty text is NaN, a text of decimal digits is its value; other texts as `Text.ParseInt` |
| Text.HexLevels | client/src/components/dashboard/SkillsManager.js:80 | `parseInt` without a radix reads base 16 after a "0x"/"0X" prefix (after white space and a sign) and gives NaN for a bare prefix |
| Text.ParseInt | backend/src/routes/userRoutes.js:468 | `parseInt` without a radix: white space alone is NaN, a run of decimal digits is its value; with `Text.HexLevels`, `Text.ParseIntOfNatToString`, `Text.ParseIntSign`, `Text.ParseIntLeadingSpace` and `Text.ParseIntStopsAtNonDigit` |
| Text.ParseIntOfNatToString | client/src/components/dashboard/SkillsManager.js:80 | `parseInt` reads back the decimal text of every non-negative integer |
| Text.ParseIntSign | client/src/components/dashboard/SkillsManager.js:80 | a leading '-' negates the result and a leading '+' changes nothing; NaN stays NaN |
| Text.ParseIntLeadingSpace | client/src/components/dashboard/SkillsManager.js:80 | a leading white space character is skipped |
| Text.ParseIntStopsAtNonDigit | client/src/components/dashboard/SkillsManager.js:80 | the decimal digits before the first non-digit give the value, whatever follows |
| Text.TrimStartEnds | client/src/components/dashboard/ExperienceManager.js:88 | leading-space trimming of white space alone gives "", and a string not starting with white space is unchanged |
| Text.ReplaceFirst | backend/src/middleware/auth.js:6 | `replace` with a string pattern replaces the first occurrence only; with `Text.ReplaceFirstAbsent` and `Text.ReplaceFirstPrefix` |
| Text.ReplaceFirstAbsent | backend/src/middleware/auth.js:6 | a string without the pattern is unchanged |
| Text.ReplaceFirstPrefix | backend/src/middleware/auth.js:6 | a string that starts with the pattern loses exactly that prefix when it is replaced by "" |
| Text.IncludesIff | client/src/components/dashboard/ResumeView.js:64 | `includes` holds exactly when the pattern occurs at some index |
| Text.Split | client/src/components/dashboard/ExperienceManager.js:88 | `split` on one character: at least one piece, none holding the separator; with `Text.SplitJoin` and `Text.JoinSplit` |
| Text.Join | client/src/components/dashboard/ProjectManager.js:126 | `join`: "" for none, the element for one, otherwise pieces with the separator between them; with `Text.SplitJoin` and `Text.JoinSplit` |
| Text.SplitNoSep | client/src/components/dashboard/ExperienceManager.js:88 | a string without the separator splits into itself alone |
| Text.SplitCons | client/src/components/dashboard/ExperienceManager.js:88 | a separator-free head followed by the separator becomes the first piece |
| Text.SplitJoin | client/src/components/dashboard/ExperienceManager.js:88 | splitting the join of separator-free pieces gives the pieces back |
| Text.JoinSplit | client/src/components/dashboard/ExperienceManager.js:133 | joining the pieces of a split with the same separator gives the string back |
| Text.Trim | client/src/components/dashboard/ProjectManager.js:86 | `trim`, with `Text.TrimSlice` and `Text.TrimIdempotent` |
| Text.TrimSlice | client/src/components/dashboard/ProjectManager.js:86 | the trimmed string is a slice of the input that neither starts nor ends with JavaScript white space |
| Text.TrimIdempotent | client/src/components/dashboard/ProjectManager.js:86 | trimming twice is trimming once |
| Text.Lower | backend/src/models/User.js:51 | `toLowerCase` on ASCII letters: same length, each letter lowered, other characters kept |
| Text.LowerNoUpper | backend/src/models/User.js:51 | a lowered string has no upper-case letter |
| UserRoutes.NewProject | backend/src/routes/userRoutes.js:172-178 | a new project is valid and stores title and description; a given technologies list, a truthy link and a truthy image are stored as sent, otherwise technologies is [] and link and image are '' |
| UserRoutes.NewExperience | backend/src/routes/userRoutes.js:258-265 | a new experience is valid and stores company, position, startDate and description; a truthy endDate and a given achievements list are stored as sent, otherwise endDate is null and achievements is [] |
| UserRoutes.NewEducation | backend/src/routes/userRoutes.js:346-353 | a new education entry is valid and stores its four required fields; a truthy endDate is stored as sent, otherwise endDate is null |
| UserRoutes.NewSkill | backend/src/routes/userRoutes.js:434-438 | creation fails exactly when `parseInt(level)` is NaN; otherwise the skill stores name, category and the parsed level, and is valid exactly when that level lies in 0..100 |
| UserRoutes.NewContact | backend/src/routes/userRoutes.js:94-100 | a contact message is valid, keeps name, email, message and phone, and is dated "now" |
| UserRoutes.PatchProject | backend/src/routes/userRoutes.js:207-211 | title and description change only when truthy, technologies when given; link and image change whenever not `undefined`; validity is preserved |
| UserRoutes.PatchExperience | backend/src/routes/userRoutes.js:294-299 | each field changes only when truthy, except endDate, which changes whenever not `undefined`; validity is preserved |
| UserRoutes.PatchEducation | backend/src/routes/userRoutes.js:382-387 | the four required fields change only when truthy, endDate whenever not `undefined`; validity is preserved |
| UserRoutes.PatchSkill | backend/src/routes/userRoutes.js:467-469 | each field changes only when truthy, so a level of 0 never overwrites; a truthy level whose parse is NaN makes the save fail |
| UserRoutes.PatchesIdempotent | backend/src/routes/userRoutes.js:207-211 | applying the same update body twice gives the same record as applying it once, in all four sections |
| UserRoutes.EducationDescriptionIgnored | backend/src/models/User.js:6-12 | the `description` of an education request has no effect on what is stored, on add or update |
| UserRoutes.UpdateTwiceSame | backend/src/routes/userRoutes.js:192-219 | updating a section twice by id with an idempotent patch leaves it as one update did |
| UserRoutes.PatchProfile | backend/src/routes/userRoutes.js:49-60 | each personal field changes only when the body's value is truthy; socialLinks whenever given |
| UserRoutes.UpdateProfile | backend/src/routes/userRoutes.js:40-74 | the profile gets the truthy-field `$set`, the four sections are replaced when given; password, email, role and contacts are untouched |
| UserRoutes.GetProfile | backend/src/routes/userRoutes.js:11-37 | a missing user is a 404 'User not found'; otherwise the document without its password |
| UserRoutes.ReplaceProjects | backend/src/routes/userRoutes.js:114-127 | the project section becomes exactly the body's list |
| UserRoutes.ReplaceExperience | backend/src/routes/userRoutes.js:130-143 | the experience section becomes exactly the body's list |
| UserRoutes.ReplaceSkills | backend/src/routes/userRoutes.js:146-159 | the skill section becomes exactly the body's list |
| UserRoutes.PostContact | backend/src/routes/userRoutes.js:77-109 | 400 when name, email or message is falsy; 404 with no admin user (the document given is the one `findOne({ role: 'admin' })` finds); otherwise the message is APPENDED to the admin's inbox (500 and nothing stored if the save fails); ids stay unique |
| UserRoutes.AddProject | backend/src/routes/userRoutes.js:164-189 | 400 and unchanged when title or description is falsy; otherwise the project goes to index 0 and the old ones follow, and the answer is 201 with the section |
| UserRoutes.UpdateProject | backend/src/routes/userRoutes.js:192-219 | 404 and unchanged for an unknown id; otherwise only the first match is patched, ids and length are kept |
| UserRoutes.DeleteProject | backend/src/routes/userRoutes.js:222-244 | 404 and unchanged for an unknown id; otherwise exactly the first match is removed and the id is gone |
| UserRoutes.AddExperience | backend/src/routes/userRoutes.js:249-276 | 400 when a required field is falsy; otherwise prepended, 201 |
| UserRoutes.UpdateExperience | backend/src/routes/userRoutes.js:279-307 | 404 for an unknown id; otherwise only the first match is patched |
| UserRoutes.DeleteExperience | backend/src/routes/userRoutes.js:310-332 | 404 for an unknown id; otherwise exactly the first match is removed |
| UserRoutes.AddEducation | backend/src/routes/userRoutes.js:337-364 | 400 when a required field is falsy; otherwise prepended, 201 |
| UserRoutes.UpdateEducation | backend/src/routes/userRoutes.js:367-395 | 404 for an unknown id; otherwise only the first match is patched |
| UserRoutes.DeleteEducation | backend/src/routes/userRoutes.js:398-420 | 404 for an unknown id; otherwise exactly the first match is removed |
| UserRoutes.AddSkill | backend/src/routes/userRoutes.js:425-449 | 400 when name, level or category is falsy (level 0 included); a NaN level is a 500; otherwise the skill is APPENDED, 201 |
| UserRoutes.UpdateSkill | backend/src/routes/userRoutes.js:452-477 | 404 for an unknown id; otherwise only the first match is patched |
| UserRoutes.DeleteSkill | backend/src/routes/userRoutes.js:480-502 | 404 for an unknown id; otherwise exactly the first match is removed |
| UserRoutes.ListContacts | backend/src/routes/userRoutes.js:507-515 | the inbox in arrival order |
| UserRoutes.DeleteContact | backend/src/routes/userRoutes.js:518-540 | 404 for an unknown id; otherwise exactly the first match is removed |
| Auth.ExtractToken | backend/src/middleware/auth.js:6 | no header gives no token; "Bearer " followed by t gives t; a header without "Bearer " is kept as it is |
| Auth.AttachedUser | backend/src/middleware/auth.js:19-23 | `req.user` has exactly the keys id, email and role, taken from the stored user |
| Auth.Authenticate | backend/src/middleware/auth.js:4-31 | a missing or empty token is 401 'No authentication token'; a throwing verify is 401 'Authentication failed'; an unknown user is 401 'Token is not valid'; every rejection is 401; acceptance carries the verified user's id |
| Auth.EmptyBearerRefused | backend/src/middleware/auth.js:6-10 | the header "Bearer " alone is refused before verification |
| Auth.BareTokenAccepted | backend/src/middleware/auth.js:6 | a token sent without the "Bearer " prefix is still accepted, because the prefix is removed by a replace, not checked |
| Auth.Request.constructor | backend/src/middleware/auth.js:4 | a request starts with no user, no token, no response and no `next` call |
| Auth.Request.RunAuth | backend/src/middleware/auth.js:19-30 | on acceptance `req.user` and `req.token` are set and `next` is called once; on rejection only the 401 response is written |
| Ownership.CompareOwner | backend/src/middleware/checkOwnership.js:7-14 | `next` exactly when the property equals the path id; a missing user or property is the 500, a different id the 403 |
| Ownership.CheckOwnershipAsWritten | backend/src/middleware/checkOwnership.js:7 | reads `_id`: any `req.user` without `_id` gets 500 'Error checking ownership' |
| Ownership.CheckOwnership | backend/src/middleware/checkOwnership.js:7-11 | reads `id`: `next` exactly for the owner, 403 for anyone else |
| Ownership.AsWrittenRejectsEveryCaller | backend/src/middleware/auth.js:19-23 | every request `auth` accepts gets 500 from the middleware as written |
| Ownership.OwnerPasses | backend/src/middleware/checkOwnership.js:7-11 | reading `id`, the token's own user passes and any other path id gets 403 |
| Ownership.Guard | backend/src/routes/portfolioRoutes.js:75 | the `[auth, checkOwnership]` chain lets a handler run only for an accepted token whose user is the path's user; it stops with 401 or 403 otherwise |
| Ownership.GuardAsWritten | backend/src/middleware/checkOwnership.js:1-14 | as written, the chain never reaches a handler: 401 or 500 |
| RouteGuard.Middleware | client/src/middleware.js:3-20 | redirect to /login exactly without a token under /dashboard; to /dashboard exactly with a token on /login or /register; pass through otherwise |
| RouteGuard.HasToken | client/src/middleware.js:4 | the `token` cookie is set and not empty |
| RouteGuard.IsAuthPage | client/src/middleware.js:14 | the path is exactly /login or /register |
| RouteGuard.Matches | client/src/middleware.js:22-24 | `config.matcher`: /dashboard itself, any path below /dashboard/, /login and /register |
| RouteGuard.Route | client/src/middleware.js:22-24 | unmatched paths pass through; matched paths get the middleware's decision |
| RouteGuard.RulesExclusive | client/src/middleware.js:8-17 | the two redirect rules never both apply |
| RouteGuard.RedirectStable | client/src/middleware.js:8-24 | a redirect target is matched and is not redirected again with the same token state |
| RouteGuard.RouteSettles | client/src/middleware.js:8-24 | after at most one redirect, a matched path ends on a page its cookie state allows: the dashboard only with a token, the auth pages only without |
| RouteGuard.UnmatchedDashboardPrefix | client/src/middleware.js:8 | "/dashboard-old" would be redirected by the prefix test but is not in the matcher, so it passes |
| SkillLevels.BandOf | client/src/components/dashboard/SkillsManager.js:170-175 | the bands are the intervals below 25, 25..49, 50..74 and 75 and above |
| SkillLevels.LevelText | client/src/components/dashboard/SkillsManager.js:170-175 | each text is given exactly for its band |
| SkillLevels.ProgressColor | client/src/components/dashboard/SkillsManager.js:178-183 | each colour is given exactly for its band |
| SkillLevels.TextAndColourAgree | client/src/components/dashboard/ResumeView.js:68-81 | two levels share a text exactly when they share a colour, exactly when they share a band |
| SkillLevels.BandMonotone | client/src/components/dashboard/SkillsManager.js:170-175 | a higher level never falls in a lower band |
| SkillLevels.DefaultLevelIsExpert | client/src/components/dashboard/SkillsManager.js:32-36 | the form's default level 75 reads Expert; 74 reads Advanced |
| SkillGroups.CategoriesExact | client/src/components/dashboard/SkillsManager.js:161-167 | the group keys are distinct and are exactly the categories present |
| SkillGroups.MembersHaveCategory | client/src/components/dashboard/SkillsManager.js:162-165 | every member of a group has that group's category |
| SkillGroups.MemberOfOwnGroup | client/src/components/dashboard/SkillsManager.js:165 | every skill is in the group of its category |
| SkillGroups.MembersOfAbsent | client/src/components/dashboard/SkillsManager.js:162-164 | a category that does not occur has no members |
| SkillGroups.SizeSumStep | client/src/components/dashboard/SkillsManager.js:165 | each skill grows exactly one group by one |
| SkillGroups.GroupSizesSum | client/src/components/dashboard/SkillsManager.js:161-167 | the group sizes add up to the number of skills |
| SkillGroups.GroupsOfStep | client/src/components/dashboard/SkillsManager.js:162-166 | one `reduce` step creates the key the first time a category is met and pushes the skill onto its group |
| SkillGroups.GroupSkills | client/src/components/dashboard/SkillsManager.js:161-167 | the loop builds exactly the grouping of all skills, keys in first-appearance order, members in input order |
| ResumeView.GroupedSkills | client/src/components/dashboard/ResumeView.js:84-90 | present skills are grouped as above; missing skills give `{}` |
| ResumeView.NoSkillsNoGroups | client/src/components/dashboard/ResumeView.js:84-90 | no skills give no groups |
| ResumeView.ConnectorsBetweenItems | client/src/components/dashboard/ResumeView.js:157 | a connector follows exactly the items before the last |
| DisplayHelpers.IsGitHubUrl | client/src/components/dashboard/ResumeView.js:62-65 | false for a falsy url; otherwise true exactly when 'github.com' occurs in it |
| DisplayHelpers.GitHubUrlsRecognised | client/src/components/dashboard/ProjectManager.js:160-163 | any url with 'github.com' somewhere in it is recognised |
| DisplayHelpers.FormatDate | client/src/components/dashboard/ResumeView.js:55-59 | a falsy date shows the fallback ('Present', or 'Unknown' in the inbox); any other is rendered |
| SkillsManager.SkillsEditor.constructor | client/src/components/dashboard/SkillsManager.js:32-40 | the form starts as name '', level 75, category '', not editing |
| SkillsManager.SkillsEditor.HandleChange | client/src/components/dashboard/SkillsManager.js:76-82 | the named field takes the value, the level through `parseInt`; the others are kept |
| SkillsManager.SkillsEditor.HandleSliderChange | client/src/components/dashboard/SkillsManager.js:85-90 | the slider sets the level alone |
| SkillsManager.SkillsEditor.HandleSubmit | client/src/components/dashboard/SkillsManager.js:93-121 | update with the current id when editing, add otherwise; success resets the form and editing; failure keeps them and sets the error |
| SkillsManager.SkillsEditor.HandleEdit | client/src/components/dashboard/SkillsManager.js:124-133 | editing the skill's id with its values in the form |
| SkillsManager.SkillsEditor.HandleCancel | client/src/components/dashboard/SkillsManager.js:136-145 | the same reset as a successful submit |
| ExperienceManager.FilterNonBlank | client/src/components/dashboard/ExperienceManager.js:88 | keeps exactly the lines whose trimmed form is not empty, untrimmed; a single line is kept exactly when it is not blank |
| ExperienceManager.FilterNonBlankAppend | client/src/components/dashboard/ExperienceManager.js:88 | the filter keeps order: filtering two runs of lines is filtering each and concatenating |
| ExperienceManager.FilterKeepsNonBlank | client/src/components/dashboard/ExperienceManager.js:88 | lines that are all non-blank are kept in full and in order |
| ExperienceManager.ParseAchievements | client/src/components/dashboard/ExperienceManager.js:87-89 | empty text gives []; otherwise exactly the non-blank lines of the text split on '\n', each without '\n' |
| ExperienceManager.ParseAchievementsLine | client/src/components/dashboard/ExperienceManager.js:88 | one line gives itself when it is not blank and nothing otherwise |
| ExperienceManager.ParseAchievementsCons | client/src/components/dashboard/ExperienceManager.js:87-89 | the achievements of a text are those of its first line followed, in order, by those of the rest |
| ExperienceManager.FormatAchievements | client/src/components/dashboard/ExperienceManager.js:133 | no achievements give ''; one gives itself |
| ExperienceManager.AchievementsRoundTrip | client/src/components/dashboard/ExperienceManager.js:87-89 | splitting the joined text gives the list back when no entry holds '\n' or is blank |
| ExperienceManager.BlankTextGivesNone | client/src/components/dashboard/ExperienceManager.js:87-89 | a text of blank lines gives no achievements |
| ExperienceManager.ToData | client/src/components/dashboard/ExperienceManager.js:85-90 | the submitted data is the form with the achievements parsed |
| ExperienceManager.DayPart | client/src/components/dashboard/ExperienceManager.js:130-131 | the part before the first 'T', a prefix of the date with no 'T' in it |
| ExperienceManager.EditForm | client/src/components/dashboard/ExperienceManager.js:127-134 | the form loads the dates' day parts (endDate '' when falsy) and the joined achievements |
| ExperienceManager.EditThenSubmitUnchanged | client/src/components/dashboard/ExperienceManager.js:85-134 | when the stored dates are day strings and every achievement is one non-blank line, editing and resubmitting sends back the same company, position, description, dates and achievements (a null end date as '') |
| ExperienceManager.DayPartIdempotent | client/src/components/dashboard/ExperienceManager.js:130-131 | taking the day part twice is taking it once |
| ExperienceManager.EditThenSubmitDays | client/src/components/dashboard/ExperienceManager.js:85-134 | for any stored dates, ISO timestamps included, resubmitting sends their day parts and the other fields unchanged, and a second edit sends the same dates |
| ExperienceManager.ExperienceEditor.constructor | client/src/components/dashboard/ExperienceManager.js:38-49 | the form starts empty, not editing |
| ExperienceManager.ExperienceEditor.HandleChange | client/src/components/dashboard/ExperienceManager.js:72-78 | the named field takes the value, the others are kept |
| ExperienceManager.ExperienceEditor.HandleSubmit | client/src/components/dashboard/ExperienceManager.js:81-120 | update with the current id when editing, add otherwise; success resets, failure keeps the form and sets the error |
| ExperienceManager.ExperienceEditor.HandleEdit | client/src/components/dashboard/ExperienceManager.js:123-135 | editing the experience's id with its edit form loaded |
| ExperienceManager.ExperienceEditor.HandleCancel | client/src/components/dashboard/ExperienceManager.js:138-150 | the empty form, not editing |
| ProjectManager.TrimAll | client/src/components/dashboard/ProjectManager.js:86 | each piece trimmed, in place |
| ProjectManager.ParseTechnologies | client/src/components/dashboard/ProjectManager.js:86 | one entry per piece of the text split on ',', each the trimmed piece, so at least one entry, each trimmed and comma-free |
| ProjectManager.FormatTechnologies | client/src/components/dashboard/ProjectManager.js:126 | no technologies give ''; one gives itself |
| ProjectManager.EmptyTextGivesOneEmptyEntry | client/src/components/dashboard/ProjectManager.js:86 | empty text gives [''], not [] |
| ProjectManager.TechnologiesRoundTrip | client/src/components/dashboard/ProjectManager.js:86-126 | splitting and trimming the joined text gives the list back when it is non-empty and every entry is trimmed and comma-free |
| ProjectManager.ToData | client/src/components/dashboard/ProjectManager.js:84-87 | the submitted data is the form with the technologies parsed |
| ProjectManager.EditForm | client/src/components/dashboard/ProjectManager.js:123-129 | the form loads the joined technologies, and link and image or '' when they are falsy |
| ProjectManager.ProjectEditor.constructor | client/src/components/dashboard/ProjectManager.js:38-48 | the form starts empty, not editing |
| ProjectManager.ProjectEditor.HandleChange | client/src/components/dashboard/ProjectManager.js:71-77 | the named field takes the value, the others are kept |
| ProjectManager.ProjectEditor.HandleSubmit | client/src/components/dashboard/ProjectManager.js:80-116 | update with the current id when editing, add otherwise; success resets, failure keeps the form and sets the error |
| ProjectManager.ProjectEditor.HandleEdit | client/src/components/dashboard/ProjectManager.js:119-130 | editing the project's id with its edit form loaded |
| ProjectManager.ProjectEditor.HandleCancel | client/src/components/dashboard/ProjectManager.js:133-144 | the empty form, not editing |
| ContactManager.DivDiv | client/src/components/dashboard/ContactManager.js:84-87 | flooring by b and then by c is flooring by b times c |
| ContactManager.ChainedFloors | client/src/components/dashboard/ContactManager.js:84-87 | the chain of floors gives floor(diffMs/60000), floor(diffMs/3600000) and floor(diffMs/86400000); under a minute all are at most zero |
| ContactManager.Phrase | client/src/components/dashboard/ContactManager.js:90-96 | the count, the unit, an 's' unless the count is 1, then 'ago' |
| ContactManager.TimeSince | client/src/components/dashboard/ContactManager.js:78-99 | '' for a falsy date; the first positive unit among days, hours, minutes wins; otherwise, and for an unparseable, future or under-a-minute date, 'Just now' |
| ContactManager.DayPhrases | client/src/components/dashboard/ContactManager.js:89-91 | one day reads '1 day ago', two days '2 days ago' |
| ContactManager.ContactList.constructor | client/src/components/dashboard/ContactManager.js:30-33 | the inbox starts empty and loading |
| ContactManager.ContactList.FetchContacts | client/src/components/dashboard/ContactManager.js:37-49 | success stores `data || []` and clears the error; failure keeps the list and sets the error; loading ends either way |
| ContactManager.ContactList.HandleDelete | client/src/components/dashboard/ContactManager.js:52-62 | nothing happens unless confirmed; then the delete is called, and success refetches while failure sets the error |
| Documents.FindOne | backend/src/routes/projectRoutes.js:44 | `findOne`: -1 exactly when no document matches the filter, otherwise the first that does |
| Documents.Find | backend/src/routes/projectRoutes.js:19 | `find`: exactly the documents matching the filter, in the collection's order (see `Documents.FindAppend`) |
| Documents.FindAppend | backend/src/routes/projectRoutes.js:19 | `find` keeps the collection's order: the matches in two runs are those in the first followed by those in the second |
| Documents.OwnerOf | backend/src/models/Project.ts:21 | the `user` path of a document, when it has one |
| Documents.Matches | backend/src/routes/projectRoutes.js:44 | the `{ user }` filter holds exactly when the document names that owner; `{ _id, user }` also needs the id |
| Documents.Saves | backend/src/models/Project.ts:16-21 | `save()`'s `required` check: each required path is present and not empty |
| Documents.Assign | backend/src/routes/contactRoutes.js:57 | `Object.assign`: the body's paths overwrite, every other path is kept |
| Documents.Stamp | backend/src/routes/contactRoutes.js:37-40 | `{ ...body, user }`: the caller is the owner whatever the body says; the other paths come from the body |
| Documents.Select | backend/src/routes/portfolioRoutes.js:50 | `.select(paths)`: only the listed paths remain, with their values |
| Documents.AppendKeepsOnePerOwner | backend/src/routes/contactRoutes.js:32-42 | creating a document for an owner who has none keeps one document per owner |
| Documents.RemoveKeepsOnePerOwner | backend/src/routes/contactRoutes.js:68 | deleting keeps one document per owner |
| Documents.UpdateKeepsOnePerOwner | backend/src/routes/contactRoutes.js:57-58 | an update that keeps the owner keeps one document per owner |
| Documents.AssignOwner | backend/src/routes/contactRoutes.js:57 | an assigned body moves the document to the body's `user` when it has one, and otherwise keeps the owner |
| StandaloneRoutes.SingletonRoutes.constructor | backend/src/routes/contactRoutes.js:1-4 | an empty collection with the document's names and required paths |
| StandaloneRoutes.SingletonRoutes.GetMine | backend/src/routes/contactRoutes.js:17-27 | 404 when the caller has no document; otherwise the caller's own document |
| StandaloneRoutes.SingletonRoutes.Create | backend/src/routes/contactRoutes.js:30-47 | 400 'already exists' and unchanged when the caller has one; otherwise 201 with a new document owned by the caller (500 when a required path is missing); one document per owner is kept |
| StandaloneRoutes.SingletonRoutes.UpdateMine | backend/src/routes/contactRoutes.js:50-63 | 404 when the caller has none; otherwise the body is assigned onto the caller's document; ids are kept, and one per owner unless the body names another user |
| StandaloneRoutes.SingletonRoutes.DeleteMine | backend/src/routes/resumeRoutes.js:66-76 | 404 when the caller has none; otherwise exactly the caller's document is removed and the caller has none left |
| StandaloneRoutes.OnlyDocumentRemoved | backend/src/routes/resumeRoutes.js:68 | with one document per owner, deleting the owner's document leaves them none |
| StandaloneRoutes.ProjectRoutes.constructor | backend/src/routes/projectRoutes.js:1-4 | an empty project collection |
| StandaloneRoutes.ProjectRoutes.ListMine | backend/src/routes/projectRoutes.js:17-24 | exactly the caller's projects, as `find` with the `{ user }` filter returns them |
| StandaloneRoutes.ProjectRoutes.Create | backend/src/routes/projectRoutes.js:27-39 | always a new project owned by the caller, 201, with no uniqueness check (500 when title or description is missing) |
| StandaloneRoutes.ProjectRoutes.Update | backend/src/routes/projectRoutes.js:42-55 | 404 unless the caller owns a project with that id; other users' projects are never touched |
| StandaloneRoutes.ProjectRoutes.Delete | backend/src/routes/projectRoutes.js:58-68 | 404 and unchanged unless id and owner match; otherwise exactly that project is removed and every other user's project stays |
| PortfolioRoutes.OwnedOrNull | backend/src/routes/portfolioRoutes.js:22-35 | `findOne(...) \|\| null`: null exactly when the user owns no document, otherwise one of theirs |
| PortfolioRoutes.UpdateValidates | backend/src/routes/portfolioRoutes.js:80-86 | `runValidators` on a `$set` checks only the paths set: a set email must be non-empty, a set password at least 6 long and a set role `admin` or `user` |
| PortfolioRoutes.CastUpdates | backend/src/models/User.js:47-53 | a `$set` on the user lower-cases and trims `email` and keeps every other path |
| PortfolioRoutes.Upsert | backend/src/routes/portfolioRoutes.js:105-109 | the answer carries every path of the body; an existing document of the user is updated in place, keeping its other modelled paths, otherwise a new document made of `{ user }` and the body is appended (schema defaults and timestamps aside); the owner stays unless the body names another |
| PortfolioRoutes.UpsertLeavesOneRecord | backend/src/routes/portfolioRoutes.js:171-175 | after an upsert whose body has no `user`, each owner still has at most one document and the user's one document is the answer |
| PortfolioRoutes.Portfolio.constructor | backend/src/routes/portfolioRoutes.js:1-8 | the users given and empty resume, project and contact collections |
| PortfolioRoutes.Portfolio.Get | backend/src/routes/portfolioRoutes.js:11-42 | 404 exactly for an unknown user; otherwise the user without the password, the resume or null, exactly the user's projects as `find` returns them, and the contact or null |
| PortfolioRoutes.Portfolio.GetPublic | backend/src/routes/portfolioRoutes.js:45-72 | 404 exactly for an unknown user; otherwise the stored values of the selected public paths of the user, of each of their projects in order and of their contact (or null), with no password and no resume |
| PortfolioRoutes.Portfolio.UpdatePersonal | backend/src/routes/portfolioRoutes.js:75-97 | stopped by the guard with nothing changed; then 500 with nothing changed when the set paths do not validate, checked before the lookup; then 404 for an unknown user; otherwise the cast body is `$set` on the user, and the answer omits the password |
| PortfolioRoutes.Portfolio.UpsertResume | backend/src/routes/portfolioRoutes.js:100-115 | stopped by the guard with nothing changed; otherwise the upsert above, answered with the document |
| PortfolioRoutes.Portfolio.UpsertContact | backend/src/routes/portfolioRoutes.js:166-181 | stopped by the guard with nothing changed; otherwise the upsert above, answered with the document |
| PortfolioRoutes.Portfolio.PutProject | backend/src/routes/portfolioRoutes.js:118-145 | with a project id: only a project matching id and user is updated, a non-match answers 200 null; without one: a new project owned by the path's user; ids stay unique |
| PortfolioRoutes.Portfolio.DeleteProject | backend/src/routes/portfolioRoutes.js:148-163 | stopped by the guard, or 404 with nothing changed when id and user do not both match; otherwise exactly that project is removed and other users' projects stay |

## Left out

- Mongoose persistence is modelled only through its results. Documents are values in sequences and maps, and new `_id`s are parameters assumed fresh. Casting is left out except the `email` setters and the NaN level. Strict-mode stripping is left out except the education `description`. Thrown database errors are left out.
- The whole-document `save()` validation is the schema's validators. A failing save is a 500 with nothing stored.
- bcrypt and jsonwebtoken are parameters: a hash function, a compare function and a verifier that yields a payload or throws.
  - `UserModel.UserDocument.ComparePassword` only forwards to the compare function, so it states nothing.
- Dates are integers in milliseconds, and "now" is a parameter.
  - `new Date` parsing, `toISOString` and `toLocaleDateString` are not modelled.
  - `ContactManager.TimeSince`: an unparseable date is the `Invalid` case rather than a parsed string. It answers 'Just now', as NaN comparisons do.
- `UserRoutes.GetProfile`: the document is a parameter. For GET / it stands for what `findOne({ role: 'admin' })` returns, and for GET /me for what `findById` of the caller's id returns; neither lookup is modelled.
- `UserRoutes.ReplaceProjects`, `UserRoutes.ReplaceExperience` and `UserRoutes.ReplaceSkills`: the list sent is always present. A body without the key still sends `$set` with `undefined`, and that case is not modelled. When `findByIdAndUpdate` finds no user, the route answers 200 with `null`; these members take an existing document, so that answer is not modelled either.
- The portfolio router is not mounted by the server either: backend/src/index.js:30-31 mounts only the auth and user routers.
- The stand-alone and portfolio routers are modelled as if each `require` of a model gave that model. As written, they `require` the default export (contactRoutes.js:3, resumeRoutes.js:3, projectRoutes.js:3, portfolioRoutes.js:4-6), but Contact.ts:24, Project.ts:26 and Resume.ts:123 export the model by name, and plain `node` does not load `.ts` files. So `Resume.findOne`, `Project.find` and `Contact.findOne` would not be model methods.
- Mongoose metadata of the stand-alone documents is not modelled: `timestamps: true` (Contact.ts:21, Project.ts:23), the `version`, `createdAt` and `updatedAt` defaults and the `updatedAt` save hook of Resume.ts:112-115 and 118-121, and `__v`. `PortfolioRoutes.Upsert`, `StandaloneRoutes.SingletonRoutes.Create`, `StandaloneRoutes.ProjectRoutes.Create` and `PortfolioRoutes.Portfolio.PutProject` therefore state the modelled paths only: an upsert or save also refreshes `updatedAt`, and a new document also gets its timestamps and defaults.
- `PortfolioRoutes.Portfolio.UpdatePersonal`: the accounts `auth` looks up and the portfolio's users are two separate maps, though both stand for the one User collection. A 404 after a passed guard is reachable only because the two are not tied together. The model checks the validators before the lookup, as `findByIdAndUpdate` with `runValidators` does, so an invalid body is a 500 even for an unknown user.
- Requests run one at a time. Read-modify-write races on the same user document are out of scope.
- `UserRoutes.NewEducation`: the route copies `description` into the new entry. The education schema has no such path, so strict mode drops it. The model stores what the schema keeps.
  - `UserRoutes.PatchEducation` follows the same rule, and `UserRoutes.EducationDescriptionIgnored` states it.
- `UserRoutes.NewSkill`: a level is a JSON number or a string, and a string is parsed as `parseInt` without a radix would (white space, sign, a "0x" prefix for base 16). Other JSON types for `level` are not modelled.
- `UserRoutes.NewSkill` and `UserRoutes.PatchSkill`: a JSON number level is an integer in the model. A fractional or exponent number, which `parseInt` truncates (50.5 gives 50), is not modelled.
- `Text.ParseInt`: `parseInt` of a number first turns it into its decimal text; for an integer that is the same digits, which `Text.ParseIntOfNatToString` states. Larger magnitudes written in exponent form are not modelled.
- `UserModel.NormalizeEmail`: `Text.Lower` lower-cases the ASCII letters only. JavaScript's `toLowerCase` also folds other letters, such as "É"; that is not modelled.
- `SkillLevels.LevelText`: levels are integers. The NaN a form can hold gives 'Expert', and that case is not modelled.
- `SkillGroups.GroupSkills`: the keys are kept in insertion order. JavaScript lists integer-like keys first. Category names such as `constructor` or `__proto__` would hit `Object.prototype`. Neither case is modelled.
- `ProjectManager.EditForm`: a stored project always has a technologies list. The source's `join` would throw on a project without one.
- `ExperienceManager.DayPart`: this is the day part of an ISO timestamp string, without time-zone conversion.
- The stand-alone contact, resume and project routers take the caller's id as a parameter.
  - Those routers read `req.user._id`, which `auth` does not set.
  - They are not mounted by the server (backend/src/index.js:30-31).
  - Their schemas are not part of this model beyond each one's required paths, written as flat strings.
  - The public lists (`GET /` with `populate`) are not modelled.
- `PortfolioRoutes.Portfolio.UpdatePersonal`: `runValidators` is modelled on the required, `minlength` and `enum` checks of the paths set. Other casts of a `$set` are not modelled, and an invalid user id is not modelled.
- `PortfolioRoutes.Upsert`: upserts run no validators in the model, and none are configured. The new document's `_id` is a parameter.
- The portfolio routes are modelled behind the corrected ownership check (see Findings). Behind the check as written, `Ownership.GuardAsWritten` shows that they never run.
- The fetch and delete handlers of the skills, experience and project dashboards have the same shape as the inbox's (`ContactManager.ContactList`). Only the inbox's are modelled.
- EducationManager.js is not part of this model. It is form state and locale date formatting, with no logic beyond the other managers.
- The login route is not part of this model.
- Axios/fetch service wrappers, cookie storage, React rendering, layout and theme are not modelled.
- Server bootstrap, seeding and image download are not modelled.

## Findings

| source | as written | input that shows it | evidently intended | confidence | as-written member | corrected member |
|---|---|---|---|---|---|---|
| backend/src/middleware/checkOwnership.js:7 | compares `req.user._id.toString()` with the path's `userId` | any request that `auth` accepts: `auth` sets `req.user` to `{ id, email, role }` (backend/src/middleware/auth.js:19-23), so `_id` is undefined, `.toString()` throws, and every route behind the check answers 500 'Error checking ownership' | compare the `id` that `auth` attaches, so the owner passes and others get 403 | high; not executed | `Ownership.CheckOwnershipAsWritten`, with `Ownership.AsWrittenRejectsEveryCaller` and `Ownership.GuardAsWritten` | `Ownership.CheckOwnership`, with `Ownership.OwnerPasses` and `Ownership.Guard`, used by `PortfolioRoutes` |
