# Workshop management: a verified model of the core

The application lets masters publish workshops with a custom application
form and lets students apply to them. It is a Next.js front end over a
hosted document store (Appwrite). This project models its core logic in
Dafny and proves properties of that model.

What is modelled:

- **Form builder.** The master edits a workshop's application form in a
  builder. Fields can be added, updated, removed and dragged into a new
  place. The options of a multiple-choice field can be added, edited and
  removed.
- **Decoding stored documents.** Documents come back loosely typed. They
  are decoded with total "safe parse" functions, which fall back to
  defaults when a stored value is missing, of the wrong type or not valid
  JSON. Properties whose value is `undefined` are dropped before a write.
- **Workshop service.** It creates, lists, reads, updates, deletes and
  searches workshop documents.
- **Application service.** It creates applications. Their initial status
  comes from the workshop's auto-approve flag. It also lists applications
  per student and per workshop, approves, rejects, updates and deletes them.
- **Public workshop list.** A case-insensitive search, an exact category
  filter, and the list of distinct categories.
- **Create-workshop page.** The page's schema, its access gate for masters,
  the image upload and the record it hands to the service.
- **Student application form.** One input per known field type, each with
  its required rule. Responses are keyed by field id. Submitting has its
  own state handling.
- **Register and login forms.** Their schemas and the role-keyed redirect
  after success.

Modules, one per file:

| file | module | models |
|---|---|---|
| `wrappers.dfy` | `Wrappers` | `Option` and `Result` |
| `json.dfy` | `Json` | JavaScript values, objects as property lists, and a JSON text codec with a proved round trip |
| `types.dfy` | `Types` | form fields, workshops, applications, users and their enumerations |
| `seqs.dfy` | `Seqs` | the array operations the code uses: index `map`/`filter`, `splice`, predicate `filter`, windows, reversal |
| `type_guards.dfy` | `TypeGuards` | `type-guards.ts` |
| `form_builder.dfy` | `FormBuilder` | `form-builder.tsx` |
| `store.dfy` | `Store` | the document database the services call |
| `workshop_service.dfy` | `WorkshopService` | `services/workshops.ts` |
| `application_service.dfy` | `ApplicationService` | `services/applications.ts` |
| `workshops_page.dfy` | `WorkshopsPage` | `app/workshops/page.tsx` |
| `create_workshop_page.dfy` | `CreateWorkshopPage` | `app/master/workshops/create/page.tsx` |
| `application_form.dfy` | `ApplicationForm` | `components/student/application-form.tsx` |
| `auth_forms.dfy` | `AuthForms` | `register-form.tsx` and `login-form.tsx` |

Where the code changes state in place, the model does the same:

- The builder, the services, the database and the page components are
  classes. Their methods modify fields.
- The drag-and-drop reorder splices an array in place, with loops.
- `removeUndefinedValues` deletes properties from a copy in a loop.

Each of these methods is proved against a specification function. The
properties the code relies on are then proved about that function.

Inputs that the code takes from its environment are method parameters:

- new document ids and creation times;
- the storage call's outcome;
- the signed-in user;
- environment variables;
- the schema library's e-mail check;
- the store's full-text title match.

`safeParseUser` keeps whatever a stored profile string parses to, even
when that is not an object (type-guards.ts:106-108); `TypeGuards.ProfileOf`
follows this.

## Model

| member | source | states |
|---|---|---|
| FormBuilder.FieldAdded | src/components/form-builder/form-builder.tsx:17-28 | the old list is kept as a prefix and exactly one field is appended; it has the given id and type, an empty label, is optional, has options `[""]` iff it is multiple-choice and an empty placeholder iff it is a text input or text area |
| FormBuilder.FieldUpdated | src/components/form-builder/form-builder.tsx:30-35 | same length; the field at the index becomes the field merged with the update, every other field is unchanged; an index out of range changes nothing |
| FormBuilder.MergeNoChange | src/components/form-builder/form-builder.tsx:32 | an update carrying no key leaves the field as it was |
| FormBuilder.MergeIdempotent | src/components/form-builder/form-builder.tsx:32 | merging the same update twice equals merging it once: the update's keys win |
| FormBuilder.FieldRemoved | src/components/form-builder/form-builder.tsx:37-40 | with the index in range the result is one shorter and is the list without that field, in order; otherwise the list is unchanged |
| FormBuilder.OptionAdded | src/components/form-builder/form-builder.tsx:42-49 | a multiple-choice field gets `""` appended to its options (missing options count as none) and nothing else changes; any other field type leaves the list unchanged |
| FormBuilder.OptionUpdated | src/components/form-builder/form-builder.tsx:51-59 | on a multiple-choice field with options only the option at the index is replaced; otherwise the list is unchanged |
| FormBuilder.OptionRemoved | src/components/form-builder/form-builder.tsx:61-67 | on a multiple-choice field with options only the option at the index is deleted; otherwise the list is unchanged |
| FormBuilder.OptionAddedRemoved | src/components/form-builder/form-builder.tsx:42-67 | adding an option and removing that last option restores the list |
| FormBuilder.AddedKeepsIdsDistinct | src/components/form-builder/form-builder.tsx:19 | field ids stay distinct when the new id is not in use; the code's clock-based id does not guarantee that, so it is a precondition |
| FormBuilder.RemovedKeepsIdsDistinct | src/components/form-builder/form-builder.tsx:37-40 | removing a field keeps the ids distinct |
| FormBuilder.Builder.constructor | src/components/form-builder/form-builder.tsx:14-15 | the builder holds the given fields and no drag is active |
| FormBuilder.Builder.AddField | src/components/form-builder/form-builder.tsx:17-28 | the field list becomes `FieldAdded` of the old one; the drag state is unchanged |
| FormBuilder.Builder.UpdateField | src/components/form-builder/form-builder.tsx:30-35 | the field list becomes `FieldUpdated` of the old one; the drag state is unchanged |
| FormBuilder.Builder.RemoveField | src/components/form-builder/form-builder.tsx:37-40 | the field list becomes `FieldRemoved` of the old one; the drag state is unchanged |
| FormBuilder.Builder.AddOption | src/components/form-builder/form-builder.tsx:42-49 | the field list becomes `OptionAdded` of the old one |
| FormBuilder.Builder.UpdateOption | src/components/form-builder/form-builder.tsx:51-59 | the field list becomes `OptionUpdated` of the old one |
| FormBuilder.Builder.RemoveOption | src/components/form-builder/form-builder.tsx:61-67 | the field list becomes `OptionRemoved` of the old one |
| FormBuilder.Builder.HandleDragStart | src/components/form-builder/form-builder.tsx:69-71 | the dragged index is recorded and the fields are unchanged |
| FormBuilder.Builder.HandleDrop | src/components/form-builder/form-builder.tsx:77-90 | without an active drag nothing changes; otherwise the dragged field is taken out and inserted at the target of the shortened list (the end when the target is past it), and the drag ends |
| FormBuilder.StaleDragIndex | src/components/form-builder/form-builder.tsx:37-90 | a drag of the last field that ends off every field, followed by removing that field, leaves the drag index one past the end of the list |
| FormBuilder.SpliceOut | src/components/form-builder/form-builder.tsx:85 | after `splice(from, 1)` on the array the remaining elements are the old ones without the one at `from`, in order |
| FormBuilder.SpliceIn | src/components/form-builder/form-builder.tsx:86 | after `splice(at, 0, x)` the array is the old elements with `x` inserted at `at` |
| FormBuilder.DropPermutes | src/components/form-builder/form-builder.tsx:82-89 | a drop keeps the length and is a permutation of the fields |
| Seqs.MovedShape | src/components/form-builder/form-builder.tsx:85-86 | after a move the element sits at its landing index and the others keep their relative order |
| Seqs.MovedBack | src/components/form-builder/form-builder.tsx:85-86 | moving the element back from its landing index restores the list |
| Seqs.MovedExample | src/components/form-builder/form-builder.tsx:85-86 | dragging the first of four fields onto index 2 gives the second, third, first and fourth |
| TypeGuards.IsUser | workshop-management/src/lib/type-guards.ts:4-13 | only a plain object passes (an array has none of the properties read), and its role decodes back to the stored role name |
| TypeGuards.IsFormField | workshop-management/src/lib/type-guards.ts:15-24 | only a plain object passes: an array has none of the properties read |
| TypeGuards.IsFormFieldArray | workshop-management/src/lib/type-guards.ts:26-28 | only an array passes, and each of its elements is a plain object |
| TypeGuards.EmptyFormFieldArray | workshop-management/src/lib/type-guards.ts:26-28 | the empty array is a form-field array and an object is not |
| TypeGuards.FieldRoundTrip | workshop-management/src/lib/type-guards.ts:15-24 | a serialized field passes `isFormField` (id, type and label strings, required a boolean, the type not checked against the five kinds) and decodes to itself |
| TypeGuards.ApplicationFormOf | workshop-management/src/lib/type-guards.ts:32-42 | the stored form is `[]` when it is not a string, does not parse, or parses to something other than a form-field array; otherwise it has one field per parsed element, each the decoded element |
| TypeGuards.FormRoundTrip | workshop-management/src/lib/type-guards.ts:32-42 | a form stored as its serialization reads back as the same fields |
| TypeGuards.NumberOf | workshop-management/src/lib/type-guards.ts:51-52 | a property is kept as a number iff it is a number (NaN included) |
| TypeGuards.StringOf | workshop-management/src/lib/type-guards.ts:56-60 | a property is kept as text iff it is a string |
| TypeGuards.BoolOf | workshop-management/src/lib/type-guards.ts:61 | a property is kept as a flag iff it is a boolean |
| TypeGuards.WorkshopStatusOf | workshop-management/src/lib/type-guards.ts:62-64 | published and cancelled are read exactly from their names; anything else is draft |
| TypeGuards.ScheduleTypeOf | workshop-management/src/lib/type-guards.ts:53-55 | fixed and flexible are read exactly from their names; anything else is absent |
| TypeGuards.UserOf | workshop-management/src/lib/type-guards.ts:4-13 | an embedded user is kept, unchanged, iff it is an object with string `$id`, email and name and one of the three roles |
| TypeGuards.SafeParseWorkshop | workshop-management/src/lib/type-guards.ts:31-71 | `$id`, master id, title, description, category, location and creation time are the stored text when it is a string, `""` when the value is falsy, and its `String` text otherwise; start and end date, image URL and colour are kept iff strings; price, capacity and enrolled count iff numbers; auto-approve iff a boolean; the schedule type and status by name; the form is the stored text decoded by `ApplicationFormOf`; the master is kept iff it has a user's shape |
| TypeGuards.WorkshopRoundTrip | workshop-management/src/lib/type-guards.ts:31-71 | decoding a document that stores a workshop the way the services write it gives that workshop back |
| TypeGuards.ResponsesOf | workshop-management/src/lib/type-guards.ts:74-83 | responses are `{}` unless stored as a string that parses, in which case they are the parsed value |
| TypeGuards.ApplicationRoundTrip | workshop-management/src/lib/type-guards.ts:73-101 | decoding a document that stores an application gives that application back |
| TypeGuards.SafeParseApplication | workshop-management/src/lib/type-guards.ts:73-101 | ids and creation time are the stored text when it is a string and `""` when the value is falsy; responses are the stored text as `ResponsesOf` decodes it (`{}` when it is not a string or does not parse); status is approved or rejected exactly when stored so and pending otherwise; an embedded workshop is decoded iff it is an object; the student is kept, unchanged, iff it has a user's shape |
| TypeGuards.ApplicationStatusOf | workshop-management/src/lib/type-guards.ts:90-92 | approved and rejected are read exactly from their names; anything else is pending |
| TypeGuards.ProfileOf | workshop-management/src/lib/type-guards.ts:104-116 | a string profile is what it parses to (`{}` when it does not parse), an object is kept, anything else is `{}` |
| TypeGuards.RoleOf | workshop-management/src/lib/type-guards.ts:122-124 | admin and master are read exactly from their names; anything else is student |
| TypeGuards.SafeParseUser | workshop-management/src/lib/type-guards.ts:103-128 | id, e-mail, name and creation time are the stored text when it is a string and `""` when the value is falsy; the role is admin or master exactly when stored so, student otherwise; the profile is the stored one as `ProfileOf` reads it (parsed text, a kept object, `{}` otherwise) |
| TypeGuards.UserRoundTrip | workshop-management/src/lib/type-guards.ts:103-128 | decoding a stored user with a serialized profile gives the user back |
| TypeGuards.RemoveUndefinedValues | workshop-management/src/lib/type-guards.ts:131-139 | the loop that deletes `undefined` properties from the copy leaves exactly the defined properties, in order |
| TypeGuards.RemoveStep | workshop-management/src/lib/type-guards.ts:133-136 | one visit of the loop deletes the visited property iff it is `undefined` and leaves the others as they are |
| TypeGuards.DefinedLookup | workshop-management/src/lib/type-guards.ts:131-139 | every property reads the same after the removal |
| TypeGuards.DefinedExactKeys | workshop-management/src/lib/type-guards.ts:131-139 | the remaining keys are exactly the keys whose value is not `undefined` |
| TypeGuards.DefinedDistinct | workshop-management/src/lib/type-guards.ts:131-139 | the result is still an object with distinct keys |
| TypeGuards.DefinedIdempotent | workshop-management/src/lib/type-guards.ts:131-139 | removing `undefined` properties twice is removing them once |
| Json.RoundTrip | workshop-management/src/lib/type-guards.ts:37-39 | parsing the serialization of a JSON value gives the value back |
| Json.ParseJsonNumber | workshop-management/src/lib/type-guards.ts:38 | a numeral whose digits start with `0` followed by another digit is rejected, as `JSON.parse` rejects it; any other numeral reads as `parseInt`-style digits |
| Json.LeadingZeroRejected | workshop-management/src/lib/type-guards.ts:38 | `"01"` and `"-01"` do not parse, and `"0"` parses to zero |
| WorkshopService.Stringified | workshop-management/src/services/workshops.ts:11 | `JSON.stringify` of `undefined` stays `undefined`; any other value becomes its JSON text |
| WorkshopService.CreateData | workshop-management/src/services/workshops.ts:9-15 | the record's form is the stringified form (`undefined` when there is none) and every other property is the caller's |
| WorkshopService.UpdateData | workshop-management/src/services/workshops.ts:96-104 | a truthy form is replaced by its JSON text; with a falsy one the update is sent as given; every other property is the caller's |
| WorkshopService.CreatedWorkshop | workshop-management/src/services/workshops.ts:9-15 | the written record has no `undefined` property; every property except the form reads as in the input; the form reads as its serialization |
| WorkshopService.CreatedFormReadsBack | workshop-management/src/services/workshops.ts:9-15 | the form of a created workshop decodes to the fields it was created with |
| WorkshopService.WorkshopService.constructor | workshop-management/src/services/workshops.ts:6 | the service talks to the given database |
| WorkshopService.WorkshopService.CreateWorkshop | workshop-management/src/services/workshops.ts:7-30 | on success the cleaned record is the newest workshop and applications are untouched; a failure reports "Failed to create workshop" and changes nothing |
| WorkshopService.WorkshopService.GetWorkshops | workshop-management/src/services/workshops.ts:32-52 | one page (offset, limit) of the published workshops, newest first, each decoded, with the number of published workshops; failure reports "Failed to fetch workshops" |
| WorkshopService.ListedArePublished | workshop-management/src/services/workshops.ts:38-46 | a page holds at most `limit` workshops and every one of them is published |
| WorkshopService.WorkshopService.GetWorkshopsByMaster | workshop-management/src/services/workshops.ts:54-69 | the decoded workshops whose owner is the master, newest first, in every status; failure reports "Failed to fetch master workshops" |
| WorkshopService.ListedAreOwned | workshop-management/src/services/workshops.ts:54-65 | a document is listed iff it is stored and owned by the master, and it decodes with that owner |
| WorkshopService.WorkshopService.GetWorkshop | workshop-management/src/services/workshops.ts:71-92 | the stored document decoded; a missing id or an unreachable store reports "Failed to fetch workshop" |
| WorkshopService.WorkshopService.UpdateWorkshop | workshop-management/src/services/workshops.ts:94-120 | the defined properties of the update, with a truthy form serialized, are assigned over the stored ones; the updated document is returned decoded; failure reports "Failed to update workshop" and changes nothing |
| WorkshopService.UpdatedProperty | workshop-management/src/services/workshops.ts:96-104 | after an update a property reads as the update has it when the update defines it, and keeps its stored value otherwise |
| WorkshopService.WorkshopService.DeleteWorkshop | workshop-management/src/services/workshops.ts:122-132 | on success exactly that workshop is gone; failure reports "Failed to delete workshop" and changes nothing |
| WorkshopService.WorkshopService.SearchWorkshops | workshop-management/src/services/workshops.ts:134-155 | the decoded published workshops whose title the store's search matches, restricted to the category when one is given; failure reports "Failed to search workshops" |
| WorkshopService.SearchCategoryOptional | workshop-management/src/services/workshops.ts:141-143 | with no category or the empty one, the search filters on status and title only |
| WorkshopService.SearchHitsArePublished | workshop-management/src/services/workshops.ts:136-151 | every hit decodes as published and, when a category is given, with that category |
| Store.CreatedNewest | workshop-management/src/services/workshops.ts:19-24 | a created document joins the collection and is listed first, before all older ones |
| Store.PatchedNewest | workshop-management/src/services/workshops.ts:108-113 | an update changes the properties of one document only; same documents, same order |
| Store.AssignLookup | workshop-management/src/services/workshops.ts:108-113 | after assignment a property reads as the patch has it when the patch carries it, as before otherwise |
| Store.DeletedNewest | workshop-management/src/services/workshops.ts:124-128 | a deletion removes exactly that document; the others keep their order |
| Store.Database.CreateDocument | workshop-management/src/services/workshops.ts:19-24 | fails iff the store is unreachable or the id is taken; on success the document is the newest in its collection and the other collection is unchanged |
| Store.Database.ListDocuments | workshop-management/src/services/workshops.ts:34-43 | the documents the filter keeps, newest first |
| Store.Database.UpdateDocument | workshop-management/src/services/workshops.ts:108-113 | fails iff unreachable or missing; on success the patch is assigned over the stored properties |
| Store.Database.DeleteDocument | workshop-management/src/services/workshops.ts:124-128 | fails iff unreachable or missing; on success the document is deleted |
| Store.Database.GetDocument | workshop-management/src/services/workshops.ts:75-79 | the stored document; fails iff unreachable or missing |
| ApplicationService.InitialStatus | workshop-management/src/services/applications.ts:13 | a new application is approved iff the decoded workshop's auto-approve is `true`, and pending otherwise |
| ApplicationService.InitialStatusFromWorkshop | workshop-management/src/services/applications.ts:12-13 | a new application is approved exactly when the stored workshop's `autoApprove` is `true`, and pending otherwise |
| ApplicationService.ApplicationRecord | workshop-management/src/services/applications.ts:19-23 | the stored record carries the decided status whatever status the caller passed, the stringified responses, and every other caller property unchanged |
| ApplicationService.ResponsesReadBack | workshop-management/src/services/applications.ts:19-23 | responses written at creation parse back unchanged |
| ApplicationService.ApplicationService.constructor | workshop-management/src/services/applications.ts:6-7 | the service and its workshop service talk to the given database |
| ApplicationService.ApplicationService.CreateApplication | workshop-management/src/services/applications.ts:9-29 | succeeds iff the store is reachable, the workshop exists and the id is free; then the record with the workshop-decided status is the newest application; workshops are never modified; a failure reports "Failed to create application" and creates nothing |
| ApplicationService.ParseApplication | workshop-management/src/services/applications.ts:105-110 | succeeds iff the responses text (`'{}'` when falsy) parses; then `responses` is the parsed value and every other property is kept; a string that does not parse makes the call fail |
| ApplicationService.ParsedAll | workshop-management/src/services/applications.ts:42 | the mapped list succeeds iff every document parses, and then holds each parsed document in order |
| ApplicationService.CorruptRecordFailsListing | workshop-management/src/services/applications.ts:42-45 | one stored application whose responses do not parse makes the whole listing fail |
| ApplicationService.ApplicationService.GetApplicationsByStudent | workshop-management/src/services/applications.ts:31-46 | the student's applications, newest first, each parsed; an unreachable store or an unparsable one reports "Failed to fetch student applications" |
| ApplicationService.ListedByStudent | workshop-management/src/services/applications.ts:37-42 | every listed application has the requested student id |
| ApplicationService.ParsedProperty | workshop-management/src/services/applications.ts:105-110 | parsing leaves every stored property other than `responses` as it was |
| ApplicationService.ApplicationService.GetApplicationsByWorkshop | workshop-management/src/services/applications.ts:48-63 | the workshop's applications, newest first, each parsed; failure reports "Failed to fetch workshop applications" |
| ApplicationService.ApplicationUpdate | workshop-management/src/services/applications.ts:67-70 | truthy responses are replaced by their JSON text; falsy ones leave the update as given; every other property is the caller's |
| ApplicationService.ApplicationService.UpdateApplication | workshop-management/src/services/applications.ts:65-83 | succeeds iff the store is reachable, the id is present and the updated document parses; with the store reachable and the id present the update, with truthy responses stringified, is assigned over the stored properties (even when parsing then fails); the result is the stored document parsed; otherwise nothing changes; workshops are untouched; failure reports "Failed to update application" |
| ApplicationService.ApplicationService.ApproveApplication | workshop-management/src/services/applications.ts:85-87 | with the store reachable and the id present the status is set to approved from any status and nothing else is written; succeeds iff the updated document parses, returning it parsed; a missing id or unreachable store changes nothing and reports "Failed to update application" |
| ApplicationService.ApplicationService.RejectApplication | workshop-management/src/services/applications.ts:89-91 | with the store reachable and the id present the status is set to rejected from any status and nothing else is written; succeeds iff the updated document parses, returning it parsed; a missing id or unreachable store changes nothing and reports "Failed to update application" |
| ApplicationService.StatusWrite | workshop-management/src/services/applications.ts:85-91 | a status write changes the status and no other property |
| ApplicationService.ApprovedDecodes | workshop-management/src/services/applications.ts:85-87 | an approved application decodes with the approved status |
| ApplicationService.ApplicationService.DeleteApplication | workshop-management/src/services/applications.ts:93-103 | on success exactly that application is gone; failure reports "Failed to delete application" and changes nothing |
| WorkshopsPage.Lower | workshop-management/src/app/workshops/page.tsx:47-49 | lower-casing keeps the length and maps each character |
| WorkshopsPage.LowerIdempotent | workshop-management/src/app/workshops/page.tsx:47-49 | lower-casing twice is lower-casing once |
| WorkshopsPage.IncludesAt | workshop-management/src/app/workshops/page.tsx:47-49 | `includes` holds iff the needle occurs at some position of the text |
| WorkshopsPage.Searched | workshop-management/src/app/workshops/page.tsx:44-51 | a workshop is kept iff the query is empty or its lower-cased query occurs in the lower-cased title, description or category; order is kept |
| WorkshopsPage.InCategory | workshop-management/src/app/workshops/page.tsx:54-56 | a workshop is kept iff no category is chosen or its category equals the chosen one exactly; order is kept |
| WorkshopsPage.Filtered | workshop-management/src/app/workshops/page.tsx:40-59 | every shown workshop is listed, matches a non-empty query and has the chosen category when there is one |
| WorkshopsPage.FilteredMembers | workshop-management/src/app/workshops/page.tsx:40-59 | a workshop is shown iff it is listed, matches a non-empty query and has the chosen category when there is one |
| WorkshopsPage.NoFilters | workshop-management/src/app/workshops/page.tsx:41-58 | with no query and no category the whole list is shown |
| WorkshopsPage.EmptyQueryMatchesAll | workshop-management/src/app/workshops/page.tsx:44 | the empty query matches every workshop, so its guard changes nothing |
| WorkshopsPage.FilteredOrder | workshop-management/src/app/workshops/page.tsx:45-55 | the shown list is an order-preserving subsequence of the list and never longer |
| WorkshopsPage.FirstOccurrencesOrder | workshop-management/src/app/workshops/page.tsx:61 | the distinct-set list has no duplicates and follows the order of first appearance |
| WorkshopsPage.Categories | workshop-management/src/app/workshops/page.tsx:61 | a category is a choice iff some listed workshop has it |
| WorkshopsPage.CategoriesComplete | workshop-management/src/app/workshops/page.tsx:61 | each choice is some workshop's category, each workshop's category is a choice, and none appears twice |
| CreateWorkshopPage.SchemaIssues | workshop-management/src/app/master/workshops/create/page.tsx:19-30 | no issues iff title, category and location are non-empty and the description has at least 10 characters; each message appears iff its rule fails |
| CreateWorkshopPage.ScreenFor | workshop-management/src/app/master/workshops/create/page.tsx:66-68 | only a signed-in master gets the form; no user or any other role gets "Access denied" |
| CreateWorkshopPage.TrimStart | workshop-management/src/app/master/workshops/create/page.tsx:130 | the result is a suffix of the text that does not start with white space, and everything cut off is white space |
| CreateWorkshopPage.ParseInt | workshop-management/src/app/master/workshops/create/page.tsx:130-131 | text that, after its leading white space, starts with neither a digit nor a sign is NaN |
| CreateWorkshopPage.ParseIntText | workshop-management/src/app/master/workshops/create/page.tsx:130-131 | `parseInt` reads back the decimal text of any integer, whatever non-digit text follows |
| CreateWorkshopPage.ImageUrlRoundTrip | workshop-management/src/app/master/workshops/create/page.tsx:100 | the file id is recovered from the view URL built for it |
| CreateWorkshopPage.ImageUrlInjective | workshop-management/src/app/master/workshops/create/page.tsx:100 | two different files never share a URL |
| CreateWorkshopPage.UploadResult | workshop-management/src/app/master/workshops/create/page.tsx:82-115 | there is a URL iff an image was chosen and the storage call returned a file id, and that URL names the returned file |
| CreateWorkshopPage.TextOrUndefined | workshop-management/src/app/master/workshops/create/page.tsx:132-133 | an empty or missing date becomes `undefined`, a given one is kept |
| CreateWorkshopPage.IntOrUndefined | workshop-management/src/app/master/workshops/create/page.tsx:130-131 | an empty or missing number input becomes `undefined`, a given one is `parseInt` of its text |
| CreateWorkshopPage.WorkshopData | workshop-management/src/app/master/workshops/create/page.tsx:124-139 | the built record has exactly the fourteen property names `onSubmit` writes, in that order |
| CreateWorkshopPage.WorkshopDataDistinct | workshop-management/src/app/master/workshops/create/page.tsx:124-139 | the built record is an object with the fourteen distinct property names |
| CreateWorkshopPage.TextLookups | workshop-management/src/app/master/workshops/create/page.tsx:126-129 | title, description, category and location are the entered texts |
| CreateWorkshopPage.OwnerLookups | workshop-management/src/app/master/workshops/create/page.tsx:125-138 | the owner is the current user, the form is the builder's fields and the status is draft |
| CreateWorkshopPage.OptionalLookups | workshop-management/src/app/master/workshops/create/page.tsx:130-137 | price and dates are as entered or `undefined`; the image URL is the upload's; the colour defaults to `#3B82F6` and auto-approval to `false` |
| CreateWorkshopPage.CreatedReadsBack | workshop-management/src/app/master/workshops/create/page.tsx:124-147 | the created document decodes to a draft owned by the current user, with the entered texts and the builder's form |
| CreateWorkshopPage.CreatedDefaults | workshop-management/src/app/master/workshops/create/page.tsx:135-137 | the created document decodes with the uploaded image, the chosen colour or blue, and auto-approval on only when chosen |
| CreateWorkshopPage.CreatedPriceAndDate | workshop-management/src/app/master/workshops/create/page.tsx:130-132 | the price decodes only when one was entered, as `parseInt` of its text; the start date only when it is not empty |
| CreateWorkshopPage.CreateWorkshopPage.constructor | workshop-management/src/app/master/workshops/create/page.tsx:36-44 | the page starts with no fields, no image, nothing uploaded, not loading and not uploading |
| CreateWorkshopPage.CreateWorkshopPage.SetFormFields | workshop-management/src/app/master/workshops/create/page.tsx:39 | the builder's change replaces the fields and nothing else |
| CreateWorkshopPage.CreateWorkshopPage.HandleImageChange | workshop-management/src/app/master/workshops/create/page.tsx:70-80 | a chosen file replaces the image; no file keeps it |
| CreateWorkshopPage.CreateWorkshopPage.UploadImage | workshop-management/src/app/master/workshops/create/page.tsx:82-115 | the result is `UploadResult`; storage gains the file only when an image was chosen and stored; the uploading flag ends false whenever an upload was attempted |
| CreateWorkshopPage.CreateWorkshopPage.Publish | workshop-management/src/app/master/workshops/create/page.tsx:147-148 | on a successful create the record is the newest workshop and the router goes to the dashboard; otherwise neither happens; the store's reachability and the page's uploads are untouched |
| CreateWorkshopPage.CreateWorkshopPage.OnSubmit | workshop-management/src/app/master/workshops/create/page.tsx:117-154 | for a master with accepted values: on success the built record, with the upload's URL, is the newest workshop and the router goes to the dashboard; on failure nothing is created and there is no navigation; loading ends false either way; the image bucket gains the stored file exactly when an image was chosen and stored |
| ApplicationForm.RequiredRule | workshop-management/src/components/student/application-form.tsx:70-72 | a required field gets its message, an optional one no rule |
| ApplicationForm.RenderField | workshop-management/src/components/student/application-form.tsx:57-291 | a field renders iff its type is one of the five; the input is named by the field id; a multiple-choice field shows its options as radios; a required multiple-choice field with options asks to select an option, any other required field says the label is required; an optional field, and a multiple-choice field without options (which registers no radio), has no rule |
| ApplicationForm.RenderForm | workshop-management/src/components/student/application-form.tsx:327 | `applicationForm.map(renderField)` renders at most one input per field |
| ApplicationForm.RenderFormConcat | workshop-management/src/components/student/application-form.tsx:57-291 | rendering distributes over concatenation of forms |
| ApplicationForm.UnknownTypeRendersNothing | workshop-management/src/components/student/application-form.tsx:288-289 | a field of an unknown type adds nothing and takes nothing away from the others |
| ApplicationForm.RenderedInputs | workshop-management/src/components/student/application-form.tsx:57-291 | every field of a known type has its input in the rendered form |
| ApplicationForm.Errors | workshop-management/src/components/student/application-form.tsx:70-72 | at most one error per input |
| ApplicationForm.ErrorsExactly | workshop-management/src/components/student/application-form.tsx:57-291 | the form submits iff every input with a rule is answered (a radio group once any radio is checked, other inputs by a non-empty value), and each error is the rule message of an unanswered input |
| ApplicationForm.NoChoicesNeverBlocks | workshop-management/src/components/student/application-form.tsx:137-150 | a multiple-choice field without options never blocks a submit, even when marked required |
| ApplicationForm.EmptyTextAnswersOnlyRadios | workshop-management/src/components/student/application-form.tsx:137-150 | a checked radio whose option text is empty answers its group, while an empty text box is still unanswered |
| ApplicationForm.PickFile | workshop-management/src/components/student/application-form.tsx:188-193 | a chosen file records its name as the field's value; no file changes nothing; other values are untouched |
| ApplicationForm.Responses | workshop-management/src/components/student/application-form.tsx:58 | the submitted data has one property per rendered input, named after it, in order |
| ApplicationForm.ResponseKeyedById | workshop-management/src/components/student/application-form.tsx:58 | the response under a field's id is that field's value; for a file field it is the file's name |
| ApplicationForm.ResponseOfInput | workshop-management/src/components/student/application-form.tsx:58 | the response under an input's name is the value entered for it |
| ApplicationForm.FormColor | workshop-management/src/components/student/application-form.tsx:23 | the workshop's colour when it is non-empty, `#3B82F6` otherwise |
| ApplicationForm.CreatedColorShown | workshop-management/src/components/student/application-form.tsx:23 | a workshop made on the create page shows the colour chosen there, or blue |
| ApplicationForm.Submission | workshop-management/src/components/student/application-form.tsx:41-46 | the request carries the workshop id, the student id, the responses and status pending |
| ApplicationForm.ApplicationFormView.constructor | workshop-management/src/components/student/application-form.tsx:16-20 | not submitting, no error, `onSuccess` not called |
| ApplicationForm.ApplicationFormView.OnSubmit | workshop-management/src/components/student/application-form.tsx:33-55 | without a user nothing happens; otherwise on success the application is created with the workshop-decided status and `onSuccess` is called once; on failure nothing is created and the error message is set; submitting ends false; workshops and the store's reachability are never modified |
| AuthForms.RegisterFieldIssues | workshop-management/src/components/auth/register-form.tsx:13-18 | no property issues iff the name has 2 characters, the e-mail is valid, the password has 6 characters and the role is master or student |
| AuthForms.RegisterIssues | workshop-management/src/components/auth/register-form.tsx:13-22 | valid iff the property rules hold and the passwords match; the mismatch is reported on `confirmPassword` with "Passwords don't match" exactly when the role parsed and the passwords differ |
| AuthForms.RegisterRoute | workshop-management/src/components/auth/register-form.tsx:57-66 | a master or a student is redirected; any other role is not |
| AuthForms.RegisterFormView.constructor | workshop-management/src/components/auth/register-form.tsx:27-30 | not loading, no error, no user, no navigation |
| AuthForms.RegisterFormView.OnSubmit | workshop-management/src/components/auth/register-form.tsx:41-72 | a failed registration sets "Registration failed. Please try again."; otherwise the error is cleared, the current user is stored and a master or a student is sent to their dashboard; loading ends false |
| AuthForms.LoginIssues | src/components/auth/login-form.tsx:13-16 | valid iff the e-mail is valid and the password has 6 characters; each message appears iff its rule fails |
| AuthForms.LoginRoute | src/components/auth/login-form.tsx:43-53 | admin, master and student are redirected; any other role is not |
| AuthForms.RoutesAgree | src/components/auth/login-form.tsx:43-53 | login and register send a master and a student to the same place, and different roles to different places |
| AuthForms.LoginRouteOfRole | src/components/auth/login-form.tsx:43-53 | every decoded role has a route, and only a master goes to the master dashboard |
| AuthForms.LoginFormView.constructor | src/components/auth/login-form.tsx:21-24 | not loading, no error, no user, no navigation |
| AuthForms.LoginFormView.OnSubmit | src/components/auth/login-form.tsx:35-59 | a failed login, or one that returns no user, sets "Invalid email or password" (the missing user is still stored); otherwise the user is stored and sent by role; loading ends false |

## Left out

- I/O is not modelled. The store's network calls, the storage upload, the router and `console` logging become parameters or state fields. Concurrency between requests and async ordering are left out, and so are races between concurrent approve and reject calls (the last write wins) and image uploads orphaned by a failed create.
- The store's query engine is modelled as filters over a collection, not as an engine of its own. `orderDesc('$createdAt')` is reverse creation order. The full-text title search is a function parameter. Searches return hits newest first; the store's own order for an unordered search is not modelled.
- The default `limit = 25` and `offset = 0` of `getWorkshops` are not modelled: callers pass both explicitly.
- The transport's JSON encoding of a request body is not modelled. `createApplication` and `updateApplication` send their record without `removeUndefinedValues`, and the SDK's own serialization would drop `undefined` properties. It would also send a NaN number as `null`. The model stores the record as built, so `undefined` and NaN values reach the store unchanged.
- `CreateWorkshopPage.CreatedPriceAndDate`: a price text that `parseInt` reads as NaN (such as `.5`, which the number input accepts) is promised to read back as NaN. Over the JSON transport it would be stored as `null`, and `safeParseWorkshop` would then read no price.
- `TypeGuards.FieldOf`: a stored field that passes `isFormField` is kept by the code exactly as parsed. The model decodes it into a `FormField`: `options` that are not an array of strings become absent, a `placeholder` that is not a string becomes absent, and any other property is dropped. So a multiple-choice field stored with `options: [1, "a"]` renders no choices in the model, where the code renders two. A string `options`, on which the code's `options?.map` throws, also renders no choices.
- `ApplicationForm.Responses`: a multiple-choice field without options registers nothing, so the submitted values have no property for it. The model still lists it, with the value `undefined`, which the JSON serialization drops again.
- `ApplicationService.ParseApplication`: a throwing `JSON.parse` is modelled as `None`, and every caller turns it into its fixed error message.
- `FormBuilder.Builder.HandleDrop`: requires the dragged index to be in range. That state is reachable: a drag that ends off every field keeps its index, and `removeField` does not clear it (`FormBuilder.StaleDragIndex`). A drop then makes the code splice `undefined` into the list. The model's fields cannot hold `undefined`, so that drop is not modelled.
- `FormBuilder.Merge`: an update that sets an optional attribute to `undefined` is modelled as a key present with no value. The spread then leaves the attribute absent.
- JSON is a concrete codec: no insignificant whitespace, integer numbers only (a leading `0` before another digit is rejected, as `JSON.parse` does), and a subset of escapes. `JSON.stringify` of non-integer numbers, `Infinity`, and the escaping of control characters are not modelled.
- The schema library's e-mail check is a parameter.
- The schema's `min` counts UTF-16 code units. The model counts characters.
- `parseInt`: decimal only. The whitespace set is space, tab, newline and carriage return. Results beyond the safe-integer range are not rounded.
- Environment variables (`NEXT_PUBLIC_APPWRITE_ENDPOINT`, `NEXT_PUBLIC_APPWRITE_PROJECT_ID`) are plain strings. An unset variable, which the template would print as `undefined`, is not modelled.
- `toLowerCase` lowers ASCII letters only.
- Presentation is not modelled: FileReader image previews, styling, focus and hover handlers, and the colour picker's handlers. The colour picker's handlers call a `setValue` the page never obtains.
- The form library's validation of file inputs is not modelled. A chosen file counts as answered through `PickFile`; the file object itself is not.
- Field ids come from `Date.now`, which this model takes as an input. Uniqueness is assumed only where a lemma states it as a precondition.
- The `AuthService` calls are not modelled; their outcomes are parameters of the form handlers.
