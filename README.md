# Portfolio backend and editor, modelled in Dafny

This project models the core of a personal-portfolio application. The
backend is an Express server over a MongoDB document store. It keeps user
accounts and, per user, one PersonalInfo document and lists of projects,
work-experience entries and skills. The front end is a React page that edits
personal info and a project list in the browser.

What the model covers:

* **Authentication gate**: `authenticateToken` takes the token from the
  Authorization header, has it checked by the JSON Web Token library, and
  then admits the request with the token's claims, answers 401, or answers 403.
* **Accounts**: register, with its duplicate check and the placeholder
  PersonalInfo it creates, and login, whose two failures give one identical
  answer.
* **Owned collections**: create, list, update and delete for projects,
  experience and skills. Also the upsert of PersonalInfo and its single
  read, the public aggregate read, and the upload route with its image-only
  file filter.
* **Editor state**: the four editing handlers of the page component, and the
  comma-split and trim of the tech-stack input.

The store is a class (`Server.Backend`) whose fields are the collections. Each
route is a method that returns the status and JSON body the handler sends.
Each method states, as a function of the old state, what the collections
become. The meaning of the store operations is given by pure functions in
`Collection`:

* `find({userId}).sort(...)` is `Listing`.
* `findOne({userId})` is `FirstOwned`.
* `findOneAndUpdate({_id, userId}, ...)` is `UpdateScoped`.
* `findOneAndDelete({_id, userId})` is `DeleteScoped`.
* the PersonalInfo upsert is `Upsert`.

Lemmas about these functions give the guarantees:

* another owner's documents are never modified or removed;
* another owner's list changes only when the request body names that owner
  as `userId`, which the update and upsert routes let through;
* an error path changes nothing;
* forced fields win over the payload;
* lists are sorted and hold exactly the owner's documents.

Modelling choices:

* **Bodies**: the bodies of the document routes are taken after Mongoose has
  cast them to the schema, so an absent key is `None` and keys outside the
  schema are gone. Register and login take their fields as plain strings.
* **Validation**: validators run on `save` only, that is on register and
  create. A failed validation answers 500 "Server error" and stores nothing.
  Updates and the upsert do not run validators, which is Mongoose's default.
* **Placeholders for library calls**: password hashing and comparison, token
  signing and verification, and the clock are parameters. `verify` stands for
  the library at the moment of the request, expiry included.
* **Identifiers**: ObjectIds come from a counter in the store.
* **Skill proficiency**: the schema's `min: 1, max: 10` validators reject an
  out-of-range value, and the model follows them (`Records.NewSkill`).

## Model

| member | source | states |
|---|---|---|
| Auth.Jwt.Secret | portfolio-backend/server.js:115 | the secret is the JWT_SECRET variable when it is set and non-empty, otherwise "your-secret-key"; never empty |
| Auth.BearerToken | portfolio-backend/server.js:108-109 | no header gives no token; a token, when found, is non-empty and has no space |
| Auth.SchemeIsIgnored | portfolio-backend/server.js:109 | any first word followed by a space and a word yields that word: the scheme is never checked to be "Bearer" |
| Auth.LaterSegmentsAreIgnored | portfolio-backend/server.js:109 | only the second space-separated segment is the token; whatever follows it is ignored |
| Auth.OneWordHasNoToken | portfolio-backend/server.js:109-113 | a header without a space yields no token |
| Auth.DoubleSpaceHasNoToken | portfolio-backend/server.js:109-113 | two spaces after the first word make the token segment empty, so there is no token |
| Auth.TrailingSpaceHasNoToken | portfolio-backend/server.js:109-113 | a first word followed by one trailing space leaves the token segment empty, so there is no token |
| Auth.Authenticate | portfolio-backend/server.js:107-122 | no token gives 401 "Access token required"; a token the library rejects gives 403 "Invalid token"; otherwise the request is admitted with the verified claims |
| Auth.AdmittedIff | portfolio-backend/server.js:111-120 | a request is admitted with claims c exactly when its header has a token that the library verifies to c |
| Records.NewUser | portfolio-backend/server.js:47-52 | an account is saved exactly when username, email and hashed password are all non-empty; it stores the hash and has role 'user' |
| Records.SchemaText | portfolio-backend/server.js:54-65 | strict mode keeps exactly the body's keys that are PersonalInfo string paths, with their values |
| Records.MergeInfo | portfolio-backend/server.js:218-222 | an update replaces exactly the schema paths the body names, keeps every other stored path, and sets updatedAt when the body has one |
| Records.Placeholder | portfolio-backend/server.js:148-154 | the PersonalInfo a registration creates has exactly name = username, title "Software Developer", bio "Welcome to my portfolio!" and email; it satisfies the required paths whenever the account saved |
| Records.MergeProject | portfolio-backend/server.js:257-261 | each path the body names replaces the stored value; every path the body leaves out keeps it |
| Records.NewProject | portfolio-backend/server.js:69-80 | a project saves exactly when title and description are present and non-empty; the stored project is the schema defaults overridden by the body |
| Records.NewExperience | portfolio-backend/server.js:82-91 | an entry saves exactly when title, company, period and description are present and non-empty; the stored entry is the defaults overridden by the body |
| Records.MergeExperience | portfolio-backend/server.js:317-321 | each path the body names replaces the stored value; every path it leaves out keeps it |
| Records.MergeSkill | portfolio-backend/server.js:377-381 | each path the body names replaces the stored value; every path it leaves out keeps it |
| Records.NewSkill | portfolio-backend/server.js:93-98 | a skill saves exactly when the name is non-empty, the category (default 'other') is in the enum and the proficiency (default 5) is within 1..10 |
| Records.NewestFirstIsPreorder | portfolio-backend/server.js:234 | createdAt descending is a total preorder |
| Records.ExperienceOrderIsPreorder | portfolio-backend/server.js:294 | order descending, then createdAt descending, is a total preorder |
| Records.SkillOrderIsPreorder | portfolio-backend/server.js:354 | category ascending, then name ascending, is a total preorder |
| Strings.Split | portfolio-backend/server.js:109 | `split` on one character gives one more piece than there are separators, and no piece contains the separator |
| Strings.SplitAtSeparator | portfolio-backend/server.js:109 | the first piece ends at the first separator |
| Strings.JoinSplit | portfolio/src/App.jsx:95 | joining the pieces of a split with the separator gives the string back |
| Strings.SplitJoin | portfolio/src/App.jsx:95 | splitting a join of separator-free pieces gives the pieces back |
| Strings.Trim | portfolio/src/App.jsx:95 | `trim` leaves a string that neither starts nor ends with ECMAScript white space |
| Strings.TrimPadded | portfolio/src/App.jsx:95 | trim removes exactly the white space around a trimmed core |
| Strings.TrimIdempotent | portfolio/src/App.jsx:95 | trimming twice is trimming once |
| Strings.TrimKeepsOut | portfolio/src/App.jsx:95 | trimming never introduces a character |
| Strings.LexLeTransitive | portfolio-backend/server.js:354 | the code-point order strings are sorted by is transitive |
| Strings.LexLeTotal | portfolio-backend/server.js:354 | any two strings are comparable |
| Strings.LexLeAntisymmetric | portfolio-backend/server.js:354 | strings ordered both ways are equal |
| Seqs.SortSorted | portfolio-backend/server.js:234 | sorting by a total preorder gives a sorted list (and, by Sort's contract, a permutation) |
| Collection.Listing | portfolio-backend/server.js:234 | a list holds the owner's documents, each as often as `find` returns it, and nothing else |
| Collection.OwnedBy | portfolio-backend/server.js:234 | `find({userId})` returns only that owner's documents, and every one of them |
| Collection.ListingSpec | portfolio-backend/server.js:234 | a list is sorted by the requested order and holds exactly the owner's documents, each as often as stored |
| Collection.FirstOwned | portfolio-backend/server.js:204 | `findOne({userId})` is null exactly when the owner has no document, otherwise one of the owner's documents |
| Collection.UpdateScoped | portfolio-backend/server.js:257-261 | an update finds a document only if id and owner both match; on a miss nothing changes; on a hit exactly that position is replaced by the merged document; ids never change; other owners' documents are untouched |
| Collection.DeleteScoped | portfolio-backend/server.js:275-278 | a delete removes one document matching both id and owner, and nothing on a miss |
| Collection.AppendKeepsIds | portfolio-backend/server.js:243-248 | saving a document with a fresh id keeps ids distinct and below the counter |
| Collection.UpdateKeepsIds | portfolio-backend/server.js:257-261 | an update keeps ids distinct and below the counter |
| Collection.DeleteKeepsIds | portfolio-backend/server.js:275-278 | a delete keeps ids distinct, and after a hit no document with that id remains |
| Collection.DeleteSparesOtherOwners | portfolio-backend/server.js:275-278 | a delete leaves every other owner's list unchanged |
| Collection.UpdateSparesOtherOwners | portfolio-backend/server.js:257-261 | an update whose body names no other owner leaves every other owner's list unchanged |
| Collection.UpdateCanReassignOwner | portfolio-backend/server.js:257-259 | because the body is spread into the update, a body naming another owner moves the matched document: that owner's list gains one document, the updated one with the same id, and when ids are distinct no document with that id is left in the caller's list |
| Collection.AppendOwnedBy | portfolio-backend/server.js:243-249 | a saved document appears in its owner's list and in no other |
| Collection.Upsert | portfolio-backend/server.js:218-222 | when the caller has a document, that one position is replaced, keeping its id, by the body merged over it with updatedAt = now; otherwise exactly one document with the fresh id and the body's paths is appended; other owners' documents stay where they were; the result is owned by the caller unless the body names another owner |
| Collection.UpsertSparesOtherOwners | portfolio-backend/server.js:218-222 | an upsert leaves every other owner's PersonalInfo list unchanged, unless the body names that owner |
| Collection.UpsertTwice | portfolio-backend/server.js:218-222 | when the body names no owner other than the caller, two upserts end as one upsert at the later time: the second updates the first one's document and never inserts another |
| Server.NotTakenKeepsDistinct | portfolio-backend/server.js:130-134 | an account that the `$or` lookup on email and username does not find keeps all usernames and emails distinct |
| Server.ProjectMergeStampsNow | portfolio-backend/server.js:259 | a project update is the body's merge with updatedAt set to now, overriding any updatedAt in the body |
| Server.AcceptsImage | portfolio-backend/server.js:37-43 | the file filter accepts a file exactly when its content type starts with "image/" |
| Server.ImageTypesAccepted | portfolio-backend/server.js:38 | every image/ subtype passes; the check is case-sensitive, so "Image/..." fails |
| Server.Upload | portfolio-backend/server.js:411-418 | the gate runs first; a non-image file gives the error middleware's 500 "Something went wrong"; no file gives 400 "No file uploaded"; 200 with the file's URL exactly when admitted with an image |
| Server.Backend.Register | portfolio-backend/server.js:125-162 | an existing email or username gives 400 "User already exists" and no change; otherwise exactly one account is added with the hashed password and role 'user', and one PersonalInfo for it with name = username, title "Software Developer", bio "Welcome to my portfolio!" and the email; 201; accounts stay unique |
| Server.Backend.Login | portfolio-backend/server.js:164-198 | 200 exactly when an account with that email has a matching password; an unknown email and a wrong password both give 400 "Invalid credentials"; on success the token signs {userId, email} with the secret and "24h", and the user view has id, username and email only |
| Server.Backend.RegisterThenLogin | portfolio-backend/server.js:136-175 | after a successful registration, login with the same password succeeds for the new account |
| Server.Backend.GetPersonalInfo | portfolio-backend/server.js:201-214 | 200 exactly when the user has a PersonalInfo document, with the first one `findOne` returns; otherwise 404 "Personal info not found" |
| Server.Backend.PutPersonalInfo | portfolio-backend/server.js:216-228 | refused requests change nothing; otherwise the caller's document is upserted with updatedAt = now and returned with 200 |
| Server.Backend.ListProjects | portfolio-backend/server.js:231-239 | 200 with exactly the owner's projects, newest first |
| Server.Backend.CreateProject | portfolio-backend/server.js:241-253 | refused or invalid requests change nothing; otherwise one project is appended with a fresh id, owned by the caller whatever the body says, and returned with 201 |
| Server.Backend.UpdateProject | portfolio-backend/server.js:255-271 | refused requests change nothing; the update touches only a project with that id owned by the caller, with updatedAt forced to now; 404 "Project not found" and no change on a miss |
| Server.Backend.DeleteProject | portfolio-backend/server.js:273-288 | refused requests change nothing; only the caller's project with that id is removed; 404 "Project not found" and no change on a miss |
| Server.Backend.ListExperience | portfolio-backend/server.js:291-299 | 200 with exactly the owner's entries, by order then createdAt, both descending |
| Server.Backend.CreateExperience | portfolio-backend/server.js:301-313 | as for projects: forced owner, fresh id, 201, no change when refused or invalid |
| Server.Backend.UpdateExperience | portfolio-backend/server.js:315-331 | the caller's entry with that id is merged with the body (no timestamp is set); 404 "Experience not found" and no change on a miss |
| Server.Backend.DeleteExperience | portfolio-backend/server.js:333-348 | only the caller's entry with that id is removed; 404 "Experience not found" and no change on a miss |
| Server.Backend.ListSkills | portfolio-backend/server.js:351-359 | 200 with exactly the owner's skills, by category then name, both ascending |
| Server.Backend.CreateSkill | portfolio-backend/server.js:361-373 | forced owner, fresh id, 201; an invalid name, category or proficiency gives 500 and no change |
| Server.Backend.UpdateSkill | portfolio-backend/server.js:375-391 | the caller's skill with that id is merged with the body; 404 "Skill not found" and no change on a miss |
| Server.Backend.DeleteSkill | portfolio-backend/server.js:393-408 | only the caller's skill with that id is removed; 404 "Skill not found" and no change on a miss |
| Server.Backend.GetPortfolio | portfolio-backend/server.js:425-445 | 200 with the owner's PersonalInfo, or null when there is none, and the owner's three sorted lists; an unknown owner gets empty lists |
| Editor.SetField | portfolio/src/App.jsx:90 | the spread with a computed key sets that key and keeps every other key's value |
| Editor.TrimAll | portfolio/src/App.jsx:95 | `.map(trim)` keeps the length and trims each piece |
| Editor.ParseTechStack | portfolio/src/App.jsx:94-96 | the tags number the commas plus one, each is trimmed and comma-free, and the empty input gives [""] |
| Editor.ParsePieces | portfolio/src/App.jsx:95 | comma-free pieces joined by commas parse to the trimmed pieces |
| Editor.ParseJoin | portfolio/src/App.jsx:95 | trimmed, comma-free tags survive a join and a parse unchanged |
| Editor.ParseStable | portfolio/src/App.jsx:95 | parsing a parse's own result, joined by commas, changes nothing |
| Editor.ReplaceById | portfolio/src/App.jsx:97-99 | the list keeps its length and order; a project with the id gets the field set and keeps every other key; every other project is unchanged |
| Editor.ReplaceIdempotent | portfolio/src/App.jsx:97-99 | repeating an edit changes nothing more |
| Editor.ReplaceKeepsIds | portfolio/src/App.jsx:97-99 | editing a field other than id keeps which project has which id |
| Editor.RemoveById | portfolio/src/App.jsx:123 | the remaining projects are exactly the ones without the id |
| Editor.RemoveIdempotent | portfolio/src/App.jsx:123 | deleting twice is deleting once |
| Editor.RemoveConcat | portfolio/src/App.jsx:123 | deletion works piecewise over a concatenation, so the remaining projects keep their relative order |
| Editor.RemoveAbsent | portfolio/src/App.jsx:123 | deleting an id no project has leaves the list as it is |
| Editor.RemoveAfterReplace | portfolio/src/App.jsx:97-99 | deleting after editing a field other than id is the same as deleting |
| Editor.NewProjectObject | portfolio/src/App.jsx:104-109 | the new project has the form's texts, the given id, the parsed tech stack, and the default image exactly when the form's image is empty |
| Editor.PortfolioState.EditPersonalInfo | portfolio/src/App.jsx:89-91 | only the given field of personal info changes; the project list and the form stay |
| Editor.PortfolioState.EditProject | portfolio/src/App.jsx:93-100 | the list becomes the map-replace by id, with a techStack value parsed into tags and any other value stored as text |
| Editor.PortfolioState.AddProject | portfolio/src/App.jsx:102-120 | with an empty title or description nothing changes; otherwise exactly one project is appended at the end and the form is reset to all-empty |
| Editor.PortfolioState.DeleteProject | portfolio/src/App.jsx:122-124 | the list becomes the filter-delete by id; personal info and the form stay |

## Left out

- HTTP plumbing is not modelled: Express routing, CORS, JSON parsing, static serving of uploads and `app.listen` (portfolio-backend/server.js:10-16, 457-459).
- The MongoDB connection is not modelled, and neither are store failures. The `catch` blocks that answer 500 with the driver's message cover failures outside the model. A validation failure on `save` is inside the model, as a 500 "Server error".
- The 500 bodies carry an `error` field with the library's message text. The model gives them the `message` field only.
- Mongoose casting is assumed done. Bodies are already typed and stripped to schema paths. Explicit `null` values and `$`-operators in bodies are not modelled, and `_id` in an update body is not modelled either.
- Server.Backend.CreateProject, Server.Backend.CreateExperience, Server.Backend.CreateSkill: a create body cannot carry `_id`, although strict mode keeps it from the spread (portfolio-backend/server.js:243-246, 303-306, 363-366). The model therefore always uses the counter's fresh id and answers 201. It misses a client-chosen id, and the 500 "Server error" that `save` gives when that id already exists.
- A missing or malformed `userId` query parameter is not modelled. The query is taken to be a valid ObjectId.
- Malformed path parameters are not modelled. An `:id` that is not an ObjectId (portfolio-backend/server.js:258, 276, 318, 336, 378, 396) or a malformed `:userId` (portfolio-backend/server.js:427) makes Mongoose throw a cast error, so the route answers 500 "Server error"; the model takes every identifier to be a valid ObjectId, so these routes answer 404 or 200 instead.
- Server.Backend.Register: takes username, email and password as strings, so an absent field cannot be expressed. An absent password makes `bcrypt.hash` reject, and the route answers 500 (portfolio-backend/server.js:136, 159-160); an absent username or email is modelled only as the empty string, which fails validation the same way.
- Server.Backend.Login: takes email and password as strings, so an absent field is not modelled. With one, the `findOne` lookup and `bcrypt.compare` act on `undefined` (portfolio-backend/server.js:166-176), which the model cannot express.
- The unique indexes on username and email are not modelled separately. Only the register route's own duplicate check is, so two concurrent registrations racing past it are not captured.
- Concurrency: the four reads of the aggregate run concurrently (`Promise.all`) and are modelled one after another. They touch disjoint collections, so nothing is lost.
- Numbers: `order` and `proficiency` are JavaScript numbers and are modelled as integers. Dates are integers (milliseconds).
- Server.Backend.PutPersonalInfo: reserves a fresh id on every call, even when it updates an existing document, because the model cannot see whether the store generated one.
- Multer's disk storage, its file names, the 5 MB size limit and its "File too large" answer are not modelled. Neither is building the upload URL from protocol and host (portfolio-backend/server.js:25-36, 417, 449-453). The URL is a parameter of `Server.Upload`.
- Server.Upload: `file` stands for the part sent under the field name `image`. A file sent under any other field name makes `upload.single('image')` fail with an unexpected-file error, which the error middleware answers with 500 "Something went wrong" (portfolio-backend/server.js:411, 449-454). The model does not capture that answer.
- bcrypt and jsonwebtoken are parameters, and no cryptographic property is stated. The token's expiry is left to `verify`.
- Front end: JSX rendering, dark mode, CSS classes and the edit-mode toggles are not modelled. The form inputs' change handlers are not modelled either; the model's form is a public field any value can be written to.
- Front end: the initial demo data of the component, and the separate constant data file, are not modelled.
- Editor.ParseTechStack: `value.split(',')` is modelled for a string value only, as the input fields supply.
