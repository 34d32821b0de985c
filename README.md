# Notion task sync: a Dafny model of its reconciler

The script `index.js` syncs a local list of desired tasks (`tasks.json`) into
a Notion database. It works in these steps:

1. It fetches every page of the database and flattens each one into a snapshot.
2. It computes the remote ids that are no longer desired.
3. For each desired task, it pushes a create or an update request.
4. It pushes one archive request (setting `Выполнено`) per remote id that is no longer desired.

The model keeps all of that logic. The network is left out: the pages and the
users come in as already-fetched sequences, and the requests come out as a
plan. The plan is the sequence of values the script pushes onto its
`promises` array, where `None` is the `undefined` pushed when no request is
issued.

Modules, one per concern of the script:

- `JsValues`: the JavaScript values the script handles:
  - optional strings, for the fields read only when they are non-empty strings (`null`/`undefined` as `None`);
  - JSON values as the mapper receives them (`Missing` for `undefined`, `Null`, a string or a boolean), for the task's `description` and `link`, which are handed to the mapper whatever they hold;
  - truthiness of a string field (set and non-empty);
  - `slice(0, n)`.
- `PropertyMapper`: `createPropertyByType`, from a type tag and a value to the typed property record.
  - `new Date(v).toISOString()` is a parameter `normalize` of every operation that needs it; the model leaves it uninterpreted.
- `Snapshots`: the desired task, the snapshot, the user, and the remote page with its typed property values.
  - It also holds the pure flattening of pages into snapshots.
- `PatchBuilder`: `createProperties`, the sparse patch.
  - The patch is specified as a fold of conditional assignment steps (`Apply`/`Assemble`) over a table that gives, for each key, whether it is written (`Written`) and which value it gets (`ValueFor`).
  - `Build` adds the one way the builder fails: a `null` or boolean description makes the mapper throw.
  - `CreateProperties` is the imperative builder, proved equal to that specification.
- `Reconciler`:
  - `find` is `FindFirst`;
  - user resolution;
  - `resolveTask`, `addTask`, `updateTask` and `archiveTask`;
  - `completedTasks`;
  - the plan of a whole run (`Plan`), which `Sync` computes with its two loops.

## Model

| member | source | states |
|---|---|---|
| JsValues.ArgOf | index.js:222 | an unset field reaches the mapper as `undefined` and a set one as that string, never `null` or a boolean |
| JsValues.Slice | index.js:228 | `s.slice(0, n)` is a prefix of `s` whose length is the smaller of the length of `s` and `n` |
| PropertyMapper.KindOf | index.js:224-281 | a tag falls to the `default` case exactly when it is none of the seven known tags |
| PropertyMapper.WithDefault | index.js:222 | a missing value becomes `''`, any other value is kept |
| PropertyMapper.PropertyByType | index.js:222-283 | the mapper throws exactly when `select`/`rich_text` get `null` or a boolean (the default replaces only `undefined`). Those two hold a prefix of the defaulted value of length min(length, textLength). `title`, `checkbox`, `people` and `url` pass the defaulted value through, `null` included. `date` holds its normalised form. An unknown tag gives `{}` |
| PropertyMapper.UnknownTagEmpty | index.js:279-282 | every tag outside the known seven gives the empty record, for any value and length |
| PropertyMapper.ShortTextKept | index.js:225-242 | a string no longer than `textLength` is kept whole by `select` and `rich_text` |
| PropertyMapper.LongTextCut | index.js:225-242 | a longer string is cut to exactly its first `textLength` characters |
| Snapshots.JoinAppend | index.js:30-32 | joining the title fragments distributes over concatenation of the fragment lists |
| Snapshots.OptionalChoice | index.js:38 | an absent select property reads as `null`. A set choice reads as its name. A present property without a choice (`select: null`, or not a select) throws |
| Snapshots.OptionalDate | index.js:39 | the same for a date property and its `start` |
| Snapshots.FirstPerson | index.js:37 | the assignee is the first person's id, `null` when the property is absent or empty, and a non-people property throws |
| Snapshots.FlattenSpec | index.js:28-44 | a page flattens exactly when it has its title and link and every optional property present is of the expected kind. The snapshot then carries the page id, the joined title, the link (`undefined` for a property that is not a URL), the first person, each select's name and each date's start, and `null` exactly for each optional property the page lacks |
| Snapshots.FlattenPages | index.js:28-44 | the fetch succeeds exactly when every page flattens. It then keeps one snapshot per page, in order |
| PatchBuilder.NameInjective | index.js:187-217 | the ten keys are ten distinct property names |
| PatchBuilder.ApplyOther | index.js:192-218 | a key that no conditional assignment targets keeps its presence and its value |
| PatchBuilder.ApplyOwn | index.js:192-218 | a key that exactly one assignment targets is present exactly when that assignment's condition holds or the key was already there. It holds the assigned value when assigned, and its old value otherwise |
| PatchBuilder.AssembleNested | index.js:187-219 | the folded steps are the seven conditional assignments carried out one after another on the two fixed fields |
| PatchBuilder.AssembleEntry | index.js:187-219 | in the assembled object, ID and Описание are always present and every other key is present exactly when its condition holds, each with its own value. No key outside the nine is ever written |
| PatchBuilder.PatchUnrolled | index.js:186-220 | the patch is the source's sequence of conditional assignments, each with the mapper call and length the source uses |
| PatchBuilder.PutIfChanged | index.js:196-202 | a person, choice or author key is written exactly when the desired value is set, non-empty and different from the current one. Nothing else changes |
| PatchBuilder.PutIfDateChanged | index.js:204-206 | a date key is written exactly when both dates are set and their normalised forms differ. Nothing else changes |
| PatchBuilder.CreateProperties | index.js:186-220 | the builder throws exactly when the description is `null` or a boolean. Otherwise it returns the specified patch: a key is present exactly when it is one of the nine and its condition holds, and it holds the key's mapped value |
| PatchBuilder.TableValues | index.js:187-218 | the title is sent whole. Description, milestone and author are cut to 2000 characters, the project name to 100. Dates are normalised, link and person id pass through, a left-out description or link is `''`, a `null` link stays `null`. Mapping throws exactly for a `null` or boolean description. The archive flag is `checkbox: true` |
| PatchBuilder.PatchEntry | index.js:187-219 | for each key: present exactly when one of the nine and written (ID and Описание always, Ссылка iff new, the others only when changed), with its mapped value |
| PatchBuilder.PatchByKey | index.js:187-219 | the same for all keys at once |
| PatchBuilder.NewTaskHasNoDates | index.js:204-214 | a new page (compared against `{}`) never carries `Срок задачи` or `Срок проекта` |
| PatchBuilder.UnchangedTaskPatch | index.js:196-219 | a task that agrees with its snapshot on every compared field yields a patch of exactly ID and Описание |
| Reconciler.FindFirst | index.js:114-119 | `find` returns the first position satisfying the predicate, and none exactly when no element does |
| Reconciler.FindSnapshot | index.js:114-116 | the match is the first snapshot with the task's id, and none exactly when no snapshot has it |
| Reconciler.FindUser | index.js:117-119 | the match is the first user whose `fio` is the task's `user`, and none exactly when there is no such user |
| Reconciler.ResolveUserSpec | index.js:117-122 | resolution changes only `userID`. It takes the id of the first user with the task's name, and leaves the task as it was when no user has that name |
| Reconciler.DecideCreate | index.js:124-125 | a desired task is created exactly when no snapshot has its id and its description can be mapped. It is created with the new-page patch of the task after user resolution |
| Reconciler.DecideUpdate | index.js:126-128 | with a first same-id snapshot, the task updates that snapshot's page with the patch against it, or issues nothing when the page id is empty or the builder throws |
| Reconciler.DecideThrows | index.js:129-131 | a task with a `null` or boolean description issues no request: the builder's error is caught and `undefined` is pushed |
| Reconciler.DoneProperties | index.js:157-159 | the archive patch is exactly `{Выполнено: {checkbox: true}}` |
| Reconciler.ArchiveTaskSpec | index.js:148-167 | nothing is issued exactly when no snapshot has the id. Otherwise the archive targets the first such snapshot's page with exactly the done flag |
| Reconciler.MapSeq | index.js:85-86 | `map` gives one image per element, position by position; the snapshot ids and the desired ids are its two uses |
| Reconciler.Absent | index.js:87 | the filter keeps exactly the ids not among the desired ones |
| Reconciler.AbsentCount | index.js:87 | each kept id occurs in the result as often as in the input: duplicates survive |
| Reconciler.AbsentAppend | index.js:87 | the filter distributes over concatenation, so it keeps the order of the snapshots |
| Reconciler.CompletedSpec | index.js:85-87 | an id is completed exactly when some snapshot has it and no desired task does |
| Reconciler.DuplicateRemoteIds | index.js:85-87 | an undesired id carried by two snapshots is completed at least twice |
| Reconciler.PlanShape | index.js:91-99 | the plan has one decision per desired task, at its position, then one archive attempt per completed id, in order |
| Reconciler.PlanKinds | index.js:91-99 | decisions are creates, updates or nothing. Every archive attempt issues an archive request, since each completed id comes from a snapshot |
| Reconciler.NewTaskPatch | index.js:186-194 | a new task with a description and a link gets exactly ID, Описание and Ссылка |
| Reconciler.NewTaskScenario | index.js:112-146 | that task on an empty remote database yields exactly one create carrying those three properties |
| Reconciler.ChangedMilestonePatch | index.js:186-202 | a task whose milestone changed gets ID, the empty Описание and the new Веха, and nothing else |
| Reconciler.ChangedMilestoneScenario | index.js:169-184 | that task against its snapshot yields exactly one update of the snapshot's page with that patch, and no archive |
| Reconciler.NullDescriptionScenario | index.js:129-131 | a desired task with a `null` description on an empty remote database yields a plan of one `undefined` and no request |
| Reconciler.NullLinkScenario | index.js:192-194 | a new task with a `null` link is built, and its patch carries `url: null` |
| Reconciler.AddTask | index.js:134-141 | `addTask` throws when the builder throws, and otherwise issues a create with the new-page patch |
| Reconciler.UpdateTask | index.js:169-184 | `updateTask` issues nothing for an empty page id. Otherwise it throws when the builder throws, and else issues an update of that page with the patch against the snapshot |
| Reconciler.ResolveTask | index.js:112-132 | `resolveTask` issues exactly the request `Decide` specifies, turning the builder's error into `undefined` |
| Reconciler.ResolveAll | index.js:91-93 | the first loop pushes, in order, the decision for each desired task |
| Reconciler.ArchiveAll | index.js:96-99 | the second loop pushes, in order, the archive attempt for each completed id |
| Reconciler.Sync | index.js:80-110 | an empty desired list issues nothing. A fetch with a page that fails to flatten issues nothing. Otherwise the run pushes exactly the plan: the decisions, then the archive attempts |

## Left out

- The network calls are not modelled: `databases.query`, `databases.retrieve`, `pages.create` and `pages.update`.
  - The cursor-pagination loops (index.js:16-27, 60-71) are not modelled either. Pages and users are inputs, already fetched, and requests are plan entries.
- Mapping the user table (index.js:72-77) is not modelled. Users come in as already-mapped `(fio, id)` records, and the TypeError of a user row without a name or a person is not represented.
- Reading `tasks.json`, the environment and client construction (index.js:3-10) are I/O and configuration. `retrieveTable` (index.js:47-54) is never used.
- `Promise.all` and the concurrent dispatch (index.js:101-103) are not modelled.
  - The plan keeps the order in which requests are pushed.
  - It says nothing about the order in which they complete, or whether they succeed.
- The `.catch` handlers, `printError` and `console.log` (index.js:95-97, 105-107, 129-131, 163-165, 180-182, 285-291) only log.
  - A fetch that fails to flatten yields no requests.
  - The log line of an empty desired list is not modelled.
- The `catch` branch of `addTask` (index.js:142-145) is not modelled. It refers to an undefined `err`, and it cannot be reached from a create call that only returns a promise.
- `new Date(v).toISOString()` is the parameter `normalize`, a total function. The model does not capture the RangeError that an invalid date raises, or any calendar arithmetic.
- Desired task values are partly modelled.
  - `description` and `link` keep their JSON value: left out, `null`, a string or a boolean.
  - The other optional fields hold a string or nothing, and there `null` and `undefined` are both `None`. The builder reads those fields only when they are non-empty strings, so the two behave the same.
  - A JSON number in any field is not represented, and neither is a boolean in a field other than `description` and `link`.
  - The mapper TypeError that such a non-string value would cause inside `resolveTask`'s `try` is not represented either.
  - A task without an `id`, or with a non-string `id`, is not represented.
- `Reconciler.ResolveTask`: it models `item.userID = user.id` (index.js:121) as a new task value, not as an update of the caller's object in place. No later step reads the mutated object.
- `JsValues.Slice`: it counts Dafny characters. JavaScript's `slice` counts UTF-16 code units, so the two differ on characters outside the Basic Multilingual Plane.

Where the documented behaviour of the script and its code differ, the model follows the code:

- An update always carries `ID` and `Описание`, even when only the milestone changed.
- An empty desired list issues no request at all, so nothing is archived.
- `completedTasks` is a filter over the snapshot ids, not a set difference: an undesired id carried by several snapshots is archived once per occurrence (`Reconciler.DuplicateRemoteIds`), and each time the target is the first of those snapshots' pages (`Reconciler.ArchiveTaskSpec`).
