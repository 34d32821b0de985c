/** The sparse-patch builder: `createProperties` collects the properties
    to send for one desired task, one conditional key at a time. */
module PatchBuilder {
  import opened JsValues
  import opened PropertyMapper
  import opened Snapshots

  /** The names under which the builder writes a property. */
  datatype Key = Id | Description | Link | Assignee | Milestone | TaskDate | Project | ProjectDate | Author | Done

  /** The property name on the wire. */
  function Name(k: Key): string
  {
    match k
    case Id => IdKey
    case Description => "Описание"
    case Link => LinkKey
    case Assignee => AssigneeKey
    case Milestone => MilestoneKey
    case TaskDate => TaskDateKey
    case Project => ProjectKey
    case ProjectDate => ProjectDateKey
    case Author => AuthorKey
    case Done => "Выполнено"
  }

  /** Distinct keys are distinct property names on the wire. */
  lemma NameInjective(a: Key, b: Key)
    ensures Name(a) == Name(b) <==> a == b
  {
  }

  /** Properties of a page request, by property name. */
  type Properties = map<Key, Property>

  /** `Проект` is truncated to this many characters instead of the mapper's default. */
  const ProjectTextLength: nat := 100

  /** Every key the builder may write. */
  const PatchKeys: set<Key> := {Id, Description, Link, Assignee, Milestone, TaskDate, Project, ProjectDate, Author}

  const DateKeys: set<Key> := {TaskDate, ProjectDate}

  /** A person, choice or author field is sent when the desired value is set
      and differs from the current one (`item.f && item.f !== currentTask.f`). */
  predicate Differs(want: Option<string>, have: Option<string>)
  {
    Truthy(want) && want != have
  }

  /** A date is sent only when both sides are set and their normalised
      instants differ. */
  predicate DateDiffers(want: Option<string>, have: Option<string>, normalize: Arg -> string)
  {
    Truthy(want) && Truthy(have) && normalize(Text(want.value)) != normalize(Text(have.value))
  }

  /** Whether the builder writes `key` for `item` against `current`. */
  predicate Written(key: Key, item: Task, isNew: bool, current: Snapshot, normalize: Arg -> string)
  {
    match key
    case Id => true
    case Description => true
    case Link => isNew
    case Assignee => Differs(item.userId, current.userId)
    case Milestone => Differs(item.mark, current.mark)
    case TaskDate => DateDiffers(item.taskDate, current.taskDate, normalize)
    case Project => Differs(item.projectName, current.projectName)
    case ProjectDate => DateDiffers(item.projectDate, current.projectDate, normalize)
    case Author => Differs(item.author, current.author)
    case Done => false
  }

  /** The mapper call for a string field, which cannot fail. */
  function Field(kind: Kind, value: Option<string>, normalize: Arg -> string,
                 textLength: nat := DefaultTextLength): Property
  {
    PropertyByType(kind, ArgOf(value), normalize, textLength).prop
  }

  /** The mapper's result for the description, which the builder maps
      whatever it holds: a TypeError for `null` or a boolean. */
  function DescriptionProperty(item: Task, normalize: Arg -> string): Mapped
  {
    PropertyByType(RichTextKind, item.description, normalize)
  }

  /** Building the properties of `item` throws: its description cannot be sliced. */
  predicate Throws(item: Task, normalize: Arg -> string)
  {
    DescriptionProperty(item, normalize).TypeError?
  }

  /** The property the builder writes under `key`, when it writes it. When the
      description throws, no property object is built at all and its entry
      here is never used. */
  function ValueFor(key: Key, item: Task, normalize: Arg -> string): Property
  {
    match key
    case Id => Field(TitleKind, Some(item.id), normalize)
    case Description => if Throws(item, normalize) then Empty else DescriptionProperty(item, normalize).prop
    case Link => PropertyByType(UrlKind, item.link, normalize).prop
    case Assignee => Field(PeopleKind, item.userId, normalize)
    case Milestone => Field(SelectKind, item.mark, normalize)
    case TaskDate => Field(DateKind, item.taskDate, normalize)
    case Project => Field(SelectKind, item.projectName, normalize, ProjectTextLength)
    case ProjectDate => Field(DateKind, item.projectDate, normalize)
    case Author => Field(SelectKind, item.author, normalize)
    case Done => PropertyByType(CheckboxKind, Flag(true), normalize).prop
  }

  /** `p` with `key` set to `value` when `due`, unchanged otherwise. */
  function WriteIf(p: Properties, due: bool, key: Key, value: Property): Properties
  {
    if due then p[key := value] else p
  }

  /** One conditional assignment `if (due) properties[key] = value`. */
  datatype Step = Step(due: bool, key: Key, value: Property)

  /** The assignments of `steps`, carried out in order on `p`. */
  function Apply(p: Properties, steps: seq<Step>): Properties
    decreases |steps|
  {
    if steps == [] then p else Apply(WriteIf(p, steps[0].due, steps[0].key, steps[0].value), steps[1..])
  }

  /** A key that no step assigns keeps its entry. */
  lemma {:induction false} ApplyOther(p: Properties, steps: seq<Step>, k: Key)
    requires forall i :: 0 <= i < |steps| ==> steps[i].key != k
    ensures k in Apply(p, steps) <==> k in p
    ensures k in p ==> Apply(p, steps)[k] == p[k]
    decreases |steps|
  {
    if steps != [] {
      assert forall i :: 0 <= i < |steps[1..]| ==> steps[1..][i] == steps[i + 1];
      ApplyOther(WriteIf(p, steps[0].due, steps[0].key, steps[0].value), steps[1..], k);
    }
  }

  /** A key that exactly one step assigns is there when the step is due,
      holding the step's value, and keeps its old entry otherwise. */
  lemma {:induction false} ApplyOwn(p: Properties, steps: seq<Step>, i: nat)
    requires i < |steps|
    requires forall j :: 0 <= j < |steps| && j != i ==> steps[j].key != steps[i].key
    ensures steps[i].key in Apply(p, steps) <==> steps[i].due || steps[i].key in p
    ensures steps[i].due ==> Apply(p, steps)[steps[i].key] == steps[i].value
    ensures !steps[i].due && steps[i].key in p ==> Apply(p, steps)[steps[i].key] == p[steps[i].key]
    decreases |steps|
  {
    var q := WriteIf(p, steps[0].due, steps[0].key, steps[0].value);
    assert forall j :: 0 <= j < |steps[1..]| ==> steps[1..][j] == steps[j + 1];
    if i == 0 {
      ApplyOther(q, steps[1..], steps[0].key);
    } else {
      ApplyOwn(q, steps[1..], i - 1);
    }
  }

  /** The builder's object: the title and the description, then seven
      conditional assignments in the source's order, where `due(k)` says
      whether key `k` is assigned and `value(k)` what it is assigned. */
  function Assemble(due: Key -> bool, value: Key -> Property): Properties
  {
    Apply(map[Id := value(Id), Description := value(Description)],
          [Step(due(Link), Link, value(Link)), Step(due(Assignee), Assignee, value(Assignee)),
           Step(due(Milestone), Milestone, value(Milestone)), Step(due(TaskDate), TaskDate, value(TaskDate)),
           Step(due(Project), Project, value(Project)), Step(due(ProjectDate), ProjectDate, value(ProjectDate)),
           Step(due(Author), Author, value(Author))])
  }

  /** The assignments carried out one after another. */
  lemma AssembleNested(due: Key -> bool, value: Key -> Property)
    ensures Assemble(due, value) ==
      var p := map[Id := value(Id), Description := value(Description)];
      var p := WriteIf(p, due(Link), Link, value(Link));
      var p := WriteIf(p, due(Assignee), Assignee, value(Assignee));
      var p := WriteIf(p, due(Milestone), Milestone, value(Milestone));
      var p := WriteIf(p, due(TaskDate), TaskDate, value(TaskDate));
      var p := WriteIf(p, due(Project), Project, value(Project));
      var p := WriteIf(p, due(ProjectDate), ProjectDate, value(ProjectDate));
      WriteIf(p, due(Author), Author, value(Author))
  {
    var s1, s2, s3, s4 := Step(due(Link), Link, value(Link)), Step(due(Assignee), Assignee, value(Assignee)),
                          Step(due(Milestone), Milestone, value(Milestone)), Step(due(TaskDate), TaskDate, value(TaskDate));
    var s5, s6, s7 := Step(due(Project), Project, value(Project)), Step(due(ProjectDate), ProjectDate, value(ProjectDate)),
                      Step(due(Author), Author, value(Author));
    var p0 := map[Id := value(Id), Description := value(Description)];
    var p1 := WriteIf(p0, due(Link), Link, value(Link));
    var p2 := WriteIf(p1, due(Assignee), Assignee, value(Assignee));
    var p3 := WriteIf(p2, due(Milestone), Milestone, value(Milestone));
    var p4 := WriteIf(p3, due(TaskDate), TaskDate, value(TaskDate));
    var p5 := WriteIf(p4, due(Project), Project, value(Project));
    var p6 := WriteIf(p5, due(ProjectDate), ProjectDate, value(ProjectDate));
    var p7 := WriteIf(p6, due(Author), Author, value(Author));
    assert Apply(p6, [s7]) == p7 by { assert [s7][1..] == []; }
    assert Apply(p5, [s6, s7]) == p7 by { assert [s6, s7][1..] == [s7]; }
    assert Apply(p4, [s5, s6, s7]) == p7 by { assert [s5, s6, s7][1..] == [s6, s7]; }
    assert Apply(p3, [s4, s5, s6, s7]) == p7 by { assert [s4, s5, s6, s7][1..] == [s5, s6, s7]; }
    assert Apply(p2, [s3, s4, s5, s6, s7]) == p7 by { assert [s3, s4, s5, s6, s7][1..] == [s4, s5, s6, s7]; }
    assert Apply(p1, [s2, s3, s4, s5, s6, s7]) == p7 by { assert [s2, s3, s4, s5, s6, s7][1..] == [s3, s4, s5, s6, s7]; }
    assert [s1, s2, s3, s4, s5, s6, s7][1..] == [s2, s3, s4, s5, s6, s7];
  }

  /** Every key of the assembled object is one of `PatchKeys`; the title and
      the description are always there, every other key exactly when it is
      due, and each holds its value. */
  lemma AssembleEntry(due: Key -> bool, value: Key -> Property, key: Key)
    ensures var p := Assemble(due, value);
      && (key in p <==> key in PatchKeys && (key == Id || key == Description || due(key)))
      && (key in p ==> p[key] == value(key))
  {
    var base := map[Id := value(Id), Description := value(Description)];
    var steps := [Step(due(Link), Link, value(Link)), Step(due(Assignee), Assignee, value(Assignee)),
           Step(due(Milestone), Milestone, value(Milestone)), Step(due(TaskDate), TaskDate, value(TaskDate)),
           Step(due(Project), Project, value(Project)), Step(due(ProjectDate), ProjectDate, value(ProjectDate)),
           Step(due(Author), Author, value(Author))];
    match key
    case Id | Description | Done => ApplyOther(base, steps, key);
    case Link => ApplyOwn(base, steps, 0);
    case Assignee => ApplyOwn(base, steps, 1);
    case Milestone => ApplyOwn(base, steps, 2);
    case TaskDate => ApplyOwn(base, steps, 3);
    case Project => ApplyOwn(base, steps, 4);
    case ProjectDate => ApplyOwn(base, steps, 5);
    case Author => ApplyOwn(base, steps, 6);
  }

  /** The properties the builder assembles for `item` against `current`. */
  function Patch(item: Task, isNew: bool, current: Snapshot, normalize: Arg -> string): Properties
  {
    Assemble(key => Written(key, item, isNew, current, normalize), key => ValueFor(key, item, normalize))
  }

  /** What `createProperties` does: it returns a property object or throws. */
  datatype Built = Props(props: Properties) | Thrown

  /** The outcome of `createProperties(item, isNew, current)`: it throws when
      the description cannot be mapped, and returns the patch otherwise. */
  function Build(item: Task, isNew: bool, current: Snapshot, normalize: Arg -> string): Built
  {
    if Throws(item, normalize) then Thrown else Props(Patch(item, isNew, current, normalize))
  }

  /** The patch is the source's sequence of conditional assignments, each
      with the mapper call the source makes. */
  lemma PatchUnrolled(item: Task, isNew: bool, current: Snapshot, normalize: Arg -> string)
    ensures Patch(item, isNew, current, normalize) ==
      var p := map[Id := Field(TitleKind, Some(item.id), normalize),
                   Description := ValueFor(Description, item, normalize)];
      var p := WriteIf(p, isNew, Link, PropertyByType(UrlKind, item.link, normalize).prop);
      var p := WriteIf(p, Differs(item.userId, current.userId), Assignee, Field(PeopleKind, item.userId, normalize));
      var p := WriteIf(p, Differs(item.mark, current.mark), Milestone, Field(SelectKind, item.mark, normalize));
      var p := WriteIf(p, DateDiffers(item.taskDate, current.taskDate, normalize), TaskDate,
                       Field(DateKind, item.taskDate, normalize));
      var p := WriteIf(p, Differs(item.projectName, current.projectName), Project,
                       Field(SelectKind, item.projectName, normalize, ProjectTextLength));
      var p := WriteIf(p, DateDiffers(item.projectDate, current.projectDate, normalize), ProjectDate,
                       Field(DateKind, item.projectDate, normalize));
      WriteIf(p, Differs(item.author, current.author), Author, Field(SelectKind, item.author, normalize))
  {
    AssembleNested(key => Written(key, item, isNew, current, normalize), key => ValueFor(key, item, normalize));
  }

  /** One `if (item.f && item.f !== currentTask.f)` step of the builder:
      writes `key` when the desired value is set and differs from the current one. */
  method PutIfChanged(properties: Properties, key: Key, kind: Kind, want: Option<string>, have: Option<string>,
                      normalize: Arg -> string, textLength: nat := DefaultTextLength)
    returns (after: Properties)
    ensures after == WriteIf(properties, Differs(want, have), key, Field(kind, want, normalize, textLength))
  {
    after := properties;
    if Truthy(want) && want != have {
      var property := PropertyByType(kind, Text(want.value), normalize, textLength);
      after := after[key := property.prop];
    }
  }

  /** One date step of the builder: writes `key` when both dates are set and
      `new Date(...).toISOString()` tells them apart. */
  method PutIfDateChanged(properties: Properties, key: Key, want: Option<string>, have: Option<string>,
                          normalize: Arg -> string)
    returns (after: Properties)
    ensures after == WriteIf(properties, DateDiffers(want, have, normalize), key, Field(DateKind, want, normalize))
  {
    after := properties;
    if Truthy(want) && Truthy(have) && normalize(Text(want.value)) != normalize(Text(have.value)) {
      var date := PropertyByType(DateKind, Text(want.value), normalize);
      after := after[key := date.prop];
    }
  }

  /** `createProperties(item, isNew, currentTask)`; a new task is compared
      against `NoSnapshot`, the source's default `{}`. It throws when the
      description is mapped; otherwise it returns the sparse patch. */
  method CreateProperties(item: Task, isNew: bool, current: Snapshot, normalize: Arg -> string)
    returns (result: Built)
    ensures result == Build(item, isNew, current, normalize)
    ensures result.Thrown? <==> item.description.Null? || item.description.Flag?
    ensures result.Props? ==>
      forall key :: key in result.props <==> key in PatchKeys && Written(key, item, isNew, current, normalize)
    ensures result.Props? ==>
      forall key :: key in result.props ==> result.props[key] == ValueFor(key, item, normalize)
  {
    var id := PropertyByType(TitleKind, Text(item.id), normalize);
    var description := PropertyByType(RichTextKind, item.description, normalize);
    if description.TypeError? {
      return Thrown;
    }
    var properties := map[Id := id.prop, Description := description.prop];
    if isNew {
      var link := PropertyByType(UrlKind, item.link, normalize);
      properties := properties[Link := link.prop];
    }
    properties := PutIfChanged(properties, Assignee, PeopleKind, item.userId, current.userId, normalize);
    properties := PutIfChanged(properties, Milestone, SelectKind, item.mark, current.mark, normalize);
    properties := PutIfDateChanged(properties, TaskDate, item.taskDate, current.taskDate, normalize);
    properties := PutIfChanged(properties, Project, SelectKind, item.projectName, current.projectName,
                               normalize, ProjectTextLength);
    properties := PutIfDateChanged(properties, ProjectDate, item.projectDate, current.projectDate, normalize);
    properties := PutIfChanged(properties, Author, SelectKind, item.author, current.author, normalize);
    PatchUnrolled(item, isNew, current, normalize);
    PatchByKey(item, isNew, current, normalize);
    result := Props(properties);
  }

  /** What the mapper makes of each value the builder writes: the title
      whole, the description, milestone and author cut to 2000 characters,
      the project name to 100, the dates normalised, the link and the person
      id passed through, with a left-out field read as `''`. A `null` or
      boolean description throws; a `null` link is sent as `url: null`. */
  lemma TableValues(item: Task, normalize: Arg -> string)
    ensures Throws(item, normalize) <==> item.description.Null? || item.description.Flag?
    ensures ValueFor(Id, item, normalize) == Title(Text(item.id))
    ensures !Throws(item, normalize) ==>
              ValueFor(Description, item, normalize) ==
              RichText(Slice(if item.description.Text? then item.description.s else "", DefaultTextLength))
    ensures ValueFor(Link, item, normalize) == Url(if item.link.Missing? then Text("") else item.link)
    ensures item.userId.Some? ==> ValueFor(Assignee, item, normalize) == People(Text(item.userId.value))
    ensures item.mark.Some? ==> ValueFor(Milestone, item, normalize) == Select(Slice(item.mark.value, DefaultTextLength))
    ensures item.taskDate.Some? ==> ValueFor(TaskDate, item, normalize) == Date(normalize(Text(item.taskDate.value)))
    ensures item.projectName.Some? ==>
            ValueFor(Project, item, normalize) == Select(Slice(item.projectName.value, ProjectTextLength))
    ensures item.projectDate.Some? ==>
            ValueFor(ProjectDate, item, normalize) == Date(normalize(Text(item.projectDate.value)))
    ensures item.author.Some? ==> ValueFor(Author, item, normalize) == Select(Slice(item.author.value, DefaultTextLength))
    ensures ValueFor(Done, item, normalize) == Checkbox(Flag(true))
  {
  }

  /** The patch agrees with the key table for one key: the key is there
      exactly when it is one of `PatchKeys` and is written, and then holds
      the value `ValueFor` gives. */
  lemma PatchEntry(key: Key, item: Task, isNew: bool, current: Snapshot, normalize: Arg -> string)
    ensures var p := Patch(item, isNew, current, normalize);
      && (key in p <==> key in PatchKeys && Written(key, item, isNew, current, normalize))
      && (key in p ==> p[key] == ValueFor(key, item, normalize))
  {
    AssembleEntry(k => Written(k, item, isNew, current, normalize), k => ValueFor(k, item, normalize), key);
  }

  /** The patch agrees with the key table on every key. */
  lemma PatchByKey(item: Task, isNew: bool, current: Snapshot, normalize: Arg -> string)
    ensures var p := Patch(item, isNew, current, normalize);
      forall key :: (key in p <==> key in PatchKeys && Written(key, item, isNew, current, normalize))
                    && (key in p ==> p[key] == ValueFor(key, item, normalize))
  {
    forall key
      ensures var p := Patch(item, isNew, current, normalize);
        && (key in p <==> key in PatchKeys && Written(key, item, isNew, current, normalize))
        && (key in p ==> p[key] == ValueFor(key, item, normalize))
    {
      PatchEntry(key, item, isNew, current, normalize);
    }
  }

  /** A new page never gets a date: the empty current record has none. */
  lemma NewTaskHasNoDates(item: Task, normalize: Arg -> string)
    ensures Patch(item, true, NoSnapshot, normalize).Keys !! DateKeys
  {
    PatchEntry(TaskDate, item, true, NoSnapshot, normalize);
    PatchEntry(ProjectDate, item, true, NoSnapshot, normalize);
  }

  /** A desired task that agrees with its snapshot on every compared field
      yields an update holding only the title and the description. */
  lemma UnchangedTaskPatch(item: Task, current: Snapshot, normalize: Arg -> string)
    requires item.userId == current.userId && item.mark == current.mark
    requires item.taskDate == current.taskDate && item.projectDate == current.projectDate
    requires item.projectName == current.projectName && item.author == current.author
    ensures Patch(item, false, current, normalize).Keys == {Id, Description}
  {
    PatchByKey(item, false, current, normalize);
  }
}
