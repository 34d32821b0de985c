/** The records the reconciler compares: a desired task from the local list,
    the snapshot of a remote page, a user, and the remote page itself with
    the flattening of its typed properties into a snapshot. */
module Snapshots {
  import opened JsValues

  /** A desired task as read from the local list. `description` and `link`,
      which the builder hands to the mapper whatever they hold, keep their
      JSON value (left out, `null`, a string or a boolean); every other
      optional field is read only when it is a non-empty string, and a field
      left out of the list or `null` is `None` there. `userId` may come with
      the list and is overwritten when `user` resolves to a known user. */
  datatype Task = Task(
    id: string,
    description: Arg,
    link: Arg,
    user: Option<string>,
    userId: Option<string>,
    mark: Option<string>,
    taskDate: Option<string>,
    projectName: Option<string>,
    projectDate: Option<string>,
    author: Option<string>)

  /** The flattened view of one remote page; an unset optional property is `None`. */
  datatype Snapshot = Snapshot(
    pageId: string,
    id: string,
    link: Option<string>,
    userId: Option<string>,
    mark: Option<string>,
    taskDate: Option<string>,
    projectName: Option<string>,
    projectDate: Option<string>,
    author: Option<string>)

  /** A row of the user table: display name `fio` and person id. */
  datatype User = User(fio: string, id: string)

  /** The empty object `{}` that the patch builder compares against when it
      builds the properties of a new page: every optional field is unset. */
  const NoSnapshot := Snapshot("", "", None, None, None, None, None, None, None)

  /** The value of one typed property of a remote page, as the store returns it. */
  datatype PageValue =
    | TitleValue(fragments: seq<string>)  // plain_text of each title fragment
    | UrlValue(url: Option<string>)
    | PeopleValue(people: seq<string>)    // ids of the persons
    | SelectValue(choice: Option<string>) // name of the chosen option; None is `select: null`
    | DateValue(start: Option<string>)    // None is `date: null`

  /** A remote page: its id and its properties by name. */
  datatype Page = Page(id: string, properties: map<string, PageValue>)

  /** Flattening fails with a TypeError where the source reads a field of
      `undefined` or `null`. */
  datatype Flattened<T> = Flat(value: T) | FlattenError

  /** Property names read from a page. */
  const IdKey := "ID"
  const LinkKey := "Ссылка"
  const AssigneeKey := "Исполнитель"
  const MilestoneKey := "Веха"
  const TaskDateKey := "Срок задачи"
  const ProjectKey := "Проект"
  const ProjectDateKey := "Срок проекта"
  const AuthorKey := "Автор"

  /** `fragments.join('')`. */
  function Join(fragments: seq<string>): string
  {
    if fragments == [] then "" else fragments[0] + Join(fragments[1..])
  }

  /** Joining distributes over concatenation of the fragment lists. */
  lemma {:induction false} JoinAppend(a: seq<string>, b: seq<string>)
    ensures Join(a + b) == Join(a) + Join(b)
  {
    if a == [] {
      assert a + b == b;
    } else {
      assert (a + b)[1..] == a[1..] + b;
      JoinAppend(a[1..], b);
    }
  }

  /** `props[key] ? props[key].select.name : null`, and the same for a date's `start`. */
  function OptionalChoice(props: map<string, PageValue>, key: string): (r: Flattened<Option<string>>)
    ensures key !in props ==> r == Flat(None)
    ensures key in props && props[key].SelectValue? && props[key].choice.Some? ==> r == Flat(props[key].choice)
    ensures key in props && !(props[key].SelectValue? && props[key].choice.Some?) ==> r.FlattenError?
  {
    if key !in props then Flat(None)
    else match props[key]
      case SelectValue(Some(name)) => Flat(Some(name))
      case _ => FlattenError
  }

  function OptionalDate(props: map<string, PageValue>, key: string): (r: Flattened<Option<string>>)
    ensures key !in props ==> r == Flat(None)
    ensures key in props && props[key].DateValue? && props[key].start.Some? ==> r == Flat(props[key].start)
    ensures key in props && !(props[key].DateValue? && props[key].start.Some?) ==> r.FlattenError?
  {
    if key !in props then Flat(None)
    else match props[key]
      case DateValue(Some(start)) => Flat(Some(start))
      case _ => FlattenError
  }

  /** `props[key] && props[key].people.length ? props[key].people[0].id : null`. */
  function FirstPerson(props: map<string, PageValue>, key: string): (r: Flattened<Option<string>>)
    ensures key !in props ==> r == Flat(None)
    ensures key in props && props[key].PeopleValue? ==>
      r == Flat(if props[key].people == [] then None else Some(props[key].people[0]))
    ensures key in props && !props[key].PeopleValue? ==> r.FlattenError?
  {
    if key !in props then Flat(None)
    else match props[key]
      case PeopleValue(people) => Flat(if people == [] then None else Some(people[0]))
      case _ => FlattenError
  }

  /** The snapshot of one page (the `pages.map(...)` callback). */
  function Flatten(page: Page): (r: Flattened<Snapshot>)
  {
    var props := page.properties;
    if IdKey !in props || !props[IdKey].TitleValue? || LinkKey !in props then FlattenError
    else
      var link := if props[LinkKey].UrlValue? then props[LinkKey].url else None;
      var user := FirstPerson(props, AssigneeKey);
      var mark := OptionalChoice(props, MilestoneKey);
      var taskDate := OptionalDate(props, TaskDateKey);
      var projectName := OptionalChoice(props, ProjectKey);
      var projectDate := OptionalDate(props, ProjectDateKey);
      var author := OptionalChoice(props, AuthorKey);
      if user.FlattenError? || mark.FlattenError? || taskDate.FlattenError? || projectName.FlattenError?
         || projectDate.FlattenError? || author.FlattenError?
      then FlattenError
      else Flat(Snapshot(page.id, Join(props[IdKey].fragments), link, user.value, mark.value,
                         taskDate.value, projectName.value, projectDate.value, author.value))
  }

  /** A page flattens exactly when its title and link are there and every
      optional property it has holds a value of the expected kind; then its
      snapshot carries the page id, the joined title, the link, the first
      person and the optional choices and dates, with `None` for each
      property the page lacks. */
  lemma FlattenSpec(page: Page)
    ensures Flatten(page).Flat? <==>
      var props := page.properties;
      && IdKey in props && props[IdKey].TitleValue? && LinkKey in props
      && (AssigneeKey in props ==> props[AssigneeKey].PeopleValue?)
      && (MilestoneKey in props ==> props[MilestoneKey].SelectValue? && props[MilestoneKey].choice.Some?)
      && (ProjectKey in props ==> props[ProjectKey].SelectValue? && props[ProjectKey].choice.Some?)
      && (AuthorKey in props ==> props[AuthorKey].SelectValue? && props[AuthorKey].choice.Some?)
      && (TaskDateKey in props ==> props[TaskDateKey].DateValue? && props[TaskDateKey].start.Some?)
      && (ProjectDateKey in props ==> props[ProjectDateKey].DateValue? && props[ProjectDateKey].start.Some?)
    ensures Flatten(page).Flat? ==>
      var props := page.properties;
      var s := Flatten(page).value;
      && s.pageId == page.id
      && s.id == Join(props[IdKey].fragments)
      && (s.userId.Some? <==> AssigneeKey in props && props[AssigneeKey].people != [])
      && (s.userId.Some? ==> s.userId.value == props[AssigneeKey].people[0])
      && (s.mark.None? <==> MilestoneKey !in props)
      && (s.taskDate.None? <==> TaskDateKey !in props)
      && (s.projectName.None? <==> ProjectKey !in props)
      && (s.projectDate.None? <==> ProjectDateKey !in props)
      && (s.author.None? <==> AuthorKey !in props)
      && s.link == (if props[LinkKey].UrlValue? then props[LinkKey].url else None)
      && (MilestoneKey in props ==> s.mark == props[MilestoneKey].choice)
      && (ProjectKey in props ==> s.projectName == props[ProjectKey].choice)
      && (AuthorKey in props ==> s.author == props[AuthorKey].choice)
      && (TaskDateKey in props ==> s.taskDate == props[TaskDateKey].start)
      && (ProjectDateKey in props ==> s.projectDate == props[ProjectDateKey].start)
  {
  }

  /** The fetch maps every page; one page that fails to flatten fails the whole fetch. */
  function FlattenPages(pages: seq<Page>): (r: Flattened<seq<Snapshot>>)
    ensures r.Flat? <==> forall i :: 0 <= i < |pages| ==> Flatten(pages[i]).Flat?
    ensures r.Flat? ==> |r.value| == |pages|
    ensures r.Flat? ==> forall i :: 0 <= i < |pages| ==> r.value[i] == Flatten(pages[i]).value
  {
    if pages == [] then Flat([])
    else
      var head := Flatten(pages[0]);
      var tail := FlattenPages(pages[1..]);
      if head.FlattenError? || tail.FlattenError? then
        assert head.FlattenError? ==> !Flatten(pages[0]).Flat?;
        FlattenError
      else
        assert forall i :: 1 <= i < |pages| ==> pages[i] == pages[1..][i - 1];
        Flat([head.value] + tail.value)
  }
}
