/** The property mapper: `createPropertyByType` turns a type tag and a value
    into the typed property shape the remote store expects. */
module PropertyMapper {
  import opened JsValues

  /** The default `textLength` of the mapper. */
  const DefaultTextLength: nat := 2000

  /** The type tags the mapper knows. */
  const Kinds: set<string> := {"select", "rich_text", "title", "date", "checkbox", "people", "url"}

  /** The cases of the mapper's `switch (type)`; every other tag falls to `default`. */
  datatype Kind = SelectKind | RichTextKind | TitleKind | DateKind | CheckboxKind | PeopleKind | UrlKind | UnknownKind

  /** The case a type tag selects. */
  function KindOf(tag: string): (k: Kind)
    ensures k.UnknownKind? <==> tag !in Kinds
  {
    if tag == "select" then SelectKind
    else if tag == "rich_text" then RichTextKind
    else if tag == "title" then TitleKind
    else if tag == "date" then DateKind
    else if tag == "checkbox" then CheckboxKind
    else if tag == "people" then PeopleKind
    else if tag == "url" then UrlKind
    else UnknownKind
  }

  /** A typed property value as written to the remote store. `Empty` is the
      empty record `{}` returned for an unknown tag. */
  datatype Property =
    | Select(name: string)          // {select: {name}}
    | RichText(content: string)     // {rich_text: [{text: {content}}]}
    | Title(text: Arg)              // {title: [{text: {content}}]}
    | Date(start: string)           // {date: {start}}
    | Checkbox(checked: Arg)        // {checkbox}
    | People(id: Arg)               // {people: [{object: 'user', id}]}
    | Url(url: Arg)                 // {url}
    | Empty                         // {}

  /** The mapper either returns a property or throws a TypeError, which it
      does when `slice` is called on a value that is not a string (`null` or
      a boolean). */
  datatype Mapped = Ok(prop: Property) | TypeError

  /** The value after the default `value = ''` is applied. */
  function WithDefault(value: Arg): (a: Arg)
    ensures !a.Missing?
    ensures value.Missing? ==> a == Text("")
    ensures !value.Missing? ==> a == value
  {
    if value.Missing? then Text("") else value
  }

  /** `createPropertyByType(type, value, textLength)` for the case `kind`
      selects. `normalize(v)` stands for `new Date(v).toISOString()`, which
      the model leaves uninterpreted. */
  function PropertyByType(kind: Kind, value: Arg, normalize: Arg -> string,
                          textLength: nat := DefaultTextLength): (r: Mapped)
    // the only failure: slicing `null` or a boolean (the default replaces only `undefined`)
    ensures r.TypeError? <==> (kind == SelectKind || kind == RichTextKind) && (value.Null? || value.Flag?)
    // select and rich_text hold the value truncated to textLength
    ensures kind == SelectKind && !value.Null? && !value.Flag? ==>
      r.Ok? && r.prop.Select? && r.prop.name <= WithDefault(value).s &&
      |r.prop.name| == if |WithDefault(value).s| < textLength then |WithDefault(value).s| else textLength
    ensures kind == RichTextKind && !value.Null? && !value.Flag? ==>
      r.Ok? && r.prop.RichText? && r.prop.content <= WithDefault(value).s &&
      |r.prop.content| == if |WithDefault(value).s| < textLength then |WithDefault(value).s| else textLength
    // title, checkbox, people and url pass the (defaulted) value through, `null` included
    ensures kind == TitleKind ==> r == Ok(Title(WithDefault(value)))
    ensures kind == CheckboxKind ==> r == Ok(Checkbox(WithDefault(value)))
    ensures kind == PeopleKind ==> r == Ok(People(WithDefault(value)))
    ensures kind == UrlKind ==> r == Ok(Url(WithDefault(value)))
    ensures kind == DateKind ==> r == Ok(Date(normalize(WithDefault(value))))
    // an unknown tag yields the empty record
    ensures kind == UnknownKind ==> r == Ok(Empty)
  {
    var v := WithDefault(value);
    match kind
    case SelectKind => if v.Text? then Ok(Select(Slice(v.s, textLength))) else TypeError
    case RichTextKind => if v.Text? then Ok(RichText(Slice(v.s, textLength))) else TypeError
    case TitleKind => Ok(Title(v))
    case DateKind => Ok(Date(normalize(v)))
    case CheckboxKind => Ok(Checkbox(v))
    case PeopleKind => Ok(People(v))
    case UrlKind => Ok(Url(v))
    case UnknownKind => Ok(Empty)
  }

  /** Any tag outside the known ones maps, for any value, to the empty record. */
  lemma UnknownTagEmpty(tag: string, value: Arg, normalize: Arg -> string, textLength: nat)
    requires tag !in Kinds
    ensures PropertyByType(KindOf(tag), value, normalize, textLength) == Ok(Empty)
  {
  }

  /** A string value no longer than `textLength` reaches the store whole. */
  lemma ShortTextKept(kind: Kind, s: string, normalize: Arg -> string, textLength: nat)
    requires kind == SelectKind || kind == RichTextKind
    requires |s| <= textLength
    ensures PropertyByType(kind, Text(s), normalize, textLength) ==
            Ok(if kind == SelectKind then Select(s) else RichText(s))
  {
  }

  /** A longer one is cut to exactly its first `textLength` characters. */
  lemma LongTextCut(kind: Kind, s: string, normalize: Arg -> string, textLength: nat)
    requires kind == SelectKind || kind == RichTextKind
    requires textLength < |s|
    ensures PropertyByType(kind, Text(s), normalize, textLength) ==
            Ok(if kind == SelectKind then Select(s[..textLength]) else RichText(s[..textLength]))
  {
  }
}
