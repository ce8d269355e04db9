/** The portfolio resource's data: the JSON object the server returns, the nine attributes the
    resource keeps in its state, the two enumerated attributes and their validators, and a value
    snapshot of the resource data the reconciler reads and writes. */
module PortfolioSchema {

  /** The JSON object returned by api/views/create and api/views/show (the Go struct Portfolio).
      The description travels under the JSON name "desc". */
  datatype Portfolio = Portfolio(
    key: string,
    name: string,
    desc: string,
    qualifier: string,
    visibility: string,
    selectionMode: string,
    branch: string,
    tags: seq<string>,
    regexp: string)

  /** The nine attributes of the resource schema, as the resource data holds them. */
  datatype Attributes = Attributes(
    key: string,
    name: string,
    description: string,
    qualifier: string,
    visibility: string,
    selectionMode: string,
    branch: string,
    tags: seq<string>,
    regexp: string)

  /** The state before anything is stored: every attribute at its zero value. */
  const BLANK := Attributes("", "", "", "", "", "", "", [], "")

  /** The attribute names of the schema. */
  datatype Field =
    | KeyField | NameField | DescriptionField | QualifierField | VisibilityField
    | SelectionModeField | BranchField | TagsField | RegexpField

  /** An attribute value: every attribute is a string, except tags, a list of strings. */
  datatype Value = Text(text: string) | List(items: seq<string>)

  /** Whether `v` has the type the schema declares for `f`. */
  predicate Fits(f: Field, v: Value)
  {
    if f == TagsField then v.List? else v.Text?
  }

  function Lookup(a: Attributes, f: Field): (v: Value)
    ensures Fits(f, v)
  {
    match f
    case KeyField => Text(a.key)
    case NameField => Text(a.name)
    case DescriptionField => Text(a.description)
    case QualifierField => Text(a.qualifier)
    case VisibilityField => Text(a.visibility)
    case SelectionModeField => Text(a.selectionMode)
    case BranchField => Text(a.branch)
    case TagsField => List(a.tags)
    case RegexpField => Text(a.regexp)
  }

  /** What d.Set does to the attributes: it stores `v` under `f`; a value of the wrong type is
      refused and leaves everything as it was. */
  function Put(a: Attributes, f: Field, v: Value): (r: Attributes)
    ensures Lookup(r, f) == (if Fits(f, v) then v else Lookup(a, f))
    ensures forall g :: g != f ==> Lookup(r, g) == Lookup(a, g)
  {
    if !Fits(f, v) then a
    else match f
      case KeyField => a.(key := v.text)
      case NameField => a.(name := v.text)
      case DescriptionField => a.(description := v.text)
      case QualifierField => a.(qualifier := v.text)
      case VisibilityField => a.(visibility := v.text)
      case SelectionModeField => a.(selectionMode := v.text)
      case BranchField => a.(branch := v.text)
      case TagsField => a.(tags := v.items)
      case RegexpField => a.(regexp := v.text)
  }

  /** A snapshot of the resource data: its id, the state stored before the operation (`prior`)
      and the values the operation reads (`config`). */
  datatype Data = Data(id: string, prior: Attributes, config: Attributes)

  /** d.HasChange: the value of `f` differs between the stored state and the one being applied. */
  predicate HasChange(d: Data, f: Field)
  {
    Lookup(d.prior, f) != Lookup(d.config, f)
  }

  /** How Read stores a response: field by field, "desc" into description. */
  function FromResponse(p: Portfolio): Attributes
  {
    Attributes(p.key, p.name, p.desc, p.qualifier, p.visibility, p.selectionMode, p.branch, p.tags, p.regexp)
  }

  /** The accepted values of the visibility attribute. */
  datatype Visibility = Public | Private {
    function Name(): string
    {
      match this
      case Public => "public"
      case Private => "private"
    }
  }

  /** The accepted values of the selection_mode attribute. */
  datatype SelectionMode = NoneMode | ManualMode | TagsMode | RegexpMode | RestMode {
    function Name(): string
    {
      match this
      case NoneMode => "NONE"
      case ManualMode => "MANUAL"
      case TagsMode => "TAGS"
      case RegexpMode => "REGEXP"
      case RestMode => "REST"
    }
  }

  /** A validation error: the attribute key, the value given and the values accepted. */
  datatype Rejection = Rejection(key: string, got: string, accepted: seq<string>)

  /** What a schema validator returns: warnings and errors. */
  datatype Diagnostics = Diagnostics(warnings: seq<string>, errors: seq<Rejection>)

  const VISIBILITY_OPTIONS: seq<string> := ["public", "private"]
  const SELECTION_MODE_OPTIONS: seq<string> := ["NONE", "MANUAL", "TAGS", "REGEXP", "REST"]

  /** The validator of the visibility attribute. */
  function ValidateVisibility(val: string, key: string): (r: Diagnostics)
    ensures r.warnings == []
    ensures r.errors == [] <==> exists v: Visibility :: v.Name() == val
    ensures r.errors != [] ==> r.errors == [Rejection(key, val, ["public", "private"])]
  {
    assert val == "public" ==> Public.Name() == val;
    assert val == "private" ==> Private.Name() == val;
    if val in VISIBILITY_OPTIONS then Diagnostics([], [])
    else Diagnostics([], [Rejection(key, val, VISIBILITY_OPTIONS)])
  }

  /** The validator of the selection_mode attribute. */
  function ValidateSelectionMode(val: string, key: string): (r: Diagnostics)
    ensures r.warnings == []
    ensures r.errors == [] <==> exists m: SelectionMode :: m.Name() == val
    ensures r.errors != [] ==> r.errors == [Rejection(key, val, ["NONE", "MANUAL", "TAGS", "REGEXP", "REST"])]
  {
    assert val == "NONE" ==> NoneMode.Name() == val;
    assert val == "MANUAL" ==> ManualMode.Name() == val;
    assert val == "TAGS" ==> TagsMode.Name() == val;
    assert val == "REGEXP" ==> RegexpMode.Name() == val;
    assert val == "REST" ==> RestMode.Name() == val;
    if val in SELECTION_MODE_OPTIONS then Diagnostics([], [])
    else Diagnostics([], [Rejection(key, val, SELECTION_MODE_OPTIONS)])
  }
}
