/**
 * The template-to-widget builder of the TouchBar manager: a declarative list of item
 * templates becomes a list of widget slots, one per template, where a template of an
 * unrecognised `type` leaves an empty (`null`) slot. Groups are built recursively from
 * their own `items`.
 */
module TouchBarBuild {
  import opened Wrappers

  // The `type` strings the builder recognises.
  const ButtonType := "button"
  const LabelType := "label"
  const SpacerType := "spacer"
  const GroupType := "group"

  /** A template record `{id, type, ...rest}`: `kind` is its `type`, `options` the rest. */
  datatype Template = Template(id: Option<string>, kind: string, options: Options)

  /** The fields of a template other than `id` and `type`; absent fields are `None`. */
  datatype Options = Options(
    labelText: Option<string>,
    icon: Option<string>,
    backgroundColor: Option<string>,
    textColor: Option<string>,
    size: Option<string>,
    command: Option<string>,
    items: ItemList)

  /** The optional `items` field; only a group reads it. */
  datatype ItemList = Absent | Present(templates: seq<Template>)

  /** A loaded icon image. */
  datatype Image = Image(bytes: seq<bv8>)

  /** What a button does when pressed: hand its options to the command dispatcher, or nothing. */
  datatype Click = NoOp | Dispatch(item: Options)

  /** The native widgets; a group holds its own list of widget slots. */
  datatype Widget =
    | Button(labelText: Option<string>, backgroundColor: Option<string>, icon: Option<Image>, click: Click)
    | Label(labelText: Option<string>, textColor: Option<string>)
    | Spacer(size: Option<string>)
    | Group(items: seq<Option<Widget>>)

  /** The errors a build can throw. */
  datatype BuildError =
    | IconUnavailable(path: string)   // the icon file could not be loaded
    | GroupItemsMissing               // a `group` template without `items` (the list walk throws)

  /**
   * The environment of a build: the root of the bundled static files and the image
   * loader, which maps a file path to an image or fails.
   */
  datatype Env = Env(staticRoot: string, loadImage: string -> Option<Image>)

  /**
   * The options `buildItem` receives: the template's rest fields, or for a group
   * only its already built children.
   */
  datatype ItemOptions = Plain(rest: Options) | Grouped(children: seq<Option<Widget>>)

  type Built = Result<seq<Option<Widget>>, BuildError>

  /** The type strings that yield a widget. */
  predicate IsKnownKind(kind: string) {
    kind == ButtonType || kind == LabelType || kind == SpacerType || kind == GroupType
  }

  /** JavaScript truthiness of an optional string field: present and not empty. */
  predicate Truthy(v: Option<string>) {
    v.Some? && v.value != ""
  }

  /** The click action of a button: dispatch its options when they carry a command. */
  function ClickFor(options: Options): (c: Click)
    ensures c.Dispatch? <==> Truthy(options.command)
    ensures c.Dispatch? ==> c.item == options
    ensures !Truthy(options.command) ==> c == NoOp
  {
    if Truthy(options.command) then Dispatch(options) else NoOp
  }

  /** The path of the icon named `name` under the static root: `<root>/icons/<name>.png`. */
  function IconPath(root: string, name: string): (p: string)
    ensures |p| == |root| + |name| + 11
    ensures p[..|root|] == root
    ensures p[|root|..|root| + 7] == "/icons/"
    ensures p[|root| + 7..|p| - 4] == name
    ensures p[|p| - 4..] == ".png"
  {
    root + "/icons/" + name + ".png"
  }

  /**
   * Distinct icon names without a path separator never share a file. Names with a `/`
   * are outside this lemma: `path.join` normalises them, so `x` and `./x` meet.
   */
  lemma IconPathInjective(root: string, a: string, b: string)
    requires '/' !in a && '/' !in b
    requires IconPath(root, a) == IconPath(root, b)
    ensures a == b
  {
    var p := IconPath(root, a);
    assert a == p[|root| + 7..|p| - 4];
  }

  /** The image of an optional icon name: none when absent, else the loaded file or an error. */
  function IconImage(env: Env, icon: Option<string>): (r: Result<Option<Image>, BuildError>)
    ensures !Truthy(icon) ==> r == Ok(None)
    ensures r.Err? <==> Truthy(icon) && env.loadImage(IconPath(env.staticRoot, icon.value)).None?
    ensures r.Err? ==> r.error == IconUnavailable(IconPath(env.staticRoot, icon.value))
    ensures Truthy(icon) && r.Ok? ==> r.value == env.loadImage(IconPath(env.staticRoot, icon.value))
  {
    if !Truthy(icon) then Ok(None)
    else
      var path := IconPath(env.staticRoot, icon.value);
      match env.loadImage(path)
      case None => Err(IconUnavailable(path))
      case Some(img) => Ok(Some(img))
  }

  /** One widget from its type and options; an unrecognised type gives an empty slot. */
  function BuildItem(env: Env, kind: string, options: ItemOptions): (r: Result<Option<Widget>, BuildError>)
    requires options.Grouped? <==> kind == GroupType
    ensures !IsKnownKind(kind) ==> r == Ok(None)
    ensures r.Ok? && r.value.Some? ==> IsKnownKind(kind)
    ensures r.Err? ==> kind == ButtonType && IconImage(env, options.rest.icon).Err?
    ensures r.Err? ==> r.error == IconImage(env, options.rest.icon).error
    ensures kind == GroupType ==> r == Ok(Some(Group(options.children)))
    ensures kind == LabelType ==> r == Ok(Some(Label(options.rest.labelText, options.rest.textColor)))
    ensures kind == SpacerType ==> r == Ok(Some(Spacer(options.rest.size)))
    ensures kind == ButtonType && r.Ok? ==>
      r.value.Some? && r.value.value.Button? &&
      r.value.value.labelText == options.rest.labelText &&
      r.value.value.backgroundColor == options.rest.backgroundColor &&
      IconImage(env, options.rest.icon) == Ok(r.value.value.icon) &&
      r.value.value.click == ClickFor(options.rest)
  {
    if kind == ButtonType then
      match IconImage(env, options.rest.icon)
      case Err(e) => Err(e)
      case Ok(icon) =>
        Ok(Some(Button(options.rest.labelText, options.rest.backgroundColor, icon, ClickFor(options.rest))))
    else if kind == LabelType then
      Ok(Some(Label(options.rest.labelText, options.rest.textColor)))
    else if kind == SpacerType then
      Ok(Some(Spacer(options.rest.size)))
    else if kind == GroupType then
      Ok(Some(Group(options.children)))
    else
      Ok(None)
  }

  /**
   * One template entry: its `id` is dropped; a group first builds its own `items` and
   * is then built from those children alone.
   */
  function BuildEntry(env: Env, t: Template): (r: Result<Option<Widget>, BuildError>)
    ensures !IsKnownKind(t.kind) ==> r == Ok(None)
    ensures t.kind == GroupType && t.options.items.Absent? ==> r == Err(GroupItemsMissing)
    ensures r.Err? ==> t.kind == ButtonType || t.kind == GroupType
    decreases t
  {
    if t.kind == GroupType then
      match t.options.items
      case Absent => Err(GroupItemsMissing)
      case Present(items) =>
        match Build(env, items)
        case Err(e) => Err(e)
        case Ok(children) => BuildItem(env, t.kind, Grouped(children))
    else
      BuildItem(env, t.kind, Plain(t.options))
  }

  /**
   * A list of templates, walked in order; the first entry that throws aborts the walk
   * with its error. A successful build has exactly one slot per template.
   */
  function Build(env: Env, template: seq<Template>): (r: Built)
    ensures r.Ok? ==> |r.value| == |template|
    decreases template
  {
    if template == [] then Ok([])
    else
      match Build(env, template[..|template| - 1])
      case Err(e) => Err(e)
      case Ok(prefix) =>
        match BuildEntry(env, template[|template| - 1])
        case Err(e) => Err(e)
        case Ok(w) => Ok(prefix + [w])
  }

  /** The list walk of the source: push one built entry per template, in order. */
  method BuildTemplates(env: Env, template: seq<Template>) returns (r: Built)
    ensures r == Build(env, template)
    decreases template
  {
    var result: seq<Option<Widget>> := [];
    var i := 0;
    while i < |template|
      invariant 0 <= i <= |template|
      invariant Build(env, template[..i]) == Ok(result)
    {
      assert template[..i + 1][..i] == template[..i];
      var item := BuildTemplate(env, template[i]);
      if item.Err? {
        BuildKeepsError(env, template, i + 1);
        return Err(item.error);
      }
      result := result + [item.value];
      i := i + 1;
    }
    assert template[..i] == template;
    r := Ok(result);
  }

  /** The per-entry step of the list walk: drop `id`, build a group's `items` first, then the widget. */
  method BuildTemplate(env: Env, tpl: Template) returns (r: Result<Option<Widget>, BuildError>)
    ensures r == BuildEntry(env, tpl)
    decreases tpl
  {
    var options := Plain(tpl.options);
    if tpl.kind == GroupType {
      if tpl.options.items.Absent? {
        return Err(GroupItemsMissing);
      }
      var children := BuildTemplates(env, tpl.options.items.templates);
      if children.Err? {
        return Err(children.error);
      }
      options := Grouped(children.value);
    }
    r := BuildItem(env, tpl.kind, options);
  }

  /** Once a prefix of the list fails, the whole list fails with the same error. */
  lemma {:induction false} BuildKeepsError(env: Env, template: seq<Template>, k: nat)
    requires k <= |template|
    requires Build(env, template[..k]).Err?
    ensures Build(env, template) == Build(env, template[..k])
    decreases |template| - k
  {
    if k < |template| {
      var n := k + 1;
      assert template[..n][..k] == template[..k];
      BuildKeepsError(env, template, n);
    } else {
      assert template[..k] == template;
    }
  }

  /**
   * Build succeeds exactly when every entry builds, and then slot i holds the build of
   * template entry i: same length, same order, nothing filtered.
   */
  lemma {:induction false} BuildPointwise(env: Env, template: seq<Template>)
    ensures Build(env, template).Ok? <==>
      forall i :: 0 <= i < |template| ==> BuildEntry(env, template[i]).Ok?
    ensures Build(env, template).Ok? ==>
      |Build(env, template).value| == |template| &&
      forall i :: 0 <= i < |template| ==> BuildEntry(env, template[i]) == Ok(Build(env, template).value[i])
    decreases |template|
  {
    if template != [] {
      var n := |template| - 1;
      var prefix := template[..n];
      BuildPointwise(env, prefix);
      assert forall i :: 0 <= i < n ==> prefix[i] == template[i];
    }
  }

  /** A failed build reports the error of the first entry that fails. */
  lemma {:induction false} BuildFirstError(env: Env, template: seq<Template>)
    requires Build(env, template).Err?
    ensures exists k ::
      && 0 <= k < |template|
      && BuildEntry(env, template[k]) == Err(Build(env, template).error)
      && (forall j :: 0 <= j < k ==> BuildEntry(env, template[j]).Ok?)
    decreases |template|
  {
    var n := |template| - 1;
    var prefix := template[..n];
    assert forall i :: 0 <= i < n ==> prefix[i] == template[i];
    if Build(env, prefix).Err? {
      BuildFirstError(env, prefix);
      var k :| 0 <= k < n &&
        BuildEntry(env, prefix[k]) == Err(Build(env, prefix).error) &&
        (forall j :: 0 <= j < k ==> BuildEntry(env, prefix[j]).Ok?);
      assert BuildEntry(env, template[k]) == Err(Build(env, template).error);
    } else {
      BuildPointwise(env, prefix);
      assert BuildEntry(env, template[n]) == Err(Build(env, template).error);
    }
  }

  /** An unrecognised type leaves a `null` in its own slot; it is neither an error nor dropped. */
  lemma UnknownKindKeepsSlot(env: Env, template: seq<Template>, i: nat)
    requires i < |template| && !IsKnownKind(template[i].kind)
    requires Build(env, template).Ok?
    ensures |Build(env, template).value| == |template|
    ensures Build(env, template).value[i] == None
  {
    BuildPointwise(env, template);
  }

  /** An unrecognised type never makes a build fail. */
  lemma {:induction false} UnknownKindsNeverFail(env: Env, template: seq<Template>)
    requires forall i :: 0 <= i < |template| ==> !IsKnownKind(template[i].kind)
    ensures Build(env, template) == Ok(seq(|template|, i => None))
  {
    BuildPointwise(env, template);
    assert forall i :: 0 <= i < |template| ==> BuildEntry(env, template[i]) == Ok(None);
    assert Build(env, template).value == seq(|template|, i => None);
  }

  /**
   * A group's children are exactly the build of its own `items`; its label, colours and
   * command play no part.
   */
  lemma GroupChildren(env: Env, t: Template)
    requires t.kind == GroupType && t.options.items.Present?
    ensures Build(env, t.options.items.templates).Ok? ==>
      BuildEntry(env, t).Ok? && BuildEntry(env, t).value.Some? &&
      BuildEntry(env, t).value.value == Group(Build(env, t.options.items.templates).value)
    ensures Build(env, t.options.items.templates).Err? ==>
      BuildEntry(env, t) == Err(Build(env, t.options.items.templates).error)
  {
  }

  /** Two groups with the same `items` build the same widget, whatever their other fields. */
  lemma GroupIgnoresOtherFields(env: Env, t: Template, u: Template)
    requires t.kind == GroupType && u.kind == GroupType
    requires t.options.items == u.options.items
    ensures BuildEntry(env, t) == BuildEntry(env, u)
  {
  }

  /**
   * Two templates that differ at most in `id`s, at any depth: the same type and, for a
   * group, the same fields apart from `items`, whose entries again differ at most in `id`s.
   * Any other type keeps its options whole, since a button's click carries them as they are.
   */
  ghost predicate SameUpToIds(a: Template, b: Template)
    decreases a
  {
    && a.kind == b.kind
    && if a.kind == GroupType then
         && a.options.(items := Absent) == b.options.(items := Absent)
         && match a.options.items
            case Absent => b.options.items.Absent?
            case Present(xs) => b.options.items.Present? && SameListUpToIds(xs, b.options.items.templates)
       else
         a.options == b.options
  }

  /** Two template lists of one length whose entries pairwise differ at most in `id`s. */
  ghost predicate SameListUpToIds(xs: seq<Template>, ys: seq<Template>)
    decreases xs
  {
    && |xs| == |ys|
    && (xs != [] ==>
         && SameListUpToIds(xs[..|xs| - 1], ys[..|ys| - 1])
         && SameUpToIds(xs[|xs| - 1], ys[|ys| - 1]))
  }

  /** A template's `id`, and the `id`s of every template nested in it, have no effect on its build. */
  lemma {:induction false} EntryIdIrrelevant(env: Env, a: Template, b: Template)
    requires SameUpToIds(a, b)
    ensures BuildEntry(env, a) == BuildEntry(env, b)
    decreases a
  {
    if a.kind == GroupType && a.options.items.Present? {
      IdIrrelevant(env, a.options.items.templates, b.options.items.templates);
    }
  }

  /** Template lists that differ only in `id`s, at any depth, build the same widgets. */
  lemma {:induction false} IdIrrelevant(env: Env, a: seq<Template>, b: seq<Template>)
    requires SameListUpToIds(a, b)
    ensures Build(env, a) == Build(env, b)
    decreases a
  {
    if a != [] {
      var n := |a| - 1;
      IdIrrelevant(env, a[..n], b[..n]);
      EntryIdIrrelevant(env, a[n], b[n]);
    }
  }

  /** A button carrying a command dispatches its options when pressed; one without does nothing. */
  lemma ButtonClick(env: Env, t: Template)
    requires t.kind == ButtonType && BuildEntry(env, t).Ok?
    ensures BuildEntry(env, t).value.Some? && BuildEntry(env, t).value.value.Button?
    ensures BuildEntry(env, t).value.value.click ==
      (if Truthy(t.options.command) then Dispatch(t.options) else NoOp)
  {
  }

  /** A one-entry list builds to the one-slot list of that entry, or fails with its error. */
  lemma BuildSingle(env: Env, t: Template)
    ensures BuildEntry(env, t).Ok? ==> Build(env, [t]) == Ok([BuildEntry(env, t).value])
    ensures BuildEntry(env, t).Err? ==> Build(env, [t]) == Err(BuildEntry(env, t).error)
  {
    var s := [t];
    assert s[..|s| - 1] == [];
    assert Build(env, s[..|s| - 1]) == Ok([]);
    if BuildEntry(env, t).Ok? {
      var w := BuildEntry(env, t).value;
      assert Build(env, s) == Ok([] + [w]);
      assert [] + [w] == [w];
    }
  }

  /** The options of a template that sets none of its fields. */
  const NoOptions := Options(None, None, None, None, None, None, Absent)

  /** `[{id: "x", type: "button", label: "Go", command: "nav.go"}]` builds one "Go" button dispatching `nav.go`. */
  lemma ButtonScenario(env: Env)
    ensures
      var go := NoOptions.(labelText := Some("Go"), command := Some("nav.go"));
      Build(env, [Template(Some("x"), ButtonType, go)]) == Ok([Some(Button(Some("Go"), None, None, Dispatch(go)))])
  {
    BuildSingle(env, Template(Some("x"), ButtonType, NoOptions.(labelText := Some("Go"), command := Some("nav.go"))));
  }

  /** `[{type: "unknown-widget"}]` builds a one-slot list holding `null`. */
  lemma UnknownScenario(env: Env)
    ensures Build(env, [Template(None, "unknown-widget", NoOptions)]) == Ok([None])
  {
    BuildSingle(env, Template(None, "unknown-widget", NoOptions));
  }

  /** `[{type: "group", items: [{type: "spacer", size: "small"}]}]` builds one group holding one spacer. */
  lemma GroupScenario(env: Env)
    ensures
      var spacer := Template(None, SpacerType, NoOptions.(size := Some("small")));
      Build(env, [Template(None, GroupType, NoOptions.(items := Present([spacer])))]) ==
        Ok([Some(Group([Some(Spacer(Some("small")))]))])
  {
    var spacer := Template(None, SpacerType, NoOptions.(size := Some("small")));
    BuildSingle(env, spacer);
    BuildSingle(env, Template(None, GroupType, NoOptions.(items := Present([spacer]))));
  }
}
