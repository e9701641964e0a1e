# TouchBar manager: a Dafny model

This project models the TouchBar manager of the desktop client, `src/main/ui/TouchBarManager.js`.
The manager turns a declarative TouchBar template into native TouchBar widgets. It caches one
built bar per page and attaches a page's bar to a window.

- `wrappers.dfy`: module `Wrappers` holds `Option` (a field or slot that may be `undefined`/`null`)
  and `Result` (a value, or the error a call throws).
- `touchbar_build.dfy`: module `TouchBarBuild` holds the template and widget datatypes and the builder.
  - A template record `{id, type, ...rest}` is `Template(id, kind, options)`.
  - A widget is `Button`, `Label`, `Spacer` or `Group`.
  - `getClickFn` becomes `ClickFor`, `getIconImage` becomes `IconImage` and `buildItem` becomes `BuildItem`.
  - The body of `build`'s `forEach` callback becomes `BuildEntry`, and `build` itself becomes `Build`.
  - All of these are functions. The list walk with its `push` is also kept as the methods
    `BuildTemplates`/`BuildTemplate`, which are proved equal to `Build`/`BuildEntry`.
- `touchbar_manager.dfy`: module `TouchBarManager` holds the class `Manager`.
  - Its `bars` field is a `map<string, Bar>` and its `logged` field holds what the source hands to the logger.
  - It has the methods `GetTouchBarByPage` and `Setup`, and a `Window` class whose `touchBar` slot `Setup` assigns.

Abstractions:
- The Electron widget constructors are the constructors of the `Widget` and `Bar` datatypes.
- The static-file root (`__static`) and `nativeImage.createFromPath` are the `Env` parameter:
  a root string and a loader from path to image, which may fail.
- The command dispatcher is represented by the `Click` value a button carries:
  `Dispatch(options)` (the button hands its options to the dispatcher) or `NoOp`.
- Failures a build can throw are `BuildError`s:
  - an icon the loader cannot produce;
  - a `group` template without `items`, on which the source's `this.build(undefined)` throws.
  The first failure in walk order (depth first, left to right) aborts the build, as an exception does.
- JavaScript truthiness of `item.command` and `icon` is `Truthy`: present and not the empty string.
- A slot of unrecognised type is kept as `None`. It is neither
  filtered out nor an error; the bar holds it as the source passes it.

## Model

| member | source | states |
|---|---|---|
| `TouchBarBuild.ClickFor` | src/main/ui/TouchBarManager.js:22-30 | the click action dispatches iff `command` is truthy, and then dispatches exactly the item's options; otherwise it is a no-op |
| `TouchBarBuild.IconPath` | src/main/ui/TouchBarManager.js:36 | the icon path is the static root, then `/icons/`, then the name, then `.png` |
| `TouchBarBuild.IconPathInjective` | src/main/ui/TouchBarManager.js:36 | distinct icon names without a `/` resolve to distinct paths |
| `TouchBarBuild.IconImage` | src/main/ui/TouchBarManager.js:32-38 | an absent or empty icon name yields no image and never fails; a present name fails iff the loader fails on its path, with an error naming that path, and otherwise yields exactly the loader's image for that path |
| `TouchBarBuild.BuildItem` | src/main/ui/TouchBarManager.js:40-74 | an unrecognised type gives `null` and no error; label and spacer carry their options' fields; a group holds exactly the children it is given; a button carries label, background, the icon of its `icon` field and the click of its options; only a button can fail, only when its icon fails, and then with that icon's error |
| `TouchBarBuild.BuildEntry` | src/main/ui/TouchBarManager.js:79-87 | an unrecognised type gives `null`; a group without `items` fails; only buttons and groups can fail |
| `TouchBarBuild.Build` | src/main/ui/TouchBarManager.js:76-89 | a successful build has exactly one slot per template entry |
| `TouchBarBuild.BuildTemplates` | src/main/ui/TouchBarManager.js:76-89 | the `forEach`/`push` walk returns exactly `Build` of the template list |
| `TouchBarBuild.BuildTemplate` | src/main/ui/TouchBarManager.js:79-87 | the per-entry step (drop `id`, build a group's `items` first, then `buildItem`) returns exactly `BuildEntry` |
| `TouchBarBuild.BuildKeepsError` | src/main/ui/TouchBarManager.js:79-88 | once a prefix of the list throws, the whole build throws the same error |
| `TouchBarBuild.BuildPointwise` | src/main/ui/TouchBarManager.js:76-89 | the build succeeds iff every entry builds; then it has the input's length and slot i is the build of entry i, in order |
| `TouchBarBuild.BuildFirstError` | src/main/ui/TouchBarManager.js:76-89 | a failed build reports the error of the first entry that fails, and every earlier entry builds |
| `TouchBarBuild.UnknownKindKeepsSlot` | src/main/ui/TouchBarManager.js:69-89 | an entry of unrecognised type leaves `null` in its own slot of the result; it is not filtered out |
| `TouchBarBuild.UnknownKindsNeverFail` | src/main/ui/TouchBarManager.js:69-73 | a list of unrecognised types builds to a list of as many `null`s, never an error |
| `TouchBarBuild.GroupChildren` | src/main/ui/TouchBarManager.js:62-84 | a group's children are exactly the build of its own `items`, and a failure there is the group's failure |
| `TouchBarBuild.GroupIgnoresOtherFields` | src/main/ui/TouchBarManager.js:82-84 | two groups with the same `items` build the same widget whatever their label, colours or command |
| `TouchBarBuild.EntryIdIrrelevant` | src/main/ui/TouchBarManager.js:80-84 | two templates that differ only in `id`s, their own or those of templates nested in a group's `items` at any depth, build the same widget or throw the same error |
| `TouchBarBuild.IdIrrelevant` | src/main/ui/TouchBarManager.js:79-87 | template lists whose entries pairwise differ only in `id`s, at any depth, build identical widget lists or throw the same error |
| `TouchBarBuild.ButtonClick` | src/main/ui/TouchBarManager.js:45-51 | a built button dispatches its template's options when it has a truthy `command`, and is a no-op otherwise |
| `TouchBarBuild.BuildSingle` | src/main/ui/TouchBarManager.js:76-89 | a one-entry list builds to the one-slot list of that entry, or throws that entry's error |
| `TouchBarBuild.ButtonScenario` | src/main/ui/TouchBarManager.js:45-51 | `[{id: "x", type: "button", label: "Go", command: "nav.go"}]` builds one "Go" button that dispatches its options |
| `TouchBarBuild.UnknownScenario` | src/main/ui/TouchBarManager.js:69-73 | `[{type: "unknown-widget"}]` builds `[null]` |
| `TouchBarBuild.GroupScenario` | src/main/ui/TouchBarManager.js:62-67 | `[{type: "group", items: [{type: "spacer", size: "small"}]}]` builds one group holding one small spacer |
| `TouchBarManager.TemplateBar` | src/main/ui/TouchBarManager.js:95-96 | a bar exists iff the template builds, and it holds the built slots, one per template entry |
| `TouchBarManager.Manager.constructor` | src/main/ui/TouchBarManager.js:11-16 | a new manager keeps the template and environment, has an empty cache and has logged nothing |
| `TouchBarManager.Manager.GetTouchBarByPage` | src/main/ui/TouchBarManager.js:91-103 | hit: the stored bar, state unchanged; successful miss: the new bar, stored under `page` only, nothing logged; failed build: `null`, cache unchanged, exactly that error logged; other pages never change; every cached bar is the template's bar |
| `TouchBarManager.Manager.Setup` | src/main/ui/TouchBarManager.js:105-108 | the window's bar becomes whatever the page request returns, `null` included, with the cache and log changed as by that request |
| `TouchBarManager.RequestTwice` | src/main/ui/TouchBarManager.js:91-103 | two requests for one page return the same bar; after a success the page is cached and neither request logs anything; after a failure the page stays uncached and the build error is logged once per request, twice in all |
| `TouchBarManager.ReadAsWritten` | src/main/ui/TouchBarManager.js:92 | the plain-object read hits on a stored page and also on every name inherited from `Object.prototype` |
| `TouchBarManager.InheritedKeyReadsAsHit` | src/main/ui/TouchBarManager.js:92 | on an empty cache the page "constructor" reads as a hit |
| `TouchBarManager.ReadAgreesOffPrototype` | src/main/ui/TouchBarManager.js:92 | for every other page name, the plain-object read agrees with the map lookup of the model |

## Findings

| source | as written | input that shows it | evidently intended | confidence | as-written member | corrected member |
|---|---|---|---|---|---|---|
| src/main/ui/TouchBarManager.js:14 | the cache is a plain object `{}`, so the read `this.bars[page]` also finds the members it inherits from `Object.prototype` | `getTouchBarByPage("constructor")` on a fresh manager returns the `Object` function as the bar and builds nothing | a hit only on a page whose bar was stored | medium, not executed | `TouchBarManager.InheritedKeyReadsAsHit` | `TouchBarManager.Manager.GetTouchBarByPage` |

The rest of the model uses the corrected cache: a `map` of stored bars only. `ReadAgreesOffPrototype`
shows that this matches the source for every page name that is not inherited.

## Left out

- Electron's `TouchBar`, `TouchBarButton`, `TouchBarLabel`, `TouchBarSpacer` and `TouchBarGroup` are native objects.
  Any validation their constructors do is not modelled. This includes a possible refusal of `null` entries,
  which would make a bar with an unrecognised type fail at `new TouchBar`.
  Widgets are plain datatype values, so object identity is value equality.
- `IconPath` does not model `path.join` normalisation (a trailing `/` on the root, `..` or `.` segments in a name).
  The root and name are joined literally.
- IconPathInjective: stated only for names without a `/`. Under the source's `path.join`, names with a separator can resolve to one file (`x` and `./x`), so for them the property does not hold.
- `nativeImage.createFromPath` and the file read are the `Env.loadImage` parameter. In Electron a missing file gives an empty
  image rather than an error. The model lets the loader fail so that the failure path of `getTouchBarByPage` is covered.
- `handleCommand` is not part of this model. A click is the value `Dispatch(options)` or `NoOp`; what the dispatcher does is out of scope.
- `logger.info` is the `logged` sequence of build errors; its message text is not modelled.
- `load` and its `require` of the JSON template are not modelled: the template is a constructor parameter. Template
  entries are well-formed records whose fields are strings. A missing or non-string `type` is represented by any
  other string, which builds to `null` like the source's default case. A non-list `items` is not representable.
- `window.setTouchBar` is an assignment to `Window.touchBar`. The `EventEmitter` base and the unused `options` are not modelled.
- The template is never mutated by a build; immutability of Dafny values gives this without a separate statement.
