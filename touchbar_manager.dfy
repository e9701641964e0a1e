/**
 * The TouchBar manager: it keeps one built bar per page, building it from the template on
 * the first request for that page, and attaches a page's bar to a window.
 */
module TouchBarManager {
  import opened Wrappers
  import opened TouchBarBuild

  /** A native TouchBar: the root list of widget slots shown for one page. */
  datatype Bar = Bar(items: seq<Option<Widget>>)

  /**
   * The bar the template yields, or none when its build throws. The page plays no part
   * in the build, so this is the bar of every page.
   */
  function TemplateBar(env: Env, template: seq<Template>): (b: Option<Bar>)
    ensures b.Some? <==> Build(env, template).Ok?
    ensures b.Some? ==> b.value.items == Build(env, template).value && |b.value.items| == |template|
  {
    match Build(env, template)
    case Ok(items) => Some(Bar(items))
    case Err(_) => None
  }

  /** A window with a slot for its TouchBar; `None` means no bar is shown. */
  class Window {
    var touchBar: Option<Bar>

    constructor ()
      ensures touchBar == None
    {
      touchBar := None;
    }
  }

  class Manager {
    /** The static root and image loader the build uses. */
    const env: Env
    /** The item template, loaded once when the manager is made. */
    const template: seq<Template>
    /** The bars built so far, by page. */
    var bars: map<string, Bar>
    /** The build failures handed to the logger, oldest first. */
    var logged: seq<BuildError>

    /** Every cached bar is the template's bar: a page is cached only after a full, successful build. */
    ghost predicate Valid()
      reads this
    {
      forall page :: page in bars ==> TemplateBar(env, template) == Some(bars[page])
    }

    constructor (env: Env, template: seq<Template>)
      ensures Valid()
      ensures this.env == env && this.template == template
      ensures bars == map[] && logged == []
    {
      this.env := env;
      this.template := template;
      bars := map[];
      logged := [];
    }

    /**
     * The bar of `page`: the cached one on a hit; on a miss the template is built, and the
     * new bar is cached under `page` alone, or, when the build throws, the error is logged,
     * nothing is cached and the result is none (so the next request builds again).
     */
    method GetTouchBarByPage(page: string) returns (bar: Option<Bar>)
      requires Valid()
      modifies this
      ensures Valid()
      ensures bar == TemplateBar(env, template)
      ensures page in old(bars) ==>
        bar == Some(old(bars)[page]) && bars == old(bars) && logged == old(logged)
      ensures page !in old(bars) && Build(env, template).Ok? ==>
        bar.Some? && bars == old(bars)[page := bar.value] && logged == old(logged)
      ensures page !in old(bars) && Build(env, template).Err? ==>
        bar == None && bars == old(bars) && logged == old(logged) + [Build(env, template).error]
      ensures forall p :: p != page ==> (p in bars <==> p in old(bars))
      ensures forall p :: p != page && p in bars ==> bars[p] == old(bars)[p]
    {
      if page in bars {
        bar := Some(bars[page]);
      } else {
        var built := BuildTemplates(env, template);
        match built
        case Ok(items) =>
          bar := Some(Bar(items));
          bars := bars[page := bar.value];
        case Err(e) =>
          logged := logged + [e];
          bar := None;
      }
    }

    /** Attaches the bar of `page` to `window`, whatever the request returned, none included. */
    method Setup(page: string, window: Window)
      requires Valid()
      modifies this, window
      ensures Valid()
      ensures window.touchBar == TemplateBar(env, template)
      ensures bars == if page !in old(bars) && Build(env, template).Ok?
        then old(bars)[page := TemplateBar(env, template).value] else old(bars)
      ensures logged == if page !in old(bars) && Build(env, template).Err?
        then old(logged) + [Build(env, template).error] else old(logged)
    {
      var bar := GetTouchBarByPage(page);
      window.touchBar := bar;
    }
  }

  /**
   * Two requests for the same page give the same bar; after a successful first request the
   * second is a cache hit that neither builds nor logs.
   */
  method RequestTwice(m: Manager, page: string) returns (first: Option<Bar>, second: Option<Bar>)
    requires m.Valid()
    modifies m
    ensures m.Valid()
    ensures first == second
    ensures first.Some? ==> page in m.bars && m.bars[page] == first.value
    ensures first.Some? ==> m.logged == old(m.logged)
    ensures first.None? ==>
      && page !in m.bars
      && Build(m.env, m.template).Err?
      && m.logged == old(m.logged) + [Build(m.env, m.template).error, Build(m.env, m.template).error]
  {
    first := m.GetTouchBarByPage(page);
    second := m.GetTouchBarByPage(page);
  }

  /**
   * The members every plain object `{}` inherits from `Object.prototype`; reading one of
   * them from the cache object gives a truthy value although no bar was ever stored.
   */
  const InheritedKeys: set<string> := {
    "constructor", "toString", "toLocaleString", "valueOf", "hasOwnProperty",
    "isPrototypeOf", "propertyIsEnumerable", "__proto__", "__defineGetter__",
    "__defineSetter__", "__lookupGetter__", "__lookupSetter__"
  }

  /** What `this.bars[page] || null` reads: nothing, a stored bar, or an inherited member. */
  datatype CacheRead = Miss | Stored(bar: Bar) | Inherited(key: string)

  /** The cache read as the source writes it, on a plain object: own entries first, then inherited members. */
  function ReadAsWritten(bars: map<string, Bar>, page: string): (r: CacheRead)
    ensures r.Stored? <==> page in bars
    ensures r.Stored? ==> r.bar == bars[page]
    ensures r.Inherited? <==> page !in bars && page in InheritedKeys
    ensures r.Miss? <==> page !in bars && page !in InheritedKeys
  {
    if page in bars then Stored(bars[page])
    else if page in InheritedKeys then Inherited(page)
    else Miss
  }

  /** On a fresh manager, a request for the page "constructor" is a hit although nothing was built. */
  lemma InheritedKeyReadsAsHit()
    ensures ReadAsWritten(map[], "constructor") == Inherited("constructor")
    ensures !ReadAsWritten(map[], "constructor").Miss?
  {
  }

  /** Off the inherited names the as-written read and the map of the model agree: a hit exactly on a stored page. */
  lemma ReadAgreesOffPrototype(bars: map<string, Bar>, page: string)
    requires page !in InheritedKeys
    ensures ReadAsWritten(bars, page) == if page in bars then Stored(bars[page]) else Miss
  {
  }
}
