/**
 * The resource store of ResourceManager.kt as a value: what each operation
 * returns and what the store holds afterwards.  The class in Manager.dfy
 * carries out these operations in place and is proved to agree with them.
 */
module StoreSpec {
  import opened Wrappers

  /** The language a fresh store starts with. */
  const DefaultLang: string := "en"
  /** Joins an image key and the language into the resource name probed. */
  const LangDelimiter: string := "_"

  /** The host's text provider: (language, key) to a text, or null. */
  type Provider = (string, string) -> Option<string>

  /**
   * The Android calls the store makes for images, with the `Context` they
   * are made through: `resolve` is `Resources.getIdentifier` for drawables
   * (null when the context has no resources), `load` is
   * `ContextCompat.getDrawable`, which turns an id into a handle of type H.
   */
  datatype Context<H> = Context(resolve: string -> Option<int>, load: int -> Option<H>)

  /**
   * Everything the store holds.  `asked` lists the (language, key) pairs the
   * provider was called with and `probed` the resource names resolved, in
   * order; they are not fields of the Kotlin object and let contracts say
   * which external calls an operation makes.
   */
  datatype State = State(
    lang: string,
    strings: map<string, string>,
    drawables: map<string, int>,
    provider: Option<Provider>,
    asked: seq<(string, string)>,
    probed: seq<string>)

  /** A store that was never used: default language, empty caches, no provider. */
  const Initial: State := State(DefaultLang, map[], map[], None, [], [])

  /** The result of an operation together with the store after it. */
  datatype Step<T> = Step(out: T, next: State)

  /** The locale-qualified resource name probed for an image key. */
  function QualifiedName(key: string, lang: string): (name: string)
    ensures |name| == |key| + 1 + |lang|
    ensures name[..|key|] == key && name[|key|] == '_' && name[|key| + 1..] == lang
  {
    key + LangDelimiter + lang
  }

  /** `setLanguage`: only the language changes; no cache is cleared. */
  function SetLanguage(st: State, lang: string): (r: State)
    ensures r.lang == lang
    ensures r.strings == st.strings && r.drawables == st.drawables
    ensures r.provider == st.provider && r.asked == st.asked && r.probed == st.probed
  {
    st.(lang := lang)
  }

  /** Assigning `outsourceStringProvider`. */
  function SetProvider(st: State, p: Option<Provider>): (r: State)
    ensures r.provider == p
    ensures r.lang == st.lang && r.strings == st.strings && r.drawables == st.drawables
    ensures r.asked == st.asked && r.probed == st.probed
  {
    st.(provider := p)
  }

  /** `provideStrings`: every entry of `m` is stored, overwriting, the rest kept. */
  function ProvideStrings(st: State, m: map<string, string>): (r: State)
    ensures r.strings.Keys == st.strings.Keys + m.Keys
    ensures forall k :: k in m ==> r.strings[k] == m[k]
    ensures forall k :: k in st.strings && k !in m ==> r.strings[k] == st.strings[k]
    ensures r.lang == st.lang && r.drawables == st.drawables && r.provider == st.provider
    ensures r.asked == st.asked && r.probed == st.probed
  {
    st.(strings := st.strings + m)
  }

  /** `clear`: both caches empty; the language and the provider stay. */
  function Clear(st: State): (r: State)
    ensures r.strings == map[] && r.drawables == map[]
    ensures r.lang == st.lang && r.provider == st.provider
    ensures r.asked == st.asked && r.probed == st.probed
  {
    st.(strings := map[], drawables := map[])
  }

  /**
   * `getStringFromSource(key)`: asks the provider, if one is set, with the
   * current language, whether or not `key` is cached; a non-null answer is
   * written into the text cache over any earlier entry and returned.
   */
  function FromSource(st: State, key: string): (r: Step<Option<string>>)
    ensures st.provider.None? ==> r == Step(None, st)
    ensures st.provider.Some? ==>
              r.out == st.provider.value(st.lang, key) && r.next.asked == st.asked + [(st.lang, key)]
    ensures r.out.Some? ==> r.next.strings == st.strings[key := r.out.value]
    ensures r.out.None? ==> r.next.strings == st.strings
    ensures r.next.lang == st.lang && r.next.drawables == st.drawables
    ensures r.next.provider == st.provider && r.next.probed == st.probed
  {
    match st.provider
    case None => Step(None, st)
    case Some(p) =>
      var v := p(st.lang, key);
      var strings := if v.Some? then st.strings[key := v.value] else st.strings;
      Step(v, st.(strings := strings, asked := st.asked + [(st.lang, key)]))
  }

  /** `strings[key] ?: getStringFromSource(key)`, shared by both `getString` forms. */
  function Resolve(st: State, key: string): (r: Step<Option<string>>)
    ensures key in st.strings ==> r == Step(Some(st.strings[key]), st)
    ensures r.out.Some? ==> key in r.next.strings && r.next.strings[key] == r.out.value
    ensures r.out.None? ==> key !in st.strings && r.next.strings == st.strings
    ensures key !in st.strings ==>
              r.out == (if st.provider.Some? then st.provider.value(st.lang, key) else None) &&
              r.next.asked == st.asked + (if st.provider.Some? then [(st.lang, key)] else [])
    ensures key !in st.strings && r.out.Some? ==> r.next.strings == st.strings[key := r.out.value]
    ensures r.next.lang == st.lang && r.next.drawables == st.drawables && r.next.probed == st.probed
    ensures r.next.provider == st.provider
  {
    if key in st.strings then Step(Some(st.strings[key]), st) else FromSource(st, key)
  }

  /**
   * `getString(key)`: a cached text is returned without calling the
   * provider and without any change; otherwise the provider's answer is
   * cached and returned, and a miss gives "" and caches nothing.
   */
  function Text(st: State, key: string): (r: Step<string>)
    ensures key in st.strings ==> r == Step(st.strings[key], st)
    ensures key !in st.strings && (st.provider.None? || st.provider.value(st.lang, key).None?) ==>
              r.out == "" && r.next.strings == st.strings
    ensures key !in st.strings && st.provider.Some? && st.provider.value(st.lang, key).Some? ==>
              r.out == st.provider.value(st.lang, key).value && r.next.strings == st.strings[key := r.out]
    ensures key !in st.strings ==>
              r.next.asked == st.asked + (if st.provider.Some? then [(st.lang, key)] else [])
    ensures r.next.lang == st.lang && r.next.drawables == st.drawables
    ensures r.next.provider == st.provider && r.next.probed == st.probed
  {
    var s := Resolve(st, key);
    Step(s.out.GetOr(""), s.next)
  }

  /**
   * `getString(key, args)`: the same lookup as `getString(key)`; a resolved
   * template, cached or fetched, is formatted with `args`, and when nothing
   * resolves the result is "" and `format` is not applied.
   */
  function TextFormatted<A>(st: State, key: string, args: seq<A>, format: (string, seq<A>) -> string): (r: Step<string>)
    ensures key in st.strings ==> r == Step(format(st.strings[key], args), st)
    ensures key !in st.strings && (st.provider.None? || st.provider.value(st.lang, key).None?) ==>
              r.out == "" && r.next.strings == st.strings
    ensures key !in st.strings && st.provider.Some? && st.provider.value(st.lang, key).Some? ==>
              var v := st.provider.value(st.lang, key).value;
              r.out == format(v, args) && r.next.strings == st.strings[key := v]
    ensures r.next == Text(st, key).next
  {
    var s := Resolve(st, key);
    Step(if s.out.Some? then format(s.out.value, args) else "", s.next)
  }

  /**
   * `getStringFromSource(key, args)`: the same call and cache write as
   * `getStringFromSource(key)`; the raw template is cached and the
   * formatted text returned.
   */
  function FromSourceFormatted<A>(st: State, key: string, args: seq<A>, format: (string, seq<A>) -> string): (r: Step<Option<string>>)
    ensures st.provider.None? ==> r == Step(None, st)
    ensures st.provider.Some? && st.provider.value(st.lang, key).Some? ==>
              var v := st.provider.value(st.lang, key).value;
              r.out == Some(format(v, args)) && r.next.strings == st.strings[key := v]
    ensures st.provider.Some? && st.provider.value(st.lang, key).None? ==>
              r.out == None && r.next.strings == st.strings
    ensures r.next == FromSource(st, key).next
  {
    var s := FromSource(st, key);
    Step(if s.out.Some? then Some(format(s.out.value, args)) else None, s.next)
  }

  /** Whether `key` has a cached id that `load` turns into a handle. */
  predicate CachedLoads<H>(st: State, ctx: Context<H>, key: string) {
    key in st.drawables && ctx.load(st.drawables[key]).Some?
  }

  /**
   * `getDrawable(context, key)`: a cached id that loads is used without
   * calling the resolver.  Otherwise (no cached id, or one that does not
   * load) the name `key + "_" + lang` is resolved; a non-null id is cached
   * under the bare key, whether or not it loads, and a null id leaves the
   * image cache as it was.
   */
  function Image<H>(st: State, ctx: Context<H>, key: string): (r: Step<Option<H>>)
    ensures CachedLoads(st, ctx, key) ==> r == Step(ctx.load(st.drawables[key]), st)
    ensures !CachedLoads(st, ctx, key) ==>
              r.next.probed == st.probed + [key + "_" + st.lang]
    ensures !CachedLoads(st, ctx, key) && ctx.resolve(key + "_" + st.lang).None? ==>
              r.out == None && r.next.drawables == st.drawables
    ensures !CachedLoads(st, ctx, key) && ctx.resolve(key + "_" + st.lang).Some? ==>
              var id := ctx.resolve(key + "_" + st.lang).value;
              r.out == ctx.load(id) && r.next.drawables == st.drawables[key := id]
    ensures r.next.lang == st.lang && r.next.strings == st.strings
    ensures r.next.provider == st.provider && r.next.asked == st.asked
  {
    var cached := if key in st.drawables then ctx.load(st.drawables[key]) else None;
    if cached.Some? then Step(cached, st)
    else
      var name := QualifiedName(key, st.lang);
      var probed := st.probed + [name];
      match ctx.resolve(name)
      case None => Step(None, st.(probed := probed))
      case Some(id) => Step(ctx.load(id), st.(drawables := st.drawables[key := id], probed := probed))
  }

  // ---------------------------------------------------------------------
  // Properties that relate several calls.

  /** Under one language, distinct image keys probe distinct resource names. */
  lemma {:induction false} QualifiedNameInjective(k1: string, k2: string, lang: string)
    requires QualifiedName(k1, lang) == QualifiedName(k2, lang)
    ensures k1 == k2
  {
    var n1, n2 := QualifiedName(k1, lang), QualifiedName(k2, lang);
    assert |k1| == |k2|;
    assert k1 == n1[..|k1|];
    assert k2 == n2[..|k2|];
  }

  /**
   * `getString` gives the same text when called twice in a row (the
   * provider being a function of its arguments), and when the first call
   * found a text the second changes nothing and calls nothing.
   */
  lemma TextRepeatable(st: State, key: string)
    ensures var first := Text(st, key);
            var second := Text(first.next, key);
            second.out == first.out &&
            (key in first.next.strings ==> second.next == first.next)
  {
  }

  /**
   * Write-through: once the provider has supplied a text, later `getString`
   * calls for that key are served from the cache without asking again.
   */
  lemma WriteThroughServesFromCache(st: State, key: string)
    requires key !in st.strings && st.provider.Some? && st.provider.value(st.lang, key).Some?
    ensures var first := Text(st, key);
            first.out == st.provider.value(st.lang, key).value &&
            Text(first.next, key) == Step(first.out, first.next)
  {
  }

  /** A provided text is what `getString` returns, with no provider call. */
  lemma ProvidedTextIsReturned(st: State, m: map<string, string>, key: string)
    requires key in m
    ensures var s := ProvideStrings(st, m);
            Text(s, key) == Step(m[key], s)
  {
  }

  /** With no provider set, a key that is not cached reads as "". */
  lemma MissWithoutProvider(st: State, key: string)
    requires st.provider.None? && key !in st.strings
    ensures Text(st, key) == Step("", st)
  {
  }

  /**
   * `getStringFromSource` replaces a cached text with the provider's fresh
   * answer, and `getString` returns the fresh answer afterwards.
   */
  lemma SourceOverwritesCache(st: State, key: string, v: string)
    requires key in st.strings && st.provider.Some? && st.provider.value(st.lang, key) == Some(v)
    ensures var s := FromSource(st, key);
            s.out == Some(v) && |s.next.asked| == |st.asked| + 1 && Text(s.next, key).out == v
  {
  }

  /**
   * Changing the language does not invalidate the text cache: a text cached
   * under the old language is still returned until `clear` is called.
   */
  lemma LanguageSwitchKeepsCachedText(st: State, key: string, lang: string)
    requires key in st.strings
    ensures Text(SetLanguage(st, lang), key).out == st.strings[key]
  {
  }

  /**
   * After `clear`, every text lookup goes to the provider with the current
   * language, and every image lookup to the resolver.
   */
  lemma ClearForcesFreshLookups<H>(st: State, ctx: Context<H>, key: string)
    ensures var c := Clear(st);
            Text(c, key).out == (if st.provider.Some? then st.provider.value(st.lang, key).GetOr("") else "") &&
            Image(c, ctx, key).next.probed == st.probed + [key + "_" + st.lang]
  {
  }

  /**
   * An image whose id resolves and loads is resolved once: a second
   * `getDrawable` for the same key reuses the cached id and loads it again,
   * and the resolver has been called exactly once.
   */
  lemma ImageResolvedOnce<H>(st: State, ctx: Context<H>, key: string)
    requires key !in st.drawables
    requires ctx.resolve(key + "_" + st.lang).Some?
    requires ctx.load(ctx.resolve(key + "_" + st.lang).value).Some?
    ensures var first := Image(st, ctx, key);
            var second := Image(first.next, ctx, key);
            first.out.Some? && second == Step(first.out, first.next) &&
            second.next.probed == st.probed + [key + "_" + st.lang]
  {
  }

  /** A failed probe caches nothing, so a later call probes again. */
  lemma FailedProbeIsRetried<H>(st: State, ctx: Context<H>, key: string)
    requires key !in st.drawables
    requires ctx.resolve(key + "_" + st.lang).None?
    ensures var first := Image(st, ctx, key);
            var second := Image(first.next, ctx, key);
            first.out.None? && key !in first.next.drawables &&
            second.next.probed == st.probed + [key + "_" + st.lang, key + "_" + st.lang]
  {
  }
}
