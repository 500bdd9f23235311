/**
 * The `ResourceManager` object of ResourceManager.kt: a store whose fields
 * are updated in place.  Each method is proved to have the effect the
 * matching function of StoreSpec describes, on the result and on the whole
 * state.
 */
module Manager {
  import opened Wrappers
  import opened StoreSpec

  class ResourceManager {
    var currentLang: string
    var strings: map<string, string>
    var drawables: map<string, int>
    var outsourceStringProvider: Option<Provider>
    /** Calls made to the provider, as (language, key). */
    ghost var asked: seq<(string, string)>
    /** Resource names given to the resolver. */
    ghost var probed: seq<string>

    /** The store's fields as a value. */
    ghost function Snapshot(): State
      reads this
    {
      State(currentLang, strings, drawables, outsourceStringProvider, asked, probed)
    }

    /** The singleton as first used: language "en", empty caches, no provider. */
    constructor ()
      ensures Snapshot() == Initial
    {
      currentLang := DefaultLang;
      strings := map[];
      drawables := map[];
      outsourceStringProvider := None;
      asked := [];
      probed := [];
    }

    method GetCurrentLanguage() returns (lang: string)
      ensures lang == Snapshot().lang
    {
      lang := currentLang;
    }

    method SetLanguage(lang: string)
      modifies this
      ensures Snapshot() == StoreSpec.SetLanguage(old(Snapshot()), lang)
    {
      currentLang := lang;
    }

    /** Assigning the public `outsourceStringProvider` property. */
    method SetProvider(p: Option<Provider>)
      modifies this
      ensures Snapshot() == StoreSpec.SetProvider(old(Snapshot()), p)
    {
      outsourceStringProvider := p;
    }

    /** `putAll` of the given table into the text cache. */
    method ProvideStrings(m: map<string, string>)
      modifies this
      ensures Snapshot() == StoreSpec.ProvideStrings(old(Snapshot()), m)
    {
      strings := strings + m;
    }

    method GetString(key: string) returns (s: string)
      modifies this
      ensures Step(s, Snapshot()) == Text(old(Snapshot()), key)
    {
      var resolved: Option<string>;
      if key in strings {
        resolved := Some(strings[key]);
      } else {
        resolved := GetStringFromSource(key);
      }
      s := resolved.GetOr("");
    }

    /** `getString(key, vararg args)`, with `String.format` passed as `format`. */
    method GetStringWithArgs<A>(key: string, args: seq<A>, format: (string, seq<A>) -> string) returns (s: string)
      modifies this
      ensures Step(s, Snapshot()) == TextFormatted(old(Snapshot()), key, args, format)
    {
      var resolved: Option<string>;
      if key in strings {
        resolved := Some(strings[key]);
      } else {
        resolved := GetStringFromSource(key);
      }
      s := if resolved.Some? then format(resolved.value, args) else "";
    }

    method GetStringFromSource(key: string) returns (s: Option<string>)
      modifies this
      ensures Step(s, Snapshot()) == FromSource(old(Snapshot()), key)
    {
      match outsourceStringProvider
      case None =>
        s := None;
      case Some(provide) =>
        asked := asked + [(currentLang, key)];
        s := provide(currentLang, key);
        if s.Some? {
          strings := strings[key := s.value];
        }
    }

    /** `getStringFromSource(key, vararg args)`, with `String.format` passed as `format`. */
    method GetStringFromSourceWithArgs<A>(key: string, args: seq<A>, format: (string, seq<A>) -> string)
      returns (s: Option<string>)
      modifies this
      ensures Step(s, Snapshot()) == FromSourceFormatted(old(Snapshot()), key, args, format)
    {
      match outsourceStringProvider
      case None =>
        s := None;
      case Some(provide) =>
        asked := asked + [(currentLang, key)];
        var template := provide(currentLang, key);
        if template.Some? {
          strings := strings[key := template.value];
          s := Some(format(template.value, args));
        } else {
          s := None;
        }
    }

    method GetDrawable<H>(ctx: Context<H>, key: string) returns (d: Option<H>)
      modifies this
      ensures Step(d, Snapshot()) == Image(old(Snapshot()), ctx, key)
    {
      var cached: Option<H> := None;
      if key in drawables {
        cached := ctx.load(drawables[key]);
      }
      if cached.Some? {
        d := cached;
      } else {
        var id := FindDrawableId(ctx, key);
        if id.Some? {
          drawables := drawables[key := id.value];
          d := ctx.load(id.value);
        } else {
          d := None;
        }
      }
    }

    /** Resolves the locale-qualified name `key + "_" + currentLang`; only the log changes. */
    method FindDrawableId<H>(ctx: Context<H>, key: string) returns (id: Option<int>)
      modifies this`probed
      ensures id == ctx.resolve(key + "_" + currentLang)
      ensures probed == old(probed) + [key + "_" + currentLang]
    {
      var name := QualifiedName(key, currentLang);
      probed := probed + [name];
      id := ctx.resolve(name);
    }

    method Clear()
      modifies this
      ensures Snapshot() == StoreSpec.Clear(old(Snapshot()))
    {
      strings := map[];
      drawables := map[];
    }
  }
}
