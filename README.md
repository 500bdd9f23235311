# Kala resource store, modelled in Dafny

Kala is a small Android library. It resolves localized texts and images through typed
resource keys. The library's one stateful object is the `ResourceManager` singleton.
It holds:

- the current language, `"en"` by default;
- a text cache from key to text;
- an image-id cache from key to Android resource id;
- an optional "outsource" text provider, called with (language, key) on a cache miss, and on every `getStringFromSource`.

Text lookup is cache first, then the provider. A provider answer is written through to the cache.
Image lookup is id cache first, then the resolver. The resolver is given the locale-qualified
name `key + "_" + language`, and the id it returns is cached under the bare key. `clear()` empties
both caches. `setLanguage` clears nothing. A `ResourceKey` pairs an identifier with a type
(`String` or `Drawable`). Its `invoke()` dispatches on that type, and `invoke(args)` always
formats text.

The model has six modules:

- `Wrappers` (Wrappers.dfy) holds `Option`, for Kotlin's nullable types, and `Result`, for a
  value or a thrown exception.
- `StoreSpec` (StoreSpec.dfy) describes every store operation as a function on a `State` value.
  Each function returns the operation's result and the next state. Lemmas relate several calls:
  cache-first, write-through, overwrite by the source, single resolution of an image, retry after
  a failed probe, stale texts after a language switch.
- `Manager` (Manager.dfy) holds the class `ResourceManager`. Its fields are updated in place.
  Each method that has a matching `StoreSpec` function is proved to have exactly that function's
  effect, on the result and on the whole state. `GetCurrentLanguage` returns the language field,
  and `FindDrawableId` states its one probe directly. Two ghost logs record the calls made to the
  provider (`asked`) and to the resolver (`probed`), so contracts can say when a lookup makes no
  external call.
- `Keys` (Keys.dfy) holds the `ResourceKey` datatype, its factory and `toString`, and the
  dispatch of both `invoke` forms onto the store.
- `Traces` (Traces.dfy) runs arbitrary sequences of store calls. It proves by induction that the
  language is the last one set, that the provider changes only by assignment, that the image
  cache only holds ids the resolver produced, and that text lookups only grow the text cache.
- `Scenario` (Scenario.dfy) drives the sample application through the class contracts. It starts
  in English, binds the screen, and taps the button once. The tap clears the store, switches to
  Turkish, reloads the Turkish table, shows the success toast and binds the screen again.

External calls are parameters of the model:

- The provider is a field of function type, `(string, string) -> Option<string>`.
- The Android `Context` is a pair of functions. `resolve` stands for `Resources.getIdentifier`
  (null when the context has no resources). `load` stands for `ContextCompat.getDrawable`.
- `String.format` is a `format` function passed by the caller and left uninterpreted.

Three behaviours of the code are easy to miss:

- Changing the language does not invalidate the caches. Text cached under the old language keeps
  being served until `clear()` (`LanguageSwitchKeepsCachedText`).
- A cached image id that fails to load is not returned. The lookup falls through to a fresh probe,
  and the new id overwrites the cached one.
- The resolver is given one locale-qualified name, `key + "_" + language`.

## Model

| member | source | states |
|---|---|---|
| `StoreSpec.SetLanguage` | kala/src/main/java/com/mustafayigit/kala/ResourceManager.kt:28-30 | only the language changes; neither cache, the provider nor the call logs change |
| `StoreSpec.SetProvider` | kala/src/main/java/com/mustafayigit/kala/ResourceManager.kt:22 | assigning the provider changes nothing else |
| `StoreSpec.ProvideStrings` | kala/src/main/java/com/mustafayigit/kala/ResourceManager.kt:32-34 | the text cache afterwards has the old keys plus the table's keys; table entries win, other entries are kept; nothing else changes |
| `StoreSpec.Clear` | kala/src/main/java/com/mustafayigit/kala/ResourceManager.kt:80-83 | both caches are empty; language and provider are unchanged |
| `StoreSpec.FromSource` | kala/src/main/java/com/mustafayigit/kala/ResourceManager.kt:44-49 | no provider: null and no change; otherwise the provider is asked once with (current language, key), even for a cached key; a non-null answer overwrites the cache entry and is returned; a null answer leaves the cache alone |
| `StoreSpec.Text` | kala/src/main/java/com/mustafayigit/kala/ResourceManager.kt:36-38 | a cached key returns its text with no change and no provider call; otherwise the provider's answer is returned and cached; with no answer the result is "" and the cache is unchanged |
| `StoreSpec.TextFormatted` | kala/src/main/java/com/mustafayigit/kala/ResourceManager.kt:40-42 | a cached or fetched template is returned formatted with the arguments; a miss gives "" without formatting; the store changes as for `getString(key)` |
| `StoreSpec.FromSourceFormatted` | kala/src/main/java/com/mustafayigit/kala/ResourceManager.kt:51-56 | the raw template is cached and the formatted text is returned; no provider or a null answer gives null; the store changes as for `getStringFromSource(key)` |
| `StoreSpec.Image` | kala/src/main/java/com/mustafayigit/kala/ResourceManager.kt:58-78 | a cached id that loads is used with no probe; otherwise `key + "_" + lang` is probed once; a non-null id is cached under the bare key and loaded; a null id leaves the image cache unchanged and gives null |
| `StoreSpec.QualifiedName` | kala/src/main/java/com/mustafayigit/kala/ResourceManager.kt:70 | the probed name is the key, then `_`, then the language, each part recoverable by position |
| `StoreSpec.Resolve` | kala/src/main/java/com/mustafayigit/kala/ResourceManager.kt:37 | a cached key resolves to its text with no change; a resolved text is in the cache afterwards; on a miss the result is the provider's answer for (current language, key), or null with no provider, and the provider call is logged; a fetched text is written into the cache and the other cached texts are kept; an unresolved key was not cached and leaves the text cache unchanged |
| `StoreSpec.QualifiedNameInjective` | kala/src/main/java/com/mustafayigit/kala/ResourceManager.kt:67-74 | under one language, distinct image keys probe distinct resource names |
| `StoreSpec.TextRepeatable` | kala/src/main/java/com/mustafayigit/kala/ResourceManager.kt:36-49 | a second `getString` for the same key gives the same text; if the first call found a text, the second changes nothing |
| `StoreSpec.WriteThroughServesFromCache` | kala/src/main/java/com/mustafayigit/kala/ResourceManager.kt:36-49 | after the provider supplies a text, the next `getString` returns it from the cache with no provider call |
| `StoreSpec.ProvidedTextIsReturned` | kala/src/main/java/com/mustafayigit/kala/ResourceManager.kt:32-38 | after `provideStrings(m)`, `getString(k)` for a key of `m` returns `m[k]`, with no change and no provider call |
| `StoreSpec.MissWithoutProvider` | kala/src/main/java/com/mustafayigit/kala/ResourceManager.kt:36-49 | with no provider, an uncached key reads as "" and the store is unchanged |
| `StoreSpec.SourceOverwritesCache` | kala/src/main/java/com/mustafayigit/kala/ResourceManager.kt:44-49 | `getStringFromSource` on a cached key still asks the provider; its answer replaces the entry and `getString` returns it afterwards |
| `StoreSpec.LanguageSwitchKeepsCachedText` | kala/src/main/java/com/mustafayigit/kala/ResourceManager.kt:28-38 | after `setLanguage`, a text cached under the previous language is still returned |
| `StoreSpec.ClearForcesFreshLookups` | kala/src/main/java/com/mustafayigit/kala/ResourceManager.kt:80-83 | after `clear`, `getString` returns the provider's answer for the current language (or ""), and `getDrawable` probes the resolver |
| `StoreSpec.ImageResolvedOnce` | kala/src/main/java/com/mustafayigit/kala/ResourceManager.kt:58-65 | when the probed id loads, a second `getDrawable` reuses the cached id and loads it again; the resolver is called once in all |
| `StoreSpec.FailedProbeIsRetried` | kala/src/main/java/com/mustafayigit/kala/ResourceManager.kt:58-74 | a null probe caches nothing, so the next call probes the same name again |
| `Manager.ResourceManager.constructor` | kala/src/main/java/com/mustafayigit/kala/ResourceManager.kt:15-22 | the store starts with language "en", empty caches and no provider |
| `Manager.ResourceManager.GetCurrentLanguage` | kala/src/main/java/com/mustafayigit/kala/ResourceManager.kt:24-26 | returns the current language |
| `Manager.ResourceManager.SetLanguage` | kala/src/main/java/com/mustafayigit/kala/ResourceManager.kt:28-30 | the new state is `StoreSpec.SetLanguage` of the old |
| `Manager.ResourceManager.SetProvider` | kala/src/main/java/com/mustafayigit/kala/ResourceManager.kt:22 | the new state is `StoreSpec.SetProvider` of the old |
| `Manager.ResourceManager.ProvideStrings` | kala/src/main/java/com/mustafayigit/kala/ResourceManager.kt:32-34 | the new state is `StoreSpec.ProvideStrings` of the old |
| `Manager.ResourceManager.GetString` | kala/src/main/java/com/mustafayigit/kala/ResourceManager.kt:36-38 | result and new state are those of `StoreSpec.Text` |
| `Manager.ResourceManager.GetStringWithArgs` | kala/src/main/java/com/mustafayigit/kala/ResourceManager.kt:40-42 | result and new state are those of `StoreSpec.TextFormatted` |
| `Manager.ResourceManager.GetStringFromSource` | kala/src/main/java/com/mustafayigit/kala/ResourceManager.kt:44-49 | result and new state are those of `StoreSpec.FromSource` |
| `Manager.ResourceManager.GetStringFromSourceWithArgs` | kala/src/main/java/com/mustafayigit/kala/ResourceManager.kt:51-56 | result and new state are those of `StoreSpec.FromSourceFormatted` |
| `Manager.ResourceManager.GetDrawable` | kala/src/main/java/com/mustafayigit/kala/ResourceManager.kt:58-65 | result and new state are those of `StoreSpec.Image` |
| `Manager.ResourceManager.FindDrawableId` | kala/src/main/java/com/mustafayigit/kala/ResourceManager.kt:67-74 | returns the resolver's id for `key + "_" + currentLang` and logs that one probe; nothing else changes |
| `Manager.ResourceManager.Clear` | kala/src/main/java/com/mustafayigit/kala/ResourceManager.kt:80-83 | the new state is `StoreSpec.Clear` of the old |
| `Keys.Of` | kala/src/main/java/com/mustafayigit/kala/ResourceKey.kt:35-36 | the companion factory builds a key of the given type whose `toString()` is the given identifier |
| `Keys.ToString` | kala/src/main/java/com/mustafayigit/kala/ResourceKey.kt:31-33 | `toString()` returns exactly the identifier |
| `Keys.OfToString` | kala/src/main/java/com/mustafayigit/kala/ResourceKey.kt:31-36 | the factory keeps the given identifier and type, and `toString` returns the identifier; as model values, keys built from one identifier are equal exactly when their types agree (Kotlin keys are distinct objects) |
| `Keys.Invoked` | kala/src/main/java/com/mustafayigit/kala/ResourceKey.kt:16-24 | a String key gives `getString`'s text and effects; a Drawable key gives `getDrawable`'s result and effects; any other type fails with "Resource type is not supported" and leaves the store unchanged |
| `Keys.Invoke` | kala/src/main/java/com/mustafayigit/kala/ResourceKey.kt:16-24 | result and new store state are those of `Keys.Invoked` |
| `Keys.InvokeWithArgs` | kala/src/main/java/com/mustafayigit/kala/ResourceKey.kt:26-29 | whatever the key's type, result and new state are those of `getString(key, args)` |
| `Keys.TableKeyedByToString` | kala/src/main/java/com/mustafayigit/kala/ResourceKey.kt:31-33 | a bulk table keyed by a text key's `toString()` makes that key's `invoke()` return the table's text, with no provider call |
| `Keys.KindSelectsCache` | kala/src/main/java/com/mustafayigit/kala/ResourceKey.kt:18-23 | `invoke()` of a String key leaves the image cache alone; of a Drawable key, the text cache |
| `Traces.LanguageIsLastSet` | kala/src/main/java/com/mustafayigit/kala/ResourceManager.kt:24-30 | after any sequence of calls, the language is the argument of the last `setLanguage`, or the earlier language if there was none |
| `Traces.LanguageFromStart` | kala/src/main/java/com/mustafayigit/kala/ResourceManager.kt:15-18 | on a fresh store, the language stays "en" until `setLanguage` is called |
| `Traces.ApplyKeepsIdsResolved` | kala/src/main/java/com/mustafayigit/kala/ResourceManager.kt:58-83 | every single store call keeps "each cached id is the resolver's answer for its key under some language" |
| `Traces.RunKeepsIdsResolved` | kala/src/main/java/com/mustafayigit/kala/ResourceManager.kt:58-83 | that property holds after any sequence of calls made through one context |
| `Traces.ProviderUnchangedWithoutAssignment` | kala/src/main/java/com/mustafayigit/kala/ResourceManager.kt:22 | no store call except assigning the property changes the provider |
| `Traces.LookupsOnlyGrowTextCache` | kala/src/main/java/com/mustafayigit/kala/ResourceManager.kt:36-56 | text lookups never drop a cached text and never touch the image cache or the resolver |
| `Scenario.SampleProvider` | app/src/main/java/com/mustafayigit/kala/MainActivity.kt:74-86 | the sample provider answers only for the outsourced key, and only in "en" and "tr" |
| `Scenario.Toggled` | app/src/main/java/com/mustafayigit/kala/MainActivity.kt:25-29 | a tap under "en" switches to "tr", under "tr" switches to "en", and under any other language is ignored |
| `Scenario.Bind` | app/src/main/java/com/mustafayigit/kala/MainActivity.kt:37-46 | in a fresh process, when the table holds the label and button texts but not the outsourced one, the image cache is empty and the provider is the sample one, the four keys resolve to the cached label, the provider's answer for the current language, the cached button text, and the loaded image for `flag_<lang>` |
| `Scenario.ChangeLanguage` | app/src/main/java/com/mustafayigit/kala/MainActivity.kt:48-56 | after clear, setLanguage and the reload, the text cache is exactly that language's table, the image cache is empty, and the toast shows that table's success text |
| `Scenario.SwitchToTurkish` | app/src/main/java/com/mustafayigit/kala/MainActivity.kt:13-72 | the English screen (texts and the `flag_en` image), then after one tap the Turkish toast and the Turkish screen (texts and the `flag_tr` image) |

## Left out

- `String.format`: formatting is a caller-supplied function and stays uninterpreted. Format errors (a missing or mismatched argument) are not modelled.
- Android resources: `Resources.getIdentifier` and `ContextCompat.getDrawable` are the `resolve` and `load` functions of a `Context`. Any exception they throw is not modelled. `getIdentifier` returns 0 for a missing name; the code treats only null as a miss, so an id of 0 is cached like any other.
- `Keys.Invoke`: `invoke()` returns `T` through an unchecked cast. A null drawable would reach the caller as null. The model returns the optional handle as it is.
- Kotlin's `vararg args: Any` becomes a sequence of an arbitrary argument type `A`. The `KClass` type argument becomes the closed `Kind` datatype, with `OtherClass` for every other class.
- The singleton `object` is a class instance. Context receivers become explicit store and context parameters.
- Concurrency: the store has no synchronization, and concurrent access is not modelled.
- The provider, `resolve` and `load` are mathematical functions, so repeated calls with the same arguments give equal answers. In Kotlin the provider is any lambda and may keep state, and `ContextCompat.getDrawable` builds a new `Drawable` on every call. `StoreSpec.TextRepeatable` relies on this determinism when both lookups miss.
- `Traces.Op` has no formatting variants. `StoreSpec.TextFormatted` and `StoreSpec.FromSourceFormatted` are proved to change the store exactly as their plain forms do.
- IResourceManager.kt (an interface without behaviour) is used only as the method list. ResourceKeys.kt (constant declarations) is not part of this model beyond the five keys the scenario uses. MainActivity.kt's views, listener registration and toast display are not part of this model. The scenario keeps its call order and its string tables.
- `Scenario.Bind`: its requires (label and button texts cached, outsourced text and images not cached, the sample provider set) hold in a fresh process. When `onCreate` runs again on the retained singleton, for instance after the activity is re-created, the caches still hold the previous language's outsourced text and flag id; that run is not modelled.
