/**
 * `ResourceKey` of ResourceKey.kt: an immutable (type, identifier) pair and
 * the dispatch of its `invoke` operators onto the store.
 */
module Keys {
  import opened Wrappers
  import opened StoreSpec
  import opened Manager

  /** The key's type argument: `String::class`, `Drawable::class`, or any other class. */
  datatype Kind = StringClass | DrawableClass | OtherClass(name: string)

  datatype ResourceKey = ResourceKey(kind: Kind, key: string)

  /** What a no-argument `invoke` yields: a text, or a drawable that may be null. */
  datatype Value<H> = TextValue(text: string) | ImageValue(image: Option<H>)

  /** Message of the `IllegalArgumentException` for an unsupported type. */
  const UnsupportedType: string := "Resource type is not supported"

  /** The companion factory `ResourceKey<T>(key)`. */
  function Of(kind: Kind, key: string): (rk: ResourceKey)
    ensures rk.kind == kind && ToString(rk) == key
  {
    ResourceKey(kind, key)
  }

  /** `toString()`: the identifier, which callers use to key bulk text tables. */
  function ToString(rk: ResourceKey): (s: string)
    ensures s == rk.key
  {
    rk.key
  }

  /**
   * The factory keeps the identifier and type it is given, and `toString`
   * gives the identifier back.  The second clause is about the model's value
   * equality: two keys built from one identifier are equal values exactly
   * when their types agree.  Kotlin's `ResourceKey` has no `equals`, so there
   * two such keys are distinct objects.
   */
  lemma OfToString(kind: Kind, key: string)
    ensures ToString(Of(kind, key)) == key && Of(kind, key).kind == kind
    ensures forall k' :: Of(k', key) == Of(kind, key) ==> k' == kind
  {
  }

  /**
   * No-argument `invoke()`: text keys go to `getString`, drawable keys to
   * `getDrawable`, and any other type fails without touching the store.
   */
  function Invoked<H>(rk: ResourceKey, st: State, ctx: Context<H>): (r: Step<Result<Value<H>>>)
    ensures rk.kind == StringClass ==>
              r.out == Success(TextValue(Text(st, rk.key).out)) && r.next == Text(st, rk.key).next
    ensures rk.kind == DrawableClass ==>
              r.out == Success(ImageValue(Image(st, ctx, rk.key).out)) && r.next == Image(st, ctx, rk.key).next
    ensures rk.kind.OtherClass? ==> r == Step(Failure(UnsupportedType), st)
  {
    match rk.kind
    case StringClass =>
      var s := Text(st, rk.key);
      Step(Success(TextValue(s.out)), s.next)
    case DrawableClass =>
      var s := Image(st, ctx, rk.key);
      Step(Success(ImageValue(s.out)), s.next)
    case OtherClass(_) =>
      Step(Failure(UnsupportedType), st)
  }

  /** `invoke()` on the store, in the context the caller supplies. */
  method Invoke<H>(rk: ResourceKey, store: ResourceManager, ctx: Context<H>) returns (r: Result<Value<H>>)
    modifies store
    ensures Step(r, store.Snapshot()) == Invoked(rk, old(store.Snapshot()), ctx)
  {
    match rk.kind
    case StringClass =>
      var s := store.GetString(rk.key);
      r := Success(TextValue(s));
    case DrawableClass =>
      var d := store.GetDrawable(ctx, rk.key);
      r := Success(ImageValue(d));
    case OtherClass(_) =>
      r := Failure(UnsupportedType);
  }

  /** `invoke(vararg args)`: always the formatting text lookup, whatever the key's type. */
  method InvokeWithArgs<A>(rk: ResourceKey, store: ResourceManager, args: seq<A>, format: (string, seq<A>) -> string)
    returns (s: string)
    modifies store
    ensures Step(s, store.Snapshot()) == TextFormatted(old(store.Snapshot()), rk.key, args, format)
  {
    s := store.GetStringWithArgs(rk.key, args, format);
  }

  /**
   * A bulk table keyed by `toString()` of a text key makes `invoke()` of that
   * key return the table's text, without calling the provider.
   */
  lemma TableKeyedByToString<H>(rk: ResourceKey, v: string, st: State, ctx: Context<H>)
    requires rk.kind == StringClass
    ensures var s := ProvideStrings(st, map[ToString(rk) := v]);
            Invoked(rk, s, ctx) == Step(Success(TextValue(v)), s)
  {
  }

  /** `invoke()` of a String key leaves the image cache alone, and of a Drawable key the text cache. */
  lemma KindSelectsCache<H>(key: string, st: State, ctx: Context<H>)
    ensures Invoked(Of(StringClass, key), st, ctx).next.drawables == st.drawables
    ensures Invoked(Of(DrawableClass, key), st, ctx).next.strings == st.strings
  {
  }
}
