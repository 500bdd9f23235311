/**
 * Sequences of store operations, as a host application issues them on the
 * singleton, and what holds after any such sequence.
 */
module Traces {
  import opened Wrappers
  import opened StoreSpec

  /** One call on the store.  The formatting variants change the store as their plain forms do. */
  datatype Op =
    | SetLanguageOp(lang: string)
    | SetProviderOp(p: Option<Provider>)
    | ProvideStringsOp(m: map<string, string>)
    | GetStringOp(key: string)
    | GetStringFromSourceOp(key: string)
    | GetDrawableOp(key: string)
    | ClearOp

  function Apply<H>(st: State, ctx: Context<H>, op: Op): State {
    match op
    case SetLanguageOp(lang) => SetLanguage(st, lang)
    case SetProviderOp(p) => SetProvider(st, p)
    case ProvideStringsOp(m) => ProvideStrings(st, m)
    case GetStringOp(key) => Text(st, key).next
    case GetStringFromSourceOp(key) => FromSource(st, key).next
    case GetDrawableOp(key) => Image(st, ctx, key).next
    case ClearOp => Clear(st)
  }

  /** The store after the operations, in order, all made through `ctx`. */
  function Run<H>(st: State, ctx: Context<H>, ops: seq<Op>): State
    decreases |ops|
  {
    if ops == [] then st else Run(Apply(st, ctx, ops[0]), ctx, ops[1..])
  }

  /** The argument of the last `setLanguage` in `ops`, or `lang` when there is none. */
  function LastLanguage(ops: seq<Op>, lang: string): string
    decreases |ops|
  {
    if ops == [] then lang
    else LastLanguage(ops[1..], if ops[0].SetLanguageOp? then ops[0].lang else lang)
  }

  /** Only `setLanguage` changes the language: the current language is the last one set. */
  lemma {:induction false} LanguageIsLastSet<H>(st: State, ctx: Context<H>, ops: seq<Op>)
    ensures Run(st, ctx, ops).lang == LastLanguage(ops, st.lang)
    decreases |ops|
  {
    if ops != [] {
      LanguageIsLastSet(Apply(st, ctx, ops[0]), ctx, ops[1..]);
    }
  }

  /** From a fresh store, the language is "en" until `setLanguage` is called. */
  lemma LanguageFromStart<H>(ctx: Context<H>, ops: seq<Op>)
    requires forall i :: 0 <= i < |ops| ==> !ops[i].SetLanguageOp?
    ensures Run(Initial, ctx, ops).lang == "en"
  {
    LanguageIsLastSet(Initial, ctx, ops);
    NoSetLanguageKeepsDefault(ops, "en");
  }

  lemma {:induction false} NoSetLanguageKeepsDefault(ops: seq<Op>, lang: string)
    requires forall i :: 0 <= i < |ops| ==> !ops[i].SetLanguageOp?
    ensures LastLanguage(ops, lang) == lang
    decreases |ops|
  {
    if ops != [] {
      NoSetLanguageKeepsDefault(ops[1..], lang);
    }
  }

  /**
   * Every cached image id was returned by the resolver for its key under
   * some language, the one current when it was cached.
   */
  ghost predicate IdsResolved(drawables: map<string, int>, resolve: string -> Option<int>) {
    forall k :: k in drawables ==> exists lang :: resolve(QualifiedName(k, lang)) == Some(drawables[k])
  }

  lemma ApplyKeepsIdsResolved<H>(st: State, ctx: Context<H>, op: Op)
    requires IdsResolved(st.drawables, ctx.resolve)
    ensures IdsResolved(Apply(st, ctx, op).drawables, ctx.resolve)
  {
  }

  /** The image cache only ever holds ids the resolver produced, across any sequence of calls. */
  lemma {:induction false} RunKeepsIdsResolved<H>(st: State, ctx: Context<H>, ops: seq<Op>)
    requires IdsResolved(st.drawables, ctx.resolve)
    ensures IdsResolved(Run(st, ctx, ops).drawables, ctx.resolve)
    decreases |ops|
  {
    if ops != [] {
      ApplyKeepsIdsResolved(st, ctx, ops[0]);
      RunKeepsIdsResolved(Apply(st, ctx, ops[0]), ctx, ops[1..]);
    }
  }

  /** Nothing but assigning the property changes the provider. */
  lemma {:induction false} ProviderUnchangedWithoutAssignment<H>(st: State, ctx: Context<H>, ops: seq<Op>)
    requires forall i :: 0 <= i < |ops| ==> !ops[i].SetProviderOp?
    ensures Run(st, ctx, ops).provider == st.provider
    decreases |ops|
  {
    if ops != [] {
      ProviderUnchangedWithoutAssignment(Apply(st, ctx, ops[0]), ctx, ops[1..]);
    }
  }

  /**
   * Text lookups only grow the text cache: after any run of `getString`
   * and `getStringFromSource` calls, every key cached before is still
   * cached, and no image entry or probe changes.
   */
  lemma {:induction false} LookupsOnlyGrowTextCache<H>(st: State, ctx: Context<H>, ops: seq<Op>)
    requires forall i :: 0 <= i < |ops| ==> ops[i].GetStringOp? || ops[i].GetStringFromSourceOp?
    ensures st.strings.Keys <= Run(st, ctx, ops).strings.Keys
    ensures Run(st, ctx, ops).drawables == st.drawables && Run(st, ctx, ops).probed == st.probed
    decreases |ops|
  {
    if ops != [] {
      LookupsOnlyGrowTextCache(Apply(st, ctx, ops[0]), ctx, ops[1..]);
    }
  }
}
