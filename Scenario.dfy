/**
 * The sample application's use of the store: English texts and a provider
 * for one outsourced text, then a tap that switches to Turkish by clearing
 * and reloading the store.  What each key shows is derived from the
 * store's contracts alone.
 */
module Scenario {
  import opened Wrappers
  import opened StoreSpec
  import opened Manager
  import opened Keys

  const Hello: ResourceKey := Of(StringClass, "app.strings.hello")
  const ChangeLanguageKey: ResourceKey := Of(StringClass, "app.strings.change_language")
  const SuccessKey: ResourceKey := Of(StringClass, "app.strings.success")
  const FromOutsource: ResourceKey := Of(StringClass, "app.strings.text_from_outsource")
  const CountryFlag: ResourceKey := Of(DrawableClass, "flag")

  /** The English table, keyed by `toString()` of the keys. */
  function EnglishStrings(): map<string, string> {
    map[ToString(Hello) := "Hello!",
        ToString(ChangeLanguageKey) := "Change Language",
        ToString(SuccessKey) := "Success!"]
  }

  /** The Turkish table, keyed by `toString()` of the keys. */
  function TurkishStrings(): map<string, string> {
    map[ToString(Hello) := "Merhaba!",
        ToString(ChangeLanguageKey) := "Dil Değiştir",
        ToString(SuccessKey) := "Başarılı!"]
  }

  /** The sample application's provider: one text per language, null otherwise. */
  function SampleProvider(lang: string, key: string): (r: Option<string>)
    ensures r.Some? <==> key == "app.strings.text_from_outsource" && (lang == "en" || lang == "tr")
  {
    if key != ToString(FromOutsource) then None
    else if lang == "en" then Some("This text is from cache.")
    else if lang == "tr" then Some("Bu metin cache'ten alındı.")
    else None
  }

  /** The language a tap switches to: "en" and "tr" swap, any other language ignores the tap. */
  function Toggled(lang: string): (r: Option<string>)
    ensures lang == "en" ==> r == Some("tr")
    ensures lang == "tr" ==> r == Some("en")
    ensures lang != "en" && lang != "tr" ==> r == None
  {
    if lang == "tr" then Some("en") else if lang == "en" then Some("tr") else None
  }

  /** A host with one image per language, "flag_en" and "flag_tr", each of which loads. */
  function FlagContext(): Context<int> {
    Context(
      name => if name == "flag_en" then Some(1) else if name == "flag_tr" then Some(2) else None,
      id => Some(id))
  }

  /** What one binding puts on screen. */
  datatype Screen = Screen(labelText: Result<Value<int>>, description: Result<Value<int>>,
                           button: Result<Value<int>>, icon: Result<Value<int>>)

  /**
   * `bindResources`: the four keys resolved in order, on a store whose table
   * holds the label and button texts but not the outsourced one.
   */
  method Bind(store: ResourceManager, ctx: Context<int>) returns (screen: Screen)
    requires ToString(Hello) in store.strings && ToString(ChangeLanguageKey) in store.strings
    requires ToString(FromOutsource) !in store.strings && store.drawables == map[]
    requires store.outsourceStringProvider == Some(SampleProvider)
    modifies store
    ensures store.outsourceStringProvider == old(store.outsourceStringProvider)
    ensures store.currentLang == old(store.currentLang)
    ensures screen.labelText == Success(TextValue(old(store.strings)[ToString(Hello)]))
    ensures screen.description ==
              Success(TextValue(SampleProvider(old(store.currentLang), ToString(FromOutsource)).GetOr("")))
    ensures screen.button == Success(TextValue(old(store.strings)[ToString(ChangeLanguageKey)]))
    ensures var id := ctx.resolve(ToString(CountryFlag) + "_" + old(store.currentLang));
            screen.icon == Success(ImageValue(if id.Some? then ctx.load(id.value) else None))
  {
    var labelText := Invoke(Hello, store, ctx);
    assert ToString(FromOutsource) != ToString(Hello);
    var description := Invoke(FromOutsource, store, ctx);
    assert ToString(FromOutsource) != ToString(ChangeLanguageKey);
    var button := Invoke(ChangeLanguageKey, store, ctx);
    var icon := Invoke(CountryFlag, store, ctx);
    screen := Screen(labelText, description, button, icon);
  }

  /**
   * `changeLanguage(lang)`: clear, set the language, load that language's
   * table, then resolve the success message for the toast.
   */
  method ChangeLanguage(store: ResourceManager, ctx: Context<int>, lang: string) returns (toast: Result<Value<int>>)
    modifies store
    ensures var table := if lang == "en" then EnglishStrings() else TurkishStrings();
            store.strings == table && toast == Success(TextValue(table[ToString(SuccessKey)]))
    ensures store.drawables == map[] && store.currentLang == lang
    ensures store.outsourceStringProvider == old(store.outsourceStringProvider)
  {
    store.Clear();
    store.SetLanguage(lang);
    var table := if lang == "en" then EnglishStrings() else TurkishStrings();
    store.ProvideStrings(table);
    toast := Invoke(SuccessKey, store, ctx);
  }

  /**
   * `onCreate` followed by one tap on the button: the English screen, the
   * Turkish success toast, then the Turkish screen.
   */
  method SwitchToTurkish() returns (english: Screen, toast: Result<Value<int>>, turkish: Screen)
    ensures english == Screen(Success(TextValue("Hello!")), Success(TextValue("This text is from cache.")),
                              Success(TextValue("Change Language")), Success(ImageValue(Some(1))))
    ensures toast == Success(TextValue("Başarılı!"))
    ensures turkish == Screen(Success(TextValue("Merhaba!")), Success(TextValue("Bu metin cache'ten alındı.")),
                              Success(TextValue("Dil Değiştir")), Success(ImageValue(Some(2))))
  {
    var store := new ResourceManager();
    var ctx := FlagContext();
    store.SetProvider(Some(SampleProvider));
    store.SetLanguage("en");
    store.ProvideStrings(EnglishStrings());
    english := Bind(store, ctx);
    assert ToString(CountryFlag) + "_" + "en" == "flag_en";

    var current := store.GetCurrentLanguage();
    var next := Toggled(current);
    toast := ChangeLanguage(store, ctx, next.value);
    turkish := Bind(store, ctx);
    assert ToString(CountryFlag) + "_" + "tr" == "flag_tr";
  }
}
