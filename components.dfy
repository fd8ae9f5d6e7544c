/** The shared components that decide something: the language toggle and the spinner's size classes. */
module Components {
  import opened Types
  import opened Storage
  import Localisation

  const Hindi := Language(Hi, "हिंदी")

  /** The language toggleLanguage hands to setLanguage. */
  function ToggledLanguage(current: Language): (r: Language)
    ensures r.code != current.code
    ensures r == Hindi || r == Localisation.English
  {
    if current.code == En then Hindi else Localisation.English
  }

  /** English goes to Hindi, any other language to English, and two toggles restore the code. */
  lemma ToggleFlips(current: Language)
    ensures current.code == En ==> ToggledLanguage(current) == Hindi
    ensures current.code != En ==> ToggledLanguage(current) == Localisation.English
    ensures ToggledLanguage(ToggledLanguage(current)).code == current.code
    ensures ToggledLanguage(ToggledLanguage(current)) == (if current.code == En then Localisation.English else Hindi)
  {
  }

  /** LanguageToggle's click handler: one setLanguage call with the toggled language. */
  method ToggleLanguage(provider: Localisation.LanguageProvider)
    modifies provider, provider.storage
    ensures provider.language == ToggledLanguage(old(provider.language))
    ensures provider.storage.items == old(provider.storage.items)[LanguageKey := LanguageItem(provider.language)]
  {
    var newLanguage := ToggledLanguage(provider.language);
    provider.SetLanguage(newLanguage);
  }

  datatype SpinnerSize = Sm | Md | Lg

  /** LoadingSpinner's size classes; an omitted size is 'md'. */
  function SpinnerClasses(size: Option<SpinnerSize>): string {
    match (if size.Some? then size.value else Md)
    case Sm => "w-4 h-4"
    case Md => "w-8 h-8"
    case Lg => "w-12 h-12"
  }

  /** Each size has its own classes, and an omitted size gets the 'md' classes. */
  lemma SpinnerClassesDistinct(a: SpinnerSize, b: SpinnerSize)
    requires a != b
    ensures SpinnerClasses(Some(a)) != SpinnerClasses(Some(b))
    ensures SpinnerClasses(None) == SpinnerClasses(Some(Md))
  {
    match a
    case Sm => assert SpinnerClasses(Some(a))[2] == '4';
    case Md => assert SpinnerClasses(Some(a))[2] == '8';
    case Lg => assert SpinnerClasses(Some(a))[2] == '1';
  }
}
