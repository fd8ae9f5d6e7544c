/**
 * Localisation (LanguageContext): two translation tables, a lookup that falls back to the key itself,
 * and the current language, persisted under `voting_language`.
 */
module Localisation {
  import opened Types
  import opened Storage

  const English := Language(En, "English")

  const EnglishTable: map<string, string> := map[
    "landing.title" := "Futuristic Voting System",
    "landing.subtitle" := "Secure, Transparent, Democratic",
    "landing.login" := "Login",
    "landing.username" := "Username",
    "landing.password" := "Password",
    "landing.comingSoon" := "Coming Soon",
    "landing.aadharSupport" := "Aadhar Support",
    "landing.panSupport" := "PAN Support",
    "landing.voterIdSupport" := "Voter ID Support",
    "voter.title" := "Voter Verification",
    "voter.aadhar" := "Aadhar Number",
    "voter.pan" := "PAN Number",
    "voter.voterId" := "Voter ID Number",
    "voter.phone" := "Phone Number",
    "voter.otp" := "Enter OTP",
    "voter.verify" := "Verify",
    "voter.sendOtp" := "Send OTP",
    "biometric.title" := "Biometric Verification",
    "biometric.facePrompt" := "Place your face in the frame",
    "biometric.eyePrompt" := "Place left eye in the scanner",
    "biometric.moveForward" := "Move forward",
    "biometric.verified" := "Verified",
    "voting.title" := "Cast Your Vote",
    "voting.privacyCheck" := "Privacy Verification",
    "voting.privacyVerified" := "Privacy Verified - You are alone",
    "voting.selectCandidate" := "Select Your Candidate",
    "confirmation.title" := "Confirm Your Vote",
    "confirmation.selected" := "You have selected:",
    "confirmation.confirm" := "Confirm Vote",
    "confirmation.back" := "Go Back",
    "receipt.title" := "Vote Receipt",
    "receipt.voteId" := "Vote ID:",
    "receipt.timestamp" := "Timestamp:",
    "receipt.blockchain" := "Blockchain integration coming soon",
    "common.next" := "Next",
    "common.back" := "Back",
    "common.loading" := "Loading...",
    "common.error" := "Error occurred",
    "language.toggle" := "हिंदी",
    "language.moreComingSoon" := "More languages coming soon"
  ]

  const HindiTable: map<string, string> := map[
    "landing.title" := "भविष्य की मतदान प्रणाली",
    "landing.subtitle" := "सुरक्षित, पारदर्शी, लोकतांत्रिक",
    "landing.login" := "लॉगिन",
    "landing.username" := "उपयोगकर्ता नाम",
    "landing.password" := "पासवर्ड",
    "landing.comingSoon" := "जल्द आ रहा है",
    "landing.aadharSupport" := "आधार समर्थन",
    "landing.panSupport" := "पैन समर्थन",
    "landing.voterIdSupport" := "मतदाता पहचान समर्थन",
    "voter.title" := "मतदाता सत्यापन",
    "voter.aadhar" := "आधार संख्या",
    "voter.pan" := "पैन संख्या",
    "voter.voterId" := "मतदाता पहचान संख्या",
    "voter.phone" := "फोन नंबर",
    "voter.otp" := "ओटीपी दर्ज करें",
    "voter.verify" := "सत्यापित करें",
    "voter.sendOtp" := "ओटीपी भेजें",
    "biometric.title" := "बायोमेट्रिक सत्यापन",
    "biometric.facePrompt" := "अपना चेहरा फ्रेम में रखें",
    "biometric.eyePrompt" := "बाईं आंख को स्कैनर में रखें",
    "biometric.moveForward" := "आगे बढ़ें",
    "biometric.verified" := "सत्यापित",
    "voting.title" := "अपना वोट डालें",
    "voting.privacyCheck" := "गोपनीयता सत्यापन",
    "voting.privacyVerified" := "गोपनीयता सत्यापित - आप अकेले हैं",
    "voting.selectCandidate" := "अपना उम्मीदवार चुनें",
    "confirmation.title" := "अपने वोट की पुष्टि करें",
    "confirmation.selected" := "आपने चुना है:",
    "confirmation.confirm" := "वोट की पुष्टि करें",
    "confirmation.back" := "वापस जाएं",
    "receipt.title" := "वोट रसीद",
    "receipt.voteId" := "वोट आईडी:",
    "receipt.timestamp" := "समय:",
    "receipt.blockchain" := "ब्लॉकचेन एकीकरण जल्द आ रहा है",
    "common.next" := "अगला",
    "common.back" := "वापस",
    "common.loading" := "लोड हो रहा है...",
    "common.error" := "त्रुटि हुई",
    "language.toggle" := "English",
    "language.moreComingSoon" := "अधिक भाषाएं जल्द आ रही हैं"
  ]

  function Table(code: LangCode): map<string, string> {
    match code
    case En => EnglishTable
    case Hi => HindiTable
  }

  /** `translations[code][key] || key`: an absent or empty entry falls back to the key. */
  function Translate(code: LangCode, key: string): (r: string)
    ensures r == key || (key in Table(code) && r == Table(code)[key] != "")
    ensures key in Table(code) && Table(code)[key] != "" ==> r == Table(code)[key]
  {
    if key in Table(code) && Table(code)[key] != "" then Table(code)[key] else key
  }

  /** Both tables define the same keys, and no entry is empty. */
  lemma TablesAgreeOnKeys()
    ensures EnglishTable.Keys == HindiTable.Keys
    ensures forall k :: k in EnglishTable ==> EnglishTable[k] != ""
    ensures forall k :: k in HindiTable ==> HindiTable[k] != ""
  {
  }

  /** A key of either table is translated from the table, in both languages. */
  lemma KnownKeyIsTranslated(code: LangCode, key: string)
    requires key in EnglishTable || key in HindiTable
    ensures key in Table(code) && Translate(code, key) == Table(code)[key]
  {
    TablesAgreeOnKeys();
  }

  /** A key in neither table comes back unchanged, whatever the language. */
  lemma UnknownKeyIsItself(code: LangCode, key: string)
    requires key !in EnglishTable
    ensures Translate(code, key) == key
  {
    TablesAgreeOnKeys();
  }

  /** The language a fresh provider starts with: the persisted one, else English. */
  function SavedLanguage(items: map<string, Item>): (l: Language)
    ensures LanguageKey !in items ==> l == English
    ensures LanguageKey in items && items[LanguageKey].LanguageItem? ==> l == items[LanguageKey].language
  {
    if LanguageKey in items && items[LanguageKey].LanguageItem? then items[LanguageKey].language else English
  }

  class LanguageProvider {
    var language: Language
    const storage: LocalStorage

    constructor (storage: LocalStorage)
      ensures this.storage == storage && language == SavedLanguage(storage.items)
    {
      this.storage := storage;
      language := SavedLanguage(storage.items);
    }

    method SetLanguage(newLanguage: Language)
      modifies this, storage
      ensures language == newLanguage
      ensures storage.items == old(storage.items)[LanguageKey := LanguageItem(newLanguage)]
      ensures SavedLanguage(storage.items) == language
    {
      language := newLanguage;
      storage.SetItem(LanguageKey, LanguageItem(newLanguage));
    }

    /** t(key) in the current language. */
    function T(key: string): (r: string)
      reads this
      ensures key in EnglishTable ==> r == Table(language.code)[key]
      ensures key !in EnglishTable ==> r == key
    {
      if key in EnglishTable then
        KnownKeyIsTranslated(language.code, key);
        Translate(language.code, key)
      else
        UnknownKeyIsItself(language.code, key);
        Translate(language.code, key)
    }
  }
}
