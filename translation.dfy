/**
 * Display-string lookup of the main dashboard (`LANGUAGES` and `get_text` in
 * app.py). The current language is a parameter: the source reads it from the
 * session, where the language selector always stores one of the table's names.
 */
module Translation {

  const English := "English"
  const Hindi := "हिंदी"

  const EnglishTable: map<string, string> := map[
    "app_title" := "Digital Farm Management Portal",
    "welcome" := "Welcome to Digital Farm Management Portal",
    "description" := "Comprehensive biosecurity and disease prevention solution for pig and poultry farmers",
    "home" := "Home",
    "risk_assessment" := "Risk Assessment",
    "training" := "Training Modules",
    "compliance" := "Compliance Tracking",
    "alerts" := "Alerts & Notifications",
    "monitoring" := "Monitoring Dashboard",
    "networking" := "Farmer Network",
    "data_export" := "Data Export",
    "language" := "Language",
    "farm_type" := "Farm Type",
    "pig" := "Pig",
    "poultry" := "Poultry",
    "submit" := "Submit",
    "save" := "Save",
    "download" := "Download",
    "upload" := "Upload",
    "view_details" := "View Details",
    "mark_completed" := "Mark as Completed",
    "in_progress" := "In Progress",
    "completed" := "Completed",
    "pending" := "Pending",
    "verified" := "Verified",
    "low_risk" := "Low Risk",
    "medium_risk" := "Medium Risk",
    "high_risk" := "High Risk"
  ]

  const HindiTable: map<string, string> := map[
    "app_title" := "डिजिटल फार्म प्रबंधन पोर्टल",
    "welcome" := "डिजिटल फार्म प्रबंधन पोर्टल में आपका स्वागत है",
    "description" := "सुअर और मुर्गी पालन किसानों के लिए व्यापक जैव सुरक्षा और रोग निवारण समाधान",
    "home" := "होम",
    "risk_assessment" := "जोखिम मूल्यांकन",
    "training" := "प्रशिक्षण मॉड्यूल",
    "compliance" := "अनुपालन ट्रैकिंग",
    "alerts" := "अलर्ट और सूचनाएं",
    "monitoring" := "निगरानी डैशबोर्ड",
    "networking" := "किसान नेटवर्क",
    "data_export" := "डेटा निर्यात",
    "language" := "भाषा",
    "farm_type" := "फार्म प्रकार",
    "pig" := "सुअर",
    "poultry" := "मुर्गी पालन",
    "submit" := "जमा करें",
    "save" := "सेव करें",
    "download" := "डाउनलोड",
    "upload" := "अपलोड",
    "view_details" := "विवरण देखें",
    "mark_completed" := "पूर्ण के रूप में चिह्नित करें",
    "in_progress" := "प्रगति में",
    "completed" := "पूर्ण",
    "pending" := "लंबित",
    "verified" := "सत्यापित",
    "low_risk" := "कम जोखिम",
    "medium_risk" := "मध्यम जोखिम",
    "high_risk" := "उच्च जोखिम"
  ]

  /** `LANGUAGES`: language name to its table of display strings. */
  const Languages: map<string, map<string, string>> := map[English := EnglishTable, Hindi := HindiTable]

  /**
   * `get_text`: the current language's table (the English table when the
   * language is unknown), then the entry for `key`, or `key` itself when the
   * table has none. The result is always a string.
   */
  function GetText(languages: map<string, map<string, string>>, language: string, key: string): (r: string)
    requires English in languages
    ensures language in languages && key in languages[language] ==> r == languages[language][key]
    ensures language !in languages && key in languages[English] ==> r == languages[English][key]
    ensures language in languages && key !in languages[language] ==> r == key
    ensures language !in languages && key !in languages[English] ==> r == key
  {
    var table := if language in languages then languages[language] else languages[English];
    if key in table then table[key] else key
  }

  /** An unknown language reads exactly like English. */
  lemma UnknownLanguageIsEnglish(languages: map<string, map<string, string>>, language: string, key: string)
    requires English in languages
    requires language !in languages
    ensures GetText(languages, language, key) == GetText(languages, English, key)
  {
  }

  /** Both shipped tables define the same keys. */
  lemma TablesShareKeys()
    ensures HindiTable.Keys == EnglishTable.Keys
  {
  }

  /**
   * With the shipped tables, every language (known or not) translates a key
   * exactly when the English table has it; otherwise the key comes back.
   */
  lemma TranslatedIffEnglishHasKey(language: string, key: string)
    ensures var table := if language == Hindi then HindiTable else EnglishTable;
      key in EnglishTable ==> GetText(Languages, language, key) == table[key]
    ensures key !in EnglishTable ==> GetText(Languages, language, key) == key
  {
    TablesShareKeys();
  }
}
