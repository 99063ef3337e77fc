/**
 * The interface language (src/LanguageContext.jsx): the English and
 * Tagalog tables, lookup with fallback to the key, and the toggle. Each
 * table is written as its keys and its texts, position by position, in the
 * order the source lists them.
 */
module Language {
  import opened Wrappers

  datatype Lang = En | Tl

  /** The keys of `translations.en`. */
  const EnglishKeys: seq<string> := [
    "hello",
    "tagline",
    "pending_reports",
    "no_pending",
    "upload_securely",
    "privacy_first",
    "privacy_desc",
    "new_report",
    "cancel",
    "save",
    "take_evidence",
    "take_evidence_desc",
    "open_camera",
    "blur_tooltip",
    "retake",
    "syncing_evidence",
    "status_connecting",
    "status_encrypting",
    "status_uploading",
    "status_verifying",
    "status_success",
    "confirm_delete",
    "confirm_discard",
    "sentiment_label",
    "sentiment_placeholder",
    "transparency_title",
    "transparency_desc",
    "total_projects",
    "total_contract_cost",
    "unique_contractors",
    "visual",
    "table",
    "cost_by_region",
    "projects_by_contractor",
    "project_desc",
    "location",
    "contractor",
    "cost",
    "date"
  ]

  /** The texts of `translations.en`, key by key. */
  const EnglishTexts: seq<string> := [
    "Hello, Citizen.",
    "Help us build a better nation by reporting unfinished projects securely.",
    "Pending Reports",
    "No pending reports",
    "Upload Securely",
    "Privacy First",
    "All photos are stripped of metadata. You can blur faces before saving.",
    "New Report",
    "Cancel",
    "Save",
    "Take Evidence Photo",
    "Capture the unfinished infrastructure. Ensure good lighting.",
    "Open Camera",
    "Tap or drag to blur details",
    "Retake Photo",
    "Syncing Evidence",
    "Establishing secure connection...",
    "Encrypting packets...",
    "Uploading to secure node...",
    "Verifying integrity...",
    "Evidence successfully uploaded.",
    "Delete this report?",
    "Discard this report?",
    "Additional Details (Optional)",
    "Describe what you see or how you feel about this...",
    "Flood Control Tracker",
    "Monitor government projects",
    "Total Projects",
    "Total Contract Cost",
    "Unique Contractors",
    "Visual",
    "Table",
    "Cost Distribution by Region",
    "Projects by Contractor",
    "Project Description",
    "Location",
    "Contractor",
    "Cost (PHP)",
    "Date"
  ]

  /** The keys of `translations.tl`. */
  const TagalogKeys: seq<string> := [
    "hello",
    "tagline",
    "pending_reports",
    "no_pending",
    "upload_securely",
    "privacy_first",
    "privacy_desc",
    "new_report",
    "cancel",
    "save",
    "take_evidence",
    "take_evidence_desc",
    "open_camera",
    "blur_tooltip",
    "retake",
    "syncing_evidence",
    "status_connecting",
    "status_encrypting",
    "status_uploading",
    "status_verifying",
    "status_success",
    "confirm_delete",
    "confirm_discard",
    "sentiment_label",
    "sentiment_placeholder",
    "transparency_title",
    "transparency_desc",
    "total_projects",
    "total_contract_cost",
    "unique_contractors",
    "visual",
    "table",
    "cost_by_region",
    "projects_by_contractor",
    "project_desc",
    "location",
    "contractor",
    "cost",
    "date"
  ]

  /** The texts of `translations.tl`, key by key. */
  const TagalogTexts: seq<string> := [
    "Kumusta, Kababayan.",
    "Tulungan kaming bumuo ng mas mabuting bansa sa pamamagitan ng ligtas na pag-uulat ng mga hindi tapos na proyekto.",
    "Mga Nakabinbing Ulat",
    "Walang nakabinbing ulat",
    "I-upload nang Ligtas",
    "Pagkapribado Una",
    "Ang lahat ng larawan ay tinatanggalan ng metadata. Maaari mong labuin ang mga mukha bago i-save.",
    "Bagong Ulat",
    "Kanselahin",
    "I-save",
    "Kumuha ng Litrato",
    "Kunan ang hindi tapos na imprastraktura. Siguraduhing maliwanag.",
    "Buksan ang Kamera",
    "Pindutin o i-drag upang labuin",
    "Kunan Ulit",
    "Nagsi-sync ng Ebidensya",
    "Nagtatatag ng ligtas na koneksyon...",
    "Ina-encrypt ang mga packet...",
    "Ina-upload sa secure node...",
    "Bina-verify ang integridad...",
    "Matagumpay na na-upload ang ebidensya.",
    "Burahin ang ulat na ito?",
    "Itapon ang ulat na ito?",
    "Karagdagang Detalye (Opsyonal)",
    "Ilarawan ang iyong nakikita o ang iyong nararamdaman tungkol dito...",
    "Flood Control Tracker",
    "Bantayan ang mga proyekto ng gobyerno",
    "Kabuuang Proyekto",
    "Kabuuang Halaga ng Kontrata",
    "Mga Natatanging Kontratista",
    "Biswal",
    "Talahanayan",
    "Pamamahagi ng Gastos bawat Rehiyon",
    "Mga Proyekto bawat Kontratista",
    "Paglalarawan ng Proyekto",
    "Lokasyon",
    "Kontratista",
    "Halaga (PHP)",
    "Petsa"
  ]

  function Keys(l: Lang): seq<string> {
    match l
    case En => EnglishKeys
    case Tl => TagalogKeys
  }

  function Texts(l: Lang): seq<string> {
    match l
    case En => EnglishTexts
    case Tl => TagalogTexts
  }

  /**
   * Property access on an object literal: the text of the key's last
   * occurrence, `None` (`undefined`) when the key is not there.
   */
  function Lookup(keys: seq<string>, texts: seq<string>, key: string): (r: Option<string>)
    ensures r.Some? ==> key in keys
    ensures key in keys && |keys| <= |texts| ==> r.Some?
    ensures r.Some? ==> exists i :: 0 <= i < |keys| && i < |texts| && keys[i] == key && texts[i] == r.value
  {
    if keys == [] then None
    else
      var i := |keys| - 1;
      if keys[i] == key then (if i < |texts| then Some(texts[i]) else None)
      else
        var r := Lookup(keys[..i], texts, key);
        assert key in keys[..i] ==> key in keys by {
          if key in keys[..i] {
            var j :| 0 <= j < i && keys[..i][j] == key;
            assert keys[j] == key;
          }
        }
        assert key in keys ==> key in keys[..i] by {
          if key in keys {
            var j :| 0 <= j < |keys| && keys[j] == key;
            assert j < i && keys[..i][j] == key;
          }
        }
        r
  }

  /** `t(key)`: `translations[language][key] || key`. */
  function T(l: Lang, key: string): (r: string)
    ensures key !in Keys(l) ==> r == key
    ensures r == key || exists i :: 0 <= i < |Keys(l)| && i < |Texts(l)| && Keys(l)[i] == key && Texts(l)[i] == r
    ensures key != "" ==> r != ""
  {
    match Lookup(Keys(l), Texts(l), key)
    case Some(text) => if text != "" then text else key
    case None => key
  }

  /** Both tables translate the same keys, in the same order. */
  lemma SameKeys()
    ensures Keys(En) == Keys(Tl)
    ensures |Keys(En)| == |Texts(En)| == |Texts(Tl)| == 39
  {
  }

  /** Every text of both tables is non-empty. */
  lemma TextsNonEmpty(l: Lang)
    ensures forall i :: 0 <= i < |Texts(l)| ==> Texts(l)[i] != ""
  {
    if l == En {
      assert forall i :: 0 <= i < |EnglishTexts| ==> EnglishTexts[i] != "";
    } else {
      assert forall i :: 0 <= i < |TagalogTexts| ==> TagalogTexts[i] != "";
    }
  }

  /** A key of the tables never falls back: it shows its text in either language. */
  lemma KnownKeyTranslates(l: Lang, key: string)
    requires key in EnglishKeys
    ensures Lookup(Keys(l), Texts(l), key).Some?
    ensures T(l, key) == Lookup(Keys(l), Texts(l), key).value && T(l, key) != ""
  {
    SameKeys();
    TextsNonEmpty(l);
  }

  /** The shell's "map_nav" label has no entry, so it shows as written. */
  lemma MapNavShowsItself(l: Lang)
    ensures T(l, "map_nav") == "map_nav"
  {
    assert "map_nav" !in Keys(l);
  }

  /** `prev === 'tl' ? 'en' : 'tl'`: always the other language, so two toggles come back. */
  function Toggled(l: Lang): (r: Lang)
    ensures r != l
    ensures l == Tl <==> r == En
  {
    if l == Tl then En else Tl
  }

  /** `LanguageProvider`'s state. */
  class LanguageState {
    var language: Lang

    /** The interface starts in Tagalog. */
    constructor ()
      ensures language == Tl
    {
      language := Tl;
    }

    /** `toggleLanguage`. */
    method Toggle()
      modifies this
      ensures language == Toggled(old(language))
    {
      language := Toggled(language);
    }

    /** `t` as the context provides it: the lookup in the current language. */
    function Translate(key: string): (r: string)
      reads this
      ensures key != "" ==> r != ""
    {
      T(language, key)
    }
  }
}
