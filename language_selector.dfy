/**
 * The language switch: the fixed list of language tabs and the handler a tab
 * calls with its short name.
 */
module LanguageSelector {

  import opened Wrappers
  import opened Translation
  import opened AppContext

  /** Storage key of the persisted language. */
  const LanguageKey: string := "language"

  /** One language tab: its display name and the short code it reports. */
  datatype LanguageOption = LanguageOption(name: string, sortName: string)

  /** `LanguageData`: English then Arabic. */
  const LanguageData: seq<LanguageOption> :=
    [LanguageOption("English", "en"), LanguageOption("عربي", "ar")]

  /** The codes the tabs can report. */
  function SortNames(data: seq<LanguageOption>): (r: seq<string>)
    ensures |r| == |data|
    ensures forall i :: 0 <= i < |data| ==> r[i] == data[i].sortName
  {
    if data == [] then [] else [data[0].sortName] + SortNames(data[1..])
  }

  /** The tabs offer exactly `en` and then `ar`. */
  lemma LanguageOptionsAreEnglishThenArabic()
    ensures SortNames(LanguageData) == ["en", "ar"]
  {
  }

  /** The two language slots the handler touches: the i18n instance's and the
      context's. */
  datatype Languages = Languages(i18n: string, context: string)

  /** `changeLanguage(lng)` with the save outcome: a no-op for the current i18n
      language; otherwise i18n switches at once and the context follows only
      once the save has succeeded (a failed save is not caught or undone). */
  function ChangeLanguageStep(l: Languages, lng: string, saved: bool): (r: Languages)
    ensures r.i18n == lng
    ensures l.i18n == lng ==> r == l
    ensures r.context == lng <==> l.context == lng || (l.i18n != lng && saved)
    ensures r.context != lng ==> r.context == l.context
  {
    if l.i18n == lng then l
    else Languages(lng, if saved then lng else l.context)
  }

  /** Choosing the current language changes nothing. */
  lemma CurrentLanguageIsNoOp(l: Languages, saved: bool)
    ensures ChangeLanguageStep(l, l.i18n, saved) == l
  {
  }

  /** Any other choice moves i18n to it at once, and the context to it exactly
      when the save succeeds (or already held it). */
  lemma OtherLanguageSwitches(l: Languages, lng: string, saved: bool)
    requires l.i18n != lng
    ensures ChangeLanguageStep(l, lng, saved).i18n == lng
    ensures ChangeLanguageStep(l, lng, saved).context == lng <==> saved || l.context == lng
  {
  }

  /** Starting in sync, the two slots stay in sync exactly when the choice was
      the current language or the save succeeded: a failed save leaves them
      diverged. */
  lemma SyncKeptIffSavedOrCurrent(l: Languages, lng: string, saved: bool)
    requires l.i18n == l.context
    ensures var r := ChangeLanguageStep(l, lng, saved);
            r.i18n == r.context <==> l.i18n == lng || saved
  {
  }

  /** `changeLanguage(lng)` on the shared i18n instance and the provider.
      Returns the value written under `LanguageKey`, if a save was issued. */
  method ChangeLanguage(lng: string, i18n: I18n, app: AppProvider, saved: bool)
      returns (key: string, write: Option<string>)
    modifies i18n, app
    ensures Languages(i18n.language, app.language)
            == ChangeLanguageStep(Languages(old(i18n.language), old(app.language)), lng, saved)
    ensures old(i18n.language) == lng ==> write == None && app.Snapshot() == old(app.Snapshot())
    ensures old(i18n.language) != lng ==> key == LanguageKey && write == Some(lng)
    ensures old(i18n.language) != lng ==>
              app.Snapshot() == if saved then SetLanguageStep(old(app.Snapshot()), lng) else old(app.Snapshot())
  {
    key := LanguageKey;
    if i18n.language == lng {
      return key, None;
    }
    i18n.ChangeLanguage(lng);
    write := Some(lng);
    if saved {
      app.SetLanguage(lng);
    }
  }
}
