/**
 * `CvViewerComponent` (`src/app/components/cv-viewer/cv-viewer.component.ts`):
 * the dropdown and its click-outside listener, the capped analytics log
 * kept under the `cv-analytics` storage key, the analytics summary, and
 * the language modal's outcome.
 *
 * The stored log is the field `storedLog` (an absent key is the empty
 * log); the modal's answer, the clock and the user agent are parameters.
 */
module CvViewer {
  import opened Wrappers

  /** One analytics entry as read back from storage: `lang` and `action` are whatever JSON held. */
  datatype Entry = Entry(lang: string, action: string, timestamp: int, userAgent: string)

  const LogCapacity := 100

  // ---------------------------------------------------------------------
  // The capped log

  /**
   * `saveToLocalStorage`: the entry is appended, and when the log then
   * holds more than 100 entries the oldest are dropped from the front.
   */
  function CappedLog(stored: seq<Entry>, data: Entry): (log: seq<Entry>)
    ensures |log| == if |stored| + 1 > LogCapacity then LogCapacity else |stored| + 1
    ensures log[|log| - 1] == data
    ensures log == (stored + [data])[|stored| + 1 - |log|..]
  {
    var appended := stored + [data];
    if |appended| > LogCapacity then appended[|appended| - LogCapacity..] else appended
  }

  /** A log within capacity grows by one up to 100 entries, keeping all it held when below capacity. */
  lemma CappedLogWithinCapacity(stored: seq<Entry>, data: Entry)
    requires |stored| <= LogCapacity
    ensures |CappedLog(stored, data)| == if |stored| < LogCapacity then |stored| + 1 else LogCapacity
    ensures |stored| < LogCapacity ==> CappedLog(stored, data) == stored + [data]
    ensures |stored| == LogCapacity ==> CappedLog(stored, data) == stored[1..] + [data]
  {
    if |stored| == LogCapacity {
      assert (stored + [data])[1..] == stored[1..] + [data];
    }
  }

  /** Saving repeatedly keeps the log within capacity. */
  lemma {:induction false} CappedLogStaysBounded(stored: seq<Entry>, entries: seq<Entry>)
    requires |stored| <= LogCapacity
    ensures |SaveAll(stored, entries)| <= LogCapacity
    ensures entries != [] ==> SaveAll(stored, entries)[|SaveAll(stored, entries)| - 1] == entries[|entries| - 1]
  {
    if entries != [] {
      CappedLogStaysBounded(stored, entries[..|entries| - 1]);
    }
  }

  function SaveAll(stored: seq<Entry>, entries: seq<Entry>): seq<Entry>
  {
    if entries == [] then stored else CappedLog(SaveAll(stored, entries[..|entries| - 1]), entries[|entries| - 1])
  }

  // ---------------------------------------------------------------------
  // The summary

  /** `data.filter(d => d.action === action && d.lang === lang).length`. */
  function CountOf(data: seq<Entry>, action: string, lang: string): (n: nat)
    ensures n <= |data|
  {
    if data == [] then 0
    else CountOf(data[..|data| - 1], action, lang)
         + (if data[|data| - 1].action == action && data[|data| - 1].lang == lang then 1 else 0)
  }

  /** `data.filter(d => d.lang === lang).length`. */
  function CountLang(data: seq<Entry>, lang: string): (n: nat)
    ensures n <= |data|
  {
    if data == [] then 0
    else CountLang(data[..|data| - 1], lang) + (if data[|data| - 1].lang == lang then 1 else 0)
  }

  /** An entry the component itself wrote: one of the two languages and one of the two actions. */
  predicate Recognised(e: Entry)
  {
    (e.lang == "es" || e.lang == "en") && (e.action == "download" || e.action == "view")
  }

  /** Over recognised entries the four counts partition the log, and each language's count splits by action. */
  lemma {:induction false} CountsPartition(data: seq<Entry>)
    requires forall i :: 0 <= i < |data| ==> Recognised(data[i])
    ensures CountOf(data, "download", "es") + CountOf(data, "download", "en")
            + CountOf(data, "view", "es") + CountOf(data, "view", "en") == |data|
    ensures CountLang(data, "es") == CountOf(data, "download", "es") + CountOf(data, "view", "es")
    ensures CountLang(data, "en") == CountOf(data, "download", "en") + CountOf(data, "view", "en")
  {
    if data != [] {
      CountsPartition(data[..|data| - 1]);
    }
  }

  /** `getMostPopularVersion`: the language with strictly more entries, or "equal". */
  function MostPopular(data: seq<Entry>): (r: string)
    ensures r == "es" <==> CountLang(data, "es") > CountLang(data, "en")
    ensures r == "en" <==> CountLang(data, "en") > CountLang(data, "es")
    ensures r == "equal" <==> CountLang(data, "es") == CountLang(data, "en")
  {
    var es := CountLang(data, "es");
    var en := CountLang(data, "en");
    if es > en then "es" else if en > es then "en" else "equal"
  }

  datatype Summary = Summary(total: nat, downloadsEs: nat, downloadsEn: nat, viewsEs: nat, viewsEn: nat,
                             mostPopular: string)

  /** `getAnalyticsSummary`. */
  function AnalyticsSummary(data: seq<Entry>): Summary
  {
    Summary(|data|, CountOf(data, "download", "es"), CountOf(data, "download", "en"),
            CountOf(data, "view", "es"), CountOf(data, "view", "en"), MostPopular(data))
  }

  /** Over recognised entries the summary's four counts add up to its total. */
  lemma SummaryAddsUp(data: seq<Entry>)
    requires forall i :: 0 <= i < |data| ==> Recognised(data[i])
    ensures var s := AnalyticsSummary(data);
      s.downloadsEs + s.downloadsEn + s.viewsEs + s.viewsEn == s.total
      && (s.mostPopular == "es" <==> s.downloadsEs + s.viewsEs > s.downloadsEn + s.viewsEn)
      && (s.mostPopular == "en" <==> s.downloadsEn + s.viewsEn > s.downloadsEs + s.viewsEs)
      && (s.mostPopular == "equal" <==> s.downloadsEs + s.viewsEs == s.downloadsEn + s.viewsEn)
  {
    CountsPartition(data);
  }

  // ---------------------------------------------------------------------
  // The language modal

  datatype DismissReason = Cancel | Backdrop | Esc | Close | Timer
  /** What the modal resolves with: the confirm button (whose `preConfirm` gives 'es'), or a dismissal. */
  datatype ModalOutcome = ConfirmedWith(value: string) | Dismissed(reason: DismissReason)
  datatype LanguageResult = LanguageResult(isConfirmed: bool, value: Option<string>)

  /** `showLanguageSelectionModal`: dismissing with the cancel button counts as confirming 'en'. */
  function LanguageSelection(outcome: ModalOutcome): (r: LanguageResult)
    ensures outcome == Dismissed(Cancel) ==> r == LanguageResult(true, Some("en"))
    ensures outcome.ConfirmedWith? ==> r == LanguageResult(true, Some(outcome.value))
    ensures outcome.Dismissed? && outcome.reason != Cancel ==> !r.isConfirmed
  {
    match outcome
    case ConfirmedWith(v) => LanguageResult(true, Some(v))
    case Dismissed(Cancel) => LanguageResult(true, Some("en"))
    case Dismissed(_) => LanguageResult(false, None)
  }

  /** `viewOnline`'s choice: the CV option whose language the modal confirmed, if any. */
  function ViewedLanguage(outcome: ModalOutcome): (lang: Option<string>)
    ensures lang.Some? ==> lang.value == "es" || lang.value == "en"
  {
    var r := LanguageSelection(outcome);
    if r.isConfirmed && r.value.Some? && (r.value.value == "es" || r.value.value == "en") then r.value
    else None
  }

  /** Cancel opens the English CV, the confirm button the Spanish one, any other dismissal nothing. */
  lemma ViewedLanguageCases(outcome: ModalOutcome)
    ensures outcome == Dismissed(Cancel) ==> ViewedLanguage(outcome) == Some("en")
    ensures outcome == ConfirmedWith("es") ==> ViewedLanguage(outcome) == Some("es")
    ensures outcome.Dismissed? && outcome.reason != Cancel ==> ViewedLanguage(outcome) == None
  {
  }

  // ---------------------------------------------------------------------
  // The component

  class CvViewerComponent {
    var isDropdownOpen: bool
    /** Whether `clickOutsideListener` is set (and registered on the document). */
    var hasClickOutsideListener: bool
    /** The `cv-analytics` entry of local storage. */
    var storedLog: seq<Entry>

    /** The listener is registered exactly while the dropdown is open. */
    predicate Valid()
      reads this
    {
      hasClickOutsideListener == isDropdownOpen
    }

    constructor(stored: seq<Entry>)
      ensures Valid() && !isDropdownOpen && storedLog == stored
    {
      isDropdownOpen := false;
      hasClickOutsideListener := false;
      storedLog := stored;
    }

    /** `toggleDropdown`: flips the dropdown and registers or removes the listener to match. */
    method ToggleDropdown()
      modifies this
      ensures isDropdownOpen == !old(isDropdownOpen)
      ensures hasClickOutsideListener == isDropdownOpen
      ensures storedLog == old(storedLog)
    {
      isDropdownOpen := !isDropdownOpen;
      if isDropdownOpen {
        SetupClickOutsideListener();
      } else {
        RemoveClickOutsideListener();
      }
    }

    /** `setupClickOutsideListener`, with its zero-delay timer run at once. */
    method SetupClickOutsideListener()
      modifies this
      ensures hasClickOutsideListener
      ensures isDropdownOpen == old(isDropdownOpen) && storedLog == old(storedLog)
    {
      hasClickOutsideListener := true;
    }

    /** `removeClickOutsideListener`: clears the listener if there is one. */
    method RemoveClickOutsideListener()
      modifies this
      ensures !hasClickOutsideListener
      ensures isDropdownOpen == old(isDropdownOpen) && storedLog == old(storedLog)
    {
      if hasClickOutsideListener {
        hasClickOutsideListener := false;
      }
    }

    /** `closeDropdown`: closed, with no listener, whatever the state before. */
    method CloseDropdown()
      modifies this
      ensures !isDropdownOpen && !hasClickOutsideListener && Valid()
      ensures storedLog == old(storedLog)
    {
      isDropdownOpen := false;
      RemoveClickOutsideListener();
    }

    /** `saveToLocalStorage`. */
    method SaveToLocalStorage(data: Entry)
      modifies this
      ensures storedLog == CappedLog(old(storedLog), data)
      ensures isDropdownOpen == old(isDropdownOpen) && hasClickOutsideListener == old(hasClickOutsideListener)
    {
      var analytics := storedLog + [data];
      if |analytics| > LogCapacity {
        analytics := analytics[|analytics| - LogCapacity..];
      }
      storedLog := analytics;
    }

    /** `selectCV`: logs a download of `lang` and closes the dropdown. */
    method SelectCV(lang: string, timestamp: int, userAgent: string)
      modifies this
      ensures storedLog == CappedLog(old(storedLog), Entry(lang, "download", timestamp, userAgent))
      ensures !isDropdownOpen && !hasClickOutsideListener
    {
      SaveToLocalStorage(Entry(lang, "download", timestamp, userAgent));
      CloseDropdown();
    }

    /** `viewOnline`: closes the dropdown and logs a view of the language the modal settled on, if any. */
    method ViewOnline(outcome: ModalOutcome, timestamp: int, userAgent: string)
      modifies this
      ensures !isDropdownOpen && !hasClickOutsideListener
      ensures ViewedLanguage(outcome).None? ==> storedLog == old(storedLog)
      ensures ViewedLanguage(outcome).Some? ==>
                storedLog == CappedLog(old(storedLog), Entry(ViewedLanguage(outcome).value, "view", timestamp, userAgent))
    {
      CloseDropdown();
      var lang := ViewedLanguage(outcome);
      if lang.Some? {
        SaveToLocalStorage(Entry(lang.value, "view", timestamp, userAgent));
      }
    }
  }
}
