/**
 * `HomeComponent` (`src/app/components/home/home.component.ts`): the
 * typewriter that types and erases the six roles in turn, the contact
 * links, and the one-at-a-time lazy loading of the CV viewer.
 *
 * Each timer callback of the typewriter is one `Tick`; each `await` of
 * a dynamic import splits a loader into a start and a settle step; the
 * window that `window.open` would show is the log `openedUrls`.
 */
module Home {
  import opened Wrappers

  const Roles: seq<string> := [
    "Full Stack Developer", "Angular Specialist", "Frontend Expert",
    "Backend Developer", "Tech Lead", "Digital Innovator"
  ]

  // ---------------------------------------------------------------------
  // Role rotation

  /** The role after `index`, wrapping from the last to the first. */
  function NextRole(index: int): (next: int)
    requires 0 <= index < |Roles|
    ensures 0 <= next < |Roles|
    ensures next == if index + 1 < |Roles| then index + 1 else 0
  {
    (index + 1) % |Roles|
  }

  function Rotate(index: int, n: nat): int
    requires 0 <= index < |Roles|
    ensures 0 <= Rotate(index, n) < |Roles|
  {
    if n == 0 then index else NextRole(Rotate(index, n - 1))
  }

  /** Up to six rotations move the index `n` places, wrapping once. */
  lemma {:induction false} RotateWraps(index: int, n: nat)
    requires 0 <= index < |Roles| && n <= |Roles|
    ensures Rotate(index, n) == if index + n < |Roles| then index + n else index + n - |Roles|
  {
    if n > 0 {
      RotateWraps(index, n - 1);
    }
  }

  /** Six rotations bring the typewriter back to the role it started from. */
  lemma SixRotations(index: int)
    requires 0 <= index < |Roles|
    ensures Rotate(index, 6) == index
  {
    RotateWraps(index, 6);
  }

  // ---------------------------------------------------------------------
  // Contact links

  /** The characters JavaScript's `\s` matches, by code point: ASCII tab to carriage return and space, and the Unicode spaces, line and paragraph separators and byte-order mark. */
  predicate IsJsSpace(c: char)
  {
    var n := c as int;
    (0x09 <= n <= 0x0D) || n == 0x20 || n == 0xA0 || n == 0x1680 || (0x2000 <= n <= 0x200A)
    || n == 0x2028 || n == 0x2029 || n == 0x202F || n == 0x205F || n == 0x3000 || n == 0xFEFF
  }

  /** `s.replace(/\s+/g, '')`: every whitespace character removed, the rest in order. */
  function RemoveWhitespace(s: string): (r: string)
    ensures forall i :: 0 <= i < |r| ==> !IsJsSpace(r[i])
    ensures |r| <= |s|
    ensures (forall i :: 0 <= i < |s| ==> !IsJsSpace(s[i])) ==> r == s
    ensures |s| == 1 ==> r == (if IsJsSpace(s[0]) then [] else s)
  {
    if s == [] then []
    else if IsJsSpace(s[0]) then RemoveWhitespace(s[1..])
    else [s[0]] + RemoveWhitespace(s[1..])
  }

  /** Removing whitespace works piece by piece: the characters kept from `a + b` are those kept from `a`, then from `b`. */
  lemma {:induction false} RemoveWhitespaceAppend(a: string, b: string)
    ensures RemoveWhitespace(a + b) == RemoveWhitespace(a) + RemoveWhitespace(b)
  {
    if a == [] {
      assert a + b == b;
    } else {
      assert (a + b)[0] == a[0];
      assert (a + b)[1..] == a[1..] + b;
      RemoveWhitespaceAppend(a[1..], b);
      if !IsJsSpace(a[0]) {
        assert [a[0]] + (RemoveWhitespace(a[1..]) + RemoveWhitespace(b))
            == ([a[0]] + RemoveWhitespace(a[1..])) + RemoveWhitespace(b);
      }
    }
  }

  /** The position of the first `c` in `s`. */
  function FirstIndex(s: string, c: char): (i: nat)
    requires c in s
    ensures i < |s| && s[i] == c && c !in s[..i]
  {
    if s[0] == c then 0
    else
      var j := FirstIndex(s[1..], c);
      assert s[..j + 1] == [s[0]] + s[1..][..j];
      j + 1
  }

  /** `s.replace(c, '')` with a string pattern: only the first occurrence goes. */
  function RemoveFirst(s: string, c: char): (r: string)
    ensures c !in s ==> r == s
    ensures c in s ==> r == s[..FirstIndex(s, c)] + s[FirstIndex(s, c) + 1..] && |r| == |s| - 1
  {
    if c in s then s[..FirstIndex(s, c)] + s[FirstIndex(s, c) + 1..] else s
  }

  /** A handle with a leading '@' loses exactly that one character. */
  lemma RemoveFirstLeading(handle: string)
    ensures RemoveFirst("@" + handle, '@') == handle
  {
    assert ("@" + handle)[1..] == handle;
  }

  /** `openContact`'s address for a contact type and value; other types open nothing. */
  function ContactUrl(contactType: string, value: string): (url: Option<string>)
    ensures contactType == "email" ==> url == Some("mailto:" + value)
    ensures contactType == "whatsapp" ==> url == Some("https://wa.me/" + RemoveWhitespace(value))
    ensures contactType == "telegram" ==> url == Some("https://t.me/" + RemoveFirst(value, '@'))
    ensures contactType == "linkedin" ==> url == Some("https://" + value)
    ensures url.None? <==> contactType !in {"email", "whatsapp", "telegram", "linkedin"}
  {
    match contactType
    case "email" => Some("mailto:" + value)
    case "whatsapp" => Some("https://wa.me/" + RemoveWhitespace(value))
    case "telegram" => Some("https://t.me/" + RemoveFirst(value, '@'))
    case "linkedin" => Some("https://" + value)
    case _ => None
  }

  // ---------------------------------------------------------------------
  // The component

  /** The pending typewriter callback: `typeText(role, index)` or `eraseText(index)`. */
  datatype Phase = Typing(index: int) | Erasing(index: int)

  class HomeComponent {
    const isBrowser: bool
    var currentRoleIndex: int
    var currentText: string
    var phase: Phase
    var typewriterRunning: bool
    var openedUrls: seq<string>
    var cvViewerLoaded: bool
    var showCVLoader: bool
    var isPreloading: bool
    var fallbackShown: bool

    /**
     * The role index is in range and the text shown is the current role's
     * prefix that the pending callback last wrote.
     */
    predicate Valid()
      reads this
    {
      && 0 <= currentRoleIndex < |Roles|
      && match phase
         case Typing(k) => 0 <= k <= |Roles[currentRoleIndex]| + 1
                           && currentText == Roles[currentRoleIndex][..if k == 0 then 0 else k - 1]
         case Erasing(k) => -1 <= k <= |Roles[currentRoleIndex]|
                            && currentText == Roles[currentRoleIndex][..if k == |Roles[currentRoleIndex]| then k else k + 1]
    }

    /** The component before `ngOnInit`; `isPreloading` starts undefined, that is falsy. */
    constructor(isBrowser: bool)
      ensures this.isBrowser == isBrowser && Valid()
      ensures currentRoleIndex == 0 && currentText == "" && phase == Typing(0) && !typewriterRunning
      ensures openedUrls == [] && !cvViewerLoaded && !showCVLoader && !isPreloading && !fallbackShown
    {
      this.isBrowser := isBrowser;
      currentRoleIndex := 0;
      currentText := "";
      phase := Typing(0);
      typewriterRunning := false;
      openedUrls := [];
      cvViewerLoaded := false;
      showCVLoader := false;
      isPreloading := false;
      fallbackShown := false;
    }

    /** `startTypewriterImproved`: the typewriter runs only in a browser. */
    method StartTypewriter()
      modifies this
      ensures typewriterRunning == (old(typewriterRunning) || isBrowser)
      ensures currentRoleIndex == old(currentRoleIndex) && currentText == old(currentText) && phase == old(phase)
      ensures openedUrls == old(openedUrls) && cvViewerLoaded == old(cvViewerLoaded)
      ensures showCVLoader == old(showCVLoader) && isPreloading == old(isPreloading) && fallbackShown == old(fallbackShown)
    {
      if isBrowser {
        typewriterRunning := true;
      }
    }

    /**
     * One typewriter callback. Typing writes the role's prefix of length
     * `index` and moves on, or past the end starts erasing from the full
     * length; erasing writes a prefix one shorter each time, and past the
     * empty prefix moves to the next role.
     */
    method Tick()
      requires Valid()
      modifies this
      ensures Valid()
      ensures !typewriterRunning ==> currentText == old(currentText) && phase == old(phase)
      ensures typewriterRunning && old(phase) == Erasing(-1) ==> currentRoleIndex == NextRole(old(currentRoleIndex))
      ensures !(typewriterRunning && old(phase) == Erasing(-1)) ==> currentRoleIndex == old(currentRoleIndex)
      ensures typewriterRunning && old(phase).Typing? && old(phase).index <= |Roles[old(currentRoleIndex)]| ==>
                currentText == Roles[currentRoleIndex][..old(phase).index] && phase == Typing(old(phase).index + 1)
      ensures typewriterRunning && old(phase).Typing? && old(phase).index > |Roles[old(currentRoleIndex)]| ==>
                currentText == old(currentText) && phase == Erasing(|Roles[currentRoleIndex]|)
      ensures typewriterRunning && old(phase).Erasing? && old(phase).index >= 0 ==>
                currentText == Roles[currentRoleIndex][..old(phase).index] && phase == Erasing(old(phase).index - 1)
      ensures typewriterRunning && old(phase) == Erasing(-1) ==> currentText == "" && phase == Typing(0)
      ensures typewriterRunning == old(typewriterRunning) && openedUrls == old(openedUrls)
      ensures cvViewerLoaded == old(cvViewerLoaded) && showCVLoader == old(showCVLoader)
      ensures isPreloading == old(isPreloading) && fallbackShown == old(fallbackShown)
    {
      if !typewriterRunning {
        return;
      }
      var role := Roles[currentRoleIndex];
      match phase
      case Typing(k) =>
        if k <= |role| {
          currentText := role[..k];
          phase := Typing(k + 1);
        } else {
          phase := Erasing(|role|);
        }
      case Erasing(k) =>
        if k >= 0 {
          currentText := role[..k];
          phase := Erasing(k - 1);
        } else {
          currentRoleIndex := (currentRoleIndex + 1) % |Roles|;
          phase := Typing(0);
        }
    }

    /** `openContact`: in a browser, opens the address of a known contact type. */
    method OpenContact(contactType: string, value: string)
      modifies this
      ensures isBrowser && ContactUrl(contactType, value).Some? ==>
                openedUrls == old(openedUrls) + [ContactUrl(contactType, value).value]
      ensures !isBrowser || ContactUrl(contactType, value).None? ==> openedUrls == old(openedUrls)
      ensures currentRoleIndex == old(currentRoleIndex) && currentText == old(currentText) && phase == old(phase)
      ensures typewriterRunning == old(typewriterRunning) && cvViewerLoaded == old(cvViewerLoaded)
      ensures showCVLoader == old(showCVLoader) && isPreloading == old(isPreloading) && fallbackShown == old(fallbackShown)
    {
      if !isBrowser {
        return;
      }
      var url := ContactUrl(contactType, value);
      if url.Some? {
        openedUrls := openedUrls + [url.value];
      }
    }

    /**
     * `loadCVViewer` up to its `await`: nothing when the viewer is loaded
     * or already loading, otherwise the loader shows.
     */
    method LoadCVViewer() returns (started: bool)
      modifies this
      ensures started <==> !old(cvViewerLoaded) && !old(showCVLoader)
      ensures started ==> showCVLoader
      ensures !started ==> showCVLoader == old(showCVLoader)
      ensures cvViewerLoaded == old(cvViewerLoaded) && isPreloading == old(isPreloading)
      ensures fallbackShown == old(fallbackShown) && openedUrls == old(openedUrls)
      ensures currentRoleIndex == old(currentRoleIndex) && currentText == old(currentText) && phase == old(phase)
      ensures typewriterRunning == old(typewriterRunning)
    {
      if cvViewerLoaded {
        return false;
      }
      if showCVLoader {
        return false;
      }
      showCVLoader := true;
      return true;
    }

    /** The rest of `loadCVViewer`: the viewer is loaded iff the import succeeded (or it already was); the loader hides. */
    method OnCVImportSettled(succeeded: bool)
      modifies this
      ensures !showCVLoader
      ensures cvViewerLoaded == (old(cvViewerLoaded) || succeeded)
      ensures fallbackShown == (old(fallbackShown) || !succeeded)
      ensures isPreloading == old(isPreloading) && openedUrls == old(openedUrls)
      ensures currentRoleIndex == old(currentRoleIndex) && currentText == old(currentText) && phase == old(phase)
      ensures typewriterRunning == old(typewriterRunning)
    {
      if succeeded {
        cvViewerLoaded := true;
      } else {
        fallbackShown := true;
      }
      showCVLoader := false;
    }

    /** `preloadCVViewer` up to its `await`: nothing when loaded or preloading, otherwise a preload starts. */
    method PreloadCVViewer() returns (started: bool)
      modifies this
      ensures started <==> !old(cvViewerLoaded) && !old(isPreloading)
      ensures started ==> isPreloading
      ensures !started ==> isPreloading == old(isPreloading)
      ensures cvViewerLoaded == old(cvViewerLoaded) && showCVLoader == old(showCVLoader)
      ensures fallbackShown == old(fallbackShown) && openedUrls == old(openedUrls)
      ensures currentRoleIndex == old(currentRoleIndex) && currentText == old(currentText) && phase == old(phase)
      ensures typewriterRunning == old(typewriterRunning)
    {
      if cvViewerLoaded || isPreloading {
        return false;
      }
      isPreloading := true;
      return true;
    }

    /** The rest of `preloadCVViewer`: a failure is silent, and the preload flag always clears. */
    method OnPreloadSettled(succeeded: bool)
      modifies this
      ensures !isPreloading
      ensures cvViewerLoaded == (old(cvViewerLoaded) || succeeded)
      ensures showCVLoader == old(showCVLoader) && fallbackShown == old(fallbackShown) && openedUrls == old(openedUrls)
      ensures currentRoleIndex == old(currentRoleIndex) && currentText == old(currentText) && phase == old(phase)
      ensures typewriterRunning == old(typewriterRunning)
    {
      if succeeded {
        cvViewerLoaded := true;
      }
      isPreloading := false;
    }
  }
}
