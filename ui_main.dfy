/** The Alpine components of src/main.js: dark mode, the mobile navigation,
    site search, the gallery lightbox and the photo carousel. Each component
    object is a class whose fields are the component's reactive properties;
    `document.documentElement.dataset.theme` and `localStorage` are fields
    of the dark-mode object, and Pagefind is given by its outcomes. */
module UiMain {
  import opened Wrappers
  import opened Strings

  /** `this.dark ? 'dark' : 'light'` */
  function ThemeName(dark: bool): (s: string)
    ensures s == "dark" <==> dark
  {
    if dark then "dark" else "light"
  }

  // ── Dark mode ───────────────────────────────────────────────────────────────

  class DarkMode {
    var dark: bool
    /** `document.documentElement.dataset.theme` */
    var theme: Option<string>
    /** `localStorage.getItem('theme')` */
    var stored: Option<string>

    /** The component object: `dark` read from the theme attribute. */
    constructor (theme: Option<string>, stored: Option<string>)
      ensures dark <==> theme == Some("dark")
      ensures this.theme == theme && this.stored == stored
    {
      dark := theme == Some("dark");
      this.theme := theme;
      this.stored := stored;
    }

    /** `toggle()`: flip, then write the theme to the attribute and to storage. */
    method Toggle()
      modifies this
      ensures dark == !old(dark)
      ensures theme == Some(ThemeName(dark)) && stored == Some(ThemeName(dark))
    {
      dark := !dark;
      theme := Some(ThemeName(dark));
      stored := Some(ThemeName(dark));
    }

    /** `init()`: a stored value decides (`dark` iff it is `'dark'`), else the
        colour-scheme media query; storage is not written. */
    method Init(prefersDark: bool)
      modifies this`dark, this`theme
      ensures stored.Some? ==> (dark <==> stored.value == "dark")
      ensures stored.None? ==> dark == prefersDark
      ensures theme == Some(ThemeName(dark))
    {
      var s := stored;
      if s.Some? {
        dark := s.value == "dark";
      } else {
        dark := prefersDark;
      }
      theme := Some(ThemeName(dark));
    }
  }

  // ── Mobile nav ──────────────────────────────────────────────────────────────

  class MobileNav {
    var open: bool

    constructor ()
      ensures !open
    {
      open := false;
    }

    method Toggle()
      modifies this
      ensures open == !old(open)
    {
      open := !open;
    }

    method Close()
      modifies this
      ensures !open
    {
      open := false;
    }
  }

  // ── Search ──────────────────────────────────────────────────────────────────

  /** At most eight results are kept: `search.results.slice(0, 8)`. */
  const MaxResults: nat := 8

  function FirstResults<T>(found: seq<T>): (r: seq<T>)
    ensures |r| <= MaxResults && |r| <= |found|
    ensures |r| == if |found| < MaxResults then |found| else MaxResults
    ensures r == found[..|r|]
  {
    if |found| <= MaxResults then found else found[..MaxResults]
  }

  /** The search component; a result is the `data()` of a Pagefind hit,
      opaque here. `pagefind` is whether `_pagefind` is set. */
  class Search<T> {
    var isOpen: bool
    var query: string
    var results: seq<T>
    var loading: bool
    var pagefind: bool

    constructor ()
      ensures !isOpen && query == [] && results == [] && !loading && !pagefind
    {
      isOpen := false;
      query := [];
      results := [];
      loading := false;
      pagefind := false;
    }

    /** `open()`: `importOk` is whether `import('/pagefind/pagefind.js')`
        resolves. `_pagefind` is set as soon as the import resolves, so it
        stays set even when the following `init()` throws; a failed import is
        retried on the next open. */
    method Open(importOk: bool)
      modifies this`isOpen, this`pagefind
      ensures isOpen
      ensures pagefind == (old(pagefind) || importOk)
    {
      isOpen := true;
      if !pagefind {
        if importOk {
          pagefind := true;
        }
      }
    }

    /** `close()` */
    method Close()
      modifies this`isOpen, this`query, this`results
      ensures !isOpen && query == [] && results == []
    {
      isOpen := false;
      query := [];
      results := [];
    }

    /** `runSearch()`: `found` is what the search and the `data()` calls
        resolve to (None when one of them rejects). */
    method RunSearch(found: Option<seq<T>>)
      modifies this`results, this`loading
      // without Pagefind or with a blank query, no results and no loading
      ensures !pagefind || Trim(query) == [] ==> results == [] && loading == old(loading)
      ensures pagefind && Trim(query) != [] ==>
                !loading && results == (if found.Some? then FirstResults(found.value) else [])
      ensures |results| <= MaxResults
    {
      if !pagefind || Trim(query) == [] {
        results := [];
        return;
      }
      loading := true;
      if found.Some? {
        results := FirstResults(found.value);
      } else {
        results := [];
      }
      loading := false;
    }

    /** The window `keydown` listener: Cmd/Ctrl+K opens or closes, and is
        the only key it prevents. */
    method OnKey(metaOrCtrl: bool, key: string, importOk: bool) returns (prevented: bool)
      modifies this`isOpen, this`pagefind, this`query, this`results
      ensures prevented <==> metaOrCtrl && key == "k"
      ensures !prevented ==> isOpen == old(isOpen) && query == old(query) && results == old(results)
                             && pagefind == old(pagefind)
      ensures prevented ==> isOpen == !old(isOpen)
      ensures prevented && !old(isOpen) ==> pagefind == (old(pagefind) || importOk) && query == old(query)
                                            && results == old(results)
      ensures prevented && old(isOpen) ==> query == [] && results == [] && pagefind == old(pagefind)
    {
      prevented := metaOrCtrl && key == "k";
      if prevented {
        if isOpen {
          Close();
        } else {
          Open(importOk);
        }
      }
    }
  }

  // ── Gallery and carousel ────────────────────────────────────────────────────

  /** `if (this.idx > 0) this.idx--` */
  function PrevIndex(idx: int): (r: int)
    ensures idx > 0 ==> r == idx - 1
    ensures idx <= 0 ==> r == idx
  {
    if idx > 0 then idx - 1 else idx
  }

  /** `if (this.idx < this.images.length - 1) this.idx++` */
  function NextIndex(idx: int, n: nat): (r: int)
    ensures idx < n - 1 ==> r == idx + 1
    ensures idx >= n - 1 ==> r == idx
  {
    if idx < n - 1 then idx + 1 else idx
  }

  /** `prev` and `next` keep an index that is in bounds in bounds. */
  lemma StepsStayInBounds(idx: int, n: nat)
    requires 0 <= idx < n
    ensures 0 <= PrevIndex(idx) < n && 0 <= NextIndex(idx, n) < n
  {
  }

  /** Away from the ends, `next` and `prev` undo each other. */
  lemma StepsUndo(idx: int, n: nat)
    ensures 0 <= idx < n - 1 ==> PrevIndex(NextIndex(idx, n)) == idx
    ensures 0 < idx < n ==> NextIndex(PrevIndex(idx), n) == idx
  {
  }

  class Gallery {
    var active: bool
    var idx: int
    var images: seq<string>

    constructor (images: seq<string>)
      ensures !active && idx == 0 && this.images == images
    {
      active := false;
      idx := 0;
      this.images := images;
    }

    /** `show(idx)`: no bounds check. */
    method Show(i: int)
      modifies this`idx, this`active
      ensures idx == i && active
    {
      idx := i;
      active := true;
    }

    method Hide()
      modifies this`active
      ensures !active
    {
      active := false;
    }

    method Prev()
      modifies this`idx
      ensures idx == PrevIndex(old(idx))
      ensures 0 <= old(idx) < |images| ==> 0 <= idx < |images|
    {
      if idx > 0 {
        idx := idx - 1;
      }
    }

    method Next()
      modifies this`idx
      ensures idx == NextIndex(old(idx), |images|)
      ensures 0 <= old(idx) < |images| ==> 0 <= idx < |images|
    {
      if idx < |images| - 1 {
        idx := idx + 1;
      }
    }

    /** The window `keydown` listener: nothing while the lightbox is hidden. */
    method OnKey(key: string)
      modifies this`idx, this`active
      ensures !old(active) ==> idx == old(idx) && !active
      ensures old(active) && key == "Escape" ==> !active && idx == old(idx)
      ensures old(active) && key == "ArrowLeft" ==> active && idx == PrevIndex(old(idx))
      ensures old(active) && key == "ArrowRight" ==> active && idx == NextIndex(old(idx), |images|)
      ensures old(active) && key !in {"Escape", "ArrowLeft", "ArrowRight"} ==> active && idx == old(idx)
    {
      if !active {
        return;
      }
      if key == "Escape" {
        Hide();
        return;
      }
      if key == "ArrowLeft" {
        Prev();
        return;
      }
      if key == "ArrowRight" {
        Next();
        return;
      }
    }
  }

  class Carousel {
    var idx: int
    var images: seq<string>

    constructor (images: seq<string>)
      ensures idx == 0 && this.images == images
    {
      idx := 0;
      this.images := images;
    }

    method Prev()
      modifies this`idx
      ensures idx == PrevIndex(old(idx))
      ensures 0 <= old(idx) < |images| ==> 0 <= idx < |images|
    {
      if idx > 0 {
        idx := idx - 1;
      }
    }

    method Next()
      modifies this`idx
      ensures idx == NextIndex(old(idx), |images|)
      ensures 0 <= old(idx) < |images| ==> 0 <= idx < |images|
    {
      if idx < |images| - 1 {
        idx := idx + 1;
      }
    }

    /** `goTo(i)`: no bounds check. */
    method GoTo(i: int)
      modifies this`idx
      ensures idx == i
    {
      idx := i;
    }
  }
}
