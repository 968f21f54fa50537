/**
 * The image carousel: the session's `image_index` and `loaded_images`
 * cache, the Prev / Next buttons, auto-scroll, displaying the current
 * image, "Preload All Images" and "Clear Cached Images".
 *
 * The storage fetch `get_image_from_s3` is an oracle `fetch` from key to
 * `Some(image)` or `None` (the fetch or the decoding failed). Each
 * operation also returns the keys it asked the oracle for, in order, so
 * that "fetched only when missing" can be stated.
 */
module Carousel {
  import opened Wrappers
  import opened Text

  // ---------------------------------------------------------------- the index

  /** `(i - 1) % n` with Python's `%`, which for `n > 0` agrees with Dafny's. */
  function PrevIndex(i: int, n: int): (r: int)
    requires n > 0
    ensures 0 <= r < n
    ensures 0 <= i < n ==> r == if i == 0 then n - 1 else i - 1
  {
    (i - 1) % n
  }

  /** `(i + 1) % n`, used by the Next button and by auto-scroll. */
  function NextIndex(i: int, n: int): (r: int)
    requires n > 0
    ensures 0 <= r < n
    ensures 0 <= i < n ==> r == if i == n - 1 then 0 else i + 1
  {
    (i + 1) % n
  }

  /** Prev and Next undo each other on a position of the list. */
  lemma PrevNextInverse(i: int, n: int)
    requires 0 <= i < n
    ensures NextIndex(PrevIndex(i, n), n) == i
    ensures PrevIndex(NextIndex(i, n), n) == i
  {
  }

  /** The index after `k` auto-scroll steps. */
  function AdvanceBy(i: int, n: int, k: nat): (r: int)
    requires 0 <= i < n
    ensures 0 <= r < n
  {
    if k == 0 then i else NextIndex(AdvanceBy(i, n, k - 1), n)
  }

  /** `k` auto-scroll steps move the index `k` places round the list. */
  lemma {:induction false} AdvanceByIsMod(i: int, n: int, k: nat)
    requires 0 <= i < n
    ensures AdvanceBy(i, n, k) == (i + k) % n
  {
    if k > 0 {
      AdvanceByIsMod(i, n, k - 1);
      ModSucc(i + k - 1, n);
    }
  }

  lemma ModSucc(a: int, n: int)
    requires n > 0
    ensures ((a % n) + 1) % n == (a + 1) % n
  {
    var q, r := a / n, a % n;
    assert a == q * n + r;
    if r + 1 < n {
      ModUnique(a + 1, n, q, r + 1);
    } else {
      ModUnique(a + 1, n, q + 1, 0);
    }
  }

  lemma ModUnique(a: int, n: int, q: int, r: int)
    requires n > 0 && 0 <= r < n && a == q * n + r
    ensures a % n == r
  {
    var q', r' := a / n, a % n;
    assert a == q' * n + r';
    assert (q - q') * n == r' - r;
    if q' < q {
      MulAtLeast(q - q', n);
    } else if q' > q {
      MulAtLeast(q' - q, n);
    }
  }

  lemma MulAtLeast(d: int, n: int)
    requires d >= 1 && n > 0
    ensures d * n >= n
  {
  }

  /** Auto-scroll comes back to where it started after one step per image. */
  lemma AutoScrollFullCycle(i: int, n: int)
    requires 0 <= i < n
    ensures AdvanceBy(i, n, n) == i
  {
    AdvanceByIsMod(i, n, n);
    ModUnique(i + n, n, 1, i);
  }

  /** Auto-scroll reaches every position `j` within fewer steps than there are images. */
  lemma AutoScrollReaches(i: int, n: int, j: int) returns (k: nat)
    requires 0 <= i < n && 0 <= j < n
    ensures k < n && AdvanceBy(i, n, k) == j
  {
    k := if i <= j then j - i else j - i + n;
    AdvanceByIsMod(i, n, k);
    if i <= j {
      ModUnique(i + k, n, 0, j);
    } else {
      ModUnique(i + k, n, 1, j);
    }
  }

  // ---------------------------------------------------------------- the cache

  /** The cache after loading, and the keys that were fetched from storage on the way. */
  datatype LoadResult<Img> = LoadResult(loaded: map<string, Img>, fetched: seq<string>)

  /**
   * Loads one key the way both `display_current_image` and the preload loop do:
   * fetch only when the key is not cached, and store the image only when the
   * fetch returned one.
   */
  function LoadKey<Img>(loaded: map<string, Img>, key: string, fetch: string -> Option<Img>): (r: LoadResult<Img>)
    ensures r.fetched == if key in loaded then [] else [key]
    ensures key in r.loaded <==> key in loaded || fetch(key).Some?
    ensures r.loaded.Keys <= loaded.Keys + {key}
    ensures forall k :: k in loaded ==> k in r.loaded && r.loaded[k] == loaded[k]
    ensures key in r.loaded && key !in loaded ==> fetch(key) == Some(r.loaded[key])
  {
    if key in loaded then LoadResult(loaded, [])
    else match fetch(key)
      case Some(image) => LoadResult(loaded[key := image], [key])
      case None => LoadResult(loaded, [key])
  }

  /** The preload loop over the listed keys, in order. */
  function Preload<Img>(keys: seq<string>, loaded: map<string, Img>, fetch: string -> Option<Img>): LoadResult<Img>
  {
    if keys == [] then LoadResult(loaded, [])
    else
      var before := Preload(keys[..|keys| - 1], loaded, fetch);
      var step := LoadKey(before.loaded, keys[|keys| - 1], fetch);
      LoadResult(step.loaded, before.fetched + step.fetched)
  }

  /** Preloading adds exactly the listed keys whose fetch returned an image. */
  lemma {:induction false} PreloadKeys<Img>(keys: seq<string>, loaded: map<string, Img>, fetch: string -> Option<Img>)
    ensures Preload(keys, loaded, fetch).loaded.Keys == loaded.Keys + (set k | k in keys && fetch(k).Some?)
  {
    if keys != [] {
      var init, last := keys[..|keys| - 1], keys[|keys| - 1];
      PreloadKeys(init, loaded, fetch);
      assert forall k :: k in keys <==> k in init || k == last by {
        assert keys == init + [last];
      }
      ghost var fetchedKeys := set k | k in keys && fetch(k).Some?;
      assert fetchedKeys == (set k | k in init && fetch(k).Some?) + (if fetch(last).Some? then {last} else {});
    }
  }

  /** Preloading leaves cached entries as they were and stores each new key's fetched image. */
  lemma {:induction false} PreloadValues<Img>(keys: seq<string>, loaded: map<string, Img>, fetch: string -> Option<Img>)
    ensures var r := Preload(keys, loaded, fetch);
      && (forall k :: k in loaded ==> k in r.loaded && r.loaded[k] == loaded[k])
      && (forall k :: k in r.loaded && k !in loaded ==> fetch(k) == Some(r.loaded[k]))
  {
    if keys != [] {
      PreloadValues(keys[..|keys| - 1], loaded, fetch);
    }
  }

  /**
   * After preloading, the cache holds exactly the old entries, unchanged,
   * plus every listed key whose fetch returned an image, holding that image.
   */
  lemma PreloadContents<Img>(keys: seq<string>, loaded: map<string, Img>, fetch: string -> Option<Img>)
    ensures var r := Preload(keys, loaded, fetch);
      && r.loaded.Keys == loaded.Keys + (set k | k in keys && fetch(k).Some?)
      && (forall k :: k in loaded ==> r.loaded[k] == loaded[k])
      && (forall k :: k in r.loaded && k !in loaded ==> fetch(k) == Some(r.loaded[k]))
  {
    PreloadKeys(keys, loaded, fetch);
    PreloadValues(keys, loaded, fetch);
  }

  /**
   * Preloading fetches only listed keys that were not cached beforehand,
   * and fetches a key a second time only when its first fetch failed.
   */
  lemma {:induction false} PreloadFetches<Img>(keys: seq<string>, loaded: map<string, Img>, fetch: string -> Option<Img>)
    ensures var r := Preload(keys, loaded, fetch);
      && (forall j :: 0 <= j < |r.fetched| ==> r.fetched[j] in keys && r.fetched[j] !in loaded)
      && (forall k :: fetch(k).Some? ==> multiset(r.fetched)[k] <= 1)
  {
    if keys != [] {
      var init, last := keys[..|keys| - 1], keys[|keys| - 1];
      PreloadFetches(init, loaded, fetch);
      PreloadContents(init, loaded, fetch);
      var before := Preload(init, loaded, fetch);
      var r := Preload(keys, loaded, fetch);
      assert r.fetched == before.fetched + LoadKey(before.loaded, last, fetch).fetched;
      forall j | 0 <= j < |r.fetched| ensures r.fetched[j] in keys && r.fetched[j] !in loaded {
        if j < |before.fetched| {
          assert r.fetched[j] == before.fetched[j];
          assert before.fetched[j] in init;
        } else {
          assert r.fetched[j] == last;
          assert last !in before.loaded;
        }
      }
      forall k | fetch(k).Some? ensures multiset(r.fetched)[k] <= 1 {
        if last !in before.loaded && k == last {
          assert k !in before.fetched;
        }
      }
    }
  }

  // ---------------------------------------------------------------- one run of the gallery

  /** What the image placeholder shows: the image and its caption. */
  datatype Slide<Img> = Slide(image: Img, caption: string)

  /**
   * The placeholder after `display_current_image`: the cached image under `key`
   * captioned with the key's last path segment, or nothing when it is not cached.
   */
  function ShownSlide<Img>(loaded: map<string, Img>, key: string): (s: Option<Slide<Img>>)
    ensures s.Some? <==> key in loaded
    ensures s.Some? ==> s.value.image == loaded[key] && s.value.caption == AfterLastSlash(key)
  {
    if key in loaded then Some(Slide(loaded[key], AfterLastSlash(key))) else None
  }

  /** The button clicked in a run; Streamlit reports at most one click per run. */
  datatype Button = NoButton | PrevButton | NextButton | PreloadButton | ClearButton

  /**
   * How a run of the gallery section ends: no images listed, the cache cleared
   * (the run restarts at once), the index past the end of a list that shrank
   * (Python raises `IndexError`), or the current image displayed.
   */
  datatype RunOutcome<Img> = NoImages | Cleared | IndexError | Displayed(slide: Option<Slide<Img>>)

  datatype RunResult<Img> = RunResult(index: int, loaded: map<string, Img>, outcome: RunOutcome<Img>, fetched: seq<string>)

  /** The index after the navigation buttons, against the freshly listed `n` images. */
  function Navigate(i: int, n: int, button: Button): int
    requires n > 0
  {
    match button
    case PrevButton => PrevIndex(i, n)
    case NextButton => NextIndex(i, n)
    case _ => i
  }

  /**
   * One run of the carousel section, from the persisted `index` and cache
   * and the freshly listed `keys`: navigation, preload, clear, then display
   * and, with auto-scroll on, the advance to the next image.
   */
  function GalleryRun<Img>(index: int, loaded: map<string, Img>, keys: seq<string>, button: Button,
                           autoScroll: bool, fetch: string -> Option<Img>): (r: RunResult<Img>)
    requires index >= 0
    ensures r.index >= 0
  {
    if keys == [] then RunResult(index, loaded, NoImages, [])
    else
      var n := |keys|;
      var i := Navigate(index, n, button);
      var pre := if button == PreloadButton then Preload(keys, loaded, fetch) else LoadResult(loaded, []);
      if button == ClearButton then RunResult(i, map[], Cleared, [])
      else if i >= n then RunResult(i, pre.loaded, IndexError, pre.fetched)
      else
        var shown := LoadKey(pre.loaded, keys[i], fetch);
        RunResult(if autoScroll then NextIndex(i, n) else i, shown.loaded,
                  Displayed(ShownSlide(shown.loaded, keys[i])), pre.fetched + shown.fetched)
  }

  /**
   * A run fails with `IndexError` exactly when the list is not empty, the
   * persisted index is past its end, and no button that rewrites or skips
   * the index (Prev, Next, Clear) was clicked. Otherwise a run that reaches
   * the display leaves the index inside the list.
   */
  lemma RunIndexError<Img>(index: int, loaded: map<string, Img>, keys: seq<string>, button: Button,
                           autoScroll: bool, fetch: string -> Option<Img>)
    requires index >= 0
    ensures var r := GalleryRun(index, loaded, keys, button, autoScroll, fetch);
      && (r.outcome == IndexError <==>
            keys != [] && index >= |keys| && button !in {PrevButton, NextButton, ClearButton})
      && (r.outcome.Displayed? ==> 0 <= r.index < |keys|)
      && (keys != [] && index < |keys| ==> 0 <= r.index < |keys|)
  {
  }

  /**
   * Only Clear removes cache entries, and then it empties the cache and keeps
   * the index; every other run keeps each cached entry as it was and fetches
   * only listed keys that were not cached.
   */
  lemma RunCache<Img>(index: int, loaded: map<string, Img>, keys: seq<string>, button: Button,
                      autoScroll: bool, fetch: string -> Option<Img>)
    requires index >= 0
    ensures var r := GalleryRun(index, loaded, keys, button, autoScroll, fetch);
      && (keys != [] && button == ClearButton ==> r.loaded == map[] && r.index == index && r.fetched == [])
      && (button != ClearButton ==> forall k :: k in loaded ==> k in r.loaded && r.loaded[k] == loaded[k])
      && (forall j :: 0 <= j < |r.fetched| ==> r.fetched[j] in keys && r.fetched[j] !in loaded)
  {
    if keys != [] && button == PreloadButton {
      PreloadContents(keys, loaded, fetch);
      PreloadFetches(keys, loaded, fetch);
      var pre := Preload(keys, loaded, fetch);
      var i := Navigate(index, |keys|, button);
      if i < |keys| {
        var shown := LoadKey(pre.loaded, keys[i], fetch);
        assert GalleryRun(index, loaded, keys, button, autoScroll, fetch).fetched == pre.fetched + shown.fetched;
      }
    }
  }

  /** The persisted session state: `image_index` and `loaded_images`. */
  datatype GalleryState<Img> = GalleryState(index: int, loaded: map<string, Img>)

  /** `k` consecutive runs with auto-scroll on and no click, over an unchanged listing. */
  function AutoScrollRuns<Img>(s: GalleryState<Img>, keys: seq<string>, fetch: string -> Option<Img>, k: nat): (t: GalleryState<Img>)
    requires s.index >= 0
    ensures t.index >= 0
  {
    if k == 0 then s
    else
      var before := AutoScrollRuns(s, keys, fetch, k - 1);
      var r := GalleryRun(before.index, before.loaded, keys, NoButton, true, fetch);
      GalleryState(r.index, r.loaded)
  }

  lemma {:induction false} AutoScrollRunsState<Img>(s: GalleryState<Img>, keys: seq<string>, fetch: string -> Option<Img>, k: nat)
    requires 0 <= s.index < |keys|
    ensures var t := AutoScrollRuns(s, keys, fetch, k);
      && t.index == AdvanceBy(s.index, |keys|, k)
      && (forall j :: 0 <= j < k && fetch(keys[AdvanceBy(s.index, |keys|, j)]).Some? ==>
            keys[AdvanceBy(s.index, |keys|, j)] in t.loaded)
      && (forall key :: key in s.loaded ==> key in t.loaded)
  {
    if k > 0 {
      AutoScrollRunsState(s, keys, fetch, k - 1);
    }
  }

  /**
   * With auto-scroll on and nothing clicked, one run per image brings the
   * index back to where it started and leaves every listed image whose fetch
   * succeeds in the cache, as a preload would.
   */
  lemma AutoScrollCachesAll<Img>(s: GalleryState<Img>, keys: seq<string>, fetch: string -> Option<Img>)
    requires 0 <= s.index < |keys|
    ensures var t := AutoScrollRuns(s, keys, fetch, |keys|);
      && t.index == s.index
      && forall key :: key in keys && fetch(key).Some? ==> key in t.loaded
  {
    var n := |keys|;
    AutoScrollRunsState(s, keys, fetch, n);
    AutoScrollFullCycle(s.index, n);
    forall key | key in keys && fetch(key).Some? ensures key in AutoScrollRuns(s, keys, fetch, n).loaded {
      var m :| 0 <= m < n && keys[m] == key;
      var j := AutoScrollReaches(s.index, n, m);
    }
  }

  // ---------------------------------------------------------------- the session object

  /** The carousel's per-session state, updated in place by the buttons. */
  class Gallery<Img> {
    var index: int
    var loaded: map<string, Img>

    /** The index is never negative: it starts at 0 and is only ever set to a `%` result. */
    ghost predicate Valid()
      reads this
    {
      index >= 0
    }

    /** A session's first run, when neither `image_index` nor `loaded_images` exists yet. */
    constructor ()
      ensures Valid() && index == 0 && loaded == map[]
    {
      index := 0;
      loaded := map[];
    }

    /** The Prev button, against the `n` images of this run's listing. */
    method Prev(n: int)
      requires Valid() && n > 0
      modifies this`index
      ensures Valid() && index == PrevIndex(old(index), n)
    {
      index := (index - 1) % n;
    }

    /** The Next button, and the auto-scroll advance after a display. */
    method Next(n: int)
      requires Valid() && n > 0
      modifies this`index
      ensures Valid() && index == NextIndex(old(index), n)
    {
      index := (index + 1) % n;
    }

    /** `display_current_image`: load the current key if it is not cached, then show it if it is. */
    method DisplayCurrent(keys: seq<string>, fetch: string -> Option<Img>) returns (slide: Option<Slide<Img>>, fetched: seq<string>)
      requires Valid() && index < |keys|
      modifies this`loaded
      ensures LoadResult(loaded, fetched) == LoadKey(old(loaded), keys[index], fetch)
      ensures slide == ShownSlide(loaded, keys[index])
    {
      var key := keys[index];
      fetched := [];
      if key !in loaded {
        var image := fetch(key);
        fetched := [key];
        if image.Some? {
          loaded := loaded[key := image.value];
        }
      }
      if key in loaded {
        slide := Some(Slide(loaded[key], AfterLastSlash(key)));
      } else {
        slide := None;
      }
    }

    /** "Preload All Images": load every listed key that is not cached, in list order. */
    method PreloadAll(keys: seq<string>, fetch: string -> Option<Img>) returns (fetched: seq<string>)
      modifies this`loaded
      ensures LoadResult(loaded, fetched) == Preload(keys, old(loaded), fetch)
    {
      fetched := [];
      for i := 0 to |keys|
        invariant LoadResult(loaded, fetched) == Preload(keys[..i], old(loaded), fetch)
      {
        assert keys[..i + 1][..i] == keys[..i];
        var key := keys[i];
        if key !in loaded {
          var image := fetch(key);
          fetched := fetched + [key];
          if image.Some? {
            loaded := loaded[key := image.value];
          }
        }
      }
      assert keys[..|keys|] == keys;
    }

    /** "Clear Cached Images". */
    method ClearCache()
      modifies this`loaded
      ensures loaded == map[]
    {
      loaded := map[];
    }

    /** One run of the carousel section of the page, with at most one button clicked. */
    method Run(keys: seq<string>, button: Button, autoScroll: bool, fetch: string -> Option<Img>)
      returns (outcome: RunOutcome<Img>, fetched: seq<string>)
      requires Valid()
      modifies this
      ensures Valid()
      ensures RunResult(index, loaded, outcome, fetched)
           == GalleryRun(old(index), old(loaded), keys, button, autoScroll, fetch)
    {
      fetched := [];
      if keys == [] {
        outcome := NoImages;
        return;
      }
      var n := |keys|;
      if button == PrevButton {
        Prev(n);
      } else if button == NextButton {
        Next(n);
      }
      if button == PreloadButton {
        fetched := PreloadAll(keys, fetch);
      }
      if button == ClearButton {
        ClearCache();
        outcome := Cleared;
        return;
      }
      if index >= n {
        outcome := IndexError;
        return;
      }
      var slide, shownFetched := DisplayCurrent(keys, fetch);
      fetched := fetched + shownFetched;
      if autoScroll {
        Next(n);
      }
      outcome := Displayed(slide);
    }
  }
}
