/**
 * `list_images_in_s3`: the keys of a paginated bucket listing, concatenated
 * page after page and filtered to image file names.
 */
module Listing {
  import opened Wrappers
  import opened Text

  /** One page of the listing: `Some(keys)` when the page has `Contents`, `None` when it has not. */
  type Page = Option<seq<string>>

  /** A key the gallery shows: its lower-cased form ends in `.png`, `.jpg` or `.jpeg`. */
  predicate IsImageKey(key: string)
  {
    var lowered := Lower(key);
    EndsWith(lowered, ".png") || EndsWith(lowered, ".jpg") || EndsWith(lowered, ".jpeg")
  }

  /** The keys of one page; a page without `Contents` has none. */
  function PageKeys(page: Page): seq<string>
  {
    match page
    case None => []
    case Some(keys) => keys
  }

  /** All keys of the listing, page after page. */
  function AllKeys(pages: seq<Page>): seq<string>
  {
    if pages == [] then [] else AllKeys(pages[..|pages| - 1]) + PageKeys(pages[|pages| - 1])
  }

  /** The image keys of `keys`, in their order. */
  function ImageKeys(keys: seq<string>): seq<string>
  {
    if keys == [] then []
    else ImageKeys(keys[..|keys| - 1]) + (if IsImageKey(keys[|keys| - 1]) then [keys[|keys| - 1]] else [])
  }

  lemma AllKeysSnoc(pages: seq<Page>, page: Page)
    ensures AllKeys(pages + [page]) == AllKeys(pages) + PageKeys(page)
  {
  }

  lemma ImageKeysSnoc(keys: seq<string>, key: string)
    ensures ImageKeys(keys + [key]) == ImageKeys(keys) + (if IsImageKey(key) then [key] else [])
  {
  }

  /**
   * The listing loop. `listing` is `None` when the storage client raised,
   * in which case the partial list is dropped and the result is empty.
   */
  method ListImagesInS3(listing: Option<seq<Page>>) returns (imageList: seq<string>)
    ensures listing.None? ==> imageList == []
    ensures listing.Some? ==> imageList == ImageKeys(AllKeys(listing.value))
  {
    imageList := [];
    if listing.None? {
      return;
    }
    var pages := listing.value;
    for p := 0 to |pages|
      invariant imageList == ImageKeys(AllKeys(pages[..p]))
    {
      ghost var before := imageList;
      if pages[p].Some? {
        var contents := pages[p].value;
        for k := 0 to |contents|
          invariant imageList == before + ImageKeys(contents[..k])
        {
          assert contents[..k + 1] == contents[..k] + [contents[k]];
          ImageKeysSnoc(contents[..k], contents[k]);
          if IsImageKey(contents[k]) {
            imageList := imageList + [contents[k]];
          }
        }
        assert contents[..|contents|] == contents;
      }
      ListingStep(pages, p);
    }
    assert pages[..|pages|] == pages;
  }

  /** One more page adds the image keys of its contents, if it has any. */
  lemma ListingStep(pages: seq<Page>, p: nat)
    requires p < |pages|
    ensures ImageKeys(AllKeys(pages[..p + 1])) == ImageKeys(AllKeys(pages[..p])) + ImageKeys(PageKeys(pages[p]))
  {
    assert pages[..p + 1] == pages[..p] + [pages[p]];
    AllKeysSnoc(pages[..p], pages[p]);
    ImageKeysAppend(AllKeys(pages[..p]), PageKeys(pages[p]));
  }

  /** Filtering distributes over concatenation: pages are filtered independently and kept in order. */
  lemma {:induction false} ImageKeysAppend(a: seq<string>, b: seq<string>)
    ensures ImageKeys(a + b) == ImageKeys(a) + ImageKeys(b)
  {
    if b != [] {
      assert (a + b)[..|a + b| - 1] == a + b[..|b| - 1];
      ImageKeysAppend(a, b[..|b| - 1]);
    } else {
      assert a + b == a;
    }
  }

  lemma {:induction false} AllKeysAppend(p1: seq<Page>, p2: seq<Page>)
    ensures AllKeys(p1 + p2) == AllKeys(p1) + AllKeys(p2)
  {
    if p2 == [] {
      assert p1 + p2 == p1;
    } else {
      assert (p1 + p2)[..|p1 + p2| - 1] == p1 + p2[..|p2| - 1];
      AllKeysAppend(p1, p2[..|p2| - 1]);
    }
  }

  /** The result for two runs of pages is the result for the first followed by that for the second. */
  lemma ListingAppend(p1: seq<Page>, p2: seq<Page>)
    ensures ImageKeys(AllKeys(p1 + p2)) == ImageKeys(AllKeys(p1)) + ImageKeys(AllKeys(p2))
  {
    AllKeysAppend(p1, p2);
    ImageKeysAppend(AllKeys(p1), AllKeys(p2));
  }

  /**
   * Each key occurs in the result as often as it occurs in the listing when
   * it is an image key, and not at all otherwise.
   */
  lemma {:induction false} ImageKeysCount(keys: seq<string>, key: string)
    ensures multiset(ImageKeys(keys))[key] == if IsImageKey(key) then multiset(keys)[key] else 0
  {
    if keys != [] {
      var init, last := keys[..|keys| - 1], keys[|keys| - 1];
      assert keys == init + [last];
      ImageKeysCount(init, key);
    }
  }

  /** A key is in the result exactly when the listing holds it and it is an image key. */
  lemma ImageKeysMembership(pages: seq<Page>, key: string)
    ensures key in ImageKeys(AllKeys(pages)) <==> IsImageKey(key) && exists p :: p in pages && key in PageKeys(p)
  {
    ImageKeysCount(AllKeys(pages), key);
    assert key in ImageKeys(AllKeys(pages)) <==> multiset(ImageKeys(AllKeys(pages)))[key] > 0;
    AllKeysMembership(pages, key);
  }

  lemma {:induction false} AllKeysMembership(pages: seq<Page>, key: string)
    ensures key in AllKeys(pages) <==> exists p :: p in pages && key in PageKeys(p)
  {
    if pages != [] {
      var init, last := pages[..|pages| - 1], pages[|pages| - 1];
      AllKeysMembership(init, key);
      assert pages == init + [last];
      if key in PageKeys(last) {
        assert last in pages;
      }
      if exists p :: p in pages && key in PageKeys(p) {
        var p :| p in pages && key in PageKeys(p);
        assert p in init || p == last;
      }
    }
  }

  /** The image filter is case-insensitive: a key and its lower-cased form are kept or dropped together. */
  lemma IsImageKeyCaseInsensitive(key: string)
    ensures IsImageKey(key) <==> IsImageKey(Lower(key))
  {
    LowerIdempotent(key);
  }

  /** Only the extension decides: the last four or five characters of the key, lower-cased. */
  lemma ExtensionDecides(key: string)
    ensures IsImageKey(key) <==>
      || (|key| >= 4 && Lower(key[|key| - 4..]) in [".png", ".jpg"])
      || (|key| >= 5 && Lower(key[|key| - 5..]) == ".jpeg")
  {
    var l := Lower(key);
    if |key| >= 4 {
      assert l[|key| - 4..] == Lower(key[|key| - 4..]);
    }
    if |key| >= 5 {
      assert l[|key| - 5..] == Lower(key[|key| - 5..]);
    }
  }
}
