/**
 * The home carousel of app/learn.tsx: the slides the pager shows, the row
 * of category dots under it, and the index of the slide on screen.
 *
 * Slides and dots are built by two separate loops. A dot's `startIndex` is
 * a running count of the pages the earlier categories occupy; the intended
 * fact is that it lands on the first slide of its own category. The dot
 * loop as written (`DotsAsWritten`, which the builder and the carousel
 * follow) meets it for the bundled categories, each of which has a page,
 * and for custom categories with items, but not for an enabled custom
 * category with no items: see `EmptyCustomMisalignsDots`. `Dots`, which
 * skips such a category exactly as the slides do, is the corrected
 * definition, and `DotsAligned` proves the fact for it.
 */
module Learn {
  import opened Types
  import CategoriesSeed

  /** Cards per page. */
  const PageSize: nat := 6

  const CustomIcon := "folder-heart"

  datatype Slide =
    | ItemsSlide(categoryId: string, categoryName: string, categoryIcon: string,
                 pageIndex: nat, totalPages: nat, items: seq<Item>, isCustomCategory: bool)
    | UnlockSlide

  datatype Dot = Dot(key: string, isUnlock: bool, startIndex: nat, icon: string)

  function Min(x: int, y: int): int { if x <= y then x else y }

  function Max(x: int, y: int): int { if x >= y then x else y }

  /** `Math.ceil(n / 6)` for a count n. */
  function CeilPages(n: nat): nat { (n + PageSize - 1) / PageSize }

  // ---------------------------------------------------------------------
  // Chunking a custom category into pages

  /** The pages `items.slice(i, i + 6)` for i = 0, 6, 12, ... */
  function Chunks(items: seq<Item>): (pages: seq<seq<Item>>)
    ensures forall p :: p in pages ==> 1 <= |p| <= PageSize
    ensures pages == [] <==> items == []
    decreases |items|
  {
    if items == [] then []
    else
      var n := Min(PageSize, |items|);
      [items[..n]] + Chunks(items[n..])
  }

  function Concat(pages: seq<seq<Item>>): seq<Item> {
    if pages == [] then [] else pages[0] + Concat(pages[1..])
  }

  /** Chunking loses and reorders nothing. */
  lemma {:induction false} ChunksConcat(items: seq<Item>)
    ensures Concat(Chunks(items)) == items
    decreases |items|
  {
    if items != [] {
      var n := Min(PageSize, |items|);
      ChunksConcat(items[n..]);
      assert Chunks(items)[1..] == Chunks(items[n..]);
      assert items == items[..n] + items[n..];
    }
  }

  /** There are ceil(n / 6) pages. */
  lemma {:induction false} ChunksCount(items: seq<Item>)
    ensures |Chunks(items)| == CeilPages(|items|)
    decreases |items|
  {
    if items != [] {
      var n := Min(PageSize, |items|);
      ChunksCount(items[n..]);
    }
  }

  /**
   * The pages of `items[i..]`: the one starting at i, then those starting
   * six further on.
   */
  lemma ChunksStep(items: seq<Item>, i: nat)
    requires i < |items|
    ensures Chunks(items[i..]) == [items[i..Min(i + PageSize, |items|)]] + Chunks(items[Min(i + PageSize, |items|)..])
  {
    var n := Min(PageSize, |items| - i);
    assert items[i..][..n] == items[i..i + n];
    assert items[i..][n..] == items[i + n..];
  }

  /** The `for (let i = 0; i < n; i += 6)` loop that slices a custom category. */
  method ChunkItems(items: seq<Item>) returns (pages: seq<seq<Item>>)
    ensures pages == Chunks(items)
  {
    pages := [];
    var i := 0;
    while i < |items|
      invariant 0 <= i
      invariant pages + Chunks(items[Min(i, |items|)..]) == Chunks(items)
    {
      ChunksStep(items, i);
      pages := pages + [items[i..Min(i + PageSize, |items|)]];
      i := i + PageSize;
    }
    assert items[Min(i, |items|)..] == [];
  }

  // ---------------------------------------------------------------------
  // Slides

  /** The slide of page `pi` of a bundled category. */
  function SeedSlide(cat: Category, pi: nat): Slide
    requires pi < |cat.pages|
  {
    ItemsSlide(cat.id, cat.name, cat.icon, pi, |cat.pages|, cat.pages[pi].items, false)
  }

  /** How many of a bundled category's pages are shown: page 0 alone unless premium. */
  function ShownPages(cat: Category, premium: bool, upto: nat): nat {
    if premium then upto else Min(1, upto)
  }

  /** The slides of the first `upto` pages of a bundled category, locked ones skipped. */
  function SeedSlidesUpTo(cat: Category, premium: bool, upto: nat): seq<Slide>
    requires upto <= |cat.pages|
  {
    seq(ShownPages(cat, premium, upto), pi requires 0 <= pi < ShownPages(cat, premium, upto) => SeedSlide(cat, pi))
  }

  function SeedSlides(cat: Category, premium: bool): seq<Slide> {
    SeedSlidesUpTo(cat, premium, |cat.pages|)
  }

  /** The slides of the pages of a custom category. */
  function CustomSlides(cc: UserCustomCategory): seq<Slide> {
    var pages := Chunks(cc.items);
    seq(|pages|, pi requires 0 <= pi < |pages| => ItemsSlide(cc.id, cc.name, CustomIcon, pi, |pages|, pages[pi], true))
  }

  /** The slides of the bundled categories, in catalogue order, disabled ones skipped. */
  function SeedPart(seeds: seq<Category>, disabled: seq<string>, premium: bool): seq<Slide> {
    if seeds == [] then []
    else
      var cat := seeds[|seeds| - 1];
      SeedPart(seeds[..|seeds| - 1], disabled, premium)
      + (if cat.id in disabled then [] else SeedSlides(cat, premium))
  }

  /** The slides of the custom categories, disabled ones skipped. */
  function CustomPart(customs: seq<UserCustomCategory>, disabled: seq<string>): seq<Slide> {
    if customs == [] then []
    else
      var cc := customs[|customs| - 1];
      CustomPart(customs[..|customs| - 1], disabled)
      + (if cc.id in disabled then [] else CustomSlides(cc))
  }

  /** The `slides` memo: bundled pages, then custom pages once premium, else the unlock slide. */
  function Slides(seeds: seq<Category>, customs: seq<UserCustomCategory>, s: UserSettings): seq<Slide> {
    SeedPart(seeds, s.disabledCategories, s.premiumUnlocked)
    + (if s.premiumUnlocked then CustomPart(customs, s.disabledCategories) else [])
    + (if s.premiumUnlocked then [] else [UnlockSlide])
  }

  /** The `slides` memo as the source builds it: nested loops pushing onto one list. */
  method BuildSlides(seeds: seq<Category>, customs: seq<UserCustomCategory>, s: UserSettings)
    returns (result: seq<Slide>)
    ensures result == Slides(seeds, customs, s)
  {
    var seedSlides := BuildSeedSlides(seeds, s.disabledCategories, s.premiumUnlocked);
    result := seedSlides;
    if s.premiumUnlocked {
      var customSlides := BuildCustomSlides(customs, s.disabledCategories);
      result := result + customSlides;
    }
    if !s.premiumUnlocked {
      result := result + [UnlockSlide];
    }
  }

  /** `categoriesSeed.forEach(...)` in the slide builder. */
  method BuildSeedSlides(seeds: seq<Category>, disabled: seq<string>, premium: bool) returns (result: seq<Slide>)
    ensures result == SeedPart(seeds, disabled, premium)
  {
    result := [];
    var k := 0;
    while k < |seeds|
      invariant k <= |seeds|
      invariant result == SeedPart(seeds[..k], disabled, premium)
    {
      var cat := seeds[k];
      assert seeds[..k + 1][..k] == seeds[..k];
      if cat.id !in disabled {
        result := PushSeedPages(result, cat, premium);
      }
      k := k + 1;
    }
    assert seeds[..k] == seeds;
  }

  /** `customCategories.forEach(...)` in the slide builder. */
  method BuildCustomSlides(customs: seq<UserCustomCategory>, disabled: seq<string>) returns (result: seq<Slide>)
    ensures result == CustomPart(customs, disabled)
  {
    result := [];
    var m := 0;
    while m < |customs|
      invariant m <= |customs|
      invariant result == CustomPart(customs[..m], disabled)
    {
      var cc := customs[m];
      assert customs[..m + 1][..m] == customs[..m];
      if cc.id !in disabled {
        result := PushCustomPages(result, cc);
      }
      m := m + 1;
    }
    assert customs[..m] == customs;
  }

  /** `cat.pages.forEach(...)`: push every page that is not locked. */
  method PushSeedPages(prefix: seq<Slide>, cat: Category, premium: bool) returns (result: seq<Slide>)
    ensures result == prefix + SeedSlides(cat, premium)
  {
    result := prefix;
    var pi := 0;
    while pi < |cat.pages|
      invariant pi <= |cat.pages|
      invariant result == prefix + SeedSlidesUpTo(cat, premium, pi)
    {
      var isLocked := pi > 0 && !premium;
      if !isLocked {
        assert SeedSlidesUpTo(cat, premium, pi + 1) == SeedSlidesUpTo(cat, premium, pi) + [SeedSlide(cat, pi)];
        result := result + [SeedSlide(cat, pi)];
      } else {
        assert SeedSlidesUpTo(cat, premium, pi + 1) == SeedSlidesUpTo(cat, premium, pi);
      }
      pi := pi + 1;
    }
  }

  /** Slice a custom category and, unless that gives no page, push a slide per page. */
  method PushCustomPages(prefix: seq<Slide>, cc: UserCustomCategory) returns (result: seq<Slide>)
    ensures result == prefix + CustomSlides(cc)
  {
    result := prefix;
    var pages := ChunkItems(cc.items);
    if |pages| == 0 {
      return;
    }
    var pi := 0;
    while pi < |pages|
      invariant pi <= |pages|
      invariant result == prefix + CustomSlides(cc)[..pi]
    {
      assert CustomSlides(cc)[..pi + 1] == CustomSlides(cc)[..pi] + [CustomSlides(cc)[pi]];
      result := result + [ItemsSlide(cc.id, cc.name, CustomIcon, pi, |pages|, pages[pi], true)];
      pi := pi + 1;
    }
    assert CustomSlides(cc)[..pi] == CustomSlides(cc);
  }

  // ---------------------------------------------------------------------
  // What the slides are

  /** Every slide of the bundled part is a bundled page of an enabled category; page 0 only unless premium. */
  lemma {:induction false} SeedPartFacts(seeds: seq<Category>, disabled: seq<string>, premium: bool)
    ensures forall i :: 0 <= i < |SeedPart(seeds, disabled, premium)| ==>
      var sl := SeedPart(seeds, disabled, premium)[i];
      && sl.ItemsSlide? && !sl.isCustomCategory && sl.categoryId !in disabled
      && (!premium ==> sl.pageIndex == 0)
  {
    if seeds != [] {
      SeedPartFacts(seeds[..|seeds| - 1], disabled, premium);
    }
  }

  /** Every slide of the custom part is a custom page of an enabled category. */
  lemma {:induction false} CustomPartFacts(customs: seq<UserCustomCategory>, disabled: seq<string>)
    ensures forall i :: 0 <= i < |CustomPart(customs, disabled)| ==>
      var sl := CustomPart(customs, disabled)[i];
      sl.ItemsSlide? && sl.isCustomCategory && sl.categoryId !in disabled
  {
    if customs != [] {
      CustomPartFacts(customs[..|customs| - 1], disabled);
    }
  }

  /**
   * Without premium: bundled page-0 slides of enabled categories and one
   * unlock slide, last. With premium: no unlock slide. Never a slide of a
   * disabled category.
   */
  lemma SlidesShape(seeds: seq<Category>, customs: seq<UserCustomCategory>, s: UserSettings)
    ensures var slides := Slides(seeds, customs, s);
      && (!s.premiumUnlocked ==>
            && |slides| > 0 && slides[|slides| - 1] == UnlockSlide
            && forall i :: 0 <= i < |slides| - 1 ==>
                 slides[i].ItemsSlide? && !slides[i].isCustomCategory && slides[i].pageIndex == 0)
      && (s.premiumUnlocked ==> forall i :: 0 <= i < |slides| ==> slides[i].ItemsSlide?)
      && (forall i :: 0 <= i < |slides| && slides[i].ItemsSlide? ==> slides[i].categoryId !in s.disabledCategories)
  {
    SeedPartFacts(seeds, s.disabledCategories, s.premiumUnlocked);
    CustomPartFacts(customs, s.disabledCategories);
  }

  /** A custom category yields one slide per chunk, and none when it has no items. */
  lemma CustomSlidesCount(cc: UserCustomCategory)
    ensures |CustomSlides(cc)| == CeilPages(|cc.items|)
    ensures CustomSlides(cc) == [] <==> cc.items == []
  {
    ChunksCount(cc.items);
  }

  // ---------------------------------------------------------------------
  // Dots

  /** A bundled category's share of the running counter. */
  function UnlockedPages(cat: Category, premium: bool): nat {
    if premium then |cat.pages| else 1
  }

  /** The counter after the bundled categories: pages of enabled ones, one each unless premium. */
  function SeedSpan(seeds: seq<Category>, disabled: seq<string>, premium: bool): nat {
    if seeds == [] then 0
    else
      var cat := seeds[|seeds| - 1];
      SeedSpan(seeds[..|seeds| - 1], disabled, premium) + (if cat.id in disabled then 0 else UnlockedPages(cat, premium))
  }

  /** One dot per enabled bundled category, at the counter's value when it is reached. */
  function SeedDots(seeds: seq<Category>, disabled: seq<string>, premium: bool): (dots: seq<Dot>)
    ensures forall d :: d in dots ==> !d.isUnlock && d.key !in disabled
  {
    if seeds == [] then []
    else
      var init := seeds[..|seeds| - 1];
      var cat := seeds[|seeds| - 1];
      SeedDots(init, disabled, premium)
      + (if cat.id in disabled then [] else [Dot(cat.id, false, SeedSpan(init, disabled, premium), cat.icon)])
  }

  /** The unlock dot, after the categories. */
  function UnlockDot(start: nat): Dot {
    Dot("unlock", true, start, "lock")
  }

  /** As written: a custom category counts `max(1, ceil(n / 6))` pages, even with no items. */
  function CustomSpanAsWritten(customs: seq<UserCustomCategory>, disabled: seq<string>): nat {
    if customs == [] then 0
    else
      var cc := customs[|customs| - 1];
      CustomSpanAsWritten(customs[..|customs| - 1], disabled)
      + (if cc.id in disabled then 0 else Max(1, CeilPages(|cc.items|)))
  }

  function CustomDotsAsWritten(customs: seq<UserCustomCategory>, disabled: seq<string>, start: nat): (dots: seq<Dot>)
    ensures forall d :: d in dots ==> !d.isUnlock && d.key !in disabled && d.icon == CustomIcon
  {
    if customs == [] then []
    else
      var init := customs[..|customs| - 1];
      var cc := customs[|customs| - 1];
      CustomDotsAsWritten(init, disabled, start)
      + (if cc.id in disabled then [] else [Dot(cc.id, false, start + CustomSpanAsWritten(init, disabled), CustomIcon)])
  }

  /**
   * The `categoryDots` memo as the source computes it: a dot for each
   * enabled category, and the unlock dot last exactly when premium is off.
   */
  function DotsAsWritten(seeds: seq<Category>, customs: seq<UserCustomCategory>, s: UserSettings): (dots: seq<Dot>)
    ensures forall d :: d in dots && !d.isUnlock ==> d.key !in s.disabledCategories
    ensures !s.premiumUnlocked ==> |dots| > 0 && dots[|dots| - 1] == UnlockDot(SeedSpan(seeds, s.disabledCategories, false))
    ensures (exists d :: d in dots && d.isUnlock) <==> !s.premiumUnlocked
  {
    var disabled := s.disabledCategories;
    var premium := s.premiumUnlocked;
    var seedSpan := SeedSpan(seeds, disabled, premium);
    SeedDots(seeds, disabled, premium)
    + (if premium then CustomDotsAsWritten(customs, disabled, seedSpan) else [])
    + (if premium then [] else [UnlockDot(seedSpan)])
  }

  /** Corrected: a custom category counts the pages it is sliced into, and one with no items gets no dot. */
  function CustomSpan(customs: seq<UserCustomCategory>, disabled: seq<string>): nat {
    if customs == [] then 0
    else
      var cc := customs[|customs| - 1];
      CustomSpan(customs[..|customs| - 1], disabled)
      + (if cc.id in disabled then 0 else CeilPages(|cc.items|))
  }

  function CustomDots(customs: seq<UserCustomCategory>, disabled: seq<string>, start: nat): seq<Dot> {
    if customs == [] then []
    else
      var init := customs[..|customs| - 1];
      var cc := customs[|customs| - 1];
      CustomDots(init, disabled, start)
      + (if cc.id in disabled || cc.items == [] then []
         else [Dot(cc.id, false, start + CustomSpan(init, disabled), CustomIcon)])
  }

  function Dots(seeds: seq<Category>, customs: seq<UserCustomCategory>, s: UserSettings): seq<Dot> {
    var disabled := s.disabledCategories;
    var premium := s.premiumUnlocked;
    var seedSpan := SeedSpan(seeds, disabled, premium);
    SeedDots(seeds, disabled, premium)
    + (if premium then CustomDots(customs, disabled, seedSpan) else [])
    + (if premium then [] else [UnlockDot(seedSpan)])
  }

  /** The dot loop over the bundled categories, with its running `idx`. */
  method BuildSeedDots(seeds: seq<Category>, disabled: seq<string>, premium: bool)
    returns (dots: seq<Dot>, idx: nat)
    ensures dots == SeedDots(seeds, disabled, premium)
    ensures idx == SeedSpan(seeds, disabled, premium)
  {
    dots := [];
    idx := 0;
    var k := 0;
    while k < |seeds|
      invariant k <= |seeds|
      invariant dots == SeedDots(seeds[..k], disabled, premium)
      invariant idx == SeedSpan(seeds[..k], disabled, premium)
    {
      var cat := seeds[k];
      assert seeds[..k + 1][..k] == seeds[..k];
      if cat.id !in disabled {
        var unlockedPages := if premium then |cat.pages| else 1;
        dots := dots + [Dot(cat.id, false, idx, cat.icon)];
        idx := idx + unlockedPages;
      }
      k := k + 1;
    }
    assert seeds[..k] == seeds;
  }

  /**
   * The same loop continued over the custom categories: every enabled one
   * gets a dot and advances the counter by at least one page.
   */
  method BuildCustomDots(customs: seq<UserCustomCategory>, disabled: seq<string>, start: nat)
    returns (dots: seq<Dot>, idx: nat)
    ensures dots == CustomDotsAsWritten(customs, disabled, start)
    ensures idx == start + CustomSpanAsWritten(customs, disabled)
  {
    dots := [];
    idx := start;
    var m := 0;
    while m < |customs|
      invariant m <= |customs|
      invariant dots == CustomDotsAsWritten(customs[..m], disabled, start)
      invariant idx == start + CustomSpanAsWritten(customs[..m], disabled)
    {
      var cc := customs[m];
      assert customs[..m + 1][..m] == customs[..m];
      if cc.id !in disabled {
        var pageCount := Max(1, CeilPages(|cc.items|));
        dots := dots + [Dot(cc.id, false, idx, CustomIcon)];
        idx := idx + pageCount;
      }
      m := m + 1;
    }
    assert customs[..m] == customs;
  }

  /** The `categoryDots` memo. */
  method BuildCategoryDots(seeds: seq<Category>, customs: seq<UserCustomCategory>, s: UserSettings)
    returns (dots: seq<Dot>)
    ensures dots == DotsAsWritten(seeds, customs, s)
  {
    var idx;
    dots, idx := BuildSeedDots(seeds, s.disabledCategories, s.premiumUnlocked);
    if s.premiumUnlocked {
      var customDots;
      customDots, idx := BuildCustomDots(customs, s.disabledCategories, idx);
      dots := dots + customDots;
    } else {
      dots := dots + [UnlockDot(idx)];
    }
  }

  // ---------------------------------------------------------------------
  // Dots land on their category's first slide

  /** The slide a dot should land on: its category's page 0, or the unlock slide. */
  predicate Heads(d: Dot, sl: Slide) {
    if d.isUnlock then sl.UnlockSlide? && d.key == "unlock"
    else sl.ItemsSlide? && sl.categoryId == d.key && sl.pageIndex == 0
  }

  /** `d.startIndex`, taken relative to `offset`, indexes into `slides` and lands right. */
  predicate PointsInto(d: Dot, slides: seq<Slide>, offset: int) {
    0 <= d.startIndex - offset < |slides| && Heads(d, slides[d.startIndex - offset])
  }

  predicate Aligned(d: Dot, slides: seq<Slide>) {
    PointsInto(d, slides, 0)
  }

  lemma PointsIntoPrefix(d: Dot, a: seq<Slide>, b: seq<Slide>, offset: int)
    requires PointsInto(d, a, offset)
    ensures PointsInto(d, a + b, offset)
  {
    assert (a + b)[d.startIndex - offset] == a[d.startIndex - offset];
  }

  lemma PointsIntoSuffix(d: Dot, a: seq<Slide>, b: seq<Slide>, offset: int)
    requires PointsInto(d, b, offset + |a|)
    ensures PointsInto(d, a + b, offset)
  {
    assert (a + b)[d.startIndex - offset] == b[d.startIndex - offset - |a|];
  }

  /** Every bundled category has a page. */
  predicate AllHavePages(seeds: seq<Category>) {
    forall i :: 0 <= i < |seeds| ==> |seeds[i].pages| >= 1
  }

  /** With a page in every bundled category, the counter counts exactly the bundled slides. */
  lemma {:induction false} SeedDotsAligned(seeds: seq<Category>, disabled: seq<string>, premium: bool)
    requires AllHavePages(seeds)
    ensures SeedSpan(seeds, disabled, premium) == |SeedPart(seeds, disabled, premium)|
    ensures forall d :: d in SeedDots(seeds, disabled, premium) ==> PointsInto(d, SeedPart(seeds, disabled, premium), 0)
  {
    if seeds != [] {
      var init := seeds[..|seeds| - 1];
      var cat := seeds[|seeds| - 1];
      SeedDotsAligned(init, disabled, premium);
      var before := SeedPart(init, disabled, premium);
      var own := if cat.id in disabled then [] else SeedSlides(cat, premium);
      assert SeedPart(seeds, disabled, premium) == before + own;
      forall d | d in SeedDots(seeds, disabled, premium)
        ensures PointsInto(d, before + own, 0)
      {
        if d in SeedDots(init, disabled, premium) {
          PointsIntoPrefix(d, before, own, 0);
        } else {
          assert own == SeedSlides(cat, premium) && |own| >= 1 && own[0] == SeedSlide(cat, 0);
          assert PointsInto(d, own, |before|);
          PointsIntoSuffix(d, before, own, 0);
        }
      }
    }
  }

  /** Corrected custom dots land on their category's first custom slide. */
  lemma {:induction false} CustomDotsAligned(customs: seq<UserCustomCategory>, disabled: seq<string>, start: nat)
    ensures CustomSpan(customs, disabled) == |CustomPart(customs, disabled)|
    ensures forall d :: d in CustomDots(customs, disabled, start) ==> PointsInto(d, CustomPart(customs, disabled), start)
  {
    if customs != [] {
      var init := customs[..|customs| - 1];
      var cc := customs[|customs| - 1];
      CustomDotsAligned(init, disabled, start);
      CustomSlidesCount(cc);
      var before := CustomPart(init, disabled);
      var own := if cc.id in disabled then [] else CustomSlides(cc);
      assert CustomPart(customs, disabled) == before + own;
      forall d | d in CustomDots(customs, disabled, start)
        ensures PointsInto(d, before + own, start)
      {
        if d in CustomDots(init, disabled, start) {
          PointsIntoPrefix(d, before, own, start);
        } else {
          assert own == CustomSlides(cc) && |own| >= 1 && own[0].pageIndex == 0;
          assert PointsInto(d, own, start + |before|);
          PointsIntoSuffix(d, before, own, start);
        }
      }
    }
  }

  /**
   * Every dot lands on the first slide of its category, or on the unlock
   * slide; so the dot-press guard never drops a tap.
   */
  lemma DotsAligned(seeds: seq<Category>, customs: seq<UserCustomCategory>, s: UserSettings)
    requires AllHavePages(seeds)
    ensures forall d :: d in Dots(seeds, customs, s) ==> Aligned(d, Slides(seeds, customs, s))
  {
    var disabled := s.disabledCategories;
    var premium := s.premiumUnlocked;
    SeedDotsAligned(seeds, disabled, premium);
    var seedPart := SeedPart(seeds, disabled, premium);
    var seedDots := SeedDots(seeds, disabled, premium);
    if premium {
      CustomDotsAligned(customs, disabled, |seedPart|);
      var rest := CustomPart(customs, disabled);
      assert Slides(seeds, customs, s) == seedPart + rest;
      assert Dots(seeds, customs, s) == seedDots + CustomDots(customs, disabled, |seedPart|);
      forall d | d in Dots(seeds, customs, s)
        ensures PointsInto(d, seedPart + rest, 0)
      {
        if d in seedDots {
          PointsIntoPrefix(d, seedPart, rest, 0);
        } else {
          PointsIntoSuffix(d, seedPart, rest, 0);
        }
      }
    } else {
      var rest := [UnlockSlide];
      assert Slides(seeds, customs, s) == seedPart + rest;
      assert Dots(seeds, customs, s) == seedDots + [UnlockDot(|seedPart|)];
      forall d | d in Dots(seeds, customs, s)
        ensures PointsInto(d, seedPart + rest, 0)
      {
        if d in seedDots {
          PointsIntoPrefix(d, seedPart, rest, 0);
        } else {
          assert PointsInto(d, rest, |seedPart|);
          PointsIntoSuffix(d, seedPart, rest, 0);
        }
      }
    }
  }

  /** The bundled catalogue meets the alignment theorem's one condition. */
  lemma CatalogueHasPages()
    ensures AllHavePages(CategoriesSeed.Catalogue)
  {
    CategoriesSeed.CatalogueShape();
  }

  // ---------------------------------------------------------------------
  // The dots as written

  /** While every enabled custom category has an item, the source's dots are the corrected ones. */
  lemma {:induction false} AsWrittenAgreesWhileNonEmpty(seeds: seq<Category>, customs: seq<UserCustomCategory>, s: UserSettings)
    requires forall i :: 0 <= i < |customs| && customs[i].id !in s.disabledCategories ==> customs[i].items != []
    ensures DotsAsWritten(seeds, customs, s) == Dots(seeds, customs, s)
  {
    forall start: nat ensures CustomDotsAsWritten(customs, s.disabledCategories, start) == CustomDots(customs, s.disabledCategories, start) {
      CustomAsWrittenAgrees(customs, s.disabledCategories, start);
    }
  }

  lemma {:induction false} CustomAsWrittenAgrees(customs: seq<UserCustomCategory>, disabled: seq<string>, start: nat)
    requires forall i :: 0 <= i < |customs| && customs[i].id !in disabled ==> customs[i].items != []
    ensures CustomSpanAsWritten(customs, disabled) == CustomSpan(customs, disabled)
    ensures CustomDotsAsWritten(customs, disabled, start) == CustomDots(customs, disabled, start)
  {
    if customs != [] {
      var init := customs[..|customs| - 1];
      assert forall i :: 0 <= i < |init| ==> init[i] == customs[i];
      CustomAsWrittenAgrees(init, disabled, start);
    }
  }

  /**
   * While no enabled custom category is empty, every dot as written lands
   * on the first slide of its own category, or on the unlock slide.
   */
  lemma AsWrittenAlignedWhileNonEmpty(seeds: seq<Category>, customs: seq<UserCustomCategory>, s: UserSettings)
    requires AllHavePages(seeds)
    requires forall i :: 0 <= i < |customs| && customs[i].id !in s.disabledCategories ==> customs[i].items != []
    ensures forall d :: d in DotsAsWritten(seeds, customs, s) ==> Aligned(d, Slides(seeds, customs, s))
  {
    AsWrittenAgreesWhileNonEmpty(seeds, customs, s);
    DotsAligned(seeds, customs, s);
  }

  /**
   * As written, an enabled custom category with no items gets a dot and a
   * page in the counter but no slide: its dot lands on the next category's
   * slide, and that category's dot points past the last slide, so the guard
   * ignores a tap on it.
   */
  lemma EmptyCustomMisalignsDots(seeds: seq<Category>, s: UserSettings, empty: UserCustomCategory, next: UserCustomCategory)
    requires AllHavePages(seeds) && s.premiumUnlocked
    requires empty.items == [] && 1 <= |next.items| <= PageSize && empty.id != next.id
    requires empty.id !in s.disabledCategories && next.id !in s.disabledCategories
    ensures var dots := DotsAsWritten(seeds, [empty, next], s);
      var slides := Slides(seeds, [empty, next], s);
      && |dots| >= 2 && dots[|dots| - 2].key == empty.id && dots[|dots| - 1].key == next.id
      && !Aligned(dots[|dots| - 2], slides)
      && dots[|dots| - 2].startIndex < |slides|
      && slides[dots[|dots| - 2].startIndex].ItemsSlide? && slides[dots[|dots| - 2].startIndex].categoryId == next.id
      && dots[|dots| - 1].startIndex == |slides|
  {
    var disabled := s.disabledCategories;
    SeedDotsAligned(seeds, disabled, true);
    var seedPart := SeedPart(seeds, disabled, true);
    var seedDots := SeedDots(seeds, disabled, true);
    var span := |seedPart|;
    EmptyThenOne(empty, next, disabled, span);
    var dots := DotsAsWritten(seeds, [empty, next], s);
    var slides := Slides(seeds, [empty, next], s);
    assert dots == seedDots + [Dot(empty.id, false, span, CustomIcon), Dot(next.id, false, span + 1, CustomIcon)];
    assert slides == seedPart + [ItemsSlide(next.id, next.name, CustomIcon, 0, 1, next.items, true)];
    assert slides[span].categoryId == next.id;
  }

  /** The custom part of the counterexample: one slide, two dots one page apart. */
  lemma EmptyThenOne(empty: UserCustomCategory, next: UserCustomCategory, disabled: seq<string>, span: nat)
    requires empty.items == [] && 1 <= |next.items| <= PageSize
    requires empty.id !in disabled && next.id !in disabled
    ensures CustomPart([empty, next], disabled) == CustomSlides(next)
    ensures CustomSlides(next) == [ItemsSlide(next.id, next.name, CustomIcon, 0, 1, next.items, true)]
    ensures CustomDotsAsWritten([empty, next], disabled, span)
      == [Dot(empty.id, false, span, CustomIcon), Dot(next.id, false, span + 1, CustomIcon)]
  {
    var customs := [empty, next];
    assert customs[..1] == [empty] && customs[..1][..0] == [] && customs[..2] == customs;
    assert CustomPart([empty], disabled) == [];
    assert next.items[..|next.items|] == next.items && next.items[|next.items|..] == [];
    assert Chunks(next.items) == [next.items];
    assert CustomSpanAsWritten([empty], disabled) == 1;
    assert CustomDotsAsWritten([empty], disabled, span) == [Dot(empty.id, false, span, CustomIcon)];
  }

  // ---------------------------------------------------------------------
  // The carousel

  /** The slide on screen, `slides[currentIndex] || slides[0]`; nothing when there are no slides. */
  function CurrentSlide(slides: seq<Slide>, index: int): (r: Option<Slide>)
    ensures r.None? <==> slides == []
    ensures 0 <= index < |slides| ==> r == Some(slides[index])
    ensures !(0 <= index < |slides|) && slides != [] ==> r == Some(slides[0])
  {
    if 0 <= index < |slides| then Some(slides[index])
    else if slides != [] then Some(slides[0])
    else None
  }

  /** `currentCategoryKey`: "unlock" on the unlock slide, else the slide's category. */
  function CategoryKey(sl: Option<Slide>): Option<string> {
    match sl
    case None => None
    case Some(UnlockSlide) => Some("unlock")
    case Some(ItemsSlide(id, _, _, _, _, _, _)) => Some(id)
  }

  /** The home screen's slide list, dot row and current index. */
  class Carousel {
    var slides: seq<Slide>
    var dots: seq<Dot>
    var currentIndex: int

    /** The index stays on a slide, or at 0 when there is none. */
    predicate Valid()
      reads this
    {
      0 <= currentIndex && (currentIndex < |slides| || currentIndex == 0)
    }

    /** The dot drawn large: the one whose key is the current category. */
    function IsActive(d: Dot): bool
      reads this
    {
      CategoryKey(CurrentSlide(slides, currentIndex)) == Some(d.key)
    }

    /** The screen on mount: both memos built, and the first slide on screen. */
    constructor (customs: seq<UserCustomCategory>, s: UserSettings)
      ensures Valid()
      ensures slides == Slides(CategoriesSeed.Catalogue, customs, s)
      ensures dots == DotsAsWritten(CategoriesSeed.Catalogue, customs, s)
      ensures currentIndex == 0
    {
      var built := BuildSlides(CategoriesSeed.Catalogue, customs, s);
      var row := BuildCategoryDots(CategoriesSeed.Catalogue, customs, s);
      slides := built;
      dots := row;
      currentIndex := 0;
    }

    /**
     * New settings or custom categories rebuild both memos; the effect on
     * `slides.length` then sends an out-of-range index back to 0.
     */
    method Rebuild(customs: seq<UserCustomCategory>, s: UserSettings)
      requires Valid()
      modifies this
      ensures Valid()
      ensures slides == Slides(CategoriesSeed.Catalogue, customs, s)
      ensures dots == DotsAsWritten(CategoriesSeed.Catalogue, customs, s)
      ensures currentIndex == (if old(currentIndex) >= |slides| then 0 else old(currentIndex))
    {
      slides := BuildSlides(CategoriesSeed.Catalogue, customs, s);
      dots := BuildCategoryDots(CategoriesSeed.Catalogue, customs, s);
      if currentIndex >= |slides| {
        currentIndex := 0;
      }
    }

    /** `onScroll` with the rounded page number: accepted only in range and when it differs. */
    method OnScroll(newIndex: int)
      requires Valid()
      modifies this
      ensures Valid()
      ensures slides == old(slides) && dots == old(dots)
      ensures currentIndex == (if 0 <= newIndex < |slides| && newIndex != old(currentIndex) then newIndex
                               else old(currentIndex))
    {
      if newIndex >= 0 && newIndex < |slides| && newIndex != currentIndex {
        currentIndex := newIndex;
      }
    }

    /**
     * A tap on dot `k` jumps to its start slide when that is a slide, and is
     * ignored otherwise. A dot that lands right becomes the active one.
     */
    method PressDot(k: nat)
      requires Valid() && k < |dots|
      modifies this
      ensures Valid()
      ensures slides == old(slides) && dots == old(dots)
      ensures currentIndex == (if dots[k].startIndex < |slides| then dots[k].startIndex else old(currentIndex))
      ensures Aligned(dots[k], slides) ==> IsActive(dots[k])
    {
      if dots[k].startIndex < |slides| {
        currentIndex := dots[k].startIndex;
      }
    }
  }
}
