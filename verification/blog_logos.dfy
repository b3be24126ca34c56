/**
 The blog post template's own logo layout: fourteen hand-placed markers tiled
 down the page by the offsets 3700 and 8000, and the markers drawn from that
 layout for a given window.
 */
module BlogLogos {
  import opened Wrappers
  import opened Placement
  import opened Visibility

  /** The hand-placed markers covering the top of the page. */
  const Seed: seq<Marker> := [
    Marker(20, 160, 25),
    Marker(40, 80, 60),
    Marker(980, 830, 40),
    Marker(940, 880, 70),
    Marker(40, 1280, 35),
    Marker(0, 1390, 50),
    Marker(960, 1690, 120),
    Marker(80, 2060, 25),
    Marker(30, 2100, 60),
    Marker(1010, 2530, 40),
    Marker(950, 2650, 50),
    Marker(40, 3280, 35),
    Marker(80, 3390, 50),
    Marker(980, 3690, 120)
  ]

  /** The vertical distances the layout is tiled by, in fold order. */
  const Offsets: seq<int> := [3700, 8000]

  /** The full tiled layout. */
  function Logos(): seq<Marker> {
    Expand(Seed, Offsets)
  }

  /** The markers drawn for the given window (None when there is no window). */
  function RenderedLogos(window: Option<Measurements>): seq<Marker> {
    VisibleMarkers(Logos(), CurrentHeight(window))
  }

  /** The subset sums of the two offsets are exactly 0, 3700, 8000 and 11700. */
  lemma {:induction false} OffsetSums(k: int)
    ensures IsSubsetSum(Offsets, k) <==> k == 0 || k == 3700 || k == 8000 || k == 11700
  {
    assert Offsets[1..] == [8000];
    assert Offsets[1..][1..] == [];
  }

  /**
   The tiled layout is the seed followed by three copies of it, moved down by
   3700, 8000 and 3700 + 8000.
   */
  lemma {:induction false} LogosBlocks()
    ensures Logos() == Seed + ShiftAll(Seed, 3700) + ShiftAll(Seed, 8000) + ShiftAll(Seed, 11700)
  {
    ExpandTwo(Seed, 3700, 8000);
  }

  /** Fourteen markers tiled by two offsets give 14 * 2 * 2 = 56 markers. */
  lemma {:induction false} LogosCount()
    ensures |Logos()| == 56
  {
    var n := |Seed|;
    var p := Pow2(|Offsets|);
    assert n == 14 && p == 4 by {
      SeedDepths();
      assert Pow2(2) == 2 * Pow2(1) == 4;
    }
    ExpandLength(Seed, Offsets);
    assert n * p == 56;
  }

  /**
   The seed has fourteen markers, the first two at y = 160 and y = 80; every
   seed marker is at y >= 80, and all but the first two at y >= 830.
   */
  lemma {:induction false} SeedDepths()
    ensures |Seed| == 14
    ensures Seed[0] == Marker(20, 160, 25) && Seed[1] == Marker(40, 80, 60)
    ensures forall j :: 0 <= j < |Seed| ==> Seed[j].y >= 80
    ensures forall j :: 2 <= j < |Seed| ==> Seed[j].y >= 830
  {
  }

  /** Every tiled copy lies at y >= 80 + 3700 = 3780. */
  lemma {:induction false} CopiesAreDeep()
    ensures forall i :: |Seed| <= i < |Logos()| ==> Logos()[i].y >= 3780
  {
    SeedDepths();
    CopiesBelow(Seed, Offsets, 3700, 80);
  }

  /**
   When a layout starts with the seed, the first two seed markers are visible
   and no other seed marker or later marker is, exactly those two are drawn.
   */
  lemma {:induction false} FirstTwoDrawn(seed: seq<Marker>, layout: seq<Marker>, h: int)
    requires 2 <= |seed| <= |layout| && layout[..|seed|] == seed
    requires IsVisible(seed[0], h) && IsVisible(seed[1], h)
    requires forall j :: 2 <= j < |seed| ==> !IsVisible(seed[j], h)
    requires forall i :: |seed| <= i < |layout| ==> !IsVisible(layout[i], h)
    ensures VisibleMarkers(layout, h) == [seed[0], seed[1]]
  {
    var top := seed[..2];
    var middle := seed[2..];
    var deep := layout[|seed|..];
    assert layout == (top + middle) + deep by {
      assert seed == top + middle;
      assert layout == layout[..|seed|] + deep;
    }
    assert VisibleMarkers(top, h) == [seed[0], seed[1]] by {
      VisibleAll(top, h);
    }
    assert VisibleMarkers(middle, h) == [] by {
      VisibleNone(middle, h);
    }
    assert VisibleMarkers(deep, h) == [] by {
      assert forall i :: 0 <= i < |deep| ==> deep[i] == layout[|seed| + i];
      VisibleNone(deep, h);
    }
    VisibleAppend(top + middle, deep, h);
    VisibleAppend(top, middle, h);
  }

  /** The layout starts with the seed. */
  lemma {:induction false} LogosStartWithSeed()
    ensures 2 <= |Seed| <= |Logos()| && Logos()[..|Seed|] == Seed
  {
    SeedDepths();
    ExpandPrefix(Seed, Offsets);
  }

  /**
   On a page of the fallback height the first two seed markers are visible
   and no other marker of the layout is.
   */
  lemma {:induction false} FallbackVisibility()
    ensures IsVisible(Seed[0], FallbackHeight) && IsVisible(Seed[1], FallbackHeight)
    ensures forall j :: 2 <= j < |Seed| ==> !IsVisible(Seed[j], FallbackHeight)
    ensures forall i :: |Seed| <= i < |Logos()| ==> !IsVisible(Logos()[i], FallbackHeight)
  {
    SeedDepths();
    CopiesAreDeep();
  }

  /**
   Without a window the page height is 500, so only markers above y = 300
   are drawn: exactly the first two seed markers.
   */
  lemma {:induction false} FallbackLogos()
    ensures RenderedLogos(None) == [Marker(20, 160, 25), Marker(40, 80, 60)]
  {
    LogosStartWithSeed();
    FallbackVisibility();
    FirstTwoDrawn(Seed, Logos(), FallbackHeight);
    SeedDepths();
  }

  /**
   Whether `m` has the x and size of some seed marker and lies a distance in
   `shifts` below it.
   */
  predicate ShiftedFrom(m: Marker, seed: seq<Marker>, shifts: set<int>) {
    exists j :: 0 <= j < |seed| && m.x == seed[j].x && m.size == seed[j].size
      && m.y - seed[j].y in shifts
  }

  /** Every drawn marker, for any window, is a marker of the layout. */
  lemma {:induction false} RenderedFromLayout(window: Option<Measurements>)
    ensures forall m :: m in RenderedLogos(window) ==> m in Logos()
  {
    forall m | m in RenderedLogos(window)
      ensures m in Logos()
    {
      VisibleMembership(Logos(), CurrentHeight(window), m);
    }
  }

  /** One marker of the layout comes from a seed marker moved down by a subset sum. */
  lemma {:induction false} MarkerOrigin(m: Marker)
    requires m in Logos()
    ensures ShiftedFrom(m, Seed, {0, 3700, 8000, 11700})
  {
    ExpandOrigin(Seed, Offsets, m);
    var j, k :| 0 <= j < |Seed| && IsSubsetSum(Offsets, k)
                && m == Marker(Seed[j].x, Seed[j].y + k, Seed[j].size);
    OffsetSums(k);
  }

  /**
   Every marker of the layout has the x and size of a seed marker and lies
   0, 3700, 8000 or 11700 below it.
   */
  lemma {:induction false} LayoutOrigin()
    ensures forall m :: m in Logos() ==> ShiftedFrom(m, Seed, {0, 3700, 8000, 11700})
  {
    forall m | m in Logos()
      ensures ShiftedFrom(m, Seed, {0, 3700, 8000, 11700})
    {
      MarkerOrigin(m);
    }
  }

  /**
   Every drawn marker, for any window, has the x and size of a seed marker
   and lies 0, 3700, 8000 or 11700 below it.
   */
  lemma {:induction false} RenderedOrigin(window: Option<Measurements>)
    ensures forall m :: m in RenderedLogos(window) ==> ShiftedFrom(m, Seed, {0, 3700, 8000, 11700})
  {
    RenderedFromLayout(window);
    LayoutOrigin();
  }
}
