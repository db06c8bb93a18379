/** The nightly aging rules of the Gilded Rose inventory, on item values.

    `Step` follows the branch order of the update pass item by item; the
    category table (`CategoryOf`, `Aged`) is an independent statement of
    the same rules per category, and the lemmas below relate the two,
    state each category's promise on its own, and follow an item over
    several nights.  Integers are mathematical; `Overflows` says where the
    Rust code, whose `Item` fields are `i32`, would instead stop with an
    overflow. */
module ItemRules {

  /** The item names the update pass matches exactly. */
  const EtcConcertTicket: string := "Backstage passes to a TAFKAL80ETC concert"
  const AgedBrie: string := "Aged Brie"
  const Sulfuras: string := "Sulfuras, Hand of Ragnaros"

  /** The ceiling of the two clamped quality adjustments. */
  const MaxQuality: int := 50

  /** Bounds of a 32-bit signed integer. */
  const I32Min: int := -0x8000_0000
  const I32Max: int := 0x7fff_ffff

  /** The observable state of one item. */
  datatype ItemState = ItemState(name: string, sellIn: int, quality: int)

  function Min(a: int, b: int): int { if a <= b then a else b }
  function Max(a: int, b: int): int { if a >= b then a else b }

  /** Quality after the clamped increase: one more, but only below the ceiling. */
  function Upgraded(q: int): (r: int)
    ensures r == q + 1 <==> q < MaxQuality
    ensures q <= r <= Max(q, MaxQuality)
  {
    if q < MaxQuality then q + 1 else q
  }

  /** Quality after the clamped decrease: one less, but only above zero. */
  function Downgraded(q: int): (r: int)
    ensures r == q - 1 <==> q > 0
    ensures Min(q, 0) <= r <= q
  {
    if q > 0 then q - 1 else q
  }

  /** What the backstage pass gains when the concert is `s` days away (s >= 0). */
  function BackstageGain(s: int): int
  {
    if 0 <= s <= 4 then 3
    else if 5 <= s <= 9 then 2
    else 1
  }

  /** One nightly update of one item, in the order the update pass acts:
      backstage passes first (decrement, then reset or clamped rise);
      otherwise the first quality change, then the decrement, then the
      expiry adjustment, which looks at the decremented `sellIn`. */
  function Step(it: ItemState): (r: ItemState)
    ensures r.name == it.name
  {
    if it.name == EtcConcertTicket then
      var s := it.sellIn - 1;
      if s < 0 then ItemState(it.name, s, 0)
      else ItemState(it.name, s, Min(MaxQuality, it.quality + BackstageGain(s)))
    else
      var q1 := if it.name != AgedBrie && it.name != Sulfuras
                then Downgraded(it.quality) else Upgraded(it.quality);
      var s := if it.name != Sulfuras then it.sellIn - 1 else it.sellIn;
      var q2 := if s < 0 then
                  (if it.name == AgedBrie then Upgraded(q1)
                   else if it.name != Sulfuras then Downgraded(q1)
                   else q1)
                else q1;
      ItemState(it.name, s, q2)
  }

  /** One nightly update of every item of an inventory, position by position. */
  function StepAll(items: seq<ItemState>): (r: seq<ItemState>)
    ensures |r| == |items|
    ensures forall k :: 0 <= k < |items| ==> r[k] == Step(items[k])
  {
    if items == [] then [] else [Step(items[0])] + StepAll(items[1..])
  }

  /** `n` successive nights for one item. */
  function Nights(it: ItemState, n: nat): (r: ItemState)
    ensures r.name == it.name
    decreases n
  {
    if n == 0 then it else Nights(Step(it), n - 1)
  }

  // ---------------------------------------------------------------------
  // The category table: an independent statement of the rules.

  datatype Category = Normal | Brie | BackstagePass | Legendary

  /** Exact name match; every other name is an ordinary item. */
  function CategoryOf(name: string): (c: Category)
    ensures c == BackstagePass <==> name == EtcConcertTicket
    ensures c == Brie <==> name == AgedBrie
    ensures c == Legendary <==> name == Sulfuras
  {
    if name == EtcConcertTicket then BackstagePass
    else if name == AgedBrie then Brie
    else if name == Sulfuras then Legendary
    else Normal
  }

  /** `n` clamped increases at once: nothing happens at or above the
      ceiling, otherwise the sum is capped at the ceiling. */
  function Raised(q: int, n: nat): int
  {
    if q >= MaxQuality then q else Min(MaxQuality, q + n)
  }

  /** `n` clamped decreases at once: nothing happens at or below zero,
      otherwise the difference is floored at zero. */
  function Lowered(q: int, n: nat): int
  {
    if q <= 0 then q else Max(0, q - n)
  }

  /** The rule of each category as a table row. */
  function Aged(c: Category, it: ItemState): ItemState
  {
    match c
    case Normal =>
      var s := it.sellIn - 1;
      ItemState(it.name, s, Lowered(it.quality, if s < 0 then 2 else 1))
    case Brie =>
      var s := it.sellIn - 1;
      ItemState(it.name, s, Raised(it.quality, if s < 0 then 2 else 1))
    case BackstagePass =>
      var s := it.sellIn - 1;
      var q := if s < 0 then 0
               else if s <= 4 then Min(MaxQuality, it.quality + 3)
               else if s <= 9 then Min(MaxQuality, it.quality + 2)
               else Min(MaxQuality, it.quality + 1);
      ItemState(it.name, s, q)
    case Legendary =>
      ItemState(it.name, it.sellIn, Raised(it.quality, 1))
  }

  lemma UpgradedTwice(q: int)
    ensures Upgraded(Upgraded(q)) == Raised(q, 2)
  {
  }

  lemma DowngradedTwice(q: int)
    ensures Downgraded(Downgraded(q)) == Lowered(q, 2)
  {
  }

  /** The update pass, in its own branch order, is the category table. */
  lemma StepIsCategoryRule(it: ItemState)
    ensures Step(it) == Aged(CategoryOf(it.name), it)
  {
  }

  // ---------------------------------------------------------------------
  // Each category's promise, stated on Step.

  /** Only the legendary item keeps its sell-by countdown. */
  lemma SellInRule(it: ItemState)
    ensures it.name == Sulfuras ==> Step(it).sellIn == it.sellIn
    ensures it.name != Sulfuras ==> Step(it).sellIn == it.sellIn - 1
    ensures Step(it).name == it.name
  {
  }

  /** A backstage pass is worthless once the concert has passed. */
  lemma BackstageExpired(it: ItemState)
    requires it.name == EtcConcertTicket && it.sellIn - 1 < 0
    ensures Step(it).quality == 0
  {
  }

  /** Before the concert a backstage pass rises by 3, 2 or 1 as it approaches,
      capped at the ceiling from whatever it held. */
  lemma BackstageRises(it: ItemState)
    requires it.name == EtcConcertTicket && it.sellIn - 1 >= 0
    ensures 0 <= it.sellIn - 1 <= 4 ==> Step(it).quality == Min(MaxQuality, it.quality + 3)
    ensures 5 <= it.sellIn - 1 <= 9 ==> Step(it).quality == Min(MaxQuality, it.quality + 2)
    ensures it.sellIn - 1 >= 10 ==> Step(it).quality == Min(MaxQuality, it.quality + 1)
    ensures it.quality > MaxQuality ==> Step(it).quality == MaxQuality
    ensures it.quality <= MaxQuality ==> Step(it).quality > it.quality || Step(it).quality == MaxQuality
  {
  }

  /** Aged Brie improves by one, by two once expired, never past the ceiling,
      and is never lowered. */
  lemma BrieImproves(it: ItemState)
    requires it.name == AgedBrie
    ensures it.sellIn - 1 >= 0 ==> Step(it).quality == Upgraded(it.quality)
    ensures it.sellIn - 1 < 0 ==> Step(it).quality == Upgraded(Upgraded(it.quality))
    ensures it.quality <= Step(it).quality <= Max(it.quality, MaxQuality)
  {
  }

  /** The legendary item rises by one up to the ceiling and has no expiry
      adjustment. */
  lemma SulfurasRule(it: ItemState)
    requires it.name == Sulfuras
    ensures Step(it).quality == Upgraded(it.quality)
    ensures Step(it).sellIn == it.sellIn
  {
  }

  /** An ordinary item loses one, two once expired, never below zero from a
      non-negative quality, and never gains. */
  lemma NormalDegrades(it: ItemState)
    requires CategoryOf(it.name) == Normal
    ensures it.sellIn - 1 >= 0 ==> Step(it).quality == Downgraded(it.quality)
    ensures it.sellIn - 1 < 0 ==> Step(it).quality == Downgraded(Downgraded(it.quality))
    ensures Min(it.quality, 0) <= Step(it).quality <= it.quality
    ensures it.quality >= 0 ==> Step(it).quality >= 0
  {
  }

  predicate QualityInRange(it: ItemState) { 0 <= it.quality <= MaxQuality }

  /** From a quality in [0, 50] every category lands in [0, 50]. */
  lemma StepKeepsRange(it: ItemState)
    requires QualityInRange(it)
    ensures QualityInRange(Step(it))
  {
  }

  /** Quality outside [0, 50] is kept when no adjustment acts on it: Aged Brie
      and the legendary item keep a quality above the ceiling, an ordinary
      item keeps a negative one. */
  lemma OutOfRangeUntouched(it: ItemState)
    ensures (it.name == AgedBrie || it.name == Sulfuras) && it.quality >= MaxQuality
            ==> Step(it).quality == it.quality
    ensures CategoryOf(it.name) == Normal && it.quality <= 0 ==> Step(it).quality == it.quality
  {
  }

  /** The inventory-wide pass keeps every quality in [0, 50]. */
  lemma StepAllKeepsRange(items: seq<ItemState>)
    requires forall k :: 0 <= k < |items| ==> QualityInRange(items[k])
    ensures forall k :: 0 <= k < |items| ==> QualityInRange(StepAll(items)[k])
  {
  }

  /** The inventory-wide pass keeps length and names, and each position's new
      state depends on nothing but that position's old state. */
  lemma StepAllPointwise(items: seq<ItemState>, others: seq<ItemState>, k: int)
    requires 0 <= k < |items| && k < |others| && items[k] == others[k]
    ensures |StepAll(items)| == |items|
    ensures StepAll(items)[k].name == items[k].name
    ensures StepAll(items)[k] == StepAll(others)[k]
  {
  }

  // ---------------------------------------------------------------------
  // Several nights.

  lemma {:induction false} NightsUnfold(it: ItemState, n: nat)
    ensures Nights(it, n + 1) == Step(Nights(it, n))
    decreases n
  {
    if n > 0 {
      NightsUnfold(Step(it), n - 1);
    }
  }

  /** The legendary item never ages, and its quality climbs by one a night
      until it reaches the ceiling, where it stays. */
  lemma {:induction false} SulfurasOverNights(it: ItemState, n: nat)
    requires it.name == Sulfuras
    ensures Nights(it, n).sellIn == it.sellIn
    ensures Nights(it, n).quality == Raised(it.quality, n)
    decreases n
  {
    if n > 0 {
      SulfurasOverNights(Step(it), n - 1);
    }
  }

  /** Any number of nights keeps a quality in [0, 50] in [0, 50]. */
  lemma {:induction false} RangeOverNights(it: ItemState, n: nat)
    requires QualityInRange(it)
    ensures QualityInRange(Nights(it, n))
    decreases n
  {
    if n > 0 {
      StepKeepsRange(it);
      RangeOverNights(Step(it), n - 1);
    }
  }

  /** Every item except the legendary one counts down one day a night. */
  lemma {:induction false} SellInOverNights(it: ItemState, n: nat)
    requires it.name != Sulfuras
    ensures Nights(it, n).sellIn == it.sellIn - n
    decreases n
  {
    if n > 0 {
      SellInRule(it);
      SellInOverNights(Step(it), n - 1);
    }
  }

  /** Once its concert has passed, a backstage pass stays worthless. */
  lemma {:induction false} BackstageStaysWorthless(it: ItemState, n: nat)
    requires it.name == EtcConcertTicket && it.sellIn <= 0
    ensures Nights(it, n + 1).quality == 0
    decreases n
  {
    if n > 0 {
      BackstageStaysWorthless(Step(it), n - 1);
    }
  }

  // ---------------------------------------------------------------------
  // 32-bit integers.

  predicate InI32(x: int) { I32Min <= x <= I32Max }

  /** The Rust code stores sell_in and quality as `i32` and stops
      with an overflow when the countdown goes below the smallest one or when
      the backstage addition passes the largest one; the clamped adjustments
      never overflow. */
  predicate Overflows(it: ItemState)
  {
    (it.name != Sulfuras && it.sellIn - 1 < I32Min)
    || (it.name == EtcConcertTicket && it.sellIn - 1 >= 0
        && it.quality + BackstageGain(it.sellIn - 1) > I32Max)
  }

  /** Where the Rust code does not overflow, the mathematical result fits in
      `i32`, so the model and the Rust code agree. */
  lemma NoOverflowStaysI32(it: ItemState)
    requires InI32(it.sellIn) && InI32(it.quality) && !Overflows(it)
    ensures InI32(Step(it).sellIn) && InI32(Step(it).quality)
  {
  }

  /** Every single-item case the Rust code's unit tests check. */
  lemma UnitTestCases()
    ensures Step(ItemState("foo", 10, 0)).sellIn == 9
    ensures Step(ItemState(AgedBrie, 10, 0)).sellIn == 9
    ensures Step(ItemState(EtcConcertTicket, 10, 0)).sellIn == 9
    ensures Step(ItemState(Sulfuras, 10, 0)).sellIn == 10
    ensures Step(ItemState(EtcConcertTicket, 11, 50)).quality == 50
    ensures Step(ItemState(EtcConcertTicket, 11, 49)).quality == 50
    ensures Step(ItemState(EtcConcertTicket, 11, 48)).quality == 49
    ensures Step(ItemState(EtcConcertTicket, 11, 30)).quality == 31
    ensures Step(ItemState(EtcConcertTicket, 6, 50)).quality == 50
    ensures Step(ItemState(EtcConcertTicket, 6, 49)).quality == 50
    ensures Step(ItemState(EtcConcertTicket, 6, 48)).quality == 50
    ensures Step(ItemState(EtcConcertTicket, 10, 47)).quality == 49
    ensures Step(ItemState(EtcConcertTicket, 10, 30)).quality == 32
    ensures Step(ItemState(EtcConcertTicket, 1, 50)).quality == 50
    ensures Step(ItemState(EtcConcertTicket, 1, 49)).quality == 50
    ensures Step(ItemState(EtcConcertTicket, 1, 48)).quality == 50
    ensures Step(ItemState(EtcConcertTicket, 5, 47)).quality == 50
    ensures Step(ItemState(EtcConcertTicket, 5, 46)).quality == 49
    ensures Step(ItemState(EtcConcertTicket, 5, 30)).quality == 33
    ensures Step(ItemState(EtcConcertTicket, 0, 50)).quality == 0
    ensures Step(ItemState(EtcConcertTicket, 0, 49)).quality == 0
    ensures Step(ItemState(EtcConcertTicket, -1, 48)).quality == 0
    ensures Step(ItemState(EtcConcertTicket, -5, 47)).quality == 0
    ensures Step(ItemState(EtcConcertTicket, -10, 46)).quality == 0
    ensures Step(ItemState(EtcConcertTicket, -50, 30)).quality == 0
  {
  }
}
