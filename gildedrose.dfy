/** The shop's stock and its nightly update pass, with the items changed in
    place.  Each method is proved against the value-level rules of
    `ItemRules`. */
module GildedRose {
  import opened ItemRules

  /** One stock item; the update pass changes its fields in place. */
  class Item {
    var name: string
    var sellIn: int
    var quality: int

    /** The item's current state as a value. */
    function State(): ItemState
      reads this
    {
      ItemState(name, sellIn, quality)
    }

    /** Builds an item as given; nothing is validated. */
    constructor (name: string, sellIn: int, quality: int)
      ensures State() == ItemState(name, sellIn, quality)
    {
      this.name := name;
      this.sellIn := sellIn;
      this.quality := quality;
    }

    /** Adds one to the quality, only below the ceiling. */
    method UpgradeQuality()
      modifies this
      ensures name == old(name) && sellIn == old(sellIn)
      ensures quality == Upgraded(old(quality))
      ensures quality == old(quality) + 1 <==> old(quality) < MaxQuality
    {
      if quality < MaxQuality {
        quality := quality + 1;
      }
    }

    /** Takes one from the quality, only above zero. */
    method DowngradeQuality()
      modifies this
      ensures name == old(name) && sellIn == old(sellIn)
      ensures quality == Downgraded(old(quality))
      ensures quality == old(quality) - 1 <==> old(quality) > 0
    {
      if quality > 0 {
        quality := quality - 1;
      }
    }
  }

  /** The shop: an ordered inventory that owns its items. */
  class GildedRose {
    var items: seq<Item>

    /** The inventory owns each item once: no two positions share an item. */
    ghost predicate Valid()
      reads this
    {
      forall i, j :: 0 <= i < j < |items| ==> items[i] != items[j]
    }

    /** The inventory's state as values, position by position. */
    ghost function Contents(): (c: seq<ItemState>)
      reads this, items
      ensures |c| == |items|
      ensures forall k :: 0 <= k < |items| ==> c[k] == items[k].State()
    {
      seq(|items|, k reads this, items requires 0 <= k < |items| => items[k].State())
    }

    constructor (items: seq<Item>)
      requires forall i, j :: 0 <= i < j < |items| ==> items[i] != items[j]
      ensures Valid() && this.items == items
    {
      this.items := items;
    }

    /** One nightly update: every item, in order, once. */
    method UpdateQuality()
      requires Valid()
      modifies items
      ensures Valid() && items == old(items)
      ensures forall k :: 0 <= k < |items| ==> items[k].State() == Step(old(items[k].State()))
      ensures Contents() == StepAll(old(Contents()))
    {
      for i := 0 to |items|
        invariant forall k :: 0 <= k < i ==> items[k].State() == Step(old(items[k].State()))
        invariant forall k :: i <= k < |items| ==> items[k].State() == old(items[k].State())
      {
        var item := items[i];
        ghost var before := item.State();
        if item.name == EtcConcertTicket {
          item.sellIn := item.sellIn - 1;
          if item.sellIn < 0 {
            item.quality := 0;
            assert item.State() == Step(before);
            continue;
          }
          item.quality := Min(MaxQuality,
            if 0 <= item.sellIn <= 4 then item.quality + 3
            else if 5 <= item.sellIn <= 9 then item.quality + 2
            else item.quality + 1);
          assert item.State() == Step(before);
          continue;
        }

        if item.name != AgedBrie && item.name != Sulfuras {
          item.DowngradeQuality();
        } else {
          item.UpgradeQuality();
        }

        if item.name != Sulfuras {
          item.sellIn := item.sellIn - 1;
        }

        if item.sellIn < 0 {
          if item.name == AgedBrie {
            item.UpgradeQuality();
          } else if item.name != Sulfuras {
            item.DowngradeQuality();
          }
        }
        assert item.State() == Step(before);
      }
    }
  }
}
