# Gilded Rose nightly update, modelled in Dafny

The Gilded Rose inn keeps a stock of items, each with a name, a `sell_in`
countdown (days left before its sell-by date) and a `quality` score. Once a
night `GildedRose::update_quality` walks the inventory in order and changes
every item in place. The rules depend on an exact match of the item's name:

- `"Backstage passes to a TAFKAL80ETC concert"`: the countdown drops by one.
  If it went negative the quality becomes 0. Otherwise the quality becomes
  `min(50, q + 3)`, `min(50, q + 2)` or `min(50, q + 1)` as the concert is
  0–4, 5–9 or 10 or more days away.
- `"Aged Brie"`: one clamped increase, the countdown drops by one, and a
  second clamped increase once the countdown is negative.
- `"Sulfuras, Hand of Ragnaros"`: one clamped increase. The countdown never
  changes and there is no expiry adjustment.
- Every other name: one clamped decrease, the countdown drops by one, and a
  second clamped decrease once the countdown is negative.

A clamped increase adds 1 only below 50. A clamped decrease subtracts 1 only
above 0.

The project has two modules:

- `rules.dfy`, module `ItemRules`. Item states are values here. `Step`
  performs one night's update of one item, in the same branch order as the
  source. `StepAll` applies it to a whole inventory and `Nights` applies it
  `n` times. `CategoryOf` and `Aged` restate the same rules as an
  independent table, one row per category. The lemmas connect `Step` to
  that table and state each category's rule. They also prove the [0, 50]
  range invariant, follow an item across many nights, and say exactly where
  the Rust code, whose `Item` fields are `i32`, would overflow.
- `gildedrose.dfy`, module `GildedRose`. `Item` is a class with mutable
  fields and the two clamped helpers. `GildedRose` is a class that owns a
  sequence of items. Its `UpdateQuality` is the source loop, including the
  early `continue` exits. It is proved to leave every position in state
  `Step` of that position's old state.

Two consequences of the code's clamping:

- The backstage branch computes `min(50, q + k)`, so a pass above 50 is pulled
  down to 50, and a negative quality is raised by `k` but not floored
  (`ItemRules.BackstageRises`).
- Any other quality outside [0, 50] stays put unless a clamped helper acts on
  it (`ItemRules.OutOfRangeUntouched`).

## Model

| member | source | states |
|---|---|---|
| `ItemRules.Upgraded` | rust/src/gildedrose.rs:19-23 | the clamped increase adds exactly one iff quality < 50; it never lowers the quality and never takes it past max(q, 50) |
| `ItemRules.Downgraded` | rust/src/gildedrose.rs:25-29 | the clamped decrease subtracts exactly one iff quality > 0; it never raises the quality and never takes it below min(q, 0) |
| `GildedRose.Item.UpgradeQuality` | rust/src/gildedrose.rs:19-23 | quality becomes `Upgraded` of the old quality, which is old + 1 iff old < 50; name and sell_in are unchanged |
| `GildedRose.Item.DowngradeQuality` | rust/src/gildedrose.rs:25-29 | quality becomes `Downgraded` of the old quality, which is old - 1 iff old > 0; name and sell_in are unchanged |
| `GildedRose.Item.constructor` | rust/src/gildedrose.rs:11-17 | the new item holds exactly the given name, sell_in and quality, with no validation |
| `GildedRose.GildedRose.constructor` | rust/src/gildedrose.rs:45-47 | the shop holds exactly the given inventory; items are owned once, so no two positions share an item |
| `GildedRose.GildedRose.UpdateQuality` | rust/src/gildedrose.rs:49-92 | the inventory sequence is unchanged, so its length and positions are kept; every item ends in state `Step` of its own old state; the whole inventory equals `StepAll` of the old one |
| `ItemRules.Step` | rust/src/gildedrose.rs:49-92 | one night's update of one item keeps its name |
| `ItemRules.StepAll` | rust/src/gildedrose.rs:50-91 | the pass over an inventory keeps its length and sends position k to `Step` of position k |
| `ItemRules.Nights` | rust/src/gildedrose.rs:49-92 | repeated nights never change an item's name |
| `ItemRules.CategoryOf` | rust/src/gildedrose.rs:51-87 | the category is backstage / Brie / legendary iff the name equals that exact literal; every other name is ordinary (the backstage match at lines 51-52, the Brie and Sulfuras tests at lines 74, 80, 85 and 87) |
| `ItemRules.StepIsCategoryRule` | rust/src/gildedrose.rs:49-92 | `Step`, in the code's branch order, equals the per-category rule table for every item |
| `ItemRules.UpgradedTwice` | rust/src/gildedrose.rs:77-86 | two clamped increases are one increase by two: unchanged at or above 50, otherwise min(50, q + 2) |
| `ItemRules.DowngradedTwice` | rust/src/gildedrose.rs:75-88 | two clamped decreases are one decrease by two: unchanged at or below 0, otherwise max(0, q - 2) |
| `ItemRules.SellInRule` | rust/src/gildedrose.rs:53 | Sulfuras keeps its sell_in, every other item's sell_in drops by exactly one, and the name never changes (also lines 80-82) |
| `ItemRules.BackstageExpired` | rust/src/gildedrose.rs:55-57 | a backstage pass whose decremented sell_in is negative ends with quality 0, whatever it held |
| `ItemRules.BackstageRises` | rust/src/gildedrose.rs:60-67 | before the concert a pass ends with min(50, q+3), min(50, q+2) or min(50, q+1) for 0..=4, 5..=9 and >= 10 days left; a quality above 50 is pulled down to 50; at or below 50 it rises or reaches 50 |
| `ItemRules.BrieImproves` | rust/src/gildedrose.rs:74-90 | Aged Brie gets one clamped increase, two once its decremented sell_in is negative; it is never lowered and never taken past max(q, 50) |
| `ItemRules.SulfurasRule` | rust/src/gildedrose.rs:74-90 | Sulfuras gets exactly one clamped increase and keeps its sell_in; there is no expiry adjustment |
| `ItemRules.NormalDegrades` | rust/src/gildedrose.rs:74-90 | an ordinary item gets one clamped decrease, two once its decremented sell_in is negative; it never gains, loses at most down to min(q, 0), and a non-negative quality stays non-negative |
| `ItemRules.StepKeepsRange` | rust/src/gildedrose.rs:55-90 | an item whose quality is in [0, 50] ends with quality in [0, 50], whatever its category |
| `ItemRules.OutOfRangeUntouched` | rust/src/gildedrose.rs:74-90 | Brie and Sulfuras at or above 50 keep their quality; an ordinary item at or below 0 keeps its quality |
| `ItemRules.StepAllKeepsRange` | rust/src/gildedrose.rs:50-91 | if every input quality is in [0, 50], every output quality is in [0, 50] |
| `ItemRules.StepAllPointwise` | rust/src/gildedrose.rs:50-91 | the pass keeps length and names, and two inventories that agree at a position agree there afterwards, so an item's new state depends only on its own old state |
| `ItemRules.NightsUnfold` | rust/src/gildedrose.rs:49-92 | n + 1 nights are n nights followed by one more |
| `ItemRules.SulfurasOverNights` | rust/src/gildedrose.rs:74-90 | after any number n of nights Sulfuras keeps its sell_in; its quality is unchanged from 50 or above, otherwise min(50, q + n) |
| `ItemRules.RangeOverNights` | rust/src/gildedrose.rs:55-90 | a quality in [0, 50] stays in [0, 50] over any number of nights |
| `ItemRules.SellInOverNights` | rust/src/gildedrose.rs:53 | every item except Sulfuras has sell_in lowered by exactly n after n nights (also lines 80-82) |
| `ItemRules.BackstageStaysWorthless` | rust/src/gildedrose.rs:53-57 | a backstage pass with sell_in <= 0 has quality 0 after every one of the following nights |
| `ItemRules.NoOverflowStaysI32` | rust/src/gildedrose.rs:53-67 | where the Rust code's `i32` arithmetic does not overflow (`Overflows`: the countdown passes i32::MIN or the backstage sum passes i32::MAX), the mathematical result fits in i32, so the model agrees with the Rust code |
| `ItemRules.UnitTestCases` | rust/src/gildedrose.rs:115-165 | all 25 single-item assertions of the unit tests: sell_in of "foo", Brie, a pass and Sulfuras from 10; pass qualities for 11, 10, 6, 5, 1, 0 and negative days left |

## Left out

- The `Display` implementation of `Item` (rust/src/gildedrose.rs:32-36) is only diagnostic text formatting.
- The derived `Debug` and `PartialEq` implementations are generated by the compiler.
- The test helpers (rust/src/gildedrose.rs:95-113) are not modelled. All 25 assertions of the tests that use them (lines 115-165) are stated in `ItemRules.UnitTestCases`.
- `i32` arithmetic: values are unbounded integers. The overflow panic of a debug build is characterised by `ItemRules.Overflows` but is not a precondition of `UpdateQuality`. The wrap-around of a release build is not modelled.
- Ownership: the Rust `Vec<Item>` owns its items by value. The model uses item objects together with the invariant `GildedRose.Valid` (no two positions share an item), which the Rust type system guarantees.
- `Step`, `StepAll` and `Nights` are functions, so the same start always yields the same sequence of states; no separate lemma states this.
