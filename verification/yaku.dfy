/**
 * The combination ("yaku") evaluator: a pure function from the set of cards a
 * player has collected, and that player's koi-koi count, to the list of
 * achieved combinations `(id, name, points)` in ascending id order.
 */
module Yaku {
  import opened Wrappers
  import opened Cards

  /** One achieved combination. */
  datatype Entry = Entry(id: int, name: string, points: int)

  /** Some entry carries this id. */
  predicate HasId(ys: seq<Entry>, id: int) {
    exists i :: 0 <= i < |ys| && ys[i].id == id
  }

  /** Ids strictly increase along the list, so each id occurs at most once. */
  predicate IncreasingIds(ys: seq<Entry>) {
    forall i, j :: 0 <= i < j < |ys| ==> ys[i].id < ys[j].id
  }

  /** `Some(x)` entries of `opts` have strictly increasing ids. */
  predicate OptIdsIncrease(opts: seq<Option<Entry>>) {
    forall i, j :: 0 <= i < j < |opts| && opts[i].Some? && opts[j].Some? ==> opts[i].value.id < opts[j].value.id
  }

  /** The entries that were pushed, in push order. */
  function Flatten(opts: seq<Option<Entry>>): (r: seq<Entry>)
    ensures forall e :: e in r <==> Some(e) in opts
  {
    if |opts| == 0 then []
    else
      assert forall e :: Some(e) in opts <==> Some(e) == opts[0] || Some(e) in opts[1..];
      (if opts[0].Some? then [opts[0].value] else []) + Flatten(opts[1..])
  }

  /** An entry below every id of an increasing list can be put in front of it. */
  lemma ConsIncreasing(x: Entry, rest: seq<Entry>)
    requires IncreasingIds(rest)
    requires forall e :: e in rest ==> x.id < e.id
    ensures IncreasingIds([x] + rest)
  {
    var r := [x] + rest;
    forall i, j | 0 <= i < j < |r|
      ensures r[i].id < r[j].id
    {
      if i == 0 {
        assert r[j] == rest[j - 1] && rest[j - 1] in rest;
      } else {
        assert r[i] == rest[i - 1] && r[j] == rest[j - 1];
      }
    }
  }

  /** Flattening keeps the ids in the order the sections produced them. */
  lemma {:induction false} FlattenIncreasing(opts: seq<Option<Entry>>)
    requires OptIdsIncrease(opts)
    ensures IncreasingIds(Flatten(opts))
  {
    if |opts| > 0 {
      var rest := Flatten(opts[1..]);
      assert OptIdsIncrease(opts[1..]);
      FlattenIncreasing(opts[1..]);
      if opts[0].Some? {
        forall e | e in rest
          ensures opts[0].value.id < e.id
        {
          var j :| 0 <= j < |opts[1..]| && opts[1..][j] == Some(e);
          assert opts[j + 1] == Some(e);
        }
        ConsIncreasing(opts[0].value, rest);
      }
    }
  }

  /** An entry exactly when the condition holds. */
  function When(cond: bool, e: Entry): Option<Entry> {
    if cond then Some(e) else None
  }

  /** The lights combinations; a higher one suppresses the lower ones. */
  function LightYaku(pile: set<Card>): (o: Option<Entry>)
    ensures o.Some? ==> 1 <= o.value.id <= 4
  {
    var n := CountIn(LIGHT, pile);
    var rain := RAIN_MAN[0] in pile;
    if n == 5 then Some(Entry(1, "Five Lights", 10))
    else if n == 4 && !rain then Some(Entry(2, "Four Lights", 8))
    else if n == 4 then Some(Entry(3, "Rainy Four Lights", 7))
    else if n == 3 && !rain then Some(Entry(4, "Three Lights", 5))
    else None
  }

  /** A viewing-sake pair: id `plainId` for 1 point before any koi-koi, id `plainId + 1` for 3 points after. */
  function SakeYaku(group: seq<Card>, plainId: int, name: string, pile: set<Card>, koikoiNum: int): (o: Option<Entry>)
    ensures o.Some? ==> plainId <= o.value.id <= plainId + 1
  {
    if !AllIn(group, pile) then None
    else if koikoiNum == 0 then Some(Entry(plainId, name, 1))
    else Some(Entry(plainId + 1, name, 3))
  }

  /** The ribbon triads: red and blue together, else red alone, else blue alone. */
  function RibbonYaku(pile: set<Card>): (o: Option<Entry>)
    ensures o.Some? ==> 11 <= o.value.id <= 13
  {
    if AllIn(RED_RIBBON, pile) then
      if AllIn(BLUE_RIBBON, pile) then Some(Entry(11, "Red & Blue Ribbons", 10))
      else Some(Entry(12, "Red Ribbons", 5))
    else if AllIn(BLUE_RIBBON, pile) then Some(Entry(13, "Blue Ribbons", 5))
    else None
  }

  /** The lowest id section k can emit. */
  function Lo(k: int): int {
    if k == 0 then 1 else if k == 1 then 5 else if k == 2 then 6 else if k == 3 then 8
    else if k == 4 then 10 else if k == 5 then 11 else if k == 6 then 14 else if k == 7 then 15 else 16
  }

  /** The highest id section k can emit. */
  function Hi(k: int): int {
    if k == 0 then 4 else if k == 1 then 5 else if k == 2 then 7 else if k == 3 then 9
    else if k == 4 then 10 else if k == 5 then 13 else if k == 6 then 14 else if k == 7 then 15 else 16
  }

  /** Nine sections, each empty or emitting an id inside its band. */
  predicate InBands(opts: seq<Option<Entry>>) {
    |opts| == 9 && forall k :: 0 <= k < 9 && opts[k].Some? ==> Lo(k) <= opts[k].value.id <= Hi(k)
  }

  /** The bands are disjoint and ascending. */
  lemma BandsAscend()
    ensures forall i, j :: 0 <= i < j < 9 ==> Hi(i) < Lo(j)
  {
  }

  /** Sections in ascending, disjoint bands emit ascending ids, all within 1..16. */
  lemma BandsIncrease(opts: seq<Option<Entry>>)
    requires InBands(opts)
    ensures OptIdsIncrease(opts)
    ensures IncreasingIds(Flatten(opts))
    ensures forall e :: e in Flatten(opts) ==> 1 <= e.id <= 16
  {
    BandsAscend();
    forall i, j | 0 <= i < j < |opts| && opts[i].Some? && opts[j].Some?
      ensures opts[i].value.id < opts[j].value.id
    {
      assert opts[i].value.id <= Hi(i) < Lo(j) <= opts[j].value.id;
    }
    FlattenIncreasing(opts);
    forall e | e in Flatten(opts)
      ensures 1 <= e.id <= 16
    {
      var j :| 0 <= j < |opts| && opts[j] == Some(e);
    }
  }

  /** An entry whose id lies in band k is emitted exactly when section k produced it. */
  lemma BandLookup(opts: seq<Option<Entry>>, k: int, e: Entry)
    requires InBands(opts)
    requires 0 <= k < 9 && Lo(k) <= e.id <= Hi(k)
    ensures e in Flatten(opts) <==> opts[k] == Some(e)
  {
    BandsAscend();
    if e in Flatten(opts) {
      var j :| 0 <= j < |opts| && opts[j] == Some(e);
      assert j == k;
    }
  }

  /** `e.id` is emitted exactly when `cond` holds, and then only as `e`. */
  predicate Yields(r: seq<Entry>, e: Entry, cond: bool) {
    (HasId(r, e.id) <==> cond) && forall i :: 0 <= i < |r| && r[i].id == e.id ==> r[i] == e
  }

  /** Section k decides alone whether, and as what, an id of its band is emitted. */
  lemma SectionYields(opts: seq<Option<Entry>>, k: int, e: Entry, cond: bool)
    requires InBands(opts)
    requires 0 <= k < 9 && Lo(k) <= e.id <= Hi(k)
    requires cond <==> opts[k].Some? && opts[k].value.id == e.id
    requires cond ==> opts[k] == Some(e)
    ensures Yields(Flatten(opts), e, cond)
  {
    var r := Flatten(opts);
    forall i | 0 <= i < |r| && r[i].id == e.id
      ensures r[i] == e && cond
    {
      assert r[i] in r;
      BandLookup(opts, k, r[i]);
    }
    if cond {
      BandLookup(opts, k, e);
      var i :| 0 <= i < |r| && r[i] == e;
    }
  }

  /** At most one entry of any one band is emitted. */
  lemma BandExclusive(opts: seq<Option<Entry>>, k: int)
    requires InBands(opts) && 0 <= k < 9
    ensures var r := Flatten(opts);
      forall i, j :: 0 <= i < |r| && 0 <= j < |r| && Lo(k) <= r[i].id <= Hi(k) && Lo(k) <= r[j].id <= Hi(k) ==> i == j
  {
    BandsIncrease(opts);
    var r := Flatten(opts);
    assert IncreasingIds(r);
    forall i, j | 0 <= i < |r| && 0 <= j < |r| && Lo(k) <= r[i].id <= Hi(k) && Lo(k) <= r[j].id <= Hi(k)
      ensures i == j
    {
      assert r[i] in r && r[j] in r;
      BandLookup(opts, k, r[i]);
      BandLookup(opts, k, r[j]);
      assert r[i] == r[j];
    }
  }

  /** The nine sections of the evaluator, one optional entry each, in push order, given the category counts. */
  function Sections(pile: set<Card>, koikoiNum: int, numSeed: int, numRibbon: int, numDross: int): (opts: seq<Option<Entry>>)
    ensures InBands(opts)
  {
    var opts := [ LightYaku(pile),
      When(AllIn(BOAR_DEER_BUTTERFLY, pile), Entry(5, "Boar-Deer-Butterfly", 5)),
      SakeYaku(FLOWER_SAKE, 6, "Flower Viewing Sake", pile, koikoiNum),
      SakeYaku(MOON_SAKE, 8, "Moon Viewing Sake", pile, koikoiNum),
      When(numSeed >= 5, Entry(10, "Tane", numSeed - 4)),
      RibbonYaku(pile),
      When(numRibbon >= 5, Entry(14, "Tan", numRibbon - 4)),
      When(numDross >= 10, Entry(15, "Kasu", numDross - 9)),
      When(koikoiNum > 0, Entry(16, "Koi-Koi", koikoiNum)) ];
    // One index term per section, so each band is checked against its own entry.
    assert forall k :: 0 <= k < 9 ==> opts[k] == [opts[0], opts[1], opts[2], opts[3], opts[4], opts[5], opts[6], opts[7], opts[8]][k];
    opts
  }

  /** The sections for one pile. */
  function PileSections(pile: set<Card>, koikoiNum: int): (opts: seq<Option<Entry>>)
    ensures InBands(opts)
  {
    Sections(pile, koikoiNum, CountIn(SEED, pile), CountIn(RIBBON, pile), CountIn(DROSS, pile))
  }

  /** `yaku(player)` once the pile has been turned into a set and the koi-koi count summed. */
  function Evaluate(pile: set<Card>, koikoiNum: int): (r: seq<Entry>)
    ensures IncreasingIds(r)
    ensures forall i :: 0 <= i < |r| ==> 1 <= r[i].id <= 16
  {
    var opts := PileSections(pile, koikoiNum);
    BandsIncrease(opts);
    assert forall i :: 0 <= i < |Flatten(opts)| ==> Flatten(opts)[i] in Flatten(opts);
    Flatten(opts)
  }

  /** Lights: Five Lights exactly when all five are held, and the lower tiers as the source orders them. */
  lemma EvaluateLights(pile: set<Card>, koikoiNum: int)
    ensures var r := Evaluate(pile, koikoiNum);
      var n := CountIn(LIGHT, pile);
      var rain := RAIN_MAN[0] in pile;
      && Yields(r, Entry(1, "Five Lights", 10), AllIn(LIGHT, pile))
      && Yields(r, Entry(2, "Four Lights", 8), n == 4 && !rain)
      && Yields(r, Entry(3, "Rainy Four Lights", 7), n == 4 && rain)
      && Yields(r, Entry(4, "Three Lights", 5), n == 3 && !rain)
  {
    var opts := PileSections(pile, koikoiNum);
    assert Evaluate(pile, koikoiNum) == Flatten(opts);
    var n := CountIn(LIGHT, pile);
    var rain := RAIN_MAN[0] in pile;
    assert n == 5 <==> AllIn(LIGHT, pile);
    assert opts[0] == LightYaku(pile);
    SectionYields(opts, 0, Entry(1, "Five Lights", 10), AllIn(LIGHT, pile));
    SectionYields(opts, 0, Entry(2, "Four Lights", 8), n == 4 && !rain);
    SectionYields(opts, 0, Entry(3, "Rainy Four Lights", 7), n == 4 && rain);
    SectionYields(opts, 0, Entry(4, "Three Lights", 5), n == 3 && !rain);
  }

  /** At most one lights tier is ever emitted. */
  lemma EvaluateLightsExclusive(pile: set<Card>, koikoiNum: int)
    ensures var r := Evaluate(pile, koikoiNum);
      forall i, j :: 0 <= i < |r| && 0 <= j < |r| && 1 <= r[i].id <= 4 && 1 <= r[j].id <= 4 ==> i == j
  {
    var opts := PileSections(pile, koikoiNum);
    var r := Evaluate(pile, koikoiNum);
    assert r == Flatten(opts);
    BandExclusive(opts, 0);
    assert Lo(0) == 1 && Hi(0) == 4;
  }

  /** The seed sections, whatever the counts handed to them. */
  lemma SectionsSeed(pile: set<Card>, koikoiNum: int, numSeed: int, numRibbon: int, numDross: int)
    ensures var r := Flatten(Sections(pile, koikoiNum, numSeed, numRibbon, numDross));
      && Yields(r, Entry(5, "Boar-Deer-Butterfly", 5), AllIn(BOAR_DEER_BUTTERFLY, pile))
      && Yields(r, Entry(10, "Tane", numSeed - 4), numSeed >= 5)
  {
    var opts := Sections(pile, koikoiNum, numSeed, numRibbon, numDross);
    SectionYields(opts, 1, Entry(5, "Boar-Deer-Butterfly", 5), AllIn(BOAR_DEER_BUTTERFLY, pile));
    SectionYields(opts, 4, Entry(10, "Tane", numSeed - 4), numSeed >= 5);
  }

  /** Boar-Deer-Butterfly needs all three cards; Tane counts seeds beyond four. */
  lemma EvaluateSeedCounts(pile: set<Card>, koikoiNum: int)
    ensures var r := Evaluate(pile, koikoiNum);
      var numSeed: int := CountIn(SEED, pile);
      && Yields(r, Entry(5, "Boar-Deer-Butterfly", 5), AllIn(BOAR_DEER_BUTTERFLY, pile))
      && Yields(r, Entry(10, "Tane", numSeed - 4), numSeed >= 5)
  {
    SectionsSeed(pile, koikoiNum, CountIn(SEED, pile), CountIn(RIBBON, pile), CountIn(DROSS, pile));
  }

  /** The viewing-sake sections, whatever the counts handed to the others. */
  lemma SectionsSake(pile: set<Card>, koikoiNum: int, numSeed: int, numRibbon: int, numDross: int)
    ensures var r := Flatten(Sections(pile, koikoiNum, numSeed, numRibbon, numDross));
      && Yields(r, Entry(6, "Flower Viewing Sake", 1), AllIn(FLOWER_SAKE, pile) && koikoiNum == 0)
      && Yields(r, Entry(7, "Flower Viewing Sake", 3), AllIn(FLOWER_SAKE, pile) && koikoiNum != 0)
      && Yields(r, Entry(8, "Moon Viewing Sake", 1), AllIn(MOON_SAKE, pile) && koikoiNum == 0)
      && Yields(r, Entry(9, "Moon Viewing Sake", 3), AllIn(MOON_SAKE, pile) && koikoiNum != 0)
  {
    var opts := Sections(pile, koikoiNum, numSeed, numRibbon, numDross);
    SectionYields(opts, 2, Entry(6, "Flower Viewing Sake", 1), AllIn(FLOWER_SAKE, pile) && koikoiNum == 0);
    SectionYields(opts, 2, Entry(7, "Flower Viewing Sake", 3), AllIn(FLOWER_SAKE, pile) && koikoiNum != 0);
    SectionYields(opts, 3, Entry(8, "Moon Viewing Sake", 1), AllIn(MOON_SAKE, pile) && koikoiNum == 0);
    SectionYields(opts, 3, Entry(9, "Moon Viewing Sake", 3), AllIn(MOON_SAKE, pile) && koikoiNum != 0);
  }

  /** The viewing-sake pairs score 1 before any koi-koi and 3 after, under different ids. */
  lemma EvaluateViewingSake(pile: set<Card>, koikoiNum: int)
    ensures var r := Evaluate(pile, koikoiNum);
      && Yields(r, Entry(6, "Flower Viewing Sake", 1), AllIn(FLOWER_SAKE, pile) && koikoiNum == 0)
      && Yields(r, Entry(7, "Flower Viewing Sake", 3), AllIn(FLOWER_SAKE, pile) && koikoiNum != 0)
      && Yields(r, Entry(8, "Moon Viewing Sake", 1), AllIn(MOON_SAKE, pile) && koikoiNum == 0)
      && Yields(r, Entry(9, "Moon Viewing Sake", 3), AllIn(MOON_SAKE, pile) && koikoiNum != 0)
  {
    SectionsSake(pile, koikoiNum, CountIn(SEED, pile), CountIn(RIBBON, pile), CountIn(DROSS, pile));
  }

  /** The ribbon sections, whatever the counts handed to them. */
  lemma SectionsRibbon(pile: set<Card>, koikoiNum: int, numSeed: int, numRibbon: int, numDross: int)
    ensures var r := Flatten(Sections(pile, koikoiNum, numSeed, numRibbon, numDross));
      var red := AllIn(RED_RIBBON, pile);
      var blue := AllIn(BLUE_RIBBON, pile);
      && Yields(r, Entry(11, "Red & Blue Ribbons", 10), red && blue)
      && Yields(r, Entry(12, "Red Ribbons", 5), red && !blue)
      && Yields(r, Entry(13, "Blue Ribbons", 5), !red && blue)
      && Yields(r, Entry(14, "Tan", numRibbon - 4), numRibbon >= 5)
  {
    var opts := Sections(pile, koikoiNum, numSeed, numRibbon, numDross);
    var red := AllIn(RED_RIBBON, pile);
    var blue := AllIn(BLUE_RIBBON, pile);
    SectionYields(opts, 5, Entry(11, "Red & Blue Ribbons", 10), red && blue);
    SectionYields(opts, 5, Entry(12, "Red Ribbons", 5), red && !blue);
    SectionYields(opts, 5, Entry(13, "Blue Ribbons", 5), !red && blue);
    SectionYields(opts, 6, Entry(14, "Tan", numRibbon - 4), numRibbon >= 5);
  }

  /** Ribbons: red and blue together score 10, either triad alone 5; Tan counts ribbons beyond four. */
  lemma EvaluateRibbons(pile: set<Card>, koikoiNum: int)
    ensures var r := Evaluate(pile, koikoiNum);
      var red := AllIn(RED_RIBBON, pile);
      var blue := AllIn(BLUE_RIBBON, pile);
      var numRibbon: int := CountIn(RIBBON, pile);
      && Yields(r, Entry(11, "Red & Blue Ribbons", 10), red && blue)
      && Yields(r, Entry(12, "Red Ribbons", 5), red && !blue)
      && Yields(r, Entry(13, "Blue Ribbons", 5), !red && blue)
      && Yields(r, Entry(14, "Tan", numRibbon - 4), numRibbon >= 5)
  {
    SectionsRibbon(pile, koikoiNum, CountIn(SEED, pile), CountIn(RIBBON, pile), CountIn(DROSS, pile));
  }

  /** At most one of the three ribbon-triad combinations is ever emitted. */
  lemma EvaluateRibbonsExclusive(pile: set<Card>, koikoiNum: int)
    ensures var r := Evaluate(pile, koikoiNum);
      forall i, j :: 0 <= i < |r| && 0 <= j < |r| && 11 <= r[i].id <= 13 && 11 <= r[j].id <= 13 ==> i == j
  {
    var opts := PileSections(pile, koikoiNum);
    var r := Evaluate(pile, koikoiNum);
    assert r == Flatten(opts);
    BandExclusive(opts, 5);
    assert Lo(5) == 11 && Hi(5) == 13;
  }

  /** The count-bonus sections, whatever the counts handed to them. */
  lemma SectionsBonus(pile: set<Card>, koikoiNum: int, numSeed: int, numRibbon: int, numDross: int)
    ensures var r := Flatten(Sections(pile, koikoiNum, numSeed, numRibbon, numDross));
      && Yields(r, Entry(15, "Kasu", numDross - 9), numDross >= 10)
      && Yields(r, Entry(16, "Koi-Koi", koikoiNum), koikoiNum > 0)
  {
    var opts := Sections(pile, koikoiNum, numSeed, numRibbon, numDross);
    SectionYields(opts, 7, Entry(15, "Kasu", numDross - 9), numDross >= 10);
    SectionYields(opts, 8, Entry(16, "Koi-Koi", koikoiNum), koikoiNum > 0);
  }

  /** Kasu counts dross beyond nine; the Koi-Koi entry carries the koi-koi count and appears only when it is positive. */
  lemma EvaluateCountBonuses(pile: set<Card>, koikoiNum: int)
    ensures var r := Evaluate(pile, koikoiNum);
      var numDross: int := CountIn(DROSS, pile);
      && Yields(r, Entry(15, "Kasu", numDross - 9), numDross >= 10)
      && Yields(r, Entry(16, "Koi-Koi", koikoiNum), koikoiNum > 0)
  {
    SectionsBonus(pile, koikoiNum, CountIn(SEED, pile), CountIn(RIBBON, pile), CountIn(DROSS, pile));
  }
}
