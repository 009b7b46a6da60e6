/**
 * The bundled catalogue of lib/categories-seed.ts, as concrete data for the
 * carousel model, with the facts about it that the carousel and the home
 * screen rely on. Category colours come from a colour table that is not
 * part of this model and are left out.
 */
module CategoriesSeed {
  import opened Types

  /** A bundled card: every one uses the same icon family and no custom media. */
  function Seed(id: string, labelText: string, icon: string, color: string): Item {
    Item(id, labelText, icon, MaterialCommunityIcons, color, false, None, None)
  }

  const Shapes: Category :=
    Category("shapes", "Shapes", "shape", MaterialCommunityIcons, [
    Page("shapes-1", [
      Seed("s1", "Circle", "circle", "#FF6B6B"),
      Seed("s2", "Square", "square", "#74B9FF"),
      Seed("s3", "Triangle", "triangle", "#55EFC4"),
      Seed("s4", "Rectangle", "rectangle", "#FDCB6E"),
      Seed("s5", "Star", "star", "#FFE66D"),
      Seed("s6", "Heart", "heart", "#FD79A8")
    ]),
    Page("shapes-2", [
      Seed("s7", "Oval", "ellipse", "#A29BFE"),
      Seed("s8", "Diamond", "diamond", "#00CEC9"),
      Seed("s9", "Pentagon", "pentagon", "#E17055"),
      Seed("s10", "Hexagon", "hexagon", "#0984E3"),
      Seed("s11", "Crescent", "moon-waning-crescent", "#6C5CE7"),
      Seed("s12", "Arrow", "arrow-up-bold", "#00B894")
    ])
  ], true)

  const Colours: Category :=
    Category("colours", "Colours", "palette", MaterialCommunityIcons, [
    Page("colours-1", [
      Seed("c1", "Red", "circle", "#FF0000"),
      Seed("c2", "Blue", "circle", "#0000FF"),
      Seed("c3", "Yellow", "circle", "#FFD700"),
      Seed("c4", "Green", "circle", "#00CC00"),
      Seed("c5", "Orange", "circle", "#FF8C00"),
      Seed("c6", "Purple", "circle", "#8B00FF")
    ]),
    Page("colours-2", [
      Seed("c7", "Pink", "circle", "#FF69B4"),
      Seed("c8", "Brown", "circle", "#8B4513"),
      Seed("c9", "Grey", "circle", "#808080"),
      Seed("c10", "Black", "circle", "#1A1A1A"),
      Seed("c11", "White", "circle-outline", "#E0E0E0"),
      Seed("c12", "Gold", "circle", "#FFD700")
    ])
  ], true)

  const Animals: Category :=
    Category("animals", "Animals", "paw", MaterialCommunityIcons, [
    Page("animals-1", [
      Seed("a1", "Cow", "cow", "#8B4513"),
      Seed("a2", "Sheep", "sheep", "#B0B0B0"),
      Seed("a3", "Pig", "pig", "#FFB6C1"),
      Seed("a4", "Horse", "horse", "#8B4513"),
      Seed("a5", "Chicken", "food-drumstick", "#FF8C00"),
      Seed("a6", "Duck", "duck", "#FFD700")
    ]),
    Page("animals-2", [
      Seed("a7", "Lion", "lion-face", "#DAA520"),
      Seed("a8", "Elephant", "elephant", "#808080"),
      Seed("a9", "Monkey", "face-man", "#8B4513"),
      Seed("a10", "Giraffe", "guy-fawkes-mask", "#DAA520"),
      Seed("a11", "Zebra", "horse-variant", "#1A1A1A"),
      Seed("a12", "Tiger", "cat", "#FF8C00")
    ]),
    Page("animals-3", [
      Seed("a13", "Dog", "dog", "#8B4513"),
      Seed("a14", "Cat", "cat", "#FF8C00"),
      Seed("a15", "Fish", "fish", "#74B9FF"),
      Seed("a16", "Bird", "bird", "#FF6B6B"),
      Seed("a17", "Rabbit", "rabbit", "#DDD"),
      Seed("a18", "Turtle", "turtle", "#00B894")
    ])
  ], true)

  const Food: Category :=
    Category("food", "Food", "food-apple", MaterialCommunityIcons, [
    Page("food-1", [
      Seed("f1", "Apple", "food-apple", "#FF0000"),
      Seed("f2", "Banana", "fruit-watermelon", "#FFD700"),
      Seed("f3", "Bread", "bread-slice", "#DEB887"),
      Seed("f4", "Milk", "cup", "#F5F5DC"),
      Seed("f5", "Carrot", "carrot", "#FF8C00"),
      Seed("f6", "Cheese", "cheese", "#FFD700")
    ]),
    Page("food-2", [
      Seed("f7", "Cookie", "cookie", "#8B4513"),
      Seed("f8", "Yogurt", "cup", "#FFB6C1"),
      Seed("f9", "Crackers", "food-croissant", "#DEB887"),
      Seed("f10", "Juice", "cup-water", "#FF8C00"),
      Seed("f11", "Sandwich", "food-hot-dog", "#DEB887"),
      Seed("f12", "Cereal", "bowl-mix", "#DAA520")
    ]),
    Page("food-3", [
      Seed("f13", "Broccoli", "tree", "#228B22"),
      Seed("f14", "Tomato", "circle", "#FF0000"),
      Seed("f15", "Potato", "circle", "#DEB887"),
      Seed("f16", "Corn", "corn", "#FFD700"),
      Seed("f17", "Lettuce", "leaf", "#00CC00"),
      Seed("f18", "Peas", "circle-multiple", "#00B894")
    ])
  ], true)

  const Vehicles: Category :=
    Category("vehicles", "Vehicles", "car", MaterialCommunityIcons, [
    Page("vehicles-1", [
      Seed("v1", "Car", "car", "#FF6B6B"),
      Seed("v2", "Bus", "bus", "#FFD700"),
      Seed("v3", "Train", "train", "#74B9FF"),
      Seed("v4", "Plane", "airplane", "#A29BFE"),
      Seed("v5", "Boat", "sail-boat", "#0984E3"),
      Seed("v6", "Bike", "bicycle", "#00B894")
    ]),
    Page("vehicles-2", [
      Seed("v7", "Police Car", "car-emergency", "#0000FF"),
      Seed("v8", "Fire Truck", "fire-truck", "#FF0000"),
      Seed("v9", "Ambulance", "ambulance", "#FFFFFF"),
      Seed("v10", "Helicopter", "helicopter", "#808080"),
      Seed("v11", "Rescue Boat", "ferry", "#FF8C00"),
      Seed("v12", "Tow Truck", "tow-truck", "#DAA520")
    ]),
    Page("vehicles-3", [
      Seed("v13", "Excavator", "excavator", "#FFD700"),
      Seed("v14", "Bulldozer", "bulldozer", "#FF8C00"),
      Seed("v15", "Dump Truck", "dump-truck", "#808080"),
      Seed("v16", "Crane", "crane", "#FFD700"),
      Seed("v17", "Cement Mixer", "truck", "#B0B0B0"),
      Seed("v18", "Forklift", "forklift", "#FF8C00")
    ])
  ], true)

  const Family: Category :=
    Category("family", "Family", "account-group", MaterialCommunityIcons, [
    Page("family-1", [
      Seed("fm1", "Mum", "face-woman", "#FD79A8"),
      Seed("fm2", "Dad", "face-man", "#74B9FF"),
      Seed("fm3", "Baby", "baby-face-outline", "#FFB6C1"),
      Seed("fm4", "Brother", "face-man", "#55EFC4"),
      Seed("fm5", "Sister", "face-woman", "#A29BFE"),
      Seed("fm6", "Grandma", "face-woman", "#DEB887")
    ])
  ], false)

  const MyHouse: Category :=
    Category("myHouse", "My House", "home", MaterialCommunityIcons, [
    Page("house-1", [
      Seed("h1", "Table", "table-furniture", "#8B4513"),
      Seed("h2", "Chair", "chair-rolling", "#DEB887"),
      Seed("h3", "Fridge", "fridge", "#B0B0B0"),
      Seed("h4", "TV", "television", "#1A1A1A"),
      Seed("h5", "Door", "door", "#8B4513"),
      Seed("h6", "Window", "window-open", "#74B9FF")
    ]),
    Page("house-2", [
      Seed("h7", "Couch", "sofa", "#A29BFE"),
      Seed("h8", "Lamp", "lamp", "#FFD700"),
      Seed("h9", "Sink", "water", "#74B9FF"),
      Seed("h10", "Toilet", "toilet", "#F5F5DC"),
      Seed("h11", "Shower", "shower", "#74B9FF"),
      Seed("h12", "Mirror", "mirror", "#C0C0C0")
    ])
  ], true)

  const Nature: Category :=
    Category("nature", "Nature", "tree", MaterialCommunityIcons, [
    Page("nature-1", [
      Seed("n1", "Sun", "white-balance-sunny", "#FFD700"),
      Seed("n2", "Moon", "moon-waning-crescent", "#A29BFE"),
      Seed("n3", "Cloud", "cloud", "#B0B0B0"),
      Seed("n4", "Tree", "tree", "#228B22"),
      Seed("n5", "Flower", "flower", "#FF69B4"),
      Seed("n6", "Rain", "weather-rainy", "#74B9FF")
    ]),
    Page("nature-2", [
      Seed("n7", "Snow", "snowflake", "#ADD8E6"),
      Seed("n8", "Wind", "weather-windy", "#B0B0B0"),
      Seed("n9", "Mountain", "mountain", "#808080"),
      Seed("n10", "River", "waves", "#0984E3"),
      Seed("n11", "Leaf", "leaf", "#00B894"),
      Seed("n12", "Rock", "diamond-stone", "#808080")
    ])
  ], true)

  const Catalogue: seq<Category> := [Shapes, Colours, Animals, Food, Vehicles, Family, MyHouse, Nature]

  /** The home screen's word counter: the items of every page of every category. */
  function TotalWords(cats: seq<Category>): nat {
    if cats == [] then 0 else PageWords(cats[0].pages) + TotalWords(cats[1..])
  }

  function PageWords(pages: seq<Page>): nat {
    if pages == [] then 0 else |pages[0].items| + PageWords(pages[1..])
  }

  /** Every item id of the catalogue, in order. */
  function ItemIds(cats: seq<Category>): seq<string> {
    if cats == [] then [] else PageItemIds(cats[0].pages) + ItemIds(cats[1..])
  }

  function PageItemIds(pages: seq<Page>): seq<string> {
    if pages == [] then [] else IdsOf(pages[0].items) + PageItemIds(pages[1..])
  }

  function IdsOf(items: seq<Item>): seq<string> {
    seq(|items|, i requires 0 <= i < |items| => items[i].id)
  }

  /** Eight categories with distinct ids, each with at least one page of six cards. */
  lemma CatalogueShape()
    ensures |Catalogue| == 8
    ensures forall i, j :: 0 <= i < j < |Catalogue| ==> Catalogue[i].id != Catalogue[j].id
    ensures forall i :: 0 <= i < |Catalogue| ==> |Catalogue[i].pages| >= 1
    ensures forall i, p :: 0 <= i < |Catalogue| && 0 <= p < |Catalogue[i].pages| ==>
      |Catalogue[i].pages[p].items| == 6
  {
  }

  /** Family is the only category not marked premium. */
  lemma OnlyFamilyIsFree()
    ensures forall i :: 0 <= i < |Catalogue| ==> (!Catalogue[i].isPremium <==> Catalogue[i].id == "family")
  {
  }

  function PageCount(cats: seq<Category>): nat {
    if cats == [] then 0 else |cats[0].pages| + PageCount(cats[1..])
  }

  lemma {:induction false} PageWordsOfFullPages(pages: seq<Page>)
    requires forall p :: 0 <= p < |pages| ==> |pages[p].items| == 6
    ensures PageWords(pages) == 6 * |pages|
  {
    if pages != [] {
      PageWordsOfFullPages(pages[1..]);
    }
  }

  lemma {:induction false} TotalWordsOfFullPages(cats: seq<Category>)
    requires forall i, p :: 0 <= i < |cats| && 0 <= p < |cats[i].pages| ==> |cats[i].pages[p].items| == 6
    ensures TotalWords(cats) == 6 * PageCount(cats)
  {
    if cats != [] {
      PageWordsOfFullPages(cats[0].pages);
      TotalWordsOfFullPages(cats[1..]);
    }
  }

  /** The home screen counts 108 words: eighteen pages of six. */
  lemma CatalogueTotalWords()
    ensures TotalWords(Catalogue) == 108
  {
    CatalogueShape();
    TotalWordsOfFullPages(Catalogue);
    var c := Catalogue;
    assert PageCount(c[7..]) == 2;
    assert PageCount(c[6..]) == 4;
    assert PageCount(c[5..]) == 5;
    assert PageCount(c[4..]) == 8;
    assert PageCount(c[3..]) == 11;
    assert PageCount(c[2..]) == 14;
    assert PageCount(c[1..]) == 16;
  }

  predicate DistinctIds(ids: seq<string>) {
    forall i, j :: 0 <= i < j < |ids| ==> ids[i] != ids[j]
  }

  /** A card id is its category's letters followed by a number. */
  predicate Tagged(id: string, tag: string) {
    |id| > |tag| && (forall k :: 0 <= k < |tag| ==> id[k] == tag[k]) && '0' <= id[|tag|] <= '9'
  }

  /** The id letters of each category, in catalogue order. */
  const Tags: seq<string> := ["s", "c", "a", "f", "v", "fm", "h", "n"]

  predicate Letters(tag: string) {
    forall k :: 0 <= k < |tag| ==> 'a' <= tag[k] <= 'z'
  }

  lemma TagsFacts()
    ensures |Tags| == |Catalogue|
    ensures forall k :: 0 <= k < |Tags| ==> Letters(Tags[k])
    ensures forall k, m :: 0 <= k < m < |Tags| ==> Tags[k] != Tags[m]
  {
  }

  /** Ids under different letter tags differ, even when one tag starts the other. */
  lemma TaggedApart(x: string, y: string, t1: string, t2: string)
    requires Tagged(x, t1) && Tagged(y, t2) && t1 != t2 && Letters(t1) && Letters(t2)
    ensures x != y
  {
    if |t1| == |t2| {
      var k :| 0 <= k < |t1| && t1[k] != t2[k];
      assert x[k] != y[k];
    } else if |t1| < |t2| {
      assert y[|t1|] == t2[|t1|];
    } else {
      assert x[|t2|] == t1[|t2|];
    }
  }

  /** A list of card ids that are distinct and all carry one tag. */
  predicate IdsTagged(ids: seq<string>, tag: string) {
    && DistinctIds(ids)
    && forall id :: id in ids ==> Tagged(id, tag)
  }

  /**
   * The order the catalogue lists its ids in: shorter first, then by the
   * last character. It is a strict order, so ids listed in it are distinct.
   */
  predicate Before(x: string, y: string) {
    |x| < |y| || (|x| == |y| && |x| > 0 && x[|x| - 1] < y[|y| - 1])
  }

  predicate Ascending(ids: seq<string>) {
    forall i :: 0 < i < |ids| ==> Before(ids[i - 1], ids[i])
  }

  lemma {:induction false} BeforeChain(ids: seq<string>, i: nat, j: nat)
    requires Ascending(ids) && i < j < |ids|
    ensures Before(ids[i], ids[j])
    decreases j - i
  {
    if i + 1 < j {
      BeforeChain(ids, i + 1, j);
      assert Before(ids[i], ids[i + 1]);
    }
  }

  /** Ascending tagged ids make a list of distinct tagged ids. */
  lemma AscendingTagged(ids: seq<string>, tag: string)
    requires Ascending(ids)
    requires forall k :: 0 <= k < |ids| ==> Tagged(ids[k], tag)
    ensures IdsTagged(ids, tag)
  {
    forall i, j | 0 <= i < j < |ids| ensures ids[i] != ids[j] {
      BeforeChain(ids, i, j);
    }
  }

  const ShapesIds: seq<string> := ["s1", "s2", "s3", "s4", "s5", "s6", "s7", "s8", "s9", "s10", "s11", "s12"]

  lemma ShapesIdsListed()
    ensures PageItemIds(Shapes.pages) == ShapesIds
  {
  }

  lemma ShapesIdsTagged()
    ensures IdsTagged(ShapesIds, "s")
  {
    AscendingTagged(ShapesIds, "s");
  }

  const ColoursIds: seq<string> := ["c1", "c2", "c3", "c4", "c5", "c6", "c7", "c8", "c9", "c10", "c11", "c12"]

  lemma ColoursIdsListed()
    ensures PageItemIds(Colours.pages) == ColoursIds
  {
  }

  lemma ColoursIdsTagged()
    ensures IdsTagged(ColoursIds, "c")
  {
    AscendingTagged(ColoursIds, "c");
  }

  const AnimalsIds: seq<string> := ["a1", "a2", "a3", "a4", "a5", "a6", "a7", "a8", "a9", "a10", "a11", "a12", "a13", "a14", "a15", "a16", "a17", "a18"]

  lemma AnimalsIdsListed()
    ensures PageItemIds(Animals.pages) == AnimalsIds
  {
  }

  lemma AnimalsIdsTagged()
    ensures IdsTagged(AnimalsIds, "a")
  {
    AscendingTagged(AnimalsIds, "a");
  }

  const FoodIds: seq<string> := ["f1", "f2", "f3", "f4", "f5", "f6", "f7", "f8", "f9", "f10", "f11", "f12", "f13", "f14", "f15", "f16", "f17", "f18"]

  lemma FoodIdsListed()
    ensures PageItemIds(Food.pages) == FoodIds
  {
  }

  lemma FoodIdsTagged()
    ensures IdsTagged(FoodIds, "f")
  {
    AscendingTagged(FoodIds, "f");
  }

  const VehiclesIds: seq<string> := ["v1", "v2", "v3", "v4", "v5", "v6", "v7", "v8", "v9", "v10", "v11", "v12", "v13", "v14", "v15", "v16", "v17", "v18"]

  lemma VehiclesIdsListed()
    ensures PageItemIds(Vehicles.pages) == VehiclesIds
  {
  }

  lemma VehiclesIdsTagged()
    ensures IdsTagged(VehiclesIds, "v")
  {
    AscendingTagged(VehiclesIds, "v");
  }

  const FamilyIds: seq<string> := ["fm1", "fm2", "fm3", "fm4", "fm5", "fm6"]

  lemma FamilyIdsListed()
    ensures PageItemIds(Family.pages) == FamilyIds
  {
  }

  lemma FamilyIdsTagged()
    ensures IdsTagged(FamilyIds, "fm")
  {
    AscendingTagged(FamilyIds, "fm");
  }

  const MyHouseIds: seq<string> := ["h1", "h2", "h3", "h4", "h5", "h6", "h7", "h8", "h9", "h10", "h11", "h12"]

  lemma MyHouseIdsListed()
    ensures PageItemIds(MyHouse.pages) == MyHouseIds
  {
  }

  lemma MyHouseIdsTagged()
    ensures IdsTagged(MyHouseIds, "h")
  {
    AscendingTagged(MyHouseIds, "h");
  }

  const NatureIds: seq<string> := ["n1", "n2", "n3", "n4", "n5", "n6", "n7", "n8", "n9", "n10", "n11", "n12"]

  lemma NatureIdsListed()
    ensures PageItemIds(Nature.pages) == NatureIds
  {
  }

  lemma NatureIdsTagged()
    ensures IdsTagged(NatureIds, "n")
  {
    AscendingTagged(NatureIds, "n");
  }

  /** Category k's card ids are distinct and carry the k-th tag. */
  lemma CategoryIds(k: nat)
    requires k < |Catalogue|
    ensures IdsTagged(PageItemIds(Catalogue[k].pages), Tags[k])
  {
    if k == 0 {
      assert Catalogue[0] == Shapes && Tags[0] == "s";
      ShapesIdsListed(); ShapesIdsTagged();
    } else if k == 1 {
      assert Catalogue[1] == Colours && Tags[1] == "c";
      ColoursIdsListed(); ColoursIdsTagged();
    } else if k == 2 {
      assert Catalogue[2] == Animals && Tags[2] == "a";
      AnimalsIdsListed(); AnimalsIdsTagged();
    } else if k == 3 {
      assert Catalogue[3] == Food && Tags[3] == "f";
      FoodIdsListed(); FoodIdsTagged();
    } else if k == 4 {
      assert Catalogue[4] == Vehicles && Tags[4] == "v";
      VehiclesIdsListed(); VehiclesIdsTagged();
    } else if k == 5 {
      assert Catalogue[5] == Family && Tags[5] == "fm";
      FamilyIdsListed(); FamilyIdsTagged();
    } else if k == 6 {
      assert Catalogue[6] == MyHouse && Tags[6] == "h";
      MyHouseIdsListed(); MyHouseIdsTagged();
    } else {
      assert Catalogue[7] == Nature && Tags[7] == "n";
      NatureIdsListed(); NatureIdsTagged();
    }
  }

  lemma {:induction false} DistinctAppend(a: seq<string>, b: seq<string>)
    requires DistinctIds(a) && DistinctIds(b)
    requires forall x, y :: x in a && y in b ==> x != y
    ensures DistinctIds(a + b)
  {
    forall i, j | 0 <= i < j < |a + b| ensures (a + b)[i] != (a + b)[j] {
      if j < |a| {
      } else if i >= |a| {
        assert (a + b)[i] == b[i - |a|] && (a + b)[j] == b[j - |a|];
      } else {
        assert (a + b)[i] in a && (a + b)[j] == b[j - |a|] && b[j - |a|] in b;
      }
    }
  }

  /**
   * Categories whose own ids are distinct and carry pairwise different
   * letter tags have distinct ids altogether.
   */
  lemma {:induction false} TaggedCategoriesDistinct(cats: seq<Category>, tags: seq<string>)
    requires |tags| == |cats|
    requires forall k :: 0 <= k < |cats| ==> IdsTagged(PageItemIds(cats[k].pages), tags[k]) && Letters(tags[k])
    requires forall k, m :: 0 <= k < m < |tags| ==> tags[k] != tags[m]
    ensures DistinctIds(ItemIds(cats))
    ensures forall id :: id in ItemIds(cats) ==> exists m :: 0 <= m < |tags| && Tagged(id, tags[m])
  {
    if cats != [] {
      TaggedCategoriesDistinct(cats[1..], tags[1..]);
      var head := PageItemIds(cats[0].pages);
      var tail := ItemIds(cats[1..]);
      assert IdsTagged(head, tags[0]);
      forall x, y | x in head && y in tail ensures x != y {
        var m :| 0 <= m < |tags[1..]| && Tagged(y, tags[1..][m]);
        TaggedApart(x, y, tags[0], tags[m + 1]);
      }
      DistinctAppend(head, tail);
      forall id | id in ItemIds(cats) ensures exists m :: 0 <= m < |tags| && Tagged(id, tags[m]) {
        if id in head {
          assert Tagged(id, tags[0]);
        } else {
          var m :| 0 <= m < |tags[1..]| && Tagged(id, tags[1..][m]);
          assert Tagged(id, tags[m + 1]);
        }
      }
    }
  }

  /** No two cards of the catalogue share an id. */
  lemma CatalogueItemIdsDistinct()
    ensures DistinctIds(ItemIds(Catalogue))
  {
    TagsFacts();
    forall k | 0 <= k < |Catalogue|
      ensures IdsTagged(PageItemIds(Catalogue[k].pages), Tags[k])
    {
      CategoryIds(k);
    }
    TaggedCategoriesDistinct(Catalogue, Tags);
  }
}
