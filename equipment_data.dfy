/**
 * The static equipment catalog: for each body-part category, the machine, barbell and
 * dumbbell equipment lists; the category list shown as tabs; and the option lists of
 * the settings screen.
 */
module EquipmentData {
  import opened Wrappers
  import JsStrings

  /** The three equipment kinds every category is divided into. */
  datatype SubCategory = Machine | Barbell | Dumbbell

  /** The record key under which a sub-category's list is stored. */
  function SubCategoryKey(sub: SubCategory): (key: string)
    ensures '-' !in key
  {
    match sub
    case Machine => "machine"
    case Barbell => "barbell"
    case Dumbbell => "dumbbell"
  }

  /** The key order of every per-category record, and so the order of `Object.values`. */
  const SubCategories: seq<SubCategory> := [Machine, Barbell, Dumbbell]

  datatype SubCategoryEquipment = SubCategoryEquipment(id: string, name: string, category: string, subCategory: SubCategory)

  /** The three lists of one category, one per sub-category key. */
  datatype SubLists = SubLists(machine: seq<SubCategoryEquipment>, barbell: seq<SubCategoryEquipment>, dumbbell: seq<SubCategoryEquipment>) {
    function Get(sub: SubCategory): seq<SubCategoryEquipment> {
      match sub
      case Machine => machine
      case Barbell => barbell
      case Dumbbell => dumbbell
    }

    /** `Object.values(lists)` flattened: machine, then barbell, then dumbbell. */
    function All(): (items: seq<SubCategoryEquipment>)
      ensures |items| == |machine| + |barbell| + |dumbbell|
    {
      machine + barbell + dumbbell
    }
  }

  datatype Equipment = Equipment(id: string, name: string, category: string)

  datatype EquipmentCategory = EquipmentCategory(id: string, name: string, equipment: seq<Equipment>)

  /** One entry of a settings option list; `caption` is the source's `label`. */
  datatype SelectOption = SelectOption(value: string, caption: string)

  /** `exercisesByCategory`, as its keys and values in declaration order. */
  const ExercisesByCategory: seq<(string, SubLists)> := [
    ("chest", ChestLists),
    ("shoulder", ShoulderLists),
    ("back", BackLists),
    ("legs", LegsLists),
    ("arms", ArmsLists)
  ]

  const ChestLists := SubLists(
    /* machine */ [
      SubCategoryEquipment("chest-press", "체스트프레스", "chest", Machine),
      SubCategoryEquipment("pec-deck", "펙덱 플라이", "chest", Machine),
      SubCategoryEquipment("dip-machine", "딥스 머신", "chest", Machine),
      SubCategoryEquipment("cable-fly", "케이블 플라이", "chest", Machine)
    ],
    /* barbell */ [
      SubCategoryEquipment("bench-press", "벤치프레스", "chest", Barbell),
      SubCategoryEquipment("incline-bench", "인클라인 벤치프레스", "chest", Barbell),
      SubCategoryEquipment("decline-bench", "디클라인 벤치프레스", "chest", Barbell)
    ],
    /* dumbbell */ [
      SubCategoryEquipment("db-bench-press", "덤벨 벤치프레스", "chest", Dumbbell),
      SubCategoryEquipment("db-incline-press", "덤벨 인클라인 프레스", "chest", Dumbbell),
      SubCategoryEquipment("db-fly", "덤벨 플라이", "chest", Dumbbell),
      SubCategoryEquipment("db-pullover", "덤벨 풀오버", "chest", Dumbbell)
    ])

  const ShoulderLists := SubLists(
    /* machine */ [
      SubCategoryEquipment("shoulder-press", "숄더프레스 머신", "shoulder", Machine),
      SubCategoryEquipment("lateral-raise-machine", "레터럴 레이즈 머신", "shoulder", Machine),
      SubCategoryEquipment("cable-lateral", "케이블 레터럴 레이즈", "shoulder", Machine),
      SubCategoryEquipment("face-pull", "페이스 풀 (케이블)", "shoulder", Machine)
    ],
    /* barbell */ [
      SubCategoryEquipment("bb-shoulder-press", "바벨 숄더프레스", "shoulder", Barbell),
      SubCategoryEquipment("bb-upright-row", "바벨 업라이트 로우", "shoulder", Barbell),
      SubCategoryEquipment("bb-front-raise", "바벨 프론트 레이즈", "shoulder", Barbell)
    ],
    /* dumbbell */ [
      SubCategoryEquipment("db-shoulder-press", "덤벨 숄더프레스", "shoulder", Dumbbell),
      SubCategoryEquipment("db-lateral-raise", "덤벨 레터럴 레이즈", "shoulder", Dumbbell),
      SubCategoryEquipment("db-rear-delt-fly", "덤벨 리어 델트 플라이", "shoulder", Dumbbell),
      SubCategoryEquipment("db-front-raise", "덤벨 프론트 레이즈", "shoulder", Dumbbell)
    ])

  const BackLists := SubLists(
    /* machine */ [
      SubCategoryEquipment("lat-pulldown", "랫풀다운", "back", Machine),
      SubCategoryEquipment("seated-row", "시티드 로우", "back", Machine),
      SubCategoryEquipment("cable-row", "케이블 로우", "back", Machine),
      SubCategoryEquipment("back-extension", "백 익스텐션", "back", Machine)
    ],
    /* barbell */ [
      SubCategoryEquipment("bb-bent-over-row", "바벨 벤트오버 로우", "back", Barbell),
      SubCategoryEquipment("bb-deadlift", "바벨 데드리프트", "back", Barbell),
      SubCategoryEquipment("t-bar-row", "티바 로우", "back", Barbell)
    ],
    /* dumbbell */ [
      SubCategoryEquipment("db-row", "덤벨 로우", "back", Dumbbell),
      SubCategoryEquipment("db-pullover-back", "덤벨 풀오버", "back", Dumbbell),
      SubCategoryEquipment("db-shrug", "덤벨 슈러그", "back", Dumbbell),
      SubCategoryEquipment("pull-up-bar", "풀업 바", "back", Dumbbell)
    ])

  const LegsLists := SubLists(
    /* machine */ [
      SubCategoryEquipment("leg-press", "레그 프레스", "legs", Machine),
      SubCategoryEquipment("leg-extension", "레그 익스텐션", "legs", Machine),
      SubCategoryEquipment("leg-curl", "레그 컬", "legs", Machine),
      SubCategoryEquipment("hack-squat", "핵 스쿼트", "legs", Machine),
      SubCategoryEquipment("calf-raise", "카프 레이즈", "legs", Machine)
    ],
    /* barbell */ [
      SubCategoryEquipment("squat-rack", "바벨 스쿼트", "legs", Barbell),
      SubCategoryEquipment("bb-romanian-deadlift", "바벨 루마니안 데드리프트", "legs", Barbell),
      SubCategoryEquipment("bb-lunge", "바벨 런지", "legs", Barbell)
    ],
    /* dumbbell */ [
      SubCategoryEquipment("db-squat", "덤벨 스쿼트", "legs", Dumbbell),
      SubCategoryEquipment("db-lunge", "덤벨 런지", "legs", Dumbbell),
      SubCategoryEquipment("db-romanian-deadlift", "덤벨 루마니안 데드리프트", "legs", Dumbbell),
      SubCategoryEquipment("hip-thrust", "힙 쓰러스트", "legs", Dumbbell)
    ])

  const ArmsLists := SubLists(
    /* machine */ [
      SubCategoryEquipment("bicep-curl-machine", "바이셉 컬 머신", "arms", Machine),
      SubCategoryEquipment("tricep-pushdown", "트라이셉 푸시다운 (케이블)", "arms", Machine),
      SubCategoryEquipment("cable-curl", "케이블 컬", "arms", Machine)
    ],
    /* barbell */ [
      SubCategoryEquipment("bb-bicep-curl", "바벨 바이셉 컬", "arms", Barbell),
      SubCategoryEquipment("ez-bar", "EZ바 컬", "arms", Barbell),
      SubCategoryEquipment("bb-tricep-extension", "바벨 트라이셉 익스텐션", "arms", Barbell)
    ],
    /* dumbbell */ [
      SubCategoryEquipment("db-bicep-curl", "덤벨 바이셉 컬", "arms", Dumbbell),
      SubCategoryEquipment("db-tricep-extension", "덤벨 트라이셉 익스텐션", "arms", Dumbbell),
      SubCategoryEquipment("preacher-curl", "프리처 컬", "arms", Dumbbell)
    ])

  /** `exercisesByCategory[categoryId]`: the record of a category, if the key exists. */
  function CategoryTable(categoryId: string): (r: Option<SubLists>)
    ensures r.Some? <==> exists k :: 0 <= k < |ExercisesByCategory| && ExercisesByCategory[k].0 == categoryId
    ensures r.Some? ==> exists k :: 0 <= k < |ExercisesByCategory| && ExercisesByCategory[k] == (categoryId, r.value)
  {
    LookupFrom(ExercisesByCategory, categoryId)
  }

  function LookupFrom(table: seq<(string, SubLists)>, key: string): (r: Option<SubLists>)
    ensures r.Some? <==> exists k :: 0 <= k < |table| && table[k].0 == key
    ensures r.Some? ==> exists k :: 0 <= k < |table| && table[k] == (key, r.value)
  {
    if table == [] then None
    else if table[0].0 == key then Some(table[0].1)
    else
      var r := LookupFrom(table[1..], key);
      assert forall k :: 1 <= k < |table| ==> table[k] == table[1..][k - 1];
      r
  }

  /** `exercisesByCategory[categoryId]?.[sub] || []`. */
  function SubCategoryList(categoryId: string, sub: SubCategory): seq<SubCategoryEquipment> {
    match CategoryTable(categoryId)
    case Some(lists) => lists.Get(sub)
    case None => []
  }

  /** Every catalog entry, in the order a nested `Object.values` walk visits them. */
  function AllItems(): seq<SubCategoryEquipment> {
    Flatten(ExercisesByCategory)
  }

  function Flatten(table: seq<(string, SubLists)>): seq<SubCategoryEquipment> {
    if table == [] then [] else table[0].1.All() + Flatten(table[1..])
  }

  /** The first entry of `items` with this id: `find` over each list of a nested `Object.values` walk. */
  function FindById(items: seq<SubCategoryEquipment>, id: string): (r: Option<SubCategoryEquipment>)
    ensures r.Some? ==> r.value in items && r.value.id == id
    ensures r.None? <==> forall k :: 0 <= k < |items| ==> items[k].id != id
  {
    if items == [] then None
    else if items[0].id == id then Some(items[0])
    else FindById(items[1..], id)
  }

  /** `chestExercises`: an alias of the chest record. */
  const ChestExercises: SubLists := ExercisesByCategory[0].1

  const EquipmentCategories: seq<EquipmentCategory> := [
    EquipmentCategory("chest", "가슴", []),
    EquipmentCategory("shoulder", "어깨", []),
    EquipmentCategory("back", "등", []),
    EquipmentCategory("legs", "하체", []),
    EquipmentCategory("arms", "팔", [])
  ]

  const FrequencyOptions: seq<SelectOption> := [
    SelectOption("1", "주 1회"),
    SelectOption("2", "주 2회"),
    SelectOption("3", "주 3회"),
    SelectOption("4", "주 4회"),
    SelectOption("5", "주 5회"),
    SelectOption("6", "주 6회"),
    SelectOption("7", "주 7회")
  ]

  const SplitOptions: seq<SelectOption> := [
    SelectOption("0", "무분할"),
    SelectOption("2", "2분할"),
    SelectOption("3", "3분할"),
    SelectOption("4", "4분할"),
    SelectOption("5", "5분할")
  ]

  const FocusOptions: seq<SelectOption> := [
    SelectOption("lower", "하체"),
    SelectOption("upper", "상체"),
    SelectOption("glutes", "엉덩이")
  ]

  const GoalOptions: seq<SelectOption> := [
    SelectOption("hypertrophy", "근비대"),
    SelectOption("fat-loss", "체지방 감량"),
    SelectOption("beginner", "초보자 루틴"),
    SelectOption("maintenance", "유지 운동")
  ]

  function Values(options: seq<SelectOption>): (values: seq<string>)
    ensures |values| == |options|
    ensures forall i :: 0 <= i < |options| ==> values[i] == options[i].value
  {
    if options == [] then [] else [options[0].value] + Values(options[1..])
  }


  // Facts about the tables.

  function Ids(items: seq<SubCategoryEquipment>): (ids: seq<string>)
    ensures |ids| == |items|
    ensures forall i :: 0 <= i < |items| ==> ids[i] == items[i].id
  {
    if items == [] then [] else [items[0].id] + Ids(items[1..])
  }

  // The ids of each category, written out in table order.
  const ChestIds: seq<string> := [
    "chest-press", "pec-deck", "dip-machine", "cable-fly", "bench-press", "incline-bench",
    "decline-bench", "db-bench-press", "db-incline-press", "db-fly", "db-pullover"
  ]
  const ShoulderIds: seq<string> := [
    "shoulder-press", "lateral-raise-machine", "cable-lateral", "face-pull", "bb-shoulder-press", "bb-upright-row",
    "bb-front-raise", "db-shoulder-press", "db-lateral-raise", "db-rear-delt-fly", "db-front-raise"
  ]
  const BackIds: seq<string> := [
    "lat-pulldown", "seated-row", "cable-row", "back-extension", "bb-bent-over-row", "bb-deadlift",
    "t-bar-row", "db-row", "db-pullover-back", "db-shrug", "pull-up-bar"
  ]
  const LegsIds: seq<string> := [
    "leg-press", "leg-extension", "leg-curl", "hack-squat", "calf-raise", "squat-rack",
    "bb-romanian-deadlift", "bb-lunge", "db-squat", "db-lunge", "db-romanian-deadlift", "hip-thrust"
  ]
  const ArmsIds: seq<string> := [
    "bicep-curl-machine", "tricep-pushdown", "cable-curl", "bb-bicep-curl", "ez-bar", "bb-tricep-extension",
    "db-bicep-curl", "db-tricep-extension", "preacher-curl"
  ]

  predicate Distinct(s: seq<string>) {
    forall i, j :: 0 <= i < j < |s| ==> s[i] != s[j]
  }

  predicate Disjoint(a: seq<string>, b: seq<string>) {
    forall i, j :: 0 <= i < |a| && 0 <= j < |b| ==> a[i] != b[j]
  }

  lemma IdsAppend(a: seq<SubCategoryEquipment>, b: seq<SubCategoryEquipment>)
    ensures Ids(a + b) == Ids(a) + Ids(b)
  {
  }

  lemma DistinctAppend(a: seq<string>, b: seq<string>)
    requires Distinct(a) && Distinct(b) && Disjoint(a, b)
    ensures Distinct(a + b)
  {
    forall i, j | 0 <= i < j < |a + b| ensures (a + b)[i] != (a + b)[j] {
      if j < |a| {
      } else if i < |a| {
        assert (a + b)[j] == b[j - |a|];
      } else {
        assert (a + b)[i] == b[i - |a|] && (a + b)[j] == b[j - |a|];
      }
    }
  }

  lemma DisjointAppend(a: seq<string>, b: seq<string>, c: seq<string>)
    requires Disjoint(a, b) && Disjoint(a, c)
    ensures Disjoint(a, b + c)
  {
    forall i, j | 0 <= i < |a| && 0 <= j < |b + c| ensures a[i] != (b + c)[j] {
      if j >= |b| {
        assert (b + c)[j] == c[j - |b|];
      }
    }
  }

  /** The ids of a category record are those of its machine, barbell and dumbbell lists, in that order. */
  lemma IdsOfLists(l: SubLists)
    ensures Ids(l.All()) == Ids(l.machine) + Ids(l.barbell) + Ids(l.dumbbell)
  {
    IdsAppend(l.machine, l.barbell);
    IdsAppend(l.machine + l.barbell, l.dumbbell);
  }

  /** A category record's ids, given the ids of its three lists as consecutive slices. */
  lemma IdsBySubList(l: SubLists, ids: seq<string>, a: nat, b: nat)
    requires a <= b <= |ids|
    requires Ids(l.machine) == ids[..a] && Ids(l.barbell) == ids[a..b] && Ids(l.dumbbell) == ids[b..]
    ensures Ids(l.All()) == ids
  {
    IdsOfLists(l);
    SliceSplit(ids, a, b);
  }

  lemma SliceSplit(s: seq<string>, a: nat, b: nat)
    requires a <= b <= |s|
    ensures s[..a] + s[a..b] + s[b..] == s
  {
    assert s[..a] + s[a..b] == s[..b];
  }

  lemma ChestIdsListed()
    ensures Ids(ExercisesByCategory[0].1.All()) == ChestIds
  {
    IdsBySubList(ChestLists, ChestIds, 4, 7);
  }

  lemma ShoulderIdsListed()
    ensures Ids(ExercisesByCategory[1].1.All()) == ShoulderIds
  {
    IdsBySubList(ShoulderLists, ShoulderIds, 4, 7);
  }

  lemma BackIdsListed()
    ensures Ids(ExercisesByCategory[2].1.All()) == BackIds
  {
    IdsBySubList(BackLists, BackIds, 4, 7);
  }

  lemma LegsIdsListed()
    ensures Ids(ExercisesByCategory[3].1.All()) == LegsIds
  {
    IdsBySubList(LegsLists, LegsIds, 5, 8);
  }

  lemma ArmsIdsListed()
    ensures Ids(ExercisesByCategory[4].1.All()) == ArmsIds
  {
    IdsBySubList(ArmsLists, ArmsIds, 3, 6);
  }

  lemma CatalogIdsListed()
    ensures Ids(AllItems()) == ChestIds + (ShoulderIds + (BackIds + (LegsIds + ArmsIds)))
  {
    var t := ExercisesByCategory;
    var c0, c1, c2, c3, c4 := t[0].1.All(), t[1].1.All(), t[2].1.All(), t[3].1.All(), t[4].1.All();
    assert Flatten(t[4..]) == c4 + Flatten(t[5..]);
    assert Flatten(t[3..]) == c3 + Flatten(t[4..]);
    assert Flatten(t[2..]) == c2 + Flatten(t[3..]);
    assert Flatten(t[1..]) == c1 + Flatten(t[2..]);
    assert AllItems() == c0 + (c1 + (c2 + (c3 + c4)));
    ChestIdsListed(); ShoulderIdsListed(); BackIdsListed(); LegsIdsListed(); ArmsIdsListed();
    IdsAppend(c3, c4);
    IdsAppend(c2, c3 + c4);
    IdsAppend(c1, c2 + (c3 + c4));
    IdsAppend(c0, c1 + (c2 + (c3 + c4)));
  }

  lemma ChestIdsDistinct()
    ensures Distinct(ChestIds)
  {
  }

  lemma ShoulderIdsDistinct()
    ensures Distinct(ShoulderIds)
  {
  }

  lemma BackIdsDistinct()
    ensures Distinct(BackIds)
  {
  }

  lemma LegsIdsDistinct()
    ensures Distinct(LegsIds)
  {
  }

  lemma ArmsIdsDistinct()
    ensures Distinct(ArmsIds)
  {
  }

  lemma ChestShoulderDisjoint()
    ensures Disjoint(ChestIds, ShoulderIds)
  {
  }

  lemma ChestBackDisjoint()
    ensures Disjoint(ChestIds, BackIds)
  {
  }

  lemma ChestLegsDisjoint()
    ensures Disjoint(ChestIds, LegsIds)
  {
  }

  lemma ChestArmsDisjoint()
    ensures Disjoint(ChestIds, ArmsIds)
  {
  }

  lemma ShoulderBackDisjoint()
    ensures Disjoint(ShoulderIds, BackIds)
  {
  }

  lemma ShoulderLegsDisjoint()
    ensures Disjoint(ShoulderIds, LegsIds)
  {
  }

  lemma ShoulderArmsDisjoint()
    ensures Disjoint(ShoulderIds, ArmsIds)
  {
  }

  lemma BackLegsDisjoint()
    ensures Disjoint(BackIds, LegsIds)
  {
  }

  lemma BackArmsDisjoint()
    ensures Disjoint(BackIds, ArmsIds)
  {
  }

  lemma LegsArmsDisjoint()
    ensures Disjoint(LegsIds, ArmsIds)
  {
  }

  /** The two pullovers: "db-pullover" under chest, "db-pullover-back" under back, and no other back id is "db-pullover". */
  lemma PulloverIds()
    ensures ChestIds[10] == "db-pullover" && BackIds[8] == "db-pullover-back"
    ensures "db-pullover" in ChestIds && "db-pullover-back" in BackIds && "db-pullover" !in BackIds
  {
    ChestBackDisjoint();
    assert ChestIds[10] == "db-pullover";
  }

  /** The ids of the last three categories are pairwise distinct. */
  lemma BackLegsArmsIdsDistinct()
    ensures Distinct(BackIds + (LegsIds + ArmsIds))
  {
    BackIdsDistinct(); LegsIdsDistinct(); ArmsIdsDistinct();
    BackLegsDisjoint(); BackArmsDisjoint(); LegsArmsDisjoint();
    DistinctAppend(LegsIds, ArmsIds);
    DisjointAppend(BackIds, LegsIds, ArmsIds);
    DistinctAppend(BackIds, LegsIds + ArmsIds);
  }

  /** The ids of the whole catalog, in table order, are pairwise distinct. */
  lemma CatalogIdsDistinct()
    ensures Distinct(ChestIds + (ShoulderIds + (BackIds + (LegsIds + ArmsIds))))
  {
    var tail := BackIds + (LegsIds + ArmsIds);
    BackLegsArmsIdsDistinct();
    ChestIdsDistinct(); ShoulderIdsDistinct();
    ChestShoulderDisjoint(); ChestBackDisjoint(); ChestLegsDisjoint(); ChestArmsDisjoint();
    ShoulderBackDisjoint(); ShoulderLegsDisjoint(); ShoulderArmsDisjoint();
    DisjointAppend(ShoulderIds, LegsIds, ArmsIds);
    DisjointAppend(ShoulderIds, BackIds, LegsIds + ArmsIds);
    DistinctAppend(ShoulderIds, tail);
    DisjointAppend(ChestIds, LegsIds, ArmsIds);
    DisjointAppend(ChestIds, BackIds, LegsIds + ArmsIds);
    DisjointAppend(ChestIds, ShoulderIds, tail);
    DistinctAppend(ChestIds, ShoulderIds + tail);
  }

  lemma DistinctIds(items: seq<SubCategoryEquipment>)
    requires Distinct(Ids(items))
    ensures forall i, j :: 0 <= i < j < |items| ==> items[i].id != items[j].id
  {
  }

  /** Entry ids are unique across the whole catalog. */
  lemma CatalogIdsUnique()
    ensures var items := AllItems(); forall i, j :: 0 <= i < j < |items| ==> items[i].id != items[j].id
  {
    CatalogIdsDistinct();
    CatalogIdsListed();
    DistinctIds(AllItems());
  }

  /** Every entry of `lists` carries `categoryId` as its category and the key of its list as its sub-category. */
  predicate TaggedAs(categoryId: string, lists: SubLists) {
    forall sub: SubCategory, i :: 0 <= i < |lists.Get(sub)| ==>
      lists.Get(sub)[i].category == categoryId && lists.Get(sub)[i].subCategory == sub
  }

  /** Every entry of one list carries the given category and sub-category. */
  predicate ListTagged(categoryId: string, list: seq<SubCategoryEquipment>, sub: SubCategory) {
    forall i :: 0 <= i < |list| ==> list[i].category == categoryId && list[i].subCategory == sub
  }

  lemma TaggedByLists(categoryId: string, lists: SubLists)
    requires ListTagged(categoryId, lists.machine, Machine)
    requires ListTagged(categoryId, lists.barbell, Barbell)
    requires ListTagged(categoryId, lists.dumbbell, Dumbbell)
    ensures TaggedAs(categoryId, lists)
  {
  }

  lemma ChestTagged()
    ensures TaggedAs(ExercisesByCategory[0].0, ExercisesByCategory[0].1)
  {
    TaggedByLists("chest", ChestLists);
  }

  lemma ShoulderTagged()
    ensures TaggedAs(ExercisesByCategory[1].0, ExercisesByCategory[1].1)
  {
    TaggedByLists("shoulder", ShoulderLists);
  }

  lemma BackTagged()
    ensures TaggedAs(ExercisesByCategory[2].0, ExercisesByCategory[2].1)
  {
    TaggedByLists("back", BackLists);
  }

  lemma LegsTagged()
    ensures TaggedAs(ExercisesByCategory[3].0, ExercisesByCategory[3].1)
  {
    TaggedByLists("legs", LegsLists);
  }

  lemma ArmsTagged()
    ensures TaggedAs(ExercisesByCategory[4].0, ExercisesByCategory[4].1)
  {
    TaggedByLists("arms", ArmsLists);
  }

  /** Each entry's category is its outer key and its sub-category its inner key. */
  lemma CatalogTagsConsistent()
    ensures forall k :: 0 <= k < |ExercisesByCategory| ==> TaggedAs(ExercisesByCategory[k].0, ExercisesByCategory[k].1)
  {
    ChestTagged(); ShoulderTagged(); BackTagged(); LegsTagged(); ArmsTagged();
  }

  /** The category tabs are the catalog keys, in the same order, and none lists any equipment. */
  lemma CategoriesMatchCatalog()
    ensures |EquipmentCategories| == |ExercisesByCategory| == 5
    ensures forall k :: 0 <= k < 5 ==> EquipmentCategories[k].id == ExercisesByCategory[k].0
    ensures forall k :: 0 <= k < 5 ==> EquipmentCategories[k].equipment == []
    ensures CategoryIds(EquipmentCategories) == ["chest", "shoulder", "back", "legs", "arms"]
  {
  }

  function CategoryIds(categories: seq<EquipmentCategory>): (ids: seq<string>)
    ensures |ids| == |categories|
    ensures forall k :: 0 <= k < |categories| ==> ids[k] == categories[k].id
  {
    if categories == [] then [] else [categories[0].id] + CategoryIds(categories[1..])
  }

  /** `chestExercises` is what the catalog holds under "chest". */
  lemma ChestExercisesIsChestEntry()
    ensures CategoryTable("chest") == Some(ChestExercises)
  {
  }

  /** Frequency option i is the one-digit decimal text of i + 1. */
  lemma FrequencyOptionDigits()
    ensures |FrequencyOptions| == 7
    ensures forall i :: 0 <= i < 7 ==> FrequencyOptions[i].value == [JsStrings.DigitChar(i + 1)]
  {
    forall i | 0 <= i < 7 ensures FrequencyOptions[i].value == [JsStrings.DigitChar(i + 1)] {
      if i == 0 {} else if i == 1 {} else if i == 2 {} else if i == 3 {} else if i == 4 {} else if i == 5 {} else {}
    }
  }

  /** Frequency option i is `String(i + 1)`, and `parseInt` reads it back as i + 1. */
  lemma FrequencyOptionValues()
    ensures |FrequencyOptions| == 7
    ensures forall i :: 0 <= i < 7 ==> FrequencyOptions[i].value == JsStrings.IntToString(i + 1)
    ensures forall i :: 0 <= i < 7 ==> JsStrings.ParseInt(FrequencyOptions[i].value) == Some(i + 1)
  {
    FrequencyOptionDigits();
    forall i | 0 <= i < 7
      ensures FrequencyOptions[i].value == JsStrings.IntToString(i + 1)
      ensures JsStrings.ParseInt(FrequencyOptions[i].value) == Some(i + 1)
    {
      assert JsStrings.IntToString(i + 1) == JsStrings.NatToDecimal(i + 1) == [JsStrings.DigitChar(i + 1)];
      JsStrings.ParseIntToString(i + 1);
    }
  }

  /** The split options are "0", "2", "3", "4", "5" in that order. */
  lemma SplitOptionValues()
    ensures Values(SplitOptions) == ["0", "2", "3", "4", "5"]
  {
  }

}
