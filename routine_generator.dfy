/**
 * The deterministic routine generator: a seeded shuffle driven by a linear congruential
 * generator, a bounded draw, the filter of the exercise table by selected equipment and
 * muscle group, the per-day selection (compounds first, capped, one exercise per name,
 * with sets, reps and rest drawn from the goal's ranges) and the assembly of a week.
 */
module RoutineGenerator {
  import opened Wrappers
  import opened JsStrings
  import EquipmentData
  import opened RoutineResults

  datatype ExerciseTemplate = ExerciseTemplate(name: string, equipmentId: string, muscleGroup: string, isCompound: bool)

  /**
   * `exerciseDB`: every exercise the generator knows, keyed by the equipment it needs,
   * in table order (chest, shoulders, back, legs, arms, core).
   */
  const ExerciseDB: seq<ExerciseTemplate> :=
    ChestTemplates + ShoulderTemplates + BackTemplates + LegsTemplates + ArmsTemplates + CoreTemplates

  const ChestTemplates: seq<ExerciseTemplate> := [
    ExerciseTemplate("체스트프레스", "chest-press", "chest", true),
    ExerciseTemplate("펙덱 플라이", "pec-deck", "chest", false),
    ExerciseTemplate("딥스 머신", "dip-machine", "chest", true),
    ExerciseTemplate("케이블 플라이", "cable-fly", "chest", false),
    ExerciseTemplate("벤치프레스", "bench-press", "chest", true),
    ExerciseTemplate("인클라인 벤치프레스", "incline-bench", "chest", true),
    ExerciseTemplate("디클라인 벤치프레스", "decline-bench", "chest", true),
    ExerciseTemplate("덤벨 벤치프레스", "db-bench-press", "chest", true),
    ExerciseTemplate("덤벨 인클라인 프레스", "db-incline-press", "chest", true),
    ExerciseTemplate("덤벨 플라이", "db-fly", "chest", false),
    ExerciseTemplate("덤벨 풀오버", "db-pullover", "chest", false)
  ]

  const ShoulderTemplates: seq<ExerciseTemplate> := [
    ExerciseTemplate("숄더프레스 머신", "shoulder-press", "shoulder", true),
    ExerciseTemplate("레터럴 레이즈 머신", "lateral-raise-machine", "shoulder", false),
    ExerciseTemplate("케이블 레터럴 레이즈", "cable-lateral", "shoulder", false),
    ExerciseTemplate("페이스 풀", "face-pull", "shoulder", false),
    ExerciseTemplate("바벨 숄더프레스", "bb-shoulder-press", "shoulder", true),
    ExerciseTemplate("바벨 업라이트 로우", "bb-upright-row", "shoulder", true),
    ExerciseTemplate("바벨 프론트 레이즈", "bb-front-raise", "shoulder", false),
    ExerciseTemplate("덤벨 숄더프레스", "db-shoulder-press", "shoulder", true),
    ExerciseTemplate("덤벨 레터럴 레이즈", "db-lateral-raise", "shoulder", false),
    ExerciseTemplate("덤벨 리어 델트 플라이", "db-rear-delt-fly", "shoulder", false),
    ExerciseTemplate("덤벨 프론트 레이즈", "db-front-raise", "shoulder", false)
  ]

  const BackTemplates: seq<ExerciseTemplate> := [
    ExerciseTemplate("랫풀다운", "lat-pulldown", "back", true),
    ExerciseTemplate("시티드 로우", "seated-row", "back", true),
    ExerciseTemplate("케이블 로우", "cable-row", "back", true),
    ExerciseTemplate("백 익스텐션", "back-extension", "back", false),
    ExerciseTemplate("바벨 벤트오버 로우", "bb-bent-over-row", "back", true),
    ExerciseTemplate("바벨 데드리프트", "bb-deadlift", "back", true),
    ExerciseTemplate("티바 로우", "t-bar-row", "back", true),
    ExerciseTemplate("덤벨 로우", "db-row", "back", true),
    ExerciseTemplate("덤벨 풀오버", "db-pullover", "back", false),
    ExerciseTemplate("덤벨 슈러그", "db-shrug", "back", false),
    ExerciseTemplate("풀업", "pull-up-bar", "back", true)
  ]

  const LegsTemplates: seq<ExerciseTemplate> := [
    ExerciseTemplate("레그 프레스", "leg-press", "legs", true),
    ExerciseTemplate("레그 익스텐션", "leg-extension", "legs", false),
    ExerciseTemplate("레그 컬", "leg-curl", "legs", false),
    ExerciseTemplate("핵 스쿼트", "hack-squat", "legs", true),
    ExerciseTemplate("카프 레이즈", "calf-raise", "legs", false),
    ExerciseTemplate("바벨 스쿼트", "squat-rack", "legs", true),
    ExerciseTemplate("바벨 루마니안 데드리프트", "bb-romanian-deadlift", "legs", true),
    ExerciseTemplate("바벨 런지", "bb-lunge", "legs", true),
    ExerciseTemplate("덤벨 스쿼트", "db-squat", "legs", true),
    ExerciseTemplate("덤벨 런지", "db-lunge", "legs", true),
    ExerciseTemplate("덤벨 루마니안 데드리프트", "db-romanian-deadlift", "legs", true),
    ExerciseTemplate("힙 쓰러스트", "hip-thrust", "legs", true)
  ]

  const ArmsTemplates: seq<ExerciseTemplate> := [
    ExerciseTemplate("바이셉 컬 머신", "bicep-curl-machine", "arms-bicep", false),
    ExerciseTemplate("트라이셉 푸시다운", "tricep-pushdown", "arms-tricep", false),
    ExerciseTemplate("케이블 컬", "cable-curl", "arms-bicep", false),
    ExerciseTemplate("바벨 바이셉 컬", "bb-bicep-curl", "arms-bicep", false),
    ExerciseTemplate("EZ바 컬", "ez-bar", "arms-bicep", false),
    ExerciseTemplate("바벨 트라이셉 익스텐션", "bb-tricep-extension", "arms-tricep", false),
    ExerciseTemplate("덤벨 바이셉 컬", "db-bicep-curl", "arms-bicep", false),
    ExerciseTemplate("덤벨 트라이셉 익스텐션", "db-tricep-extension", "arms-tricep", false),
    ExerciseTemplate("프리처 컬", "preacher-curl", "arms-bicep", false),
    ExerciseTemplate("덤벨 랙", "dumbbell-rack", "arms-bicep", false)
  ]

  const CoreTemplates: seq<ExerciseTemplate> := [
    ExerciseTemplate("복근 크런치 머신", "ab-crunch", "core", false),
    ExerciseTemplate("케이블 크런치", "cable-crunch", "core", false),
    ExerciseTemplate("로만 체어 백 익스텐션", "roman-chair", "core", false),
    ExerciseTemplate("AB 롤아웃", "ab-roller", "core", false),
    ExerciseTemplate("행잉 레그 레이즈", "hanging-leg-raise", "core", false)
  ]

  // Goal and split tables.

  /** An inclusive range `[lo, hi]` of a goal's parameters. */
  datatype Range = Range(lo: int, hi: int)

  datatype GoalParams = GoalParams(sets: Range, reps: Range, restSec: Range)

  predicate ValidParams(p: GoalParams) {
    p.sets.lo <= p.sets.hi && p.reps.lo <= p.reps.hi && 0 <= p.restSec.lo <= p.restSec.hi
  }

  /** `goalParams`. */
  const GoalParamsTable: map<string, GoalParams> := map[
    "hypertrophy" := GoalParams(Range(3, 4), Range(8, 12), Range(60, 90)),
    "fat-loss" := GoalParams(Range(3, 4), Range(12, 15), Range(30, 45)),
    "beginner" := GoalParams(Range(3, 3), Range(10, 12), Range(60, 90)),
    "maintenance" := GoalParams(Range(3, 3), Range(10, 12), Range(60, 60))
  ]

  /** `goalParams[goal] || goalParams.hypertrophy`. */
  function ParamsFor(goal: string): (p: GoalParams)
    ensures ValidParams(p)
    ensures goal !in GoalParamsTable ==> p == GoalParamsTable["hypertrophy"]
  {
    if goal in GoalParamsTable then GoalParamsTable[goal] else GoalParamsTable["hypertrophy"]
  }

  /** `goalLabels`. */
  const GoalLabels: map<string, string> := map[
    "hypertrophy" := "근비대",
    "fat-loss" := "체지방 감량",
    "beginner" := "초보자",
    "maintenance" := "유지"
  ]

  /** `goalLabels[goal] || '근비대'`. */
  function GoalLabel(goal: string): (text: string)
    ensures text != []
    ensures goal !in GoalLabels ==> text == "근비대"
  {
    if goal in GoalLabels && GoalLabels[goal] != "" then GoalLabels[goal] else "근비대"
  }

  /** `splitTemplates`: the muscle groups of each day of a split. */
  const SplitTemplates: map<string, seq<seq<string>>> := map[
    "2" := [
      ["chest", "shoulder", "arms-tricep", "core"],
      ["back", "legs", "arms-bicep", "core"]
    ],
    "3" := [
      ["chest", "shoulder", "arms-tricep"],
      ["back", "arms-bicep", "core"],
      ["legs", "core"]
    ],
    "5" := [
      ["chest"],
      ["back"],
      ["shoulder"],
      ["legs"],
      ["arms-bicep", "arms-tricep", "core"]
    ]
  ]

  /** `splitFocusLabels`. */
  const SplitFocusLabels: map<string, seq<string>> := map[
    "2" := ["가슴 + 어깨 + 삼두", "등 + 하체 + 이두"],
    "3" := ["가슴 + 어깨 + 삼두", "등 + 이두 + 코어", "하체 + 코어"],
    "5" := ["가슴", "등", "어깨", "하체", "팔 + 코어"]
  ]

  /** `splitTemplates[split] || splitTemplates['3']`. */
  function TemplateFor(split: string): (template: seq<seq<string>>)
    ensures |template| >= 1
    ensures split !in SplitTemplates ==> template == SplitTemplates["3"]
  {
    if split in SplitTemplates then SplitTemplates[split] else SplitTemplates["3"]
  }

  /** `splitFocusLabels[split] || splitFocusLabels['3']`. */
  function FocusLabelsFor(split: string): (labels: seq<string>)
    ensures |labels| == |TemplateFor(split)|
    ensures forall k :: 0 <= k < |labels| ==> labels[k] != []
  {
    if split in SplitFocusLabels then SplitFocusLabels[split] else SplitFocusLabels["3"]
  }

  /** `baseTips` of `generateTips`. */
  const BaseTips: map<string, seq<string>> := map[
    "hypertrophy" := [
      "점진적 과부하를 적용해 매주 무게나 반복수를 조금씩 늘려보세요.",
      "운동 중 근육의 수축과 이완을 의식하며 마인드-머슬 커넥션을 유지하세요.",
      "단백질 섭취는 체중 1kg당 1.6~2.2g을 목표로 하세요.",
      "충분한 수면(7-9시간)은 근성장에 필수적입니다.",
      "세트 간 휴식 시간을 지켜 운동 강도를 유지하세요."
    ],
    "fat-loss" := [
      "휴식 시간을 짧게 유지하여 심박수를 높은 상태로 유지하세요.",
      "칼로리 적자를 유지하되, 단백질 섭취는 줄이지 마세요.",
      "유산소 운동을 병행하면 체지방 감량에 더 효과적입니다.",
      "운동 후 스트레칭으로 회복을 도와주세요.",
      "수분 섭취를 충분히 하여 신진대사를 활발하게 유지하세요."
    ],
    "beginner" := [
      "올바른 자세를 먼저 익히고, 무게는 천천히 늘려가세요.",
      "처음에는 가벼운 무게로 시작하여 부상을 예방하세요.",
      "운동 전 5-10분의 워밍업을 반드시 하세요.",
      "통증이 느껴지면 즉시 운동을 중단하고 자세를 점검하세요.",
      "꾸준함이 가장 중요합니다. 무리하지 말고 지속 가능한 루틴을 만드세요."
    ],
    "maintenance" := [
      "현재 근력을 유지하는 것이 목표이므로 무게를 급격히 올리지 마세요.",
      "운동 빈도와 강도를 일정하게 유지하세요.",
      "균형 잡힌 식단으로 영양 상태를 유지하세요.",
      "스트레스 관리와 충분한 수면도 유지에 중요합니다.",
      "주기적으로 루틴을 약간 변형하여 자극을 달리해보세요."
    ]
  ]

  /** `generateTips`: the goal's tips, else the hypertrophy tips. */
  function GenerateTips(goal: string): (tips: seq<string>)
    ensures |tips| == 5
    ensures goal in BaseTips ==> tips == BaseTips[goal]
    ensures goal !in BaseTips ==> tips == BaseTips["hypertrophy"]
  {
    if goal in BaseTips then BaseTips[goal] else BaseTips["hypertrophy"]
  }

  // Seeds and the linear congruential generator.

  /**
   * A JavaScript number used as a seed: an integer, or NaN, which `charCodeAt(0)` of an
   * empty id or `parseInt` of a split that is not a number brings in, and every sum keeps.
   */
  datatype Seed = Num(value: int) | NaN {
    function Plus(k: int): Seed {
      if Num? then Num(value + k) else NaN
    }

    function Add(other: Seed): Seed {
      if Num? && other.Num? then Num(value + other.value) else NaN
    }
  }

  const Multiplier: int := 1103515245
  const Increment: int := 12345
  /** `& 0x7fffffff` keeps the state in [0, 2^31). */
  const StateModulus: int := 0x8000_0000

  /** `(s * 1103515245 + 12345) & 0x7fffffff`; NaN becomes 0 under `&`. */
  function LcgStep(s: Seed): (r: nat)
    ensures r < StateModulus
  {
    match s
    case NaN => 0
    case Num(v) => (v * Multiplier + Increment) % StateModulus
  }

  /** The swap partner `s % (i + 1)` of index `i`. */
  function SwapIndex(s: nat, i: nat): (j: nat)
    ensures j <= i
  {
    s % (i + 1)
  }

  function Swap<T>(a: seq<T>, i: nat, j: nat): (r: seq<T>)
    requires i < |a| && j < |a|
    ensures |r| == |a|
  {
    a[i := a[j]][j := a[i]]
  }

  lemma SwapPermutes<T>(a: seq<T>, i: nat, j: nat)
    requires i < |a| && j < |a|
    ensures multiset(Swap(a, i, j)) == multiset(a)
  {
  }

  /** What the shuffle loop does from index `i` down to 1, starting in state `s`. */
  function ShuffleFrom<T>(a: seq<T>, i: int, s: Seed): (r: seq<T>)
    requires i < |a|
    ensures |r| == |a|
    decreases i
  {
    if i <= 0 then a
    else
      var next := LcgStep(s);
      ShuffleFrom(Swap(a, i, SwapIndex(next, i)), i - 1, Num(next))
  }

  lemma {:induction false} ShuffleFromPermutes<T>(a: seq<T>, i: int, s: Seed)
    requires i < |a|
    ensures multiset(ShuffleFrom(a, i, s)) == multiset(a)
    decreases i
  {
    if i > 0 {
      var next := LcgStep(s);
      var swapped := Swap(a, i, SwapIndex(next, i));
      SwapPermutes(a, i, SwapIndex(next, i));
      ShuffleFromPermutes(swapped, i - 1, Num(next));
    }
  }

  /** `seededShuffle(arr, seed)` as a value. */
  function Shuffled<T>(arr: seq<T>, seed: Seed): (r: seq<T>)
    ensures |r| == |arr|
  {
    ShuffleFrom(arr, |arr| - 1, seed)
  }

  /** The shuffle is a permutation: the same entries, each as often as before. */
  lemma ShuffledPermutes<T>(arr: seq<T>, seed: Seed)
    ensures multiset(Shuffled(arr, seed)) == multiset(arr)
  {
    ShuffleFromPermutes(arr, |arr| - 1, seed);
  }

  /** `seededShuffle`: Fisher-Yates on a copy of `arr`, swapping down from the last index. */
  method SeededShuffle<T>(arr: seq<T>, seed: Seed) returns (result: seq<T>)
    ensures result == Shuffled(arr, seed)
  {
    var a := new T[|arr|](k requires 0 <= k < |arr| => arr[k]);
    assert a[..] == arr;
    var i := a.Length - 1;
    var s := seed;
    while i > 0
      invariant -1 <= i < a.Length
      invariant ShuffleFrom(a[..], i, s) == Shuffled(arr, seed)
      decreases i
    {
      var next := LcgStep(s);
      var j := SwapIndex(next, i);
      ghost var before := a[..];
      assert ShuffleFrom(before, i, s) == ShuffleFrom(Swap(before, i, j), i - 1, Num(next));
      s := Num(next);
      var t := a[i];
      a[i] := a[j];
      a[j] := t;
      assert a[..] == Swap(before, i, j);
      i := i - 1;
    }
    result := a[..];
  }

  /** `randBetween`: `min` plus the next state modulo the width of the range. */
  function RandBetween(min: int, max: int, seed: Seed): (r: int)
    requires min <= max
    ensures min <= r <= max
  {
    min + LcgStep(seed) % (max - min + 1)
  }

  // Choosing the exercises of a day.

  /** `exerciseDB.filter(...)`: the entries whose equipment is selected and whose muscle group is trained. */
  function FilterTemplates(db: seq<ExerciseTemplate>, selected: seq<string>, groups: seq<string>): (r: seq<ExerciseTemplate>)
    ensures |r| <= |db|
    ensures forall t :: t in r <==> t in db && t.equipmentId in selected && t.muscleGroup in groups
  {
    if db == [] then []
    else
      var rest := FilterTemplates(db[1..], selected, groups);
      if db[0].equipmentId in selected && db[0].muscleGroup in groups then [db[0]] + rest else rest
  }

  /** `getAvailableExercises`. */
  function Available(selected: seq<string>, groups: seq<string>): seq<ExerciseTemplate> {
    FilterTemplates(ExerciseDB, selected, groups)
  }

  /** The filter keeps table order: filtering a concatenation filters each part. */
  lemma {:induction false} FilterTemplatesAppend(a: seq<ExerciseTemplate>, b: seq<ExerciseTemplate>, selected: seq<string>, groups: seq<string>)
    ensures FilterTemplates(a + b, selected, groups) == FilterTemplates(a, selected, groups) + FilterTemplates(b, selected, groups)
  {
    if a == [] {
      assert a + b == b;
    } else {
      assert (a + b)[0] == a[0] && (a + b)[1..] == a[1..] + b;
      FilterTemplatesAppend(a[1..], b, selected, groups);
    }
  }

  /** The entries of one kind: `filter((e) => e.isCompound)` or `filter((e) => !e.isCompound)`. */
  function OfKind(xs: seq<ExerciseTemplate>, compound: bool): (r: seq<ExerciseTemplate>)
    ensures |r| <= |xs|
    ensures forall t :: t in r <==> t in xs && t.isCompound == compound
  {
    if xs == [] then []
    else
      var rest := OfKind(xs[1..], compound);
      if xs[0].isCompound == compound then [xs[0]] + rest else rest
  }

  /** Compounds and isolations split the list: together they hold every entry exactly as often. */
  lemma {:induction false} OfKindPartition(xs: seq<ExerciseTemplate>)
    ensures multiset(OfKind(xs, true)) + multiset(OfKind(xs, false)) == multiset(xs)
  {
    if xs != [] {
      OfKindPartition(xs[1..]);
      var x, rest := xs[0], xs[1..];
      assert xs == [x] + rest;
      var same, other := OfKind(rest, x.isCompound), OfKind(rest, !x.isCompound);
      assert OfKind(xs, x.isCompound) == [x] + same;
      assert OfKind(xs, !x.isCompound) == other;
      assert multiset([x] + same) == multiset{x} + multiset(same);
    }
  }

  /** `slice(0, n)`. */
  function Take<T>(xs: seq<T>, n: nat): (r: seq<T>)
    ensures |r| <= n && |r| <= |xs|
    ensures |r| == if n < |xs| then n else |xs|
  {
    if n < |xs| then xs[..n] else xs
  }

  /** The entries of `xs` whose name is new, each name kept at its first occurrence. */
  function DedupFrom(xs: seq<ExerciseTemplate>, seen: set<string>): (r: seq<ExerciseTemplate>)
    ensures |r| <= |xs|
    ensures forall t :: t in r ==> t in xs && t.name !in seen
    ensures forall i, j :: 0 <= i < j < |r| ==> r[i].name != r[j].name
  {
    if xs == [] then []
    else if xs[0].name in seen then DedupFrom(xs[1..], seen)
    else
      var rest := DedupFrom(xs[1..], seen + {xs[0].name});
      assert forall k :: 0 <= k < |rest| ==> rest[k] in rest;
      [xs[0]] + rest
  }

  /** Every name of `xs` not yet seen survives the de-duplication. */
  lemma {:induction false} DedupKeepsEveryName(xs: seq<ExerciseTemplate>, seen: set<string>, t: ExerciseTemplate)
    requires t in xs && t.name !in seen
    ensures exists u :: u in DedupFrom(xs, seen) && u.name == t.name
  {
    if xs[0] != t {
      if xs[0].name in seen {
        DedupKeepsEveryName(xs[1..], seen, t);
      } else if xs[0].name != t.name {
        DedupKeepsEveryName(xs[1..], seen + {xs[0].name}, t);
        var u :| u in DedupFrom(xs[1..], seen + {xs[0].name}) && u.name == t.name;
        assert u in DedupFrom(xs, seen);
      } else {
        assert xs[0] in DedupFrom(xs, seen);
      }
    } else {
      assert xs[0] in DedupFrom(xs, seen);
    }
  }

  /** One step of the de-duplication, at index `k` of `xs`. */
  lemma DedupStep(xs: seq<ExerciseTemplate>, k: nat, seen: set<string>)
    requires k < |xs|
    ensures DedupFrom(xs[k..], seen) ==
      if xs[k].name in seen then DedupFrom(xs[k + 1..], seen)
      else [xs[k]] + DedupFrom(xs[k + 1..], seen + {xs[k].name})
  {
    assert xs[k..][0] == xs[k] && xs[k..][1..] == xs[k + 1..];
  }

  /** No isolation comes before a compound. */
  predicate CompoundsFirst(xs: seq<ExerciseTemplate>) {
    forall i, j :: 0 <= i < j < |xs| && !xs[i].isCompound ==> !xs[j].isCompound
  }

  lemma {:induction false} DedupKeepsCompoundsFirst(xs: seq<ExerciseTemplate>, seen: set<string>)
    requires CompoundsFirst(xs)
    ensures CompoundsFirst(DedupFrom(xs, seen))
  {
    if xs != [] {
      assert CompoundsFirst(xs[1..]) by {
        forall i, j | 0 <= i < j < |xs[1..]| && !xs[1..][i].isCompound ensures !xs[1..][j].isCompound {
          assert xs[1..][i] == xs[i + 1] && xs[1..][j] == xs[j + 1];
        }
      }
      var seen' := if xs[0].name in seen then seen else seen + {xs[0].name};
      DedupKeepsCompoundsFirst(xs[1..], seen');
      var rest := DedupFrom(xs[1..], seen');
      if xs[0].name !in seen && !xs[0].isCompound {
        forall u | u in rest ensures !u.isCompound {
          var k :| 1 <= k < |xs| && xs[k] == u;
        }
        var r := [xs[0]] + rest;
        forall i, j | 0 <= i < j < |r| && !r[i].isCompound ensures !r[j].isCompound {
          assert r[j] in rest;
        }
      }
    }
  }

  /** The templates a day gets: shuffled compounds then shuffled isolations, capped, one per name. */
  function ChosenTemplates(available: seq<ExerciseTemplate>, maxExercises: nat, seed: Seed): seq<ExerciseTemplate> {
    var selected := Take(Shuffled(OfKind(available, true), seed) + Shuffled(OfKind(available, false), seed.Plus(1)), maxExercises);
    DedupFrom(selected, {})
  }

  /** The exercise at position `k` of the day: sets, reps and rest drawn with seeds `seed + k*7`, `k*13`, `k*19`. */
  function Prescribe(t: ExerciseTemplate, p: GoalParams, seed: Seed, k: int): Exercise
    requires ValidParams(p)
  {
    Exercise(
      t.name,
      RandBetween(p.sets.lo, p.sets.hi, seed.Plus(k * 7)),
      RandBetween(p.reps.lo, p.reps.hi, seed.Plus(k * 13)),
      IntToString(RandBetween(p.restSec.lo, p.restSec.hi, seed.Plus(k * 19))) + "초",
      None)
  }

  /** `buildExercisesForDay` as a value. */
  function DayExercises(available: seq<ExerciseTemplate>, goal: string, maxExercises: nat, seed: Seed): (r: seq<Exercise>)
    ensures |r| <= maxExercises
    ensures forall i, j :: 0 <= i < j < |r| ==> r[i].name != r[j].name
  {
    var chosen := ChosenTemplates(available, maxExercises, seed);
    seq(|chosen|, k requires 0 <= k < |chosen| => Prescribe(chosen[k], ParamsFor(goal), seed, k))
  }

  /** The `filter` of `buildExercisesForDay` whose callback grows the `seen` set: the first entry of each name. */
  method KeepFirstOfEachName(selected: seq<ExerciseTemplate>) returns (unique: seq<ExerciseTemplate>)
    ensures unique == DedupFrom(selected, {})
  {
    var seen: set<string> := {};
    unique := [];
    var k := 0;
    assert selected[0..] == selected;
    while k < |selected|
      invariant 0 <= k <= |selected|
      invariant unique + DedupFrom(selected[k..], seen) == DedupFrom(selected, {})
    {
      var e := selected[k];
      DedupStep(selected, k, seen);
      if e.name !in seen {
        seen := seen + {e.name};
        unique := unique + [e];
      }
      k := k + 1;
    }
    assert selected[k..] == [];
  }

  /** `buildExercisesForDay`: shuffle each kind, cap, keep one entry per name, then draw the prescription. */
  method BuildExercisesForDay(available: seq<ExerciseTemplate>, goal: string, maxExercises: nat, seed: Seed)
    returns (exercises: seq<Exercise>)
    ensures exercises == DayExercises(available, goal, maxExercises, seed)
  {
    var params := ParamsFor(goal);
    var compounds := OfKind(available, true);
    var isolations := OfKind(available, false);
    var shuffledCompounds := SeededShuffle(compounds, seed);
    var shuffledIsolations := SeededShuffle(isolations, seed.Plus(1));
    var selected := Take(shuffledCompounds + shuffledIsolations, maxExercises);
    var unique := KeepFirstOfEachName(selected);
    exercises := seq(|unique|, i requires 0 <= i < |unique| => Prescribe(unique[i], params, seed, i));
  }


  /** The shuffled compounds and isolations are the available entries of each kind. */
  lemma ShuffledKinds(available: seq<ExerciseTemplate>, seed: Seed)
    ensures var c, s := Shuffled(OfKind(available, true), seed), Shuffled(OfKind(available, false), seed.Plus(1));
      && (forall t :: t in c + s ==> t in available)
      && (forall i :: 0 <= i < |c| ==> c[i].isCompound)
      && (forall i :: 0 <= i < |s| ==> !s[i].isCompound)
  {
    var c, s := Shuffled(OfKind(available, true), seed), Shuffled(OfKind(available, false), seed.Plus(1));
    ShuffledPermutes(OfKind(available, true), seed);
    ShuffledPermutes(OfKind(available, false), seed.Plus(1));
    forall t | t in c + s ensures t in available {
      assert t in multiset(c) || t in multiset(s);
    }
    forall i | 0 <= i < |c| ensures c[i].isCompound {
      assert c[i] in multiset(OfKind(available, true));
    }
    forall i | 0 <= i < |s| ensures !s[i].isCompound {
      assert s[i] in multiset(OfKind(available, false));
    }
  }

  /** Compounds followed by isolations, cut at any length, have no isolation before a compound. */
  lemma KindsInOrder(c: seq<ExerciseTemplate>, s: seq<ExerciseTemplate>, n: nat)
    requires forall i :: 0 <= i < |c| ==> c[i].isCompound
    requires forall i :: 0 <= i < |s| ==> !s[i].isCompound
    ensures CompoundsFirst(Take(c + s, n))
  {
    var both := c + s;
    var selected := Take(both, n);
    forall i, j | 0 <= i < j < |selected| && !selected[i].isCompound ensures !selected[j].isCompound {
      assert selected[i] == both[i] && selected[j] == both[j];
      if j < |c| {
        assert both[i] == c[i];
      } else {
        assert both[j] == s[j - |c|];
      }
    }
  }

  /** The chosen templates: at most the cap, names pairwise distinct, all from `available`, compounds first. */
  lemma ChosenTemplatesProperties(available: seq<ExerciseTemplate>, maxExercises: nat, seed: Seed)
    ensures var r := ChosenTemplates(available, maxExercises, seed);
      && |r| <= maxExercises
      && (forall i, j :: 0 <= i < j < |r| ==> r[i].name != r[j].name)
      && (forall t :: t in r ==> t in available)
      && CompoundsFirst(r)
  {
    var c, s := Shuffled(OfKind(available, true), seed), Shuffled(OfKind(available, false), seed.Plus(1));
    var selected := Take(c + s, maxExercises);
    ShuffledKinds(available, seed);
    KindsInOrder(c, s, maxExercises);
    DedupKeepsCompoundsFirst(selected, {});
    forall t | t in selected ensures t in available {
      assert t in c + s;
    }
  }

  /** A day with anything available gets at least one exercise. */
  lemma ChosenTemplatesNonEmpty(available: seq<ExerciseTemplate>, maxExercises: nat, seed: Seed)
    requires available != [] && maxExercises >= 1
    ensures ChosenTemplates(available, maxExercises, seed) != []
  {
    OfKindPartition(available);
    ShuffledPermutes(OfKind(available, true), seed);
    ShuffledPermutes(OfKind(available, false), seed.Plus(1));
    var both := Shuffled(OfKind(available, true), seed) + Shuffled(OfKind(available, false), seed.Plus(1));
    assert |multiset(both)| == |multiset(available)|;
    var selected := Take(both, maxExercises);
    assert selected[0] in DedupFrom(selected, {});
  }

  /** Each exercise of a day keeps its template's name and draws sets, reps and rest from the goal's ranges. */
  lemma DayExercisesInRange(available: seq<ExerciseTemplate>, goal: string, maxExercises: nat, seed: Seed)
    ensures var r, chosen, p := DayExercises(available, goal, maxExercises, seed), ChosenTemplates(available, maxExercises, seed), ParamsFor(goal);
      && |r| == |chosen|
      && forall k :: 0 <= k < |r| ==>
        && r[k].name == chosen[k].name
        && p.sets.lo <= r[k].sets <= p.sets.hi
        && p.reps.lo <= r[k].reps <= p.reps.hi
        && (exists n :: p.restSec.lo <= n <= p.restSec.hi && r[k].rest == IntToString(n) + "초")
        && r[k].kind == None
  {
    var r, chosen, p := DayExercises(available, goal, maxExercises, seed), ChosenTemplates(available, maxExercises, seed), ParamsFor(goal);
    forall k | 0 <= k < |r|
      ensures exists n :: p.restSec.lo <= n <= p.restSec.hi && r[k].rest == IntToString(n) + "초"
    {
      var n := RandBetween(p.restSec.lo, p.restSec.hi, seed.Plus(k * 19));
      assert r[k].rest == IntToString(n) + "초";
    }
  }

  // The week.

  datatype GenerateInput = GenerateInput(selectedEquipment: seq<string>, frequency: string, split: string, goal: string)

  /** `charCodeAt(0)`: the first UTF-16 code unit, NaN for an empty string. */
  function FirstCodeUnit(id: string): (r: Seed)
    ensures r.Num? <==> id != []
    ensures r.Num? ==> 0 <= r.value < 0x1_0000
  {
    if id == [] then NaN
    else if id[0] as int < 0x1_0000 then Num(id[0] as int)
    else Num(0xD800 + (id[0] as int - 0x1_0000) / 0x400)
  }

  /** `selectedEquipment.reduce((acc, id) => acc + id.charCodeAt(0) * 31, 0)`. */
  function EquipmentSeed(ids: seq<string>): (r: Seed)
    ensures r.NaN? <==> exists k :: 0 <= k < |ids| && ids[k] == []
    ensures r.Num? ==> r.value >= 0
  {
    if ids == [] then Num(0)
    else
      var code := FirstCodeUnit(ids[|ids| - 1]);
      EquipmentSeed(ids[..|ids| - 1]).Add(if code.Num? then Num(code.value * 31) else NaN)
  }

  /** A parsed integer as a number: NaN when `parseInt` fails. */
  function FromParsed(n: Option<int>): Seed {
    if n.Some? then Num(n.value) else NaN
  }

  /** `seed`: the equipment sum plus `freq * 7` plus `parseInt(split) * 13`. */
  function RoutineSeed(input: GenerateInput): (r: Seed)
    ensures r.NaN? <==>
      ParseInt(input.frequency).None? || ParseInt(input.split).None? ||
      exists k :: 0 <= k < |input.selectedEquipment| && input.selectedEquipment[k] == []
  {
    var freq, split := FromParsed(ParseInt(input.frequency)), FromParsed(ParseInt(input.split));
    EquipmentSeed(input.selectedEquipment)
      .Add(if freq.Num? then Num(freq.value * 7) else NaN)
      .Add(if split.Num? then Num(split.value * 13) else NaN)
  }

  /** The number of iterations of `for (let i = 0; i < freq; i++)`: none when `freq` is NaN or not positive. */
  function DayCount(frequency: string): (n: nat)
    ensures n > 0 <==> ParseInt(frequency).Some? && ParseInt(frequency).value > 0
    ensures n > 0 ==> ParseInt(frequency) == Some(n)
  {
    match ParseInt(frequency)
    case None => 0
    case Some(f) => if f > 0 then f else 0
  }

  /** A frequency written as a decimal number gives that many days. */
  lemma DayCountOfNumber(n: nat)
    ensures DayCount(IntToString(n)) == n
  {
    ParseIntToString(n);
  }

  /** `maxPerDay`: 4 for beginners, 5 otherwise (both arms of the split test give 5). */
  function MaxPerDay(goal: string): (n: nat)
    ensures n == 4 || n == 5
    ensures n == 4 <==> goal == "beginner"
  {
    if goal == "beginner" then 4 else 5
  }

  /** The placeholder pushed into a day that has no exercise. */
  const FallbackExercise: Exercise := Exercise("해당 부위 기구를 추가로 선택해주세요", 0, 0, "-", None)

  /** `focusLabels[templateIndex] || muscleGroups.join(' + ')`. */
  function DayFocus(labels: seq<string>, index: nat, groups: seq<string>): string {
    if index < |labels| && labels[index] != "" then labels[index] else Join(groups, " + ")
  }

  /**
   * Day `i` of a week planned from the table `db` with the split's `template` and focus
   * `labels`, as the loop body of `generateRoutine` builds it from the week's `seed`.
   */
  function PlanDay(db: seq<ExerciseTemplate>, template: seq<seq<string>>, labels: seq<string>,
                   selected: seq<string>, goal: string, seed: Seed, i: nat): (d: DayRoutine)
    requires template != []
    ensures d.day == "Day " + IntToString(i + 1)
    ensures d.focus == DayFocus(labels, i % |template|, template[i % |template|])
    ensures d.exercises != []
  {
    var index := i % |template|;
    var exercises := DayExercises(FilterTemplates(db, selected, template[index]), goal, MaxPerDay(goal), seed.Plus(i * 100));
    DayRoutine("Day " + IntToString(i + 1), DayFocus(labels, index, template[index]),
               if exercises == [] then [FallbackExercise] else exercises)
  }

  /** The first `count` days of a week whose day `k` is `plan(k)`, pushed in order. */
  function Days(plan: nat -> DayRoutine, count: nat): (days: seq<DayRoutine>)
    ensures |days| == count
  {
    if count == 0 then [] else Days(plan, count - 1) + [plan(count - 1)]
  }

  /** Day `k` of the pushed week is `plan(k)`, whatever the number of days. */
  lemma {:induction false} DaysAt(plan: nat -> DayRoutine, count: nat)
    ensures forall k :: 0 <= k < count ==> Days(plan, count)[k] == plan(k)
  {
    if count > 0 {
      DaysAt(plan, count - 1);
    }
  }

  /** Every day of a week planned from `db`, `template` and `labels`: day `k` is `PlanDay(..., k)`. */
  function DayPlan(db: seq<ExerciseTemplate>, template: seq<seq<string>>, labels: seq<string>,
                   selected: seq<string>, goal: string, seed: Seed): nat -> DayRoutine
    requires template != []
  {
    (k: nat) => PlanDay(db, template, labels, selected, goal, seed, k)
  }

  /** The days `generateRoutine(input)` returns: one per iteration of the frequency loop. */
  function Week(input: GenerateInput): (days: seq<DayRoutine>)
    ensures |days| == DayCount(input.frequency)
  {
    Days(DayPlan(ExerciseDB, TemplateFor(input.split), FocusLabelsFor(input.split), input.selectedEquipment,
                 input.goal, RoutineSeed(input)),
         DayCount(input.frequency))
  }

  /** `n` is the non-empty catalog name of one of `ids`. */
  predicate NamedInCatalog(n: string, ids: seq<string>) {
    n != "" && exists e :: e in EquipmentData.AllItems() && e.name == n && e.id in ids
  }

  /** The equipment names found in the catalog for the selected ids: `map(...)` then `filter(Boolean)`. */
  function EquipNames(ids: seq<string>): (names: seq<string>)
    ensures |names| <= |ids|
    ensures forall n :: n in names ==> NamedInCatalog(n, ids)
  {
    if ids == [] then [] else EquipNameOf(ids[0]) + EquipNames(ids[1..])
  }

  /** The name one id contributes: its catalog name when the catalog has it under a non-empty name. */
  function EquipNameOf(id: string): (names: seq<string>)
    ensures |names| <= 1
    ensures forall n :: n in names ==> NamedInCatalog(n, [id])
  {
    match EquipmentData.FindById(EquipmentData.AllItems(), id)
    case Some(e) => if e.name != "" then [e.name] else []
    case None => []
  }

  /** One id contributes its catalog name exactly when the catalog has it under a non-empty name. */
  lemma EquipNamesOne(id: string)
    ensures EquipNames([id]) == match EquipmentData.FindById(EquipmentData.AllItems(), id)
      case Some(e) => if e.name != "" then [e.name] else []
      case None => []
  {
    assert [id][1..] == [];
    assert EquipNames([id]) == EquipNameOf(id) + [];
  }

  /** The names of a concatenation are the names of its parts, in order. */
  lemma {:induction false} EquipNamesAppend(a: seq<string>, b: seq<string>)
    ensures EquipNames(a + b) == EquipNames(a) + EquipNames(b)
  {
    if a == [] {
      assert a + b == b;
    } else {
      assert (a + b)[0] == a[0] && (a + b)[1..] == a[1..] + b;
      EquipNamesAppend(a[1..], b);
      assert EquipNames(a + b) == EquipNameOf(a[0]) + (EquipNames(a[1..]) + EquipNames(b));
    }
  }

  /** `${goalLabel} ${split}분할 루틴`. */
  function RoutineName(input: GenerateInput): (name: string)
    ensures var head := GoalLabel(input.goal) + " ";
      && |head| + |input.split| + |"분할 루틴"| == |name|
      && StartsWith(name, head)
      && name[|head|..|head| + |input.split|] == input.split
      && name[|head| + |input.split|..] == "분할 루틴"
  {
    GoalLabel(input.goal) + " " + input.split + "분할 루틴"
  }

  /** `${equipNames.length}개 기구를 활용한 주 ${frequency}회 ${split}분할 ${goalLabel} 프로그램입니다.` */
  function Description(input: GenerateInput): (text: string)
    ensures var head := IntToString(|EquipNames(input.selectedEquipment)|) + "개 기구를 활용한 주 ";
      var middle := "회 " + input.split + "분할 ";
      var tail := " 프로그램입니다.";
      var goalLabel := GoalLabel(input.goal);
      var a := |head|;
      var b := a + |input.frequency|;
      var c := b + |middle|;
      && |text| == c + |goalLabel| + |tail|
      && StartsWith(text, head)
      && text[a..b] == input.frequency
      && text[b..c] == middle
      && text[c..c + |goalLabel|] == goalLabel
      && text[c + |goalLabel|..] == tail
  {
    Concat5(IntToString(|EquipNames(input.selectedEquipment)|) + "개 기구를 활용한 주 ", input.frequency,
            "회 " + input.split + "분할 ", GoalLabel(input.goal), " 프로그램입니다.")
  }

  /** Five texts one after the other, each found at its offset in the whole. */
  function Concat5(p: string, q: string, r: string, s: string, t: string): (text: string)
    ensures var a := |p|;
      var b := a + |q|;
      var c := b + |r|;
      && |text| == c + |s| + |t|
      && text[..a] == p && text[a..b] == q && text[b..c] == r && text[c..c + |s|] == s && text[c + |s|..] == t
  {
    p + q + r + s + t
  }

  /** A day built from the exercises drawn for it is the planned day. */
  lemma PlanDayFrom(db: seq<ExerciseTemplate>, template: seq<seq<string>>, labels: seq<string>,
                    selected: seq<string>, goal: string, seed: Seed, i: nat, exercises: seq<Exercise>)
    requires template != []
    requires exercises == DayExercises(FilterTemplates(db, selected, template[i % |template|]), goal, MaxPerDay(goal), seed.Plus(i * 100))
    ensures PlanDay(db, template, labels, selected, goal, seed, i)
         == DayRoutine("Day " + IntToString(i + 1), DayFocus(labels, i % |template|, template[i % |template|]),
                       if exercises == [] then [FallbackExercise] else exercises)
  {
  }

  /**
   * The loop of `generateRoutine`: one day per iteration, drawn from the entries of `db`
   * that the selection and the day's muscle groups admit, with the placeholder pushed into
   * a day left empty.
   */
  method BuildWeek(db: seq<ExerciseTemplate>, template: seq<seq<string>>, focusLabels: seq<string>,
                   selected: seq<string>, goal: string, seed: Seed, count: nat) returns (days: seq<DayRoutine>)
    requires template != []
    ensures days == Days(DayPlan(db, template, focusLabels, selected, goal, seed), count)
  {
    var maxPerDay := MaxPerDay(goal);
    days := [];
    var i := 0;
    while i < count
      invariant 0 <= i <= count
      invariant days == Days(DayPlan(db, template, focusLabels, selected, goal, seed), i)
    {
      var index := i % |template|;
      var muscleGroups := template[index];
      var available := FilterTemplates(db, selected, muscleGroups);
      var exercises := BuildExercisesForDay(available, goal, maxPerDay, seed.Plus(i * 100));
      PlanDayFrom(db, template, focusLabels, selected, goal, seed, i, exercises);
      if |exercises| == 0 {
        // `exercises.push(...)` on the empty list.
        exercises := [FallbackExercise];
      }
      days := days + [DayRoutine("Day " + IntToString(i + 1), DayFocus(focusLabels, index, muscleGroups), exercises)];
      i := i + 1;
    }
  }

  /** `generateRoutine`: the seed, the split's tables and the week built from `exerciseDB`. */
  method GenerateRoutine(input: GenerateInput) returns (routine: RoutineData)
    ensures routine.days == Week(input)
    ensures routine.routineName == RoutineName(input)
    ensures routine.description == Description(input)
    ensures routine.tips == GenerateTips(input.goal)
  {
    var template := TemplateFor(input.split);
    var focusLabels := FocusLabelsFor(input.split);
    var seed := RoutineSeed(input);
    var days := BuildWeek(ExerciseDB, template, focusLabels, input.selectedEquipment, input.goal, seed,
                          DayCount(input.frequency));
    routine := RoutineData(RoutineName(input), Description(input), days, GenerateTips(input.goal));
  }

  /** A day draws between one exercise and the cap when anything is available, and none otherwise. */
  lemma DayExercisesCount(available: seq<ExerciseTemplate>, goal: string, maxExercises: nat, seed: Seed)
    requires maxExercises >= 1
    ensures var r := DayExercises(available, goal, maxExercises, seed);
      && |r| <= maxExercises
      && (r == [] <==> available == [])
  {
    ChosenTemplatesProperties(available, maxExercises, seed);
    if available != [] {
      ChosenTemplatesNonEmpty(available, maxExercises, seed);
    }
  }

  /**
   * Day `i` is labelled "Day i+1", trains `template[i mod len]` under its caption, and holds
   * between one and the goal's cap of exercises: the placeholder exactly when nothing is available.
   */
  lemma PlanDayShape(db: seq<ExerciseTemplate>, template: seq<seq<string>>, labels: seq<string>,
                     selected: seq<string>, goal: string, seed: Seed, i: nat)
    requires template != []
    ensures var d, index := PlanDay(db, template, labels, selected, goal, seed, i), i % |template|;
      && d.day == "Day " + IntToString(i + 1)
      && d.focus == DayFocus(labels, index, template[index])
      && 1 <= |d.exercises| <= MaxPerDay(goal)
      && (FilterTemplates(db, selected, template[index]) == [] <==> d.exercises == [FallbackExercise])
  {
    var index := i % |template|;
    var available := FilterTemplates(db, selected, template[index]);
    var s := seed.Plus(i * 100);
    DayExercisesCount(available, goal, MaxPerDay(goal), s);
    var exercises := DayExercises(available, goal, MaxPerDay(goal), s);
    if available != [] {
      assert exercises[0].sets != FallbackExercise.sets by {
        DayExercisesInRange(available, goal, MaxPerDay(goal), s);
      }
    }
  }

  /** The remainder is the unique `r` in `[0, n)` with `x == q * n + r`. */
  lemma ModUnique(x: int, n: int, q: int, r: int)
    requires n > 0 && 0 <= r < n && x == q * n + r
    ensures x % n == r
  {
    var q2, r2 := x / n, x % n;
    assert x == q2 * n + r2;
    assert (q2 - q) * n == r - r2;
    assert -n < r - r2 < n;
    MulBounds(q2 - q, n);
  }

  lemma MulBounds(d: int, n: int)
    requires n > 0 && -n < d * n < n
    ensures d == 0
  {
    if d > 0 {
      assert false;
    } else if d < 0 {
      assert false;
    }
  }

  lemma ShiftByModulus(i: nat, n: nat)
    requires n > 0
    ensures (i + n) % n == i % n
  {
    ModUnique(i + n, n, i / n + 1, i % n);
  }

  /** Days `len` apart train the same muscle groups under the same caption. */
  lemma PlanDayCycles(db: seq<ExerciseTemplate>, template: seq<seq<string>>, labels: seq<string>,
                      selected: seq<string>, goal: string, seed: Seed, i: nat)
    requires template != []
    ensures PlanDay(db, template, labels, selected, goal, seed, i + |template|).focus
         == PlanDay(db, template, labels, selected, goal, seed, i).focus
  {
    var n := |template|;
    var index := i % n;
    assert (i + n) % n == index by { ShiftByModulus(i, n); }
    var later := PlanDay(db, template, labels, selected, goal, seed, i + n);
    var first := PlanDay(db, template, labels, selected, goal, seed, i);
    assert later.focus == DayFocus(labels, index, template[index]);
    assert first.focus == DayFocus(labels, index, template[index]);
  }

  /** Every exercise of a planned day other than the placeholder draws its values from the goal's ranges. */
  lemma PlanDayInRange(db: seq<ExerciseTemplate>, template: seq<seq<string>>, labels: seq<string>,
                       selected: seq<string>, goal: string, seed: Seed, i: nat)
    requires template != []
    ensures var d, p := PlanDay(db, template, labels, selected, goal, seed, i), ParamsFor(goal);
      d.exercises == [FallbackExercise] ||
      forall k :: 0 <= k < |d.exercises| ==>
        && p.sets.lo <= d.exercises[k].sets <= p.sets.hi
        && p.reps.lo <= d.exercises[k].reps <= p.reps.hi
        && (exists n :: p.restSec.lo <= n <= p.restSec.hi && d.exercises[k].rest == IntToString(n) + "초")
  {
    var index := i % |template|;
    var available, s := FilterTemplates(db, selected, template[index]), seed.Plus(i * 100);
    var exercises := DayExercises(available, goal, MaxPerDay(goal), s);
    DayExercisesInRange(available, goal, MaxPerDay(goal), s);
    var d := PlanDay(db, template, labels, selected, goal, seed, i);
    assert d.exercises == if exercises == [] then [FallbackExercise] else exercises;
  }

  /** The names of a planned day are pairwise distinct. */
  lemma PlanDayNamesDistinct(db: seq<ExerciseTemplate>, template: seq<seq<string>>, labels: seq<string>,
                             selected: seq<string>, goal: string, seed: Seed, i: nat)
    requires template != []
    ensures var d := PlanDay(db, template, labels, selected, goal, seed, i);
      forall a, b :: 0 <= a < b < |d.exercises| ==> d.exercises[a].name != d.exercises[b].name
  {
    var index := i % |template|;
    var available := FilterTemplates(db, selected, template[index]);
    var s := seed.Plus(i * 100);
    ChosenTemplatesProperties(available, MaxPerDay(goal), s);
    DayExercisesInRange(available, goal, MaxPerDay(goal), s);
  }

  /** A split without a template ("0", "4" or anything else) is planned as the three-way split. */
  lemma UnknownSplitFallsBack(input: GenerateInput)
    requires input.split !in SplitTemplates
    ensures TemplateFor(input.split) == SplitTemplates["3"]
    ensures FocusLabelsFor(input.split) == SplitFocusLabels["3"]
  {
  }

  // The two back pullovers.

  /** No entry of `db` needs equipment `id`. */
  predicate NoneNeeds(db: seq<ExerciseTemplate>, id: string) {
    forall k :: 0 <= k < |db| ==> db[k].equipmentId != id
  }

  /** Selecting only equipment that no entry needs admits nothing. */
  lemma {:induction false} FilterNoneNeeded(db: seq<ExerciseTemplate>, id: string, groups: seq<string>)
    requires NoneNeeds(db, id)
    ensures FilterTemplates(db, [id], groups) == []
  {
    if db != [] {
      assert db[0].equipmentId != id;
      FilterNoneNeeded(db[1..], id, groups);
    }
  }

  lemma NoneNeedsAppend(a: seq<ExerciseTemplate>, b: seq<ExerciseTemplate>, id: string)
    requires NoneNeeds(a, id) && NoneNeeds(b, id)
    ensures NoneNeeds(a + b, id)
  {
    forall k | 0 <= k < |a + b| ensures (a + b)[k].equipmentId != id {
      if k >= |a| {
        assert (a + b)[k] == b[k - |a|];
      }
    }
  }

  lemma UpperBodyNeedNoBackPullover()
    ensures NoneNeeds(ChestTemplates, "db-pullover-back")
    ensures NoneNeeds(ShoulderTemplates, "db-pullover-back")
    ensures NoneNeeds(BackTemplates, "db-pullover-back")
  {
  }

  lemma LowerBodyNeedNoBackPullover()
    ensures NoneNeeds(LegsTemplates, "db-pullover-back")
    ensures NoneNeeds(ArmsTemplates, "db-pullover-back")
    ensures NoneNeeds(CoreTemplates, "db-pullover-back")
  {
  }

  /** The catalog lists the back pullover as "db-pullover-back", and no exercise needs that id. */
  lemma BackPulloverHasNoExercise(groups: seq<string>)
    ensures "db-pullover-back" in EquipmentData.BackIds
    ensures Available(["db-pullover-back"], groups) == []
  {
    var id := "db-pullover-back";
    EquipmentData.PulloverIds();
    UpperBodyNeedNoBackPullover();
    LowerBodyNeedNoBackPullover();
    var a := ChestTemplates + ShoulderTemplates;
    var b := a + BackTemplates;
    var c := b + LegsTemplates;
    var d := c + ArmsTemplates;
    NoneNeedsAppend(ChestTemplates, ShoulderTemplates, id);
    NoneNeedsAppend(a, BackTemplates, id);
    NoneNeedsAppend(b, LegsTemplates, id);
    NoneNeedsAppend(c, ArmsTemplates, id);
    NoneNeedsAppend(d, CoreTemplates, id);
    FilterNoneNeeded(ExerciseDB, id, groups);
  }

  /** The generator's back pullover needs "db-pullover", the id the catalog gives the chest pullover. */
  lemma BackPulloverNeedsChestId()
    ensures BackTemplates[8] == ExerciseTemplate("덤벨 풀오버", "db-pullover", "back", false)
    ensures BackTemplates[8] in Available(["db-pullover"], ["back"])
    ensures "db-pullover" in EquipmentData.ChestIds && "db-pullover" !in EquipmentData.BackIds
  {
    assert "db-pullover" in EquipmentData.ChestIds && "db-pullover" !in EquipmentData.BackIds by {
      EquipmentData.PulloverIds();
    }
    var t := BackTemplates[8];
    assert t in ExerciseDB by {
      var upper := ChestTemplates + ShoulderTemplates + BackTemplates;
      assert t in upper;
      assert ExerciseDB == upper + (LegsTemplates + ArmsTemplates + CoreTemplates);
    }
    assert t.equipmentId in ["db-pullover"] && t.muscleGroup in ["back"];
  }

}
