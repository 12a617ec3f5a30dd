/**
 * The parts of the AI routine generator that are not network calls: turning the parsed
 * JSON reply into a routine (`parseAIResponse`), the equipment names the prompt lists,
 * and the checks made before any request (which provider, whether a key is present).
 */
module AIRoutineGenerator {
  import opened Wrappers
  import opened JsStrings
  import opened EquipmentData
  import opened RoutineResults
  import EquipmentSelector
  import RoutineGenerator

  // JavaScript values as `JSON.parse` produces them (numbers restricted to integers).

  datatype Json =
    | Undefined
    | Null
    | Bool(b: bool)
    | Num(n: int)
    | Str(s: string)
    | Arr(items: seq<Json>)
    | Obj(fields: map<string, Json>)

  /** JavaScript truthiness: `undefined`, `null`, `false`, `0` and `""` are falsy. */
  predicate Truthy(v: Json) {
    match v
    case Undefined => false
    case Null => false
    case Bool(b) => b
    case Num(n) => n != 0
    case Str(s) => s != ""
    case Arr(_) => true
    case Obj(_) => true
  }

  /** `a || b`. */
  function Or(a: Json, b: Json): Json {
    if Truthy(a) then a else b
  }

  /** `String(v)`; an array joins its elements with commas, writing `null`/`undefined` elements as "". */
  function ToText(v: Json): string {
    match v
    case Undefined => "undefined"
    case Null => "null"
    case Bool(b) => if b then "true" else "false"
    case Num(n) => IntToString(n)
    case Str(s) => s
    case Arr(items) =>
      Join(seq(|items|, k requires 0 <= k < |items| => if items[k].Undefined? || items[k].Null? then "" else ToText(items[k])), ",")
    case Obj(_) => "[object Object]"
  }

  /** `v.key` on a value that is not `null`/`undefined`: only objects carry the keys read here. */
  function Get(v: Json, key: string): Json {
    match v
    case Obj(fields) => if key in fields then fields[key] else Undefined
    case _ => Undefined
  }

  /** `content.key` on the reply record. */
  function Field(content: map<string, Json>, key: string): Json {
    if key in content then content[key] else Undefined
  }

  /** Reading a property of `null` or `undefined` throws. */
  predicate Readable(v: Json) {
    !v.Undefined? && !v.Null?
  }

  const PropertyOfNothing := "TypeError: cannot read properties of null or undefined"
  const MapOfNonArray := "TypeError: map is not a function"

  /** `((v as unknown[]) || [])` about to be mapped: a falsy value maps as [], a truthy non-array throws. */
  function ListOf(v: Json): (r: Result<seq<Json>>)
    ensures !Truthy(v) ==> r == Success([])
    ensures v.Arr? ==> r == Success(v.items)
    ensures Truthy(v) && !v.Arr? ==> r.Failure?
  {
    if !Truthy(v) then Success([])
    else if v.Arr? then Success(v.items)
    else Failure(MapOfNonArray)
  }

  /** `items.map(f)` where `f` may throw: the first failure is the outcome. */
  function MapAll<A, B>(items: seq<A>, f: A -> Result<B>): (r: Result<seq<B>>)
    ensures r.Success? <==> forall k :: 0 <= k < |items| ==> f(items[k]).Success?
    ensures r.Success? ==> |r.value| == |items| && forall k :: 0 <= k < |items| ==> f(items[k]) == Success(r.value[k])
  {
    if items == [] then Success([])
    else
      match f(items[0])
      case Failure(e) => Failure(e)
      case Success(first) =>
        match MapAll(items[1..], f)
        case Failure(e) => Failure(e)
        case Success(rest) =>
          assert forall k :: 1 <= k < |items| ==> items[k] == items[1..][k - 1];
          Success([first] + rest)
  }

  /** `parseInt(String(v)) || fallback`: NaN and 0 give the fallback. */
  function IntOr(v: Json, fallback: int): (n: int)
    ensures fallback != 0 ==> n != 0
    ensures ParseInt(ToText(v)).None? || ParseInt(ToText(v)) == Some(0) ==> n == fallback
    ensures ParseInt(ToText(v)).Some? && ParseInt(ToText(v)).value != 0 ==> n == ParseInt(ToText(v)).value
  {
    match ParseInt(ToText(v))
    case Some(n) => if n != 0 then n else fallback
    case None => fallback
  }

  /** One exercise of the reply: name, sets, reps and rest, each with its default. */
  function ParseExercise(ex: Json): (r: Result<Exercise>)
    ensures r.Success? <==> Readable(ex)
    ensures r.Success? ==> r.value.sets != 0 && r.value.reps != 0 && r.value.kind == None
    ensures r.Success? ==> r.value.name == ExerciseName(ex) && r.value.rest == RestText(ex)
    ensures r.Success? ==> r.value.sets == IntOr(Get(ex, "sets"), 3) && r.value.reps == IntOr(Get(ex, "reps"), 10)
  {
    if !Readable(ex) then Failure(PropertyOfNothing)
    else
      Success(Exercise(ExerciseName(ex), IntOr(Get(ex, "sets"), 3), IntOr(Get(ex, "reps"), 10), RestText(ex), None))
  }

  /** `String(exObj.name || exObj.exercise || '')`. */
  function ExerciseName(ex: Json): string {
    ToText(Or(Get(ex, "name"), Or(Get(ex, "exercise"), Str(""))))
  }

  /** `String(exObj.rest || exObj.restTime || '60초')`. */
  function RestText(ex: Json): string {
    ToText(Or(Get(ex, "rest"), Or(Get(ex, "restTime"), Str("60초"))))
  }

  /** One day of the reply: its label, focus and exercises, each with its default. */
  function ParseDay(day: Json): (r: Result<DayRoutine>)
    ensures r.Success? <==> (Readable(day) && ListOf(Get(day, "exercises")).Success?
      && forall k :: 0 <= k < |ListOf(Get(day, "exercises")).value| ==> Readable(ListOf(Get(day, "exercises")).value[k]))
    ensures r.Success? ==> |r.value.exercises| == |ListOf(Get(day, "exercises")).value|
    ensures r.Success? ==> r.value.day == DayLabel(day) && r.value.focus == FocusText(day)
    ensures r.Success? ==> forall k :: 0 <= k < |ListOf(Get(day, "exercises")).value| ==>
      ParseExercise(ListOf(Get(day, "exercises")).value[k]) == Success(r.value.exercises[k])
  {
    if !Readable(day) then Failure(PropertyOfNothing)
    else
      match ListOf(Get(day, "exercises"))
      case Failure(e) => Failure(e)
      case Success(items) =>
        match MapAll(items, ParseExercise)
        case Failure(e) => Failure(e)
        case Success(exercises) => Success(DayRoutine(DayLabel(day), FocusText(day), exercises))
  }

  /** `String(dayObj.day || `Day ${dayObj.dayNumber || 1}`)`. */
  function DayLabel(day: Json): string {
    ToText(Or(Get(day, "day"), Str("Day " + ToText(Or(Get(day, "dayNumber"), Num(1))))))
  }

  /** `String(dayObj.focus || dayObj.muscleGroups || '')`. */
  function FocusText(day: Json): string {
    ToText(Or(Get(day, "focus"), Or(Get(day, "muscleGroups"), Str(""))))
  }

  /**
   * `parseAIResponse(content, input)`: every field gets its default; days and exercises are
   * mapped one for one. A `null` day or exercise, or a truthy non-array where a list is
   * expected, makes the source throw, which is the failure here.
   */
  function ParseAIResponse(content: map<string, Json>, input: RoutineGenerator.GenerateInput): (r: Result<RoutineData>)
    ensures !Truthy(Field(content, "days")) ==> r.Success? && r.value.days == []
    ensures r.Success? <==> (ListOf(Field(content, "days")).Success?
      && forall k :: 0 <= k < |ListOf(Field(content, "days")).value| ==> ParseDay(ListOf(Field(content, "days")).value[k]).Success?)
    ensures r.Success? ==> (|r.value.days| == |ListOf(Field(content, "days")).value|
      && forall k :: 0 <= k < |r.value.days| ==> ParseDay(ListOf(Field(content, "days")).value[k]) == Success(r.value.days[k]))
    ensures r.Success? && Truthy(Field(content, "description")) ==> r.value.description == ToText(Field(content, "description"))
    ensures r.Success? && !Truthy(Field(content, "description")) ==> r.value.description == ""
  {
    match ListOf(Field(content, "days"))
    case Failure(e) => Failure(e)
    case Success(items) =>
      match MapAll(items, ParseDay)
      case Failure(e) => Failure(e)
      case Success(days) =>
        var name := Field(content, "routineName");
        var description := Field(content, "description");
        var tips := Field(content, "tips");
        Success(RoutineData(
          if Truthy(name) then ToText(name) else input.split + "분할 루틴",
          if Truthy(description) then ToText(description) else "",
          days,
          if tips.Arr? then seq(|tips.items|, k requires 0 <= k < |tips.items| => ToText(tips.items[k])) else []))
  }

  /** An exercise object with none of the fields becomes an unnamed 3 x 10 with 60 seconds of rest. */
  lemma ExerciseDefaults()
    ensures ParseExercise(Obj(map[])) == Success(Exercise("", 3, 10, "60초", None))
  {
    var ex := Obj(map[]);
    assert ParseExercise(ex).value.sets == 3 && ParseExercise(ex).value.reps == 10 by {
      MissingCountsDefault(map[]);
    }
    assert RestText(ex) == "60초" by {
      assert Or(Get(ex, "rest"), Or(Get(ex, "restTime"), Str("60초"))) == Str("60초");
    }
    assert ExerciseName(ex) == "" by {
      assert Or(Get(ex, "name"), Or(Get(ex, "exercise"), Str(""))) == Str("");
    }
  }

  /** `parseInt(String(undefined))` is NaN, so a missing count takes its default. */
  lemma MissingCountIsNaN()
    ensures ParseInt(ToText(Undefined)) == None
  {
    var s := ToText(Undefined);
    assert s[0] == 'u';
    TrimStartNoSpace(s);
    assert !IsDigitIn(s[0], 10);
    assert DigitPrefixLength(s, 10) == 0;
  }

  /** A non-zero number of sets or reps, given as a number or as its decimal text, is kept as is. */
  lemma CountKept(n: int)
    requires n != 0
    ensures IntOr(Num(n), 3) == n && IntOr(Str(IntToString(n)), 3) == n
    ensures IntOr(Num(n), 10) == n && IntOr(Str(IntToString(n)), 10) == n
  {
    var t := IntToString(n);
    assert ParseInt(t) == Some(n) by { ParseIntToString(n); }
    assert ToText(Num(n)) == t && ToText(Str(t)) == t;
    ParsedCountKept(Num(n), n);
    ParsedCountKept(Str(t), n);
  }

  /** A value whose text parses to a non-zero count gives that count, whatever the default. */
  lemma ParsedCountKept(v: Json, n: int)
    requires n != 0 && ParseInt(ToText(v)) == Some(n)
    ensures IntOr(v, 3) == n && IntOr(v, 10) == n
  {
  }

  /** Zero sets or reps are replaced by the default, since `0 || 3` is 3. */
  lemma ZeroCountReplaced(fallback: int)
    ensures IntOr(Num(0), fallback) == fallback
  {
    ParseIntToString(0);
  }

  /** JSON strings, one per text: how the reply writes an array of strings. */
  function StrItems(texts: seq<string>): (items: seq<Json>)
    ensures |items| == |texts|
    ensures forall k :: 0 <= k < |texts| ==> items[k] == Str(texts[k])
  {
    seq(|texts|, k requires 0 <= k < |texts| => Str(texts[k]))
  }

  /** `String(array)` of an array of strings joins them with commas. */
  lemma StrItemsText(texts: seq<string>)
    ensures ToText(Arr(StrItems(texts))) == Join(texts, ",")
  {
    var items := StrItems(texts);
    var shown := seq(|items|, k requires 0 <= k < |items| => if items[k].Undefined? || items[k].Null? then "" else ToText(items[k]));
    assert shown == texts;
  }

  /** Only the `exercises` field decides whether an object is read as a day. */
  lemma DayReadByExercises(fields: map<string, Json>, key: string, v: Json)
    requires key != "exercises"
    ensures ParseDay(Obj(fields[key := v])).Success? <==> ParseDay(Obj(fields)).Success?
    ensures ParseDay(Obj(fields - {key})).Success? <==> ParseDay(Obj(fields)).Success?
  {
    assert Get(Obj(fields[key := v]), "exercises") == Get(Obj(fields), "exercises");
    assert Get(Obj(fields - {key}), "exercises") == Get(Obj(fields), "exercises");
  }

  /**
   * Without a `day` label, a day is called "Day {dayNumber}" after a truthy `dayNumber`, or
   * "Day 1" when it is falsy or missing.
   */
  lemma DayLabelDefault(fields: map<string, Json>, number: Json)
    requires "day" !in fields
    ensures DayLabel(Obj(fields["dayNumber" := number])) == "Day " + (if Truthy(number) then ToText(number) else "1")
    ensures DayLabel(Obj(fields - {"dayNumber"})) == "Day 1"
  {
    assert ToText(Num(1)) == "1" by {
      assert NatToDecimal(1) == [DigitChar(1)];
    }
  }

  /** A day without a label that is read at all is called "Day {n}" for a non-zero `dayNumber`, and "Day 1" for 0. */
  lemma DayNumberLabel(fields: map<string, Json>, n: int)
    requires "day" !in fields && ParseDay(Obj(fields)).Success?
    ensures ParseDay(Obj(fields["dayNumber" := Num(n)])).Success?
    ensures ParseDay(Obj(fields["dayNumber" := Num(n)])).value.day == if n != 0 then "Day " + IntToString(n) else "Day 1"
  {
    DayReadByExercises(fields, "dayNumber", Num(n));
    DayLabelDefault(fields, Num(n));
  }

  /** Without a `focus`, an array of muscle groups becomes the focus, its names comma-separated. */
  lemma FocusFromMuscleGroups(fields: map<string, Json>, groups: seq<string>)
    requires "focus" !in fields
    ensures FocusText(Obj(fields["muscleGroups" := Arr(StrItems(groups))])) == Join(groups, ",")
  {
    StrItemsText(groups);
  }

  /** A non-empty `day` label and `focus` are taken as given. */
  lemma DayFieldsGiven(fields: map<string, Json>, dayLabel: string, focus: string)
    requires dayLabel != "" && focus != ""
    ensures DayLabel(Obj(fields["day" := Str(dayLabel)])) == dayLabel
    ensures FocusText(Obj(fields["focus" := Str(focus)])) == focus
  {
  }

  /** An exercise's name is its `name`, else its `exercise`, else "". */
  lemma ExerciseNameFallbacks(fields: map<string, Json>, t: string)
    requires t != ""
    ensures ExerciseName(Obj(fields["name" := Str(t)])) == t
    ensures "name" !in fields ==> ExerciseName(Obj(fields["exercise" := Str(t)])) == t
    ensures "name" !in fields && "exercise" !in fields ==> ExerciseName(Obj(fields)) == ""
  {
  }

  /** An exercise's rest is its `rest`, else its `restTime`, else "60초". */
  lemma RestFallbacks(fields: map<string, Json>, t: string)
    requires t != ""
    ensures RestText(Obj(fields["rest" := Str(t)])) == t
    ensures "rest" !in fields ==> RestText(Obj(fields["restTime" := Str(t)])) == t
    ensures "rest" !in fields && "restTime" !in fields ==> RestText(Obj(fields)) == "60초"
  {
  }

  /** A missing number of sets or reps takes its default, 3 sets and 10 reps. */
  lemma MissingCountsDefault(fields: map<string, Json>)
    ensures "sets" !in fields ==> ParseExercise(Obj(fields)).value.sets == 3
    ensures "reps" !in fields ==> ParseExercise(Obj(fields)).value.reps == 10
  {
    MissingCountIsNaN();
  }

  /** Whatever the reply holds besides, a missing `routineName`, `description` or `tips` takes its default. */
  lemma RoutineFieldDefaults(content: map<string, Json>, input: RoutineGenerator.GenerateInput)
    requires ParseAIResponse(content, input).Success?
    ensures "routineName" !in content ==> ParseAIResponse(content, input).value.routineName == input.split + "분할 루틴"
    ensures "description" !in content ==> ParseAIResponse(content, input).value.description == ""
    ensures "tips" !in content ==> ParseAIResponse(content, input).value.tips == []
  {
  }

  /** A non-empty `routineName` and an array of tips are taken as given. */
  lemma RoutineFieldsGiven(content: map<string, Json>, input: RoutineGenerator.GenerateInput, name: string, tips: seq<string>)
    requires name != "" && ParseAIResponse(content, input).Success?
    ensures ParseAIResponse(content["routineName" := Str(name)]["tips" := Arr(StrItems(tips))], input).Success?
    ensures ParseAIResponse(content["routineName" := Str(name)]["tips" := Arr(StrItems(tips))], input).value.routineName == name
    ensures ParseAIResponse(content["routineName" := Str(name)]["tips" := Arr(StrItems(tips))], input).value.tips == tips
  {
    var given := content["routineName" := Str(name)]["tips" := Arr(StrItems(tips))];
    assert Field(given, "days") == Field(content, "days");
  }

  /** A non-empty `description` in the reply is the routine's description; an empty one gives "". */
  lemma DescriptionGiven(content: map<string, Json>, input: RoutineGenerator.GenerateInput, description: string)
    requires ParseAIResponse(content, input).Success?
    ensures ParseAIResponse(content["description" := Str(description)], input).Success?
    ensures ParseAIResponse(content["description" := Str(description)], input).value.description == description
  {
    var given := content["description" := Str(description)];
    assert Field(given, "days") == Field(content, "days");
  }

  /** The routine's name, description and tips default to "{split}분할 루틴", "" and no tips. */
  lemma RoutineDefaults(input: RoutineGenerator.GenerateInput)
    ensures ParseAIResponse(map[], input) == Success(RoutineData(input.split + "분할 루틴", "", [], []))
  {
  }

  // The equipment names the prompt lists.

  /** The name `equipmentCategories` gives an id, searching the categories in order. */
  function CatalogName(categories: seq<EquipmentCategory>, id: string): (r: Option<string>)
    ensures (forall k :: 0 <= k < |categories| ==> categories[k].equipment == []) ==> r == None
  {
    if categories == [] then None
    else
      match FindEquipment(categories[0].equipment, id)
      case Some(e) => Some(e.name)
      case None => CatalogName(categories[1..], id)
  }

  /** `equipment.find((e) => e.id === id)`. */
  function FindEquipment(items: seq<Equipment>, id: string): (r: Option<Equipment>)
    ensures r.Some? ==> r.value in items && r.value.id == id
    ensures r.None? ==> forall k :: 0 <= k < |items| ==> items[k].id != id
    ensures r.Some? ==> exists k :: 0 <= k < |items| && items[k] == r.value && forall j :: 0 <= j < k ==> items[j].id != id
  {
    if items == [] then None else if items[0].id == id then Some(items[0]) else FindEquipment(items[1..], id)
  }

  const CustomMarker := "custom-"

  /** What the prompt calls one selected id: a custom id's dash-parts from the third on, else the catalog name. */
  function PromptName(id: string): Option<string> {
    if StartsWith(id, CustomMarker) then Some(Join(EquipmentSelector.Drop(Split(id, '-'), 2), "-"))
    else CatalogName(EquipmentCategories, id)
  }

  /** `.map(...).filter(Boolean)`: the names of the selection, with missing and empty names dropped. */
  function PromptNames(ids: seq<string>): (names: seq<string>)
    ensures |names| <= |ids|
    ensures forall k :: 0 <= k < |names| ==> names[k] != ""
  {
    if ids == [] then []
    else
      var rest := PromptNames(ids[1..]);
      match PromptName(ids[0])
      case Some(name) => if name != "" then [name] + rest else rest
      case None => rest
  }

  /** One id contributes its name to the prompt exactly when it has a non-empty one. */
  lemma PromptNamesOne(id: string)
    ensures PromptNames([id]) == if PromptName(id).Some? && PromptName(id).value != "" then [PromptName(id).value] else []
  {
    assert [id][1..] == [];
  }

  /** The names of a concatenation are the names of its parts, in order: every named id contributes, in selection order. */
  lemma {:induction false} PromptNamesAppend(a: seq<string>, b: seq<string>)
    ensures PromptNames(a + b) == PromptNames(a) + PromptNames(b)
  {
    if a == [] {
      assert a + b == b;
    } else {
      assert (a + b)[0] == a[0] && (a + b)[1..] == a[1..] + b;
      PromptNamesAppend(a[1..], b);
    }
  }

  /** The equipment line of the prompt: the names joined by ", ". */
  function EquipmentNamesText(ids: seq<string>): string {
    Join(PromptNames(ids), ", ")
  }

  /** Every category's `equipment` list is empty, so an id that is not custom has no name. */
  lemma CatalogHasNoNames(id: string)
    ensures CatalogName(EquipmentCategories, id) == None
  {
    CategoriesMatchCatalog();
  }

  /** Only custom ids reach the prompt: the names are those of the ids with the custom prefix. */
  lemma {:induction false} OnlyCustomNamed(ids: seq<string>)
    ensures PromptNames(ids) == PromptNames(EquipmentSelector.WithPrefix(ids, CustomMarker))
  {
    if ids != [] {
      OnlyCustomNamed(ids[1..]);
      if !StartsWith(ids[0], CustomMarker) {
        CatalogHasNoNames(ids[0]);
      }
    }
  }

  /** A custom id starts with the prefix the prompt looks for. */
  lemma CustomIdMarked(categoryId: string, sub: Option<SubCategory>, name: string)
    ensures StartsWith(EquipmentSelector.CustomId(categoryId, sub, name), CustomMarker)
  {
    var id := EquipmentSelector.CustomId(categoryId, sub, name);
    assert id[..7] == CustomMarker;
  }

  /** A custom piece filed under a sub-category reaches the prompt with the sub-category's key in front of its name. */
  lemma FiledNameKeepsSubCategory(categoryId: string, sub: SubCategory, name: string)
    requires '-' !in categoryId
    ensures PromptName(EquipmentSelector.CustomId(categoryId, Some(sub), name)) == Some(SubCategoryKey(sub) + "-" + name)
  {
    var id := EquipmentSelector.CustomId(categoryId, Some(sub), name);
    CustomIdMarked(categoryId, Some(sub), name);
    EquipmentSelector.FiledIdParts(categoryId, sub, name);
    var pieces := Split(name, '-');
    assert EquipmentSelector.Drop(Split(id, '-'), 2) == [SubCategoryKey(sub)] + pieces;
    assert ([SubCategoryKey(sub)] + pieces)[1..] == pieces;
    JoinSplit(name, '-');
  }

  /** An old-style custom piece reaches the prompt under its own name. */
  lemma PlainNameKept(categoryId: string, name: string)
    requires '-' !in categoryId
    ensures PromptName(EquipmentSelector.CustomId(categoryId, None, name)) == Some(name)
  {
    var id := EquipmentSelector.CustomId(categoryId, None, name);
    CustomIdMarked(categoryId, None, name);
    EquipmentSelector.PlainIdParts(categoryId, name);
    assert EquipmentSelector.Drop(Split(id, '-'), 2) == Split(name, '-');
    JoinSplit(name, '-');
  }

  // Checks made before any request.

  datatype AIProvider = Groq | Gemini | OpenAI | Claude | Together

  /** The provider a name selects, if the `switch` knows it. */
  function ProviderNamed(name: string): (p: Option<AIProvider>)
    ensures p.Some? ==> ProviderName(p.value) == name
  {
    match name
    case "groq" => Some(Groq)
    case "gemini" => Some(Gemini)
    case "openai" => Some(OpenAI)
    case "claude" => Some(Claude)
    case "together" => Some(Together)
    case _ => None
  }

  function ProviderName(p: AIProvider): string {
    match p
    case Groq => "groq"
    case Gemini => "gemini"
    case OpenAI => "openai"
    case Claude => "claude"
    case Together => "together"
  }

  /** `a || b || fallback` over optional strings (an absent or empty string is falsy). */
  function FirstSet(a: Option<string>, b: Option<string>, fallback: string): (r: string)
    ensures fallback != "" ==> r != ""
    ensures a.Some? && a.value != "" ==> r == a.value
  {
    if a.Some? && a.value != "" then a.value
    else if b.Some? && b.value != "" then b.value
    else fallback
  }

  const MissingKey := "AI API 키가 설정되지 않았습니다. VITE_AI_API_KEY 환경 변수를 설정하세요."

  /** The settings `generateRoutineWithAI` reads: the optional config and the environment variables. */
  datatype AISettings = AISettings(configProvider: Option<string>, envProvider: Option<string>, configKey: Option<string>, envKey: Option<string>)

  /** The key in use: the configured one, else the environment's ("" when neither is set). */
  function ApiKey(settings: AISettings): string {
    FirstSet(settings.configKey, settings.envKey, "")
  }

  /**
   * `generateRoutineWithAI` up to the request: the provider it would call, or the error it
   * throws first (no key; then a provider the `switch` does not know).
   */
  function ChooseProvider(settings: AISettings): (r: Result<AIProvider>)
    ensures ApiKey(settings) == "" ==> r == Failure(MissingKey)
    ensures ApiKey(settings) != "" ==> (r.Success? <==> ProviderNamed(FirstSet(settings.configProvider, settings.envProvider, "groq")).Some?)
    ensures r.Success? ==> ProviderName(r.value) == FirstSet(settings.configProvider, settings.envProvider, "groq")
  {
    var provider := FirstSet(settings.configProvider, settings.envProvider, "groq");
    if ApiKey(settings) == "" then Failure(MissingKey)
    else
      match ProviderNamed(provider)
      case Some(p) => Success(p)
      case None => Failure("지원하지 않는 AI 제공자: " + provider)
  }

  /** With a key and no provider set anywhere, Groq is called. */
  lemma DefaultsToGroq(key: string)
    requires key != ""
    ensures ChooseProvider(AISettings(None, None, Some(key), None)) == Success(Groq)
    ensures ChooseProvider(AISettings(Some(""), None, None, Some(key))) == Success(Groq)
  {
  }

  /** An unknown provider fails with its name in the message, once a key is present. */
  lemma UnknownProviderFails(settings: AISettings)
    requires ApiKey(settings) != ""
    requires ProviderNamed(FirstSet(settings.configProvider, settings.envProvider, "groq")).None?
    ensures ChooseProvider(settings) == Failure("지원하지 않는 AI 제공자: " + FirstSet(settings.configProvider, settings.envProvider, "groq"))
  {
  }
}
