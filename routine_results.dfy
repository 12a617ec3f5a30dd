/**
 * The results view: the routine data types, the "name (type)" splitter behind each
 * exercise row and its type badge, the plain-text formats written to the clipboard and
 * shared, the per-day set total and the day card colours.
 */
module RoutineResults {
  import opened Wrappers
  import opened JsStrings
  import EquipmentData

  /** `kind` is the optional `type` field (machine, barbell or dumbbell, in either language). */
  datatype Exercise = Exercise(name: string, sets: int, reps: int, rest: string, kind: Option<string>)

  datatype DayRoutine = DayRoutine(day: string, focus: string, exercises: seq<Exercise>)

  datatype RoutineData = RoutineData(routineName: string, description: string, days: seq<DayRoutine>, tips: seq<string>)

  // The splitter `/^(.+?)\s*\(([^)]+)\)$/`.

  /** The first index at or after `k` that does not hold white space (`|s|` if there is none). */
  function SkipSpaces(s: string, k: nat): (m: nat)
    requires k <= |s|
    ensures k <= m <= |s|
    ensures forall i :: k <= i < m ==> IsWhiteSpace(s[i])
    ensures m < |s| ==> !IsWhiteSpace(s[m])
    decreases |s| - k
  {
    if k < |s| && IsWhiteSpace(s[k]) then SkipSpaces(s, k + 1) else k
  }

  /**
   * The pattern matches `s` with its first group `s[..k]`: that group is non-empty and
   * holds no line terminator; after it and the longest run of white space comes "(",
   * then a non-empty second group without ")", and `s` ends with ")".
   */
  predicate MatchesAt(s: string, k: nat) {
    && 1 <= k <= |s|
    && (forall i :: 0 <= i < k ==> !IsLineTerminator(s[i]))
    && var m := SkipSpaces(s, k);
       && m + 2 < |s| && s[m] == '(' && s[|s| - 1] == ')'
       && forall i :: m < i < |s| - 1 ==> s[i] != ')'
  }

  /** The second group of a match whose first group is `s[..k]`. */
  function TypeGroup(s: string, k: nat): (t: string)
    requires MatchesAt(s, k)
    ensures t != [] && ')' !in t
  {
    s[SkipSpaces(s, k) + 1..|s| - 1]
  }

  /** The least `k` from `from` on at which the pattern matches: where the lazy `.+?` stops. */
  function FirstMatchFrom(s: string, from: nat): (r: Option<nat>)
    requires 1 <= from
    ensures r.Some? ==> from <= r.value && MatchesAt(s, r.value)
    ensures r.Some? ==> forall k :: from <= k < r.value ==> !MatchesAt(s, k)
    ensures r.None? ==> forall k :: from <= k ==> !MatchesAt(s, k)
    decreases |s| + 1 - from
  {
    if from > |s| then None
    else if MatchesAt(s, from) then Some(from)
    else FirstMatchFrom(s, from + 1)
  }

  /** `s[..k]` is the first group of the match the lazy `.+?` settles on: no shorter first group matches. */
  predicate FirstMatchAt(s: string, k: nat) {
    MatchesAt(s, k) && forall j :: 1 <= j < k ==> !MatchesAt(s, j)
  }

  datatype Extracted = Extracted(name: string, kind: Option<string>)

  /** `extractType`: the trimmed groups of the first match, or the name itself and no type. */
  function ExtractType(s: string): (r: Extracted)
    ensures r.kind.Some? <==> exists k: nat :: MatchesAt(s, k)
    ensures r.kind.None? ==> r.name == s
    ensures r.kind.Some? ==>
      exists k: nat :: FirstMatchAt(s, k) && r == Extracted(Trim(s[..k]), Some(Trim(TypeGroup(s, k))))
  {
    match FirstMatchFrom(s, 1)
    case None => Extracted(s, None)
    case Some(k) => Extracted(Trim(s[..k]), Some(Trim(TypeGroup(s, k))))
  }

  /** In `base + " (" + t + ")"` the pattern matches with `base` as the first group and `t` as the second. */
  lemma LabelledMatches(base: string, t: string)
    requires base != [] && '(' !in base
    requires forall i :: 0 <= i < |base| ==> !IsLineTerminator(base[i])
    requires t != [] && ')' !in t
    ensures var s := base + " (" + t + ")";
      MatchesAt(s, |base|) && s[..|base|] == base && TypeGroup(s, |base|) == t
  {
    var s := base + " (" + t + ")";
    var n := |base|;
    assert s[..n] == base;
    assert s[n] == ' ' && s[n + 1] == '(';
    assert SkipSpaces(s, n + 1) == n + 1;
    assert s[n + 2..|s| - 1] == t;
  }

  /** No shorter first group matches, because `base` does not end in white space and holds no "(". */
  lemma LabelledMatchIsFirst(base: string, t: string)
    requires base != [] && Trimmed(base) && '(' !in base
    ensures forall j :: 1 <= j < |base| ==> !MatchesAt(base + " (" + t + ")", j)
  {
    var s := base + " (" + t + ")";
    var n := |base|;
    forall j | 1 <= j < n ensures !MatchesAt(s, j) {
      var m := SkipSpaces(s, j);
      assert s[n - 1] == base[n - 1];
      assert m < n;
      assert s[m] == base[m];
    }
  }

  /** A name written as `base + " (" + type + ")"` splits back into `base` and `type`. */
  lemma ExtractTypeOfLabelled(base: string, t: string)
    requires base != [] && Trimmed(base) && '(' !in base
    requires forall i :: 0 <= i < |base| ==> !IsLineTerminator(base[i])
    requires t != [] && Trimmed(t) && ')' !in t
    ensures ExtractType(base + " (" + t + ")") == Extracted(base, Some(t))
  {
    var s := base + " (" + t + ")";
    LabelledMatches(base, t);
    LabelledMatchIsFirst(base, t);
    assert FirstMatchFrom(s, 1) == Some(|base|);
  }

  // The type badge.

  /** `typeLabels`: English and Korean equipment kinds, each mapped to its Korean label. */
  const TypeLabels: map<string, string> := map[
    "머신" := "머신", "바벨" := "바벨", "덤벨" := "덤벨",
    "machine" := "머신", "barbell" := "바벨", "dumbbell" := "덤벨"
  ]

  /** The Korean label of an equipment kind. */
  function KindLabel(sub: EquipmentData.SubCategory): string {
    match sub
    case Machine => "머신"
    case Barbell => "바벨"
    case Dumbbell => "덤벨"
  }

  /** `typeLabels[t] || t`. */
  function TypeLabel(t: string): (r: string)
    ensures t in TypeLabels ==> r in TypeLabels.Values
    ensures t !in TypeLabels ==> r == t
  {
    if t in TypeLabels then TypeLabels[t] else t
  }

  /** A kind written in English or in Korean gets the same label, and a label maps to itself. */
  lemma TypeLabelOfKind(sub: EquipmentData.SubCategory)
    ensures TypeLabel(EquipmentData.SubCategoryKey(sub)) == KindLabel(sub)
    ensures TypeLabel(KindLabel(sub)) == KindLabel(sub)
  {
  }

  lemma TypeLabelIdempotent(t: string)
    ensures TypeLabel(TypeLabel(t)) == TypeLabel(t)
  {
    if t in TypeLabels {
      assert TypeLabels[t] in {"머신", "바벨", "덤벨"};
    }
  }

  /** `displayType && (typeLabels[displayType] || displayType)` with `displayType = parsed || field`. */
  function BadgeOf(parsed: Option<string>, field: Option<string>): (r: Option<string>)
    ensures r.Some? ==> r.value != []
    ensures parsed.Some? && parsed.value != [] ==> r == Some(TypeLabel(parsed.value))
    ensures (parsed.None? || parsed.value == []) && field.Some? && field.value != [] ==> r == Some(TypeLabel(field.value))
    ensures r.None? <==> (parsed.None? || parsed.value == []) && (field.None? || field.value == [])
  {
    var shown := if parsed.Some? && parsed.value != [] then parsed else field;
    if shown.Some? && shown.value != [] then Some(TypeLabel(shown.value)) else None
  }

  /** The type badge of an exercise row. */
  function Badge(e: Exercise): Option<string> {
    BadgeOf(ExtractType(e.name).kind, e.kind)
  }

  /** A name ending in a bracketed kind shows that kind's label, whatever the `type` field says. */
  lemma BadgeOfLabelledName(base: string, sub: EquipmentData.SubCategory, e: Exercise)
    requires base != [] && Trimmed(base) && '(' !in base
    requires forall i :: 0 <= i < |base| ==> !IsLineTerminator(base[i])
    requires e.name == base + " (" + EquipmentData.SubCategoryKey(sub) + ")"
    ensures Badge(e) == Some(KindLabel(sub))
  {
    ExtractTypeOfLabelled(base, EquipmentData.SubCategoryKey(sub));
    TypeLabelOfKind(sub);
  }

  // Clipboard and share text.

  /** `${name} ${sets}x${reps} (${rest})`. */
  function ExerciseEntry(e: Exercise): string {
    e.name + " " + IntToString(e.sets) + "x" + IntToString(e.reps) + " (" + e.rest + ")"
  }

  function ExerciseLine(e: Exercise, indent: string): string {
    indent + ExerciseEntry(e)
  }

  function ExerciseLines(exercises: seq<Exercise>, indent: string): (lines: seq<string>)
    ensures |lines| == |exercises|
    ensures forall i :: 0 <= i < |exercises| ==> lines[i] == ExerciseLine(exercises[i], indent)
  {
    if exercises == [] then [] else [ExerciseLine(exercises[0], indent)] + ExerciseLines(exercises[1..], indent)
  }

  function DayHeader(d: DayRoutine): string {
    d.day + " - " + d.focus
  }

  /** A day as text: its header, then one line per exercise, separated by newlines. */
  function DayText(d: DayRoutine, indent: string): string {
    DayHeader(d) + "\n" + Join(ExerciseLines(d.exercises, indent), "\n")
  }

  /** The text a day card copies. */
  function DayCopyText(d: DayRoutine): (text: string)
    ensures StartsWith(text, d.day + " - " + d.focus + "\n")
    ensures d.exercises == [] ==> text == d.day + " - " + d.focus + "\n"
  {
    DayText(d, "")
  }

  function DayBlocks(days: seq<DayRoutine>): (blocks: seq<string>)
    ensures |blocks| == |days|
    ensures forall i :: 0 <= i < |days| ==> blocks[i] == DayText(days[i], "  ")
  {
    if days == [] then [] else [DayText(days[0], "  ")] + DayBlocks(days[1..])
  }

  /** The text "copy all" writes: every day with its exercise lines indented, a blank line between days. */
  function CopyAllText(r: RoutineData): (text: string)
    ensures r.days == [] ==> text == ""
    ensures |r.days| == 1 ==> text == DayText(r.days[0], "  ")
  {
    Join(DayBlocks(r.days), "\n\n")
  }

  /** The text shared to the messenger: name, description and the copy-all text, a blank line apart. */
  function ShareText(r: RoutineData): (text: string)
    ensures StartsWith(text, r.routineName + "\n\n")
    ensures var all := CopyAllText(r); |all| <= |text| && text[|text| - |all|..] == all
  {
    r.routineName + "\n\n" + r.description + "\n\n" + CopyAllText(r)
  }

  /** No field that goes into a day's text holds a newline. */
  predicate SingleLineDay(d: DayRoutine) {
    && '\n' !in d.day && '\n' !in d.focus
    && forall i :: 0 <= i < |d.exercises| ==> '\n' !in d.exercises[i].name && '\n' !in d.exercises[i].rest
  }

  lemma IntToStringSingleLine(i: int)
    ensures '\n' !in IntToString(i)
  {
    var s := IntToString(i);
    forall k | 0 <= k < |s| ensures s[k] != '\n' {
    }
  }

  lemma ExerciseLinesSingleLine(exercises: seq<Exercise>, indent: string)
    requires '\n' !in indent
    requires forall i :: 0 <= i < |exercises| ==> '\n' !in exercises[i].name && '\n' !in exercises[i].rest
    ensures forall i :: 0 <= i < |exercises| ==> '\n' !in ExerciseLines(exercises, indent)[i]
  {
    forall i | 0 <= i < |exercises| ensures '\n' !in ExerciseLines(exercises, indent)[i] {
      var e := exercises[i];
      IntToStringSingleLine(e.sets);
      IntToStringSingleLine(e.reps);
      assert '\n' !in ExerciseEntry(e);
    }
  }

  /** A day's text read back line by line: its header, then one line per exercise (an empty line if there is none). */
  function DayLines(d: DayRoutine, indent: string): (lines: seq<string>)
    ensures |lines| == 1 + if d.exercises == [] then 1 else |d.exercises|
  {
    [DayHeader(d)] + (if d.exercises == [] then [""] else ExerciseLines(d.exercises, indent))
  }

  lemma DayTextLines(d: DayRoutine, indent: string)
    requires SingleLineDay(d) && '\n' !in indent
    ensures Split(DayText(d, indent), '\n') == DayLines(d, indent)
  {
    var lines := ExerciseLines(d.exercises, indent);
    ExerciseLinesSingleLine(d.exercises, indent);
    assert '\n' !in DayHeader(d);
    SplitAfter(DayHeader(d), '\n', Join(lines, "\n"));
    if lines != [] {
      SplitJoin(lines, '\n');
    }
  }

  /** A copy-all block has the day card's lines, with every exercise line indented by two spaces. */
  lemma CopyAllBlockIndents(d: DayRoutine)
    ensures DayLines(d, "  ")[0] == DayLines(d, "")[0]
    ensures d.exercises != [] ==>
      forall i :: 1 <= i < |DayLines(d, "")| ==> DayLines(d, "  ")[i] == "  " + DayLines(d, "")[i]
  {
    if d.exercises != [] {
      var plain, indented := ExerciseLines(d.exercises, ""), ExerciseLines(d.exercises, "  ");
      assert DayLines(d, "") == [DayHeader(d)] + plain;
      assert DayLines(d, "  ") == [DayHeader(d)] + indented;
      forall i | 0 <= i < |plain| ensures indented[i] == "  " + plain[i] {
        assert plain[i] == "" + ExerciseEntry(d.exercises[i]) == ExerciseEntry(d.exercises[i]);
      }
    }
  }

  /** The lines of the copy-all text: each day's lines, with an empty line between consecutive days. */
  function RoutineLines(days: seq<DayRoutine>): seq<string> {
    if days == [] then [""]
    else if |days| == 1 then DayLines(days[0], "  ")
    else DayLines(days[0], "  ") + [""] + RoutineLines(days[1..])
  }

  lemma CopyAllLines(r: RoutineData)
    requires forall i :: 0 <= i < |r.days| ==> SingleLineDay(r.days[i])
    ensures Split(CopyAllText(r), '\n') == RoutineLines(r.days)
  {
    BlocksLines(r.days);
  }

  lemma {:induction false} BlocksLines(days: seq<DayRoutine>)
    requires forall i :: 0 <= i < |days| ==> SingleLineDay(days[i])
    ensures Split(Join(DayBlocks(days), "\n\n"), '\n') == RoutineLines(days)
  {
    if |days| == 1 {
      DayTextLines(days[0], "  ");
    } else if |days| > 1 {
      BlocksLines(days[1..]);
      DayTextLines(days[0], "  ");
      var blocks := DayBlocks(days);
      assert blocks[1..] == DayBlocks(days[1..]);
      SplitAtEmptyPiece(blocks[0], '\n', Join(blocks[1..], "\n\n"));
    }
  }

  /** The lines of the shared text: the name, a blank line, the description, a blank line, then the copy-all lines. */
  lemma ShareTextLines(r: RoutineData)
    requires '\n' !in r.routineName && '\n' !in r.description
    ensures Split(ShareText(r), '\n') == [r.routineName, "", r.description, ""] + Split(CopyAllText(r), '\n')
  {
    var body := CopyAllText(r);
    var tail := r.description + ['\n', '\n'] + body;
    assert ShareText(r) == r.routineName + ['\n', '\n'] + tail;
    SplitAtEmptyPiece(r.routineName, '\n', tail);
    SplitAtEmptyPiece(r.description, '\n', body);
    SplitNone(r.routineName, '\n');
    SplitNone(r.description, '\n');
  }

  // Day card footer and colour.

  /** The footer's set total: `exercises.reduce((acc, e) => acc + e.sets, 0)`. */
  function TotalSets(exercises: seq<Exercise>): (n: int)
    ensures (forall k :: 0 <= k < |exercises| ==> exercises[k].sets >= 0) ==> n >= 0
  {
    if exercises == [] then 0 else exercises[0].sets + TotalSets(exercises[1..])
  }

  lemma {:induction false} TotalSetsAppend(a: seq<Exercise>, b: seq<Exercise>)
    ensures TotalSets(a + b) == TotalSets(a) + TotalSets(b)
  {
    if a == [] {
      assert a + b == b;
    } else {
      assert (a + b)[0] == a[0] && (a + b)[1..] == a[1..] + b;
      TotalSetsAppend(a[1..], b);
    }
  }

  /** With every exercise's sets in [lo, hi], the total lies between |exercises| * lo and |exercises| * hi. */
  lemma {:induction false} TotalSetsBounds(exercises: seq<Exercise>, lo: int, hi: int)
    requires forall i :: 0 <= i < |exercises| ==> lo <= exercises[i].sets <= hi
    ensures |exercises| * lo <= TotalSets(exercises) <= |exercises| * hi
  {
    if exercises != [] {
      var rest := exercises[1..];
      assert forall i :: 0 <= i < |rest| ==> lo <= rest[i].sets <= hi by {
        forall i | 0 <= i < |rest| ensures lo <= rest[i].sets <= hi {
          assert rest[i] == exercises[i + 1];
        }
      }
      TotalSetsBounds(rest, lo, hi);
      assert TotalSets(exercises) == exercises[0].sets + TotalSets(rest);
      MulSucc(|rest|, lo);
      MulSucc(|rest|, hi);
    }
  }

  lemma MulSucc(m: nat, x: int)
    ensures (m + 1) * x == x + m * x
  {
  }

  const DayColors: seq<string> := [
    "from-primary/15 to-primary/5",
    "from-primary/10 to-transparent",
    "from-primary/8 to-transparent",
    "from-primary/6 to-transparent",
    "from-primary/5 to-transparent"
  ]

  /** `dayColors[index % dayColors.length]`. */
  function DayColor(index: nat): (c: string)
    ensures c in DayColors
  {
    DayColors[index % |DayColors|]
  }

  /** Colours repeat every five days, and two consecutive days never share a colour. */
  lemma DayColorCycle(index: nat)
    ensures DayColor(index + 5) == DayColor(index)
    ensures DayColor(index) != DayColor(index + 1)
  {
    var k := index % 5;
    assert (index + 1) % 5 == if k == 4 then 0 else k + 1;
  }
}
