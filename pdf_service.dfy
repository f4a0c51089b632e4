/**
 * The value-selection rules of the PDF report: which value each card shows,
 * the flattening of grouped test recommendations, the list caps and the
 * disclaimer truncation.  Fonts, colours, tables and the document build are
 * not modelled; a report is described by the values it shows.
 */
module PdfService {
  import opened Wrappers
  import opened Text
  import opened Json
  import Calendar

  // ---------------------------------------------------------------------
  // Category labels: `key.replace('_', ' ').title()`
  // ---------------------------------------------------------------------

  /** One character of `str.title()`: a letter is upper-cased when it starts a run
    * of letters and lower-cased inside one; other characters are kept. */
  function TitleChar(c: char, afterLetter: bool): char
  {
    if !IsLetter(c) then c else if afterLetter then LowerChar(c) else UpperChar(c)
  }

  function TitleFrom(s: string, afterLetter: bool): (r: string)
    ensures |r| == |s|
  {
    if s == [] then [] else [TitleChar(s[0], afterLetter)] + TitleFrom(s[1..], IsLetter(s[0]))
  }

  /** `s.title()` on ASCII text. */
  function TitleCase(s: string): (r: string)
    ensures |r| == |s|
  {
    TitleFrom(s, false)
  }

  lemma {:induction false} TitleFromAt(s: string, afterLetter: bool, i: int)
    requires 0 <= i < |s|
    ensures TitleFrom(s, afterLetter)[i] == TitleChar(s[i], if i == 0 then afterLetter else IsLetter(s[i - 1]))
    decreases i
  {
    if i > 0 {
      TitleFromAt(s[1..], IsLetter(s[0]), i - 1);
    }
  }

  /** Every word of `s.title()` starts upper-case and goes on lower-case; each
    * character is the original one up to case. */
  lemma TitleCaseAt(s: string, i: int)
    requires 0 <= i < |s|
    ensures IsLetter(s[i]) && (i == 0 || !IsLetter(s[i - 1])) ==> IsUpper(TitleCase(s)[i])
    ensures IsLetter(s[i]) && i > 0 && IsLetter(s[i - 1]) ==> IsLower(TitleCase(s)[i])
    ensures !IsLetter(s[i]) ==> TitleCase(s)[i] == s[i]
    ensures LowerChar(TitleCase(s)[i]) == LowerChar(s[i])
  {
    TitleFromAt(s, false, i);
  }

  /** `key.replace('_', ' ')`. */
  function Spaced(key: string): string
  {
    seq(|key|, i requires 0 <= i < |key| => if key[i] == '_' then ' ' else key[i])
  }

  /** The category given to a test that has no reason of its own. */
  function CategoryLabel(key: string): string
  {
    TitleCase(Spaced(key))
  }

  // ---------------------------------------------------------------------
  // `_flatten_tests`
  // ---------------------------------------------------------------------

  /** `str(t)` for a scalar; a list or an object stands for its own text. */
  function Shown(t: Json): Json
  {
    match Str(t)
    case Some(s) => JStr(s)
    case None => t
  }

  /** One `{'test_name': …, 'category': …}` entry of the flattened list. */
  datatype FlatTest = FlatTest(testName: Json, category: Json)
  {
    function ToJson(): Json
    {
      JObj(map["test_name" := testName, "category" := category])
    }
  }

  /** The entry `_flatten_tests` appends for the element `t` of the group `key`. */
  function FlatItem(key: string, t: Json): FlatTest
  {
    if t.JObj? then FlatTest(Get(t.fields, "test_name", JStr("")), Get(t.fields, "reason", JStr(CategoryLabel(key))))
    else FlatTest(Shown(t), JStr(""))
  }

  /** The entries for the elements `tests` of the group `key`, in order. */
  function FlatItems(key: string, tests: seq<Json>): (items: seq<FlatTest>)
    ensures |items| == |tests|
  {
    if tests == [] then []
    else FlatItems(key, tests[..|tests| - 1]) + [FlatItem(key, tests[|tests| - 1])]
  }

  /** The `j`-th entry is the one for the `j`-th element. */
  lemma {:induction false} FlatItemsAt(key: string, tests: seq<Json>, j: int)
    requires 0 <= j < |tests|
    ensures FlatItems(key, tests)[j] == FlatItem(key, tests[j])
  {
    if j < |tests| - 1 {
      FlatItemsAt(key, tests[..|tests| - 1], j);
    }
  }

  /** The entries one group contributes: one per element of a list, none otherwise. */
  function GroupItems(key: string, tests: Json): (items: seq<FlatTest>)
    ensures |items| == if tests.JArr? then |tests.items| else 0
  {
    if tests.JArr? then FlatItems(key, tests.items) else []
  }

  /** `_flatten_tests` over the groups of the dictionary in insertion order. */
  function Flattened(groups: seq<(string, Json)>): seq<FlatTest>
  {
    if groups == [] then []
    else
      var last := groups[|groups| - 1];
      Flattened(groups[..|groups| - 1]) + GroupItems(last.0, last.1)
  }

  /** The number of elements in the list-valued groups. */
  function ListedCount(groups: seq<(string, Json)>): nat
  {
    if groups == [] then 0
    else
      var last := groups[|groups| - 1];
      ListedCount(groups[..|groups| - 1]) + (if last.1.JArr? then |last.1.items| else 0)
  }

  /** `_flatten_tests`: the nested loops append one entry per listed test. */
  method FlattenTests(groups: seq<(string, Json)>) returns (result: seq<FlatTest>)
    ensures result == Flattened(groups)
  {
    result := [];
    for g := 0 to |groups|
      invariant result == Flattened(groups[..g])
    {
      var (key, tests) := groups[g];
      if tests.JArr? {
        for j := 0 to |tests.items|
          invariant result == Flattened(groups[..g]) + FlatItems(key, tests.items[..j])
        {
          var t := tests.items[j];
          if t.JObj? {
            result := result + [FlatTest(Get(t.fields, "test_name", JStr("")), Get(t.fields, "reason", JStr(CategoryLabel(key))))];
          } else {
            result := result + [FlatTest(Shown(t), JStr(""))];
          }
          assert tests.items[..j + 1][..j] == tests.items[..j];
        }
        assert tests.items[..|tests.items|] == tests.items;
      }
      assert groups[..g + 1][..g] == groups[..g];
    }
    assert groups[..|groups|] == groups;
  }

  /** One entry per element of each list-valued group, and nothing for the other groups. */
  lemma {:induction false} FlattenedLength(groups: seq<(string, Json)>)
    ensures |Flattened(groups)| == ListedCount(groups)
  {
    if groups != [] {
      FlattenedLength(groups[..|groups| - 1]);
    }
  }

  /** Flattening works group by group: the entries of the earlier groups come first. */
  lemma {:induction false} FlattenedAppend(a: seq<(string, Json)>, b: seq<(string, Json)>)
    ensures Flattened(a + b) == Flattened(a) + Flattened(b)
    decreases |b|
  {
    if b == [] {
      assert a + b == a;
    } else {
      var c, last := b[..|b| - 1], b[|b| - 1];
      var ab := a + b;
      assert ab[..|ab| - 1] == a + c;
      assert ab[|ab| - 1] == last;
      assert Flattened(ab) == Flattened(a + c) + GroupItems(last.0, last.1);
      FlattenedAppend(a, c);
    }
  }

  lemma ListedCountAppend(a: seq<(string, Json)>, b: seq<(string, Json)>)
    ensures ListedCount(a + b) == ListedCount(a) + ListedCount(b)
  {
    FlattenedAppend(a, b);
    FlattenedLength(a + b);
    FlattenedLength(a);
    FlattenedLength(b);
  }

  /** The `j`-th test of group `g` is the flattened entry right after the tests of
    * the groups before it: the order of groups and of tests is kept. */
  lemma FlattenedPosition(groups: seq<(string, Json)>, g: int, j: int)
    requires 0 <= g < |groups| && groups[g].1.JArr? && 0 <= j < |groups[g].1.items|
    ensures ListedCount(groups[..g]) + j < |Flattened(groups)|
    ensures Flattened(groups)[ListedCount(groups[..g]) + j] == FlatItem(groups[g].0, groups[g].1.items[j])
  {
    FlattenedSplit(groups, g);
    FlattenedLength(groups[..g]);
    var a, items, c := Flattened(groups[..g]), GroupItems(groups[g].0, groups[g].1), Flattened(groups[g + 1..]);
    FlatItemsAt(groups[g].0, groups[g].1.items, j);
    IndexMiddle(a, items, c, j);
  }

  lemma IndexMiddle<T>(a: seq<T>, b: seq<T>, c: seq<T>, j: int)
    requires 0 <= j < |b|
    ensures |a| + j < |a + b + c| && (a + b + c)[|a| + j] == b[j]
  {
  }

  lemma SplitAround<T>(s: seq<T>, g: int)
    requires 0 <= g < |s|
    ensures s == s[..g] + [s[g]] + s[g + 1..]
  {
  }

  /** The entries of group `g` sit between those of the groups before and after it. */
  lemma FlattenedSplit(groups: seq<(string, Json)>, g: int)
    requires 0 <= g < |groups|
    ensures Flattened(groups) == Flattened(groups[..g]) + GroupItems(groups[g].0, groups[g].1) + Flattened(groups[g + 1..])
  {
    var before, here, after := groups[..g], [groups[g]], groups[g + 1..];
    SplitAround(groups, g);
    FlattenedAppend(before + here, after);
    FlattenedAppend(before, here);
    assert here[..0] == [];
  }

  // ---------------------------------------------------------------------
  // Test rows
  // ---------------------------------------------------------------------

  /** A row of the tests card: the value whose text is the name, and the upper-cased category. */
  datatype TestRow = TestRow(name: Json, category: string)

  /** The row for one listed test; `None` where `cat.upper()` raises on a category that is not text. */
  function RowOf(t: Json): Option<TestRow>
  {
    if t.JObj? then
      match Get(t.fields, "category", JStr(""))
      case JStr(c) => Some(TestRow(Get(t.fields, "test_name", Shown(t)), Upper(c)))
      case _ => None
    else Some(TestRow(Shown(t), ""))
  }

  /** The rows for a list of tests, or `None` when one of them raises. */
  function Rows(tests: seq<Json>): (r: Option<seq<TestRow>>)
    ensures r.Some? ==> |r.value| == |tests|
    ensures r.Some? <==> forall j :: 0 <= j < |tests| ==> RowOf(tests[j]).Some?
    ensures r.Some? ==> forall j :: 0 <= j < |tests| ==> r.value[j] == RowOf(tests[j]).value
  {
    if tests == [] then Some([])
    else
      var last := tests[|tests| - 1];
      match (Rows(tests[..|tests| - 1]), RowOf(last))
      case (Some(rows), Some(row)) => Some(rows + [row])
      case _ => None
  }

  /** The loop that appends a row per test. */
  method TestRows(tests: seq<Json>) returns (rows: Option<seq<TestRow>>)
    ensures rows == Rows(tests)
  {
    var acc: seq<TestRow> := [];
    for j := 0 to |tests|
      invariant Rows(tests[..j]) == Some(acc)
    {
      assert tests[..j + 1][..j] == tests[..j];
      match RowOf(tests[j])
      case None =>
        assert Rows(tests[..j + 1]).None?;
        NoRowsAfterFailure(tests, j + 1);
        return None;
      case Some(row) =>
        acc := acc + [row];
    }
    assert tests[..|tests|] == tests;
    rows := Some(acc);
  }

  lemma NoRowsAfterFailure(tests: seq<Json>, k: int)
    requires 0 <= k <= |tests| && Rows(tests[..k]).None?
    ensures Rows(tests).None?
  {
    var j :| 0 <= j < k && RowOf(tests[..k][j]).None?;
    assert tests[..k][j] == tests[j];
  }

  /** Flattened tests keep their names and order on the card; their categories,
    * being text, are shown upper-cased. */
  lemma FlattenedRows(items: seq<FlatTest>)
    requires forall j :: 0 <= j < |items| ==> items[j].category.JStr?
    ensures var r := Rows(AsJson(items));
            r.Some? && |r.value| == |items| &&
            forall j :: 0 <= j < |items| ==> r.value[j] == TestRow(items[j].testName, Upper(items[j].category.s))
  {
    var tests := AsJson(items);
    forall j | 0 <= j < |items|
      ensures RowOf(tests[j]) == Some(TestRow(items[j].testName, Upper(items[j].category.s)))
    {
      assert tests[j].fields["category"] == items[j].category;
      assert tests[j].fields["test_name"] == items[j].testName;
    }
  }

  // ---------------------------------------------------------------------
  // Selections of `generate_report`
  // ---------------------------------------------------------------------

  /** `order` is the insertion order of the dictionary `m`: each key once. */
  predicate InsertionOrder(m: map<string, Json>, order: seq<string>)
  {
    && (forall k :: k in m ==> k in order)
    && (forall k :: k in order ==> k in m)
    && (forall i, j :: 0 <= i < j < |order| ==> order[i] != order[j])
  }

  /** A sequence without repetitions has as many distinct members as entries. */
  lemma {:induction false} DistinctCount(order: seq<string>)
    requires forall i, j :: 0 <= i < j < |order| ==> order[i] != order[j]
    ensures |set k | k in order| == |order|
  {
    if order != [] {
      var init, last := order[..|order| - 1], order[|order| - 1];
      DistinctCount(init);
      assert (set k | k in order) == (set k | k in init) + {last};
      assert last !in (set k | k in init);
    }
  }

  /** `dict.items()`: every key once, with its value, in insertion order. */
  function Items(m: map<string, Json>, order: seq<string>): (items: seq<(string, Json)>)
    requires InsertionOrder(m, order)
    ensures |items| == |m| == |order|
    ensures forall j :: 0 <= j < |items| ==> items[j].0 == order[j] && items[j].0 in m && items[j].1 == m[items[j].0]
  {
    DistinctCount(order);
    assert m.Keys == set k | k in order;
    seq(|order|, j requires 0 <= j < |order| => (order[j], m[order[j]]))
  }

  /** What the tests card lists. */
  datatype TestSection =
    | NoTests                          // "No specific tests recommended."
    | Listed(rows: seq<TestRow>)
    | Unlisted(tests: Json)            // a non-empty dictionary, iterated by its keys

  /** The flattened entries as the dictionaries the card reads. */
  function AsJson(items: seq<FlatTest>): (tests: seq<Json>)
    ensures |tests| == |items| && forall j :: 0 <= j < |items| ==> tests[j] == items[j].ToJson()
  {
    seq(|items|, j requires 0 <= j < |items| => items[j].ToJson())
  }

  /** The one-character texts a `for` over a string visits. */
  function Chars(s: string): (tests: seq<Json>)
    ensures |tests| == |s| && forall j :: 0 <= j < |s| ==> tests[j] == JStr([s[j]])
  {
    seq(|s|, j requires 0 <= j < |s| => JStr([s[j]]))
  }

  /** The insertion order given for `recommended_tests` is that of the dictionary. */
  predicate TestOrderFits(analysis: map<string, Json>, order: seq<string>)
  {
    match Get(analysis, "recommended_tests", JObj(map[]))
    case JObj(groups) => InsertionOrder(groups, order)
    case _ => true
  }

  /** `recommended_basic_tests or _flatten_tests(recommended_tests)`, then a row per
    * element the `for` visits; `None` where `.items()`, the `for` or a row raises. */
  function TestsCard(analysis: map<string, Json>, order: seq<string>): (r: Option<TestSection>)
    requires TestOrderFits(analysis, order)
    ensures var basic := Get(analysis, "recommended_basic_tests", JNull);
            var grouped := Get(analysis, "recommended_tests", JObj(map[]));
            && (r == Some(NoTests) <==>
                  !Truthy(basic) && grouped.JObj? && Flattened(Items(grouped.fields, order)) == [])
            && (Truthy(basic) && basic.JArr? ==>
                  r == match Rows(basic.items) case Some(rows) => Some(Listed(rows)) case None => None)
            && (Truthy(basic) && basic.JStr? ==> r == Some(Listed(Rows(Chars(basic.s)).value)))
            && (Truthy(basic) && (basic.JNum? || basic.JBool?) ==> r == None)
            && (!Truthy(basic) && !grouped.JObj? ==> r == None)
            && (!Truthy(basic) && grouped.JObj? && Flattened(Items(grouped.fields, order)) != [] ==>
                  var flat := AsJson(Flattened(Items(grouped.fields, order)));
                  r == match Rows(flat) case Some(rows) => Some(Listed(rows)) case None => None)
  {
    var basic := Get(analysis, "recommended_basic_tests", JNull);
    if Truthy(basic) then
      match basic
      case JArr(items) =>
        (match Rows(items)
         case Some(rows) => Some(Listed(rows))
         case None => None)
      case JStr(s) => Some(Listed(Rows(Chars(s)).value))
      case JObj(_) => Some(Unlisted(basic))
      case _ => None
    else
      match Get(analysis, "recommended_tests", JObj(map[]))
      case JObj(groups) =>
        var flat := Flattened(Items(groups, order));
        if flat == [] then Some(NoTests)
        else
          (match Rows(AsJson(flat))
           case Some(rows) => Some(Listed(rows))
           case None => None)
      case _ => None
  }

  /** Without basic tests, the card lists the flattened tests in order, by name, with
    * their categories upper-cased, whenever every category is text. */
  lemma TestsCardListsFlattened(analysis: map<string, Json>, order: seq<string>)
    requires TestOrderFits(analysis, order)
    requires !Truthy(Get(analysis, "recommended_basic_tests", JNull))
    requires Get(analysis, "recommended_tests", JObj(map[])).JObj?
    requires var flat := Flattened(Items(Get(analysis, "recommended_tests", JObj(map[])).fields, order));
             flat != [] && forall j :: 0 <= j < |flat| ==> flat[j].category.JStr?
    ensures var flat := Flattened(Items(Get(analysis, "recommended_tests", JObj(map[])).fields, order));
            var r := TestsCard(analysis, order);
            r.Some? && r.value.Listed? && |r.value.rows| == |flat| &&
            forall j :: 0 <= j < |flat| ==> r.value.rows[j] == TestRow(flat[j].testName, Upper(flat[j].category.s))
  {
    FlattenedRows(Flattened(Items(Get(analysis, "recommended_tests", JObj(map[])).fields, order)));
  }

  /** The bullets of the safety card and whether the "nothing noted" line is shown. */
  datatype Safety = Safety(items: seq<Json>, nothingNoted: bool)

  /** `(precautions + lifestyle)[:6]`, where `+` joins two lists or two texts and
    * raises otherwise; a text is iterated character by character. */
  function SafetyCard(analysis: map<string, Json>): (r: Option<Safety>)
    ensures r.Some? ==> |r.value.items| <= 6
  {
    var precautions := Or(Get(analysis, "safety_precautions", JNull), Or(Get(analysis, "precautions", JNull), JArr([])));
    var lifestyle := Or(Get(analysis, "lifestyle_recommendations", JNull), JArr([]));
    var nothing := !Truthy(precautions) && !Truthy(lifestyle);
    match (precautions, lifestyle)
    case (JArr(p), JArr(l)) =>
      var all := p + l;
      Some(Safety(if |all| > 6 then all[..6] else all, nothing))
    case (JStr(p), JStr(l)) =>
      var all := p + l;
      var shown := if |all| > 6 then all[..6] else all;
      Some(Safety(seq(|shown|, j requires 0 <= j < |shown| => JStr([shown[j]])), nothing))
    case _ => None
  }

  /** Safety precautions come first: six or more of them fill the card alone. */
  lemma SafetyPrecautionsFirst(analysis: map<string, Json>)
    requires "safety_precautions" in analysis && analysis["safety_precautions"].JArr?
    requires |analysis["safety_precautions"].items| >= 6
    requires var l := Get(analysis, "lifestyle_recommendations", JNull); !Truthy(l) || l.JArr?
    ensures SafetyCard(analysis) == Some(Safety(analysis["safety_precautions"].items[..6], false))
  {
    var p := analysis["safety_precautions"].items;
    var l := Or(Get(analysis, "lifestyle_recommendations", JNull), JArr([])).items;
    var all := p + l;
    assert all[..6] == p[..6];
    if |all| == 6 {
      assert l == [] && all == p[..6];
    }
  }

  /** With at most six items in all, every precaution and then every lifestyle item is shown. */
  lemma SafetyShowsAll(analysis: map<string, Json>, p: seq<Json>, l: seq<Json>)
    requires Or(Get(analysis, "safety_precautions", JNull), Or(Get(analysis, "precautions", JNull), JArr([]))) == JArr(p)
    requires Or(Get(analysis, "lifestyle_recommendations", JNull), JArr([])) == JArr(l)
    requires |p| + |l| <= 6
    ensures SafetyCard(analysis) == Some(Safety(p + l, p == [] && l == []))
  {
  }

  /** The "nothing noted" line appears exactly when there are no bullets. */
  lemma NothingNotedIffEmpty(analysis: map<string, Json>)
    requires SafetyCard(analysis).Some?
    ensures SafetyCard(analysis).value.nothingNoted <==> SafetyCard(analysis).value.items == []
  {
  }

  const DefaultChecklist: seq<string> :=
    ["Complete blood work before appointment", "Share medical history with doctor", "Monitor symptoms and log daily"]

  /** `for item in checklist` visits a list, a text or a dictionary; it raises on a number
    * or a boolean. */
  predicate Iterable(v: Json)
  {
    !v.JNum? && !v.JBool?
  }

  /** `next_steps_checklist or appointment_details.get('preparation') or` the three fixed
    * items; `None` where `appointment_details` is not an object and is reached, or where
    * the `for` over the chosen value raises. */
  function Checklist(analysis: map<string, Json>): (r: Option<Json>)
    ensures r.Some? ==> Truthy(r.value) && Iterable(r.value)
    ensures var first := Get(analysis, "next_steps_checklist", JNull);
            Truthy(first) ==> r == (if Iterable(first) then Some(first) else None)
    ensures var first := Get(analysis, "next_steps_checklist", JNull);
            var details := Get(analysis, "appointment_details", JObj(map[]));
            && (!Truthy(first) && !details.JObj? ==> r == None)
            && (!Truthy(first) && details.JObj? ==>
                  var preparation := Get(details.fields, "preparation", JNull);
                  r == if !Truthy(preparation) then Some(Strings(DefaultChecklist))
                       else if Iterable(preparation) then Some(preparation) else None)
  {
    var first := Get(analysis, "next_steps_checklist", JNull);
    var chosen :=
      if Truthy(first) then Some(first)
      else
        match Get(analysis, "appointment_details", JObj(map[]))
        case JObj(details) => Some(Or(Get(details, "preparation", JNull), Strings(DefaultChecklist)))
        case _ => None;
    match chosen
    case Some(c) => if Iterable(c) then Some(c) else None
    case None => None
  }

  const DefaultDisclaimer: string :=
    "This is a digitally generated health summary for informational purposes. In case of emergency, please visit the nearest hospital."

  /** The disclaimer shown: texts over 300 characters are cut to 297 and marked with "...";
    * `len` and the slice raise for numbers and for long lists or objects. */
  function Disclaimer(analysis: map<string, Json>): (r: Option<Json>)
  {
    var d := Or(Get(analysis, "disclaimer", JNull), JStr(DefaultDisclaimer));
    match d
    case JStr(s) => Some(JStr(if |s| > 300 then s[..297] + "..." else s))
    case JArr(a) => if |a| > 300 then None else Some(d)
    case JObj(m) => if |m| > 300 then None else Some(d)
    case _ => None
  }

  /** A shown disclaimer text fits in 300 characters, keeps its start, and is the
    * whole text when that already fits; a missing one is the fixed default. */
  lemma DisclaimerFits(analysis: map<string, Json>)
    ensures var d := Or(Get(analysis, "disclaimer", JNull), JStr(DefaultDisclaimer));
            d.JStr? ==> Disclaimer(analysis).Some? && Disclaimer(analysis).value.JStr? &&
                        var t := Disclaimer(analysis).value.s;
                        |t| <= 300 && (|d.s| <= 300 <==> t == d.s) &&
                        (|d.s| > 300 ==> t[..297] == d.s[..297] && t[297..] == "...")
    ensures !Truthy(Get(analysis, "disclaimer", JNull)) ==> Disclaimer(analysis) == Some(JStr(DefaultDisclaimer))
  {
    assert |DefaultDisclaimer| <= 300;
  }

  /** `dr_rec.get('doctor_name') or appointment doctor_name or doctor_specialist`,
    * and 'Dr. Amrutha AI' when the appointment has neither key. */
  function DoctorShown(rec: map<string, Json>, appointment: map<string, Json>): Json
  {
    Or(Get(rec, "doctor_name", JNull),
       Or(Get(appointment, "doctor_name", JNull), Get(appointment, "doctor_specialist", JStr("Dr. Amrutha AI"))))
  }

  /** `doctor_expertise or specialist_type or` the appointment's specialist, 'General Physician' by default. */
  function SpecialistShown(rec: map<string, Json>, appointment: map<string, Json>): Json
  {
    Or(Get(rec, "doctor_expertise", JNull),
       Or(Get(rec, "specialist_type", JNull), Get(appointment, "doctor_specialist", JStr("General Physician"))))
  }

  /** `appointment_slot or` the appointment time, 'TBD' by default. */
  function TimeShown(rec: map<string, Json>, appointment: map<string, Json>): Json
  {
    Or(Get(rec, "appointment_slot", JNull), Get(appointment, "appointment_time", JStr("TBD")))
  }

  /** Each fallback is used exactly when everything before it is falsy. */
  lemma FallbackChains(rec: map<string, Json>, appointment: map<string, Json>)
    ensures Truthy(Get(rec, "doctor_name", JNull)) ==> DoctorShown(rec, appointment) == rec["doctor_name"]
    ensures (!Truthy(Get(rec, "doctor_name", JNull)) && Truthy(Get(appointment, "doctor_name", JNull)))
            ==> DoctorShown(rec, appointment) == appointment["doctor_name"]
    ensures (!Truthy(Get(rec, "doctor_name", JNull)) && !Truthy(Get(appointment, "doctor_name", JNull)))
            ==> DoctorShown(rec, appointment) == Get(appointment, "doctor_specialist", JStr("Dr. Amrutha AI"))
    ensures Truthy(Get(rec, "appointment_slot", JNull)) ==> TimeShown(rec, appointment) == rec["appointment_slot"]
    ensures !Truthy(Get(rec, "appointment_slot", JNull))
            ==> TimeShown(rec, appointment) == Get(appointment, "appointment_time", JStr("TBD"))
  {
  }

  /** The appointment card's two lines. */
  datatype Schedule = Schedule(date: Json, clock: string)

  /** A time reading `%Y-%m-%d %H:%M` is shown as `%b %d, %Y` over `%I:%M %p`;
    * anything else is shown as it is, over an empty line. */
  function ScheduleOf(time: Json): (r: Schedule)
    ensures r.clock == "" ==> r.date == time
  {
    if time.JStr? then
      match Calendar.ParseMinute(time.s)
      case Some(dt) => Schedule(JStr(Calendar.FormatLongDate(dt)), Calendar.FormatClock(dt))
      case None => Schedule(time, "")
    else Schedule(time, "")
  }

  /** The time is split exactly when it parses. */
  lemma ScheduleSplitIffParses(time: Json)
    ensures ScheduleOf(time).clock != "" <==> time.JStr? && Calendar.ParseMinute(time.s).Some?
  {
  }

  /** A time written by `strftime('%Y-%m-%d %H:%M')` is always split into its date and clock. */
  lemma FormattedTimeSplits(dt: Calendar.DateTime)
    requires dt.Valid() && 1000 <= dt.year
    ensures ScheduleOf(JStr(Calendar.FormatMinute(dt)))
            == Schedule(JStr(Calendar.FormatLongDate(dt)), Calendar.FormatClock(dt))
  {
    Calendar.ParseMinuteRoundTrip(dt);
    ScheduleOfParsed(Calendar.FormatMinute(dt), dt.(second := 0));
    Calendar.DisplayIgnoresSeconds(dt);
  }

  lemma ScheduleOfParsed(s: string, dt: Calendar.DateTime)
    requires Calendar.ParseMinute(s) == Some(dt) && dt.Valid()
    ensures ScheduleOf(JStr(s)) == Schedule(JStr(Calendar.FormatLongDate(dt)), Calendar.FormatClock(dt))
  {
    var schedule := ScheduleOf(JStr(s));
    assert schedule.clock == Calendar.FormatClock(dt);
    assert schedule.date == JStr(Calendar.FormatLongDate(dt));
  }

  /** `', '.join(parts)`. */
  function CommaJoin(parts: seq<string>): (r: string)
    ensures parts == [] ==> r == ""
    ensures forall i :: 0 <= i < |parts| ==> Contains(r, parts[i])
  {
    if parts == [] then ""
    else if |parts| == 1 then
      ContainsAt(parts[0], parts[0], 0);
      parts[0]
    else
      var rest := CommaJoin(parts[1..]);
      var r := parts[0] + ", " + rest;
      assert r[..|parts[0]|] == parts[0];
      ContainsAt(r, parts[0], 0);
      assert r[|parts[0]| + 2..|r|] == rest;
      forall i | 1 <= i < |parts|
        ensures Contains(r, parts[i])
      {
        assert parts[1..][i - 1] == parts[i];
        assert Contains(rest, parts[i]);
        ContainsInSlice(r, parts[i], |parts[0]| + 2, |r|);
      }
      r
  }

  /** The "Possible Conditions" line: absent for falsy conditions; the joined text of a
    * list of texts, or of a text's characters; a dictionary's keys, kept whole. */
  datatype Conditions = NoConditions | Joined(text: string) | JoinedKeys(fields: map<string, Json>)

  /** `', '.join` over a truthy value; `None` where it raises, on a number, a boolean or a
    * list holding something other than text. */
  function JoinConditions(v: Json): (r: Option<Conditions>)
    ensures r.Some? <==> v.JStr? || v.JObj? || (v.JArr? && forall i :: 0 <= i < |v.items| ==> v.items[i].JStr?)
    ensures r.Some? && v.JArr? ==> r.value.Joined? && forall i :: 0 <= i < |v.items| ==> Contains(r.value.text, v.items[i].s)
    ensures r.Some? && v.JStr? ==> r.value.Joined? && forall c :: c in v.s ==> c in r.value.text
  {
    match v
    case JArr(items) =>
      if forall i :: 0 <= i < |items| ==> items[i].JStr? then
        var texts := seq(|items|, i requires 0 <= i < |items| && items[i].JStr? => items[i].s);
        assert forall i :: 0 <= i < |items| ==> texts[i] == items[i].s;
        Some(Joined(CommaJoin(texts)))
      else None
    case JStr(s) =>
      var chars := seq(|s|, j requires 0 <= j < |s| => [s[j]]);
      var text := CommaJoin(chars);
      forall c | c in s
        ensures c in text
      {
        var j :| 0 <= j < |s| && s[j] == c;
        assert chars[j] == [c];
        ContainsChar(text, c);
      }
      Some(Joined(text))
    case JObj(m) => Some(JoinedKeys(m))
    case _ => None
  }

  /** The AI diagnostic card's three values. */
  datatype Diagnostic = Diagnostic(explanation: Json, conditions: Conditions, risk: Json)

  /** The diagnostic card's `or` chains; `None` where `.get` meets a summary or a health
    * assessment that is not an object, or where `', '.join` raises. */
  function DiagnosticCard(analysis: map<string, Json>): (r: Option<Diagnostic>)
    ensures var diag := Or(Get(analysis, "ai_diagnostic_summary", JNull), JObj(map[]));
            r.None? <==>
              || !diag.JObj?
              || (!Truthy(Get(diag.fields, "risk_interpretation", JNull))
                  && !Get(analysis, "health_assessment", JObj(map[])).JObj?)
              || (Truthy(Get(diag.fields, "possible_conditions", JNull))
                  && JoinConditions(Get(diag.fields, "possible_conditions", JNull)).None?)
    ensures var diag := Or(Get(analysis, "ai_diagnostic_summary", JNull), JObj(map[]));
            r.Some? ==>
              && diag.JObj?
              && (var conditions := Get(diag.fields, "possible_conditions", JNull);
                  r.value.conditions == NoConditions <==> !Truthy(conditions))
              && (var explanation := Get(diag.fields, "explanation", JNull);
                  && (Truthy(explanation) ==> r.value.explanation == explanation)
                  && (!Truthy(explanation) ==> r.value.explanation == Get(analysis, "patient_summary", JStr(""))))
              && (var risk := Get(diag.fields, "risk_interpretation", JNull);
                  && (Truthy(risk) ==> r.value.risk == risk)
                  && (!Truthy(risk) ==>
                        r.value.risk == Get(Get(analysis, "health_assessment", JObj(map[])).fields, "current_condition", JStr(""))))
  {
    match Or(Get(analysis, "ai_diagnostic_summary", JNull), JObj(map[]))
    case JObj(diag) =>
      var explanation := Or(Get(diag, "explanation", JNull), Get(analysis, "patient_summary", JStr("")));
      var conditions := Or(Get(diag, "possible_conditions", JNull), JArr([]));
      var risk :=
        if Truthy(Get(diag, "risk_interpretation", JNull)) then Some(diag["risk_interpretation"])
        else
          match Get(analysis, "health_assessment", JObj(map[]))
          case JObj(health) => Some(Get(health, "current_condition", JStr("")))
          case _ => None;
      var line := if Truthy(conditions) then JoinConditions(conditions) else Some(NoConditions);
      (match (risk, line)
       case (Some(risk), Some(line)) => Some(Diagnostic(explanation, line, risk))
       case _ => None)
    case _ => None
  }

  /** The values a report shows. */
  datatype ReportView = ReportView(
    reportId: Json,
    generated: string,
    urgency: Json,
    highUrgency: bool,
    doctor: Json,
    specialist: Json,
    time: Json,
    schedule: Schedule,
    diagnostic: Diagnostic,
    tests: TestSection,
    safety: Safety,
    checklist: Json,
    disclaimer: Json)

  /** `RPT-` and the first eight hexadecimal digits of a fresh UUID, upper-cased. */
  function FallbackReportId(uuidHex: string): string
  {
    "RPT-" + Upper(if |uuidHex| > 8 then uuidHex[..8] else uuidHex)
  }

  /** `generate_report`'s selections.  `now` is the clock, `uuidHex` the random UUID's
    * digits and `testOrder` the insertion order of `recommended_tests`; `None` where a
    * modelled selection raises. */
  function Report(analysis: map<string, Json>, appointment: map<string, Json>, now: Calendar.DateTime,
                  uuidHex: string, testOrder: seq<string>): (r: Option<ReportView>)
    requires now.Valid() && TestOrderFits(analysis, testOrder)
    ensures r.Some? ==> (r.value.highUrgency <==> r.value.urgency == JStr("High"))
    ensures r.Some? ==> |r.value.safety.items| <= 6 && Truthy(r.value.checklist) && Iterable(r.value.checklist)
    ensures r.Some? && r.value.disclaimer.JStr? ==> |r.value.disclaimer.s| <= 300
    ensures r.Some? && r.value.schedule.clock == "" ==> r.value.schedule.date == r.value.time
    ensures r.Some? ==> && DiagnosticCard(analysis) == Some(r.value.diagnostic)
                        && TestsCard(analysis, testOrder) == Some(r.value.tests)
                        && Checklist(analysis) == Some(r.value.checklist)
                        && Disclaimer(analysis) == Some(r.value.disclaimer)
  {
    var recValue := Get(analysis, "doctor_recommendation", JObj(map[]));
    if !recValue.JObj? then None
    else
      var rec := recValue.fields;
      var urgency := Get(appointment, "urgency", Get(rec, "urgency", JStr("Moderate")));
      var time := TimeShown(rec, appointment);
      match (DiagnosticCard(analysis), TestsCard(analysis, testOrder), SafetyCard(analysis), Checklist(analysis),
             Disclaimer(analysis))
      case (Some(diagnostic), Some(tests), Some(safety), Some(checklist), Some(disclaimer)) =>
        DisclaimerFits(analysis);
        Some(ReportView(Get(appointment, "appointment_id", JStr(FallbackReportId(uuidHex))),
                        Calendar.FormatLongDate(now), urgency, urgency == JStr("High"),
                        DoctorShown(rec, appointment), SpecialistShown(rec, appointment),
                        time, ScheduleOf(time), diagnostic, tests, safety, checklist, disclaimer))
      case _ => None
  }

  /** A recommendation that is present but not an object makes the report fail. */
  lemma ReportNeedsRecommendationObject(analysis: map<string, Json>, appointment: map<string, Json>,
                                        now: Calendar.DateTime, uuidHex: string, testOrder: seq<string>)
    requires now.Valid() && TestOrderFits(analysis, testOrder)
    requires "doctor_recommendation" in analysis && !analysis["doctor_recommendation"].JObj?
    ensures Report(analysis, appointment, now, uuidHex, testOrder).None?
  {
  }

  /** A truthy number or boolean as the checklist makes the `for` over it, and so the
    * report, fail. */
  lemma ReportNeedsIterableChecklist(analysis: map<string, Json>, appointment: map<string, Json>,
                                     now: Calendar.DateTime, uuidHex: string, testOrder: seq<string>)
    requires now.Valid() && TestOrderFits(analysis, testOrder)
    requires "next_steps_checklist" in analysis
    requires analysis["next_steps_checklist"] == JBool(true) || analysis["next_steps_checklist"].JNum?
    requires analysis["next_steps_checklist"] != JNum(0)
    ensures Report(analysis, appointment, now, uuidHex, testOrder).None?
  {
  }

  /** A diagnostic card that raises makes the report fail. */
  lemma ReportNeedsDiagnosticCard(analysis: map<string, Json>, appointment: map<string, Json>,
                                  now: Calendar.DateTime, uuidHex: string, testOrder: seq<string>)
    requires now.Valid() && TestOrderFits(analysis, testOrder)
    requires DiagnosticCard(analysis).None?
    ensures Report(analysis, appointment, now, uuidHex, testOrder).None?
  {
  }

  /** A diagnostic summary given as text, such as "see notes", makes `.get` and so the
    * report fail. */
  lemma ReportNeedsSummaryObject(analysis: map<string, Json>, appointment: map<string, Json>,
                                 now: Calendar.DateTime, uuidHex: string, testOrder: seq<string>)
    requires now.Valid() && TestOrderFits(analysis, testOrder)
    requires "ai_diagnostic_summary" in analysis && analysis["ai_diagnostic_summary"] == JStr("see notes")
    ensures Report(analysis, appointment, now, uuidHex, testOrder).None?
  {
  }

  /** A possible condition that is not text makes `', '.join` and so the report fail. */
  lemma ReportNeedsTextConditions(analysis: map<string, Json>, appointment: map<string, Json>,
                                  now: Calendar.DateTime, uuidHex: string, testOrder: seq<string>)
    requires now.Valid() && TestOrderFits(analysis, testOrder)
    requires "ai_diagnostic_summary" in analysis && analysis["ai_diagnostic_summary"].JObj?
    requires var diag := analysis["ai_diagnostic_summary"].fields;
             "possible_conditions" in diag && diag["possible_conditions"] == JArr([JStr("flu"), JNum(3)])
    ensures Report(analysis, appointment, now, uuidHex, testOrder).None?
  {
    var conditions := analysis["ai_diagnostic_summary"].fields["possible_conditions"];
    assert !conditions.items[1].JStr?;
    assert JoinConditions(conditions).None?;
  }
}
