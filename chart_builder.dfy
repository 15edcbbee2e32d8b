/** The chart view generator of the studio: from a chart definition (a
    "view builder") it assembles a JPQL query, a search-fields block for the
    filters marked as parameters, an onNew action giving those parameters
    their default values, and the chart's XML text. The services it is
    given (filter conditions, tag substitution, target-field and field-type
    lookup, model lookup) are functions passed in. */
module ChartBuilder {
  import opened Wrappers

  const Tab1: string := "\n \t"
  const Tab2: string := "\n \t\t"
  const Tab3: string := "\n \t\t\t"

  /** A field of a model: its name, its type name, its label, the kind of
      relation when it refers to another model, and its selection, if any. */
  datatype MetaField = MetaField(name: string, typeName: string, fieldLabel: string,
                                 relationship: Option<string>, metaSelect: Option<string>)

  /** A chart filter; `logicOp` 0 joins it to the previous one with AND. */
  datatype Filter = Filter(metaField: MetaField, isParameter: bool, targetField: Option<string>,
                           defaultValue: Option<string>, logicOp: int)

  /** The chart definition. The field grouped on is always present. */
  datatype ViewBuilder = ViewBuilder(
    name: string, title: string, model: string, metaModelName: string, chartType: string,
    displayField: MetaField,
    groupOn: MetaField, groupDateType: Option<string>, groupOnTarget: Option<string>,
    aggregateOn: Option<MetaField>, aggregateDateType: Option<string>, aggregateOnTarget: Option<string>,
    filterList: seq<Filter>)

  datatype RecordField = RecordField(name: string, expression: string)

  datatype ActionRecord = ActionRecord(name: string, model: string, fields: seq<RecordField>)

  /** The injected collaborators, as functions. */
  datatype Services = Services(
    relationalCondition: Filter -> string,
    simpleCondition: Filter -> string,
    tagValue: string -> string,
    targetField: (MetaField, Option<string>) -> MetaField,
    fieldType: MetaField -> string,
    modelFullName: string -> string)

  // ---------------------------------------------------------------------
  // Substrings
  // ---------------------------------------------------------------------

  /** `sub` occurs in `s` at position i. */
  predicate OccursAt(s: string, sub: string, i: int) {
    0 <= i && i + |sub| <= |s| && s[i..i + |sub|] == sub
  }

  lemma OccursAtShift(s: string, sub: string)
    requires |s| > 0
    ensures forall i :: 0 <= i ==> (OccursAt(s, sub, i + 1) <==> OccursAt(s[1..], sub, i))
  {
    forall i | 0 <= i
      ensures OccursAt(s, sub, i + 1) <==> OccursAt(s[1..], sub, i)
    {
      if 0 <= i && i + 1 + |sub| <= |s| {
        var a, b := s[i + 1..i + 1 + |sub|], s[1..][i..i + |sub|];
        forall j | 0 <= j < |sub|
          ensures a[j] == b[j]
        {
        }
        assert a == b;
      }
    }
  }

  /** Java's `s.contains(sub)`. */
  function Contains(s: string, sub: string): (b: bool)
    ensures b <==> exists i :: OccursAt(s, sub, i)
    decreases |s|
  {
    if |sub| > |s| then false
    else if s[..|sub|] == sub then
      assert OccursAt(s, sub, 0);
      true
    else
      OccursAtShift(s, sub);
      assert !OccursAt(s, sub, 0);
      assert forall i :: OccursAt(s, sub, i) ==> i >= 1 && OccursAt(s[1..], sub, i - 1);
      Contains(s[1..], sub)
  }

  // ---------------------------------------------------------------------
  // Group field expression
  // ---------------------------------------------------------------------

  /** The type names a date field may have, as one comma-separated string. */
  const DateTypeNames: string := "LocalDate,DateTime,LocalDateTime"

  /** A field is grouped by date when a date type was chosen and its type
      name is a substring of the date type names. */
  predicate IsDateGrouping(f: MetaField, dateType: Option<string>) {
    dateType.Some? && Contains(DateTypeNames, f.typeName)
  }

  /** getGroupFieldName: the expression a field is grouped on, absent for an
      absent field. */
  function GroupFieldName(metaField: Option<MetaField>, dateType: Option<string>, target: Option<string>)
    : (r: Option<string>)
    ensures r.None? <==> metaField.None?
  {
    match metaField
    case None => None
    case Some(f) =>
      if IsDateGrouping(f, dateType) then
        if dateType.value == "year" then Some("YEAR(self." + f.name + ")")
        else if dateType.value == "month" then
          Some("concat(str(YEAR(self." + f.name + ")),'-',str(MONTH(self." + f.name + ")))")
        else Some("self." + f.name)
      else
        Some("self." + target.GetOr(f.name + ".name"))
  }

  /** Where "Date", "Time" and "LocalDateTime" occur in the date type names. */
  lemma DateOccurs()
    ensures OccursAt(DateTypeNames, "Date", 5)
  {
    assert DateTypeNames == "Local" + "Date" + ",DateTime,LocalDateTime";
  }

  lemma TimeOccurs()
    ensures OccursAt(DateTypeNames, "Time", 14)
  {
    assert DateTypeNames == "LocalDate,Date" + "Time" + ",LocalDateTime";
  }

  lemma LocalDateTimeOccurs()
    ensures OccursAt(DateTypeNames, "LocalDateTime", 19)
  {
    assert DateTypeNames == "LocalDate,DateTime," + "LocalDateTime";
  }

  /** "Date", "Time" and "LocalDateTime" all occur in the date type names. */
  lemma DateNamesContain(t: string)
    requires t == "Date" || t == "Time" || t == "LocalDateTime"
    ensures Contains(DateTypeNames, t)
  {
    DateOccurs();
    TimeOccurs();
    LocalDateTimeOccurs();
  }

  /** The date test is a substring test: not only the three date type names
      but also "Date" and "Time" pass it, so a field of type "Date" grouped
      by year is grouped on its year. */
  lemma ShortTypeNamesAreDates(f: MetaField)
    requires f.typeName == "Date" || f.typeName == "Time" || f.typeName == "LocalDateTime"
    ensures GroupFieldName(Some(f), Some("year"), None) == Some("YEAR(self." + f.name + ")")
  {
    DateNamesContain(f.typeName);
  }

  /** Outside the date branch the date type is ignored and, with no target,
      the field's ".name" is used; inside it the target is ignored. */
  lemma GroupFieldNameBranches(f: MetaField, dateType: Option<string>, dateType': Option<string>,
                               target: Option<string>, target': Option<string>)
    ensures !Contains(DateTypeNames, f.typeName) ==>
      GroupFieldName(Some(f), dateType, target) == GroupFieldName(Some(f), dateType', target)
    ensures !IsDateGrouping(f, dateType) ==>
      GroupFieldName(Some(f), dateType, None) == Some("self." + (f.name + ".name"))
    ensures IsDateGrouping(f, dateType) ==>
      GroupFieldName(Some(f), dateType, target) == GroupFieldName(Some(f), dateType, target')
  {
  }

  // ---------------------------------------------------------------------
  // Filters
  // ---------------------------------------------------------------------

  /** The condition the filter service produces for a filter. */
  function Condition(f: Filter, svc: Services): string {
    if f.metaField.relationship.Some? then svc.relationalCondition(f) else svc.simpleCondition(f)
  }

  /** How a filter is joined to the ones before it. */
  function Connector(f: Filter): string {
    if f.logicOp == 0 then " AND " else " OR "
  }

  /** The WHERE condition of a list of filters, absent when there are none. */
  function JoinFilters(fs: seq<Filter>, svc: Services): (r: Option<string>)
    ensures r.None? <==> |fs| == 0
    decreases |fs|
  {
    if |fs| == 0 then None
    else
      var last := fs[|fs| - 1];
      match JoinFilters(fs[..|fs| - 1], svc)
      case None => Some(Condition(last, svc))
      case Some(acc) => Some(acc + Connector(last) + Condition(last, svc))
  }

  /** Each filter's connector followed by its condition, in order. */
  function Connected(fs: seq<Filter>, svc: Services): string
    decreases |fs|
  {
    if |fs| == 0 then "" else Connector(fs[0]) + Condition(fs[0], svc) + Connected(fs[1..], svc)
  }

  lemma {:induction false} ConnectedSnoc(fs: seq<Filter>, f: Filter, svc: Services)
    ensures Connected(fs + [f], svc) == Connected(fs, svc) + Connector(f) + Condition(f, svc)
    decreases |fs|
  {
    if |fs| == 0 {
      assert [f][1..] == [];
    } else {
      assert (fs + [f])[1..] == fs[1..] + [f];
      ConnectedSnoc(fs[1..], f, svc);
    }
  }

  /** The first condition stands alone and every later one is preceded by its
      own connector: " AND " when its logicOp is 0, " OR " otherwise. */
  lemma {:induction false} JoinFiltersFromFront(fs: seq<Filter>, svc: Services)
    requires |fs| > 0
    ensures JoinFilters(fs, svc) == Some(Condition(fs[0], svc) + Connected(fs[1..], svc))
    decreases |fs|
  {
    if |fs| > 1 {
      var front := fs[..|fs| - 1];
      var last := fs[|fs| - 1];
      JoinFiltersFromFront(front, svc);
      assert front[1..] + [last] == fs[1..];
      ConnectedSnoc(front[1..], last, svc);
      var first, between := Condition(fs[0], svc), Connected(front[1..], svc);
      AppendAssociative(first, between, Connector(last));
      AppendAssociative(first, between + Connector(last), Condition(last, svc));
    } else {
      assert fs[1..] == [] && fs[..0] == [];
      assert Condition(fs[0], svc) + "" == Condition(fs[0], svc);
    }
  }

  // ---------------------------------------------------------------------
  // Search fields and default values
  // ---------------------------------------------------------------------

  /** The search-field entry addSearchField writes for a (target) field. */
  function SearchFieldEntry(field: MetaField, svc: Services): string {
    var head := "<field name=\"" + field.name + "\" title=\"" + field.fieldLabel;
    var typed :=
      if field.relationship.None? then
        var withType := head + ("\" type=\"" + svc.fieldType(field));
        match field.metaSelect
        case Some(select) => withType + "\" selection=\"" + select
        case None => withType
      else
        head + ("\" type=\"reference\" target=\"" + svc.modelFullName(field.typeName));
    typed + "\" x-required=\"true\" />"
  }

  /** The record setDefaultValue adds for a field, or none when no default
      value is given. `modelField` is the model name and the field path of a
      relational field. */
  function DefaultValueRecord(fieldName: string, typeName: string, defaultValue: Option<string>,
                              modelField: Option<(string, string)>, tagValue: string -> string)
    : (r: Option<RecordField>)
    ensures r.Some? <==> defaultValue.Some?
    ensures r.Some? ==> r.value.name == fieldName && |r.value.expression| >= 5 && r.value.expression[..5] == "eval:"
  {
    match defaultValue
    case None => None
    case Some(v) =>
      var tagged := tagValue(v);
      var value :=
        match modelField
        case None => tagged
        case Some((model, path)) =>
          if typeName == "STRING" then
            "__repo__.of(" + model + ").all().filter(\"LOWER(" + path + ") LIKE " + tagged + "\").fetchOne()"
          else
            "__repo__.of(" + model + ").all().filter(\"" + path + " = " + tagged + "\").fetchOne()";
      Some(RecordField(fieldName, "eval:" + value))
  }

  /** The field a parameter filter is about, after the target lookup. */
  function TargetOf(f: Filter, svc: Services): MetaField {
    svc.targetField(f.metaField, f.targetField)
  }

  /** The model field passed for a relational target field. */
  function ModelFieldOf(field: MetaField): Option<(string, string)> {
    if field.relationship.None? then None else Some((field.typeName, "self." + field.name))
  }

  /** The default-value record of one filter. */
  function DefaultRecordOf(f: Filter, svc: Services): Option<RecordField> {
    var field := TargetOf(f, svc);
    DefaultValueRecord(field.name, field.typeName, f.defaultValue, ModelFieldOf(field), svc.tagValue)
  }

  function OptionToSeq<T>(o: Option<T>): seq<T> {
    match o
    case Some(x) => [x]
    case None => []
  }

  /** The search-field entries of the parameter filters, in order. */
  function SearchEntries(fs: seq<Filter>, svc: Services): seq<string>
    decreases |fs|
  {
    if |fs| == 0 then []
    else
      var last := fs[|fs| - 1];
      SearchEntries(fs[..|fs| - 1], svc)
      + (if last.isParameter then [SearchFieldEntry(TargetOf(last, svc), svc)] else [])
  }

  /** The default-value records of the parameter filters, in order. */
  function DefaultRecords(fs: seq<Filter>, svc: Services): seq<RecordField>
    decreases |fs|
  {
    if |fs| == 0 then []
    else
      var last := fs[|fs| - 1];
      DefaultRecords(fs[..|fs| - 1], svc)
      + (if last.isParameter then OptionToSeq(DefaultRecordOf(last, svc)) else [])
  }

  /** The number of parameter filters. */
  function CountParameters(fs: seq<Filter>): nat
    decreases |fs|
  {
    if |fs| == 0 then 0
    else CountParameters(fs[..|fs| - 1]) + (if fs[|fs| - 1].isParameter then 1 else 0)
  }

  /** One search field per parameter filter: there are as many entries as
      parameter filters, and none without one. */
  lemma {:induction false} SearchEntriesExactlyForParameters(fs: seq<Filter>, svc: Services)
    ensures |SearchEntries(fs, svc)| == CountParameters(fs)
    ensures |SearchEntries(fs, svc)| <= |fs|
    ensures |SearchEntries(fs, svc)| > 0 <==> exists k :: 0 <= k < |fs| && fs[k].isParameter
    decreases |fs|
  {
    if |fs| > 0 {
      var front := fs[..|fs| - 1];
      SearchEntriesExactlyForParameters(front, svc);
      assert forall k :: 0 <= k < |front| ==> front[k] == fs[k];
    }
  }

  /** Some default-value record is collected exactly when some parameter
      filter has a default value. */
  lemma {:induction false} DefaultRecordsExactlyForDefaults(fs: seq<Filter>, svc: Services)
    ensures |DefaultRecords(fs, svc)| > 0 <==>
      exists k :: 0 <= k < |fs| && fs[k].isParameter && fs[k].defaultValue.Some?
    decreases |fs|
  {
    if |fs| > 0 {
      var front := fs[..|fs| - 1];
      DefaultRecordsExactlyForDefaults(front, svc);
      assert forall k :: 0 <= k < |front| ==> front[k] == fs[k];
    }
  }

  /** What handling the filter at index i adds to the condition, the search
      fields and the default-value records built from the filters before it. */
  lemma FilterStep(fs: seq<Filter>, i: nat, svc: Services)
    requires i < |fs|
    ensures var f := fs[i];
      && JoinFilters(fs[..i + 1], svc) ==
         (match JoinFilters(fs[..i], svc)
          case None => Some(Condition(f, svc))
          case Some(acc) => Some(acc + Connector(f) + Condition(f, svc)))
      && (f.isParameter ==>
          && SearchEntries(fs[..i + 1], svc) == SearchEntries(fs[..i], svc) + [SearchFieldEntry(TargetOf(f, svc), svc)]
          && DefaultRecords(fs[..i + 1], svc) == DefaultRecords(fs[..i], svc) + OptionToSeq(DefaultRecordOf(f, svc)))
      && (!f.isParameter ==>
          && SearchEntries(fs[..i + 1], svc) == SearchEntries(fs[..i], svc)
          && DefaultRecords(fs[..i + 1], svc) == DefaultRecords(fs[..i], svc))
  {
    assert fs[..i + 1][..i] == fs[..i];
    var se, dr := SearchEntries(fs[..i], svc), DefaultRecords(fs[..i], svc);
    assert se + [] == se && dr + [] == dr;
  }

  /** The lines of the search-fields block: each entry on its own line. */
  function Indented(entries: seq<string>): string
    decreases |entries|
  {
    if |entries| == 0 then "" else Indented(entries[..|entries| - 1]) + Tab2 + entries[|entries| - 1]
  }

  lemma {:induction false} IndentedAppend(a: seq<string>, b: seq<string>)
    ensures Indented(a + b) == Indented(a) + Indented(b)
    decreases |b|
  {
    if |b| == 0 {
      assert a + b == a;
    } else {
      var n := |b| - 1;
      assert (a + b)[..|a + b| - 1] == a + b[..n];
      IndentedAppend(a, b[..n]);
    }
  }

  /** The entries keep their order: each one comes, on its own line, after
      the lines of the entries before it and before those after it. */
  lemma IndentedInOrder(before: seq<string>, entry: string, after: seq<string>)
    ensures Indented(before + [entry] + after) == Indented(before) + Tab2 + entry + Indented(after)
  {
    var upTo := before + [entry];
    assert upTo[..|upTo| - 1] == before;
    IndentedAppend(upTo, after);
  }

  /** The search-fields block around the collected entries. */
  function SearchFieldsBlock(entries: seq<string>): string {
    "<search-fields>" + Indented(entries) + Tab1 + "</search-fields>"
  }

  // ---------------------------------------------------------------------
  // Query and chart text
  // ---------------------------------------------------------------------

  predicate IsPrefix(p: string, s: string) {
    |p| <= |s| && s[..|p|] == p
  }

  predicate IsSuffix(t: string, s: string) {
    |t| <= |s| && s[|s| - |t|..] == t
  }

  lemma SplitAppend(a: string, b: string)
    ensures (a + b)[..|a|] == a && (a + b)[|a|..] == b
  {
  }

  lemma EmptyAppend<T>(s: seq<T>)
    ensures [] + s == s
  {
  }

  lemma AppendAssociative<T>(a: seq<T>, b: seq<T>, c: seq<T>)
    ensures a + b + c == a + (b + c)
  {
  }

  lemma PrefixAppend(p: string, s: string, t: string)
    requires IsPrefix(p, s)
    ensures IsPrefix(p, s + t)
  {
    assert (s + t)[..|p|] == s[..|p|];
  }

  lemma SuffixAppend(t: string, s: string, u: string)
    requires IsSuffix(t, u)
    ensures IsSuffix(t, s + u)
  {
    assert (s + u)[|s + u| - |t|..] == u[|u| - |t|..];
  }

  /** The expression the chart groups on. */
  function GroupFieldOf(vb: ViewBuilder): string {
    GroupFieldName(Some(vb.groupOn), vb.groupDateType, vb.groupOnTarget).value
  }

  /** The aggregate expression, present exactly when an aggregate field is. */
  function AggFieldOf(vb: ViewBuilder): (r: Option<string>)
    ensures r.Some? <==> vb.aggregateOn.Some?
  {
    GroupFieldName(vb.aggregateOn, vb.aggregateDateType, vb.aggregateOnTarget)
  }

  /** The aggregate column of the SELECT list. */
  function AggColumn(a: string): string {
    "," + Tab3 + a + " AS aggField"
  }

  /** The SELECT list: the summed display field, the group field and, when
      there is one, the aggregate field. */
  function SelectList(vb: ViewBuilder): string {
    var sum := "SELECT" + Tab3 + "SUM(self." + vb.displayField.name + ") AS fieldSum," + Tab3;
    var grouped := sum + (GroupFieldOf(vb) + " AS groupField");
    match AggFieldOf(vb)
    case Some(a) => grouped + AggColumn(a)
    case None => grouped
  }

  /** The query up to its FROM clause. */
  function SelectFrom(vb: ViewBuilder): string {
    SelectList(vb) + (Tab2 + "FROM " + Tab3 + vb.metaModelName + " self")
  }

  /** The WHERE clause of a condition. */
  function WhereClause(f: string): string {
    Tab2 + "WHERE " + Tab3 + f
  }

  /** The query prepareQuery builds for a chart, given its WHERE condition. */
  function QueryText(vb: ViewBuilder, filters: Option<string>): string {
    var selected := SelectFrom(vb);
    var filtered := match filters case Some(f) => selected + WhereClause(f) case None => selected;
    var grouped := filtered + (Tab2 + "GROUP BY " + Tab3 + GroupFieldOf(vb));
    match AggFieldOf(vb)
    case Some(a) => grouped + ("," + a)
    case None => grouped
  }

  /** The WHERE clause is there exactly when there is a condition: the query
      with a condition is the query without one with the clause inserted
      right after the FROM clause. */
  lemma WhereExactlyWithFilters(vb: ViewBuilder, f: string)
    ensures var base := QueryText(vb, None);
      var cut := |SelectFrom(vb)|;
      && IsPrefix(SelectFrom(vb), base)
      && QueryText(vb, Some(f)) == base[..cut] + WhereClause(f) + base[cut..]
  {
    var h := SelectFrom(vb);
    var g := Tab2 + "GROUP BY " + Tab3 + GroupFieldOf(vb);
    var t := match AggFieldOf(vb) case Some(a) => g + ("," + a) case None => g;
    var base := QueryText(vb, None);
    assert base == h + t;
    SplitAppend(h, t);
    AppendAssociative(h, WhereClause(f), g);
    if AggFieldOf(vb).Some? {
      AppendAssociative(h + WhereClause(f), g, "," + AggFieldOf(vb).value);
      AppendAssociative(h, g, "," + AggFieldOf(vb).value);
    }
  }

  /** The SELECT list ends with the aggregate column exactly when there is an
      aggregate field, and then the query ends by grouping on it after the
      group field; otherwise the SELECT list ends with the group field and
      the query ends with it. */
  lemma AggregateExactlyWithAggregateField(vb: ViewBuilder, filters: Option<string>)
    ensures var q := QueryText(vb, filters);
      && IsPrefix(SelectList(vb), q)
      && match AggFieldOf(vb)
         case Some(a) => IsSuffix(AggColumn(a), SelectList(vb)) && IsSuffix("," + a, q)
         case None =>
           && vb.aggregateOn.None?
           && IsSuffix(GroupFieldOf(vb) + " AS groupField", SelectList(vb))
           && IsSuffix(GroupFieldOf(vb), q)
  {
    var s := SelectList(vb);
    var g := GroupFieldOf(vb);
    var from := Tab2 + "FROM " + Tab3 + vb.metaModelName + " self";
    var selected := SelectFrom(vb);
    var filtered := match filters case Some(f) => selected + WhereClause(f) case None => selected;
    var groupBy := Tab2 + "GROUP BY " + Tab3 + g;
    var grouped := filtered + groupBy;
    assert IsPrefix(s, s);
    PrefixAppend(s, s, from);
    if filters.Some? {
      PrefixAppend(s, selected, WhereClause(filters.value));
    }
    PrefixAppend(s, filtered, groupBy);
    var sum := "SELECT" + Tab3 + "SUM(self." + vb.displayField.name + ") AS fieldSum," + Tab3;
    match AggFieldOf(vb)
    case Some(a) =>
      PrefixAppend(s, grouped, "," + a);
      assert IsSuffix(AggColumn(a), AggColumn(a));
      SuffixAppend(AggColumn(a), sum + (g + " AS groupField"), AggColumn(a));
      assert IsSuffix("," + a, "," + a);
      SuffixAppend("," + a, grouped, "," + a);
    case None =>
      assert IsSuffix(g + " AS groupField", g + " AS groupField");
      SuffixAppend(g + " AS groupField", sum, g + " AS groupField");
      assert IsSuffix(g, g);
      SuffixAppend(g, Tab2 + "GROUP BY " + Tab3, g);
      SuffixAppend(g, filtered, groupBy);
  }

  /** The name of the onNew action of a chart. */
  function OnNewActionName(vb: ViewBuilder): string {
    "action-" + vb.name + "-default"
  }

  /** The opening tag of the chart, with an onInit attribute naming the onNew
      action when there is one. */
  function ChartOpening(vb: ViewBuilder, onNewAction: Option<ActionRecord>): string {
    var head := "<chart name=\"" + vb.name + "\" title=\"" + vb.title + "\" ";
    var withInit := match onNewAction case Some(a) => head + (" onInit=\"" + a.name + "\" ") case None => head;
    withInit + ">\n"
  }

  /** The chart text up to the attributes of its series. */
  function ChartUpToSeries(vb: ViewBuilder, query: string, onNewAction: Option<ActionRecord>,
                           searchFields: seq<string>): string
  {
    var opening := ChartOpening(vb, onNewAction);
    var searched := if |searchFields| > 0 then opening + ("\t" + SearchFieldsBlock(searchFields) + "\n") else opening;
    var dataset := searched + "\t<dataset type=\"jpql\">" + (Tab2 + query) + (Tab2 + "</dataset>");
    var category := dataset + (Tab1 + "<category key=\"groupField\" type=\"text\" title=\"" + vb.groupOn.fieldLabel + "\" />");
    category + (Tab1 + "<series key=\"fieldSum\" type=\"" + vb.chartType + "\" title=\"" + vb.displayField.fieldLabel + "\" ")
  }

  /** The chart text getView assembles before parsing it. */
  function ChartXml(vb: ViewBuilder, query: string, hasAggregate: bool, onNewAction: Option<ActionRecord>,
                    searchFields: seq<string>): string
  {
    var series := ChartUpToSeries(vb, query, onNewAction, searchFields);
    var grouped := if hasAggregate then series + "groupBy=\"aggField\" " else series;
    grouped + "/>\n" + "</chart>"
  }

  /** The chart begins with its opening tag, which carries an onInit
      attribute naming the action exactly when there is an onNew action. */
  lemma OnInitExactlyWithAction(vb: ViewBuilder, query: string, hasAggregate: bool, action: Option<ActionRecord>,
                                searchFields: seq<string>)
    ensures var head := "<chart name=\"" + vb.name + "\" title=\"" + vb.title + "\" ";
      var opening := match action case Some(a) => head + (" onInit=\"" + a.name + "\" ") + ">\n" case None => head + ">\n";
      IsPrefix(opening, ChartXml(vb, query, hasAggregate, action, searchFields))
  {
    var opening := ChartOpening(vb, action);
    var searched := if |searchFields| > 0 then opening + ("\t" + SearchFieldsBlock(searchFields) + "\n") else opening;
    var x1 := searched + "\t<dataset type=\"jpql\">";
    var x2 := x1 + (Tab2 + query);
    var x3 := x2 + (Tab2 + "</dataset>");
    var x4 := x3 + (Tab1 + "<category key=\"groupField\" type=\"text\" title=\"" + vb.groupOn.fieldLabel + "\" />");
    var series := ChartUpToSeries(vb, query, action, searchFields);
    var grouped := if hasAggregate then series + "groupBy=\"aggField\" " else series;
    assert IsPrefix(opening, opening);
    if |searchFields| > 0 {
      PrefixAppend(opening, opening, "\t" + SearchFieldsBlock(searchFields) + "\n");
    }
    PrefixAppend(opening, searched, "\t<dataset type=\"jpql\">");
    PrefixAppend(opening, x1, Tab2 + query);
    PrefixAppend(opening, x2, Tab2 + "</dataset>");
    PrefixAppend(opening, x3, Tab1 + "<category key=\"groupField\" type=\"text\" title=\"" + vb.groupOn.fieldLabel + "\" />");
    PrefixAppend(opening, x4, Tab1 + "<series key=\"fieldSum\" type=\"" + vb.chartType + "\" title=\"" + vb.displayField.fieldLabel + "\" ");
    if hasAggregate {
      PrefixAppend(opening, series, "groupBy=\"aggField\" ");
    }
    PrefixAppend(opening, grouped, "/>\n");
    PrefixAppend(opening, grouped + "/>\n", "</chart>");
  }

  /** groupBy="aggField" is on the series exactly when there is an aggregate:
      the chart with one is the chart without one with the attribute
      inserted before the series' closing. */
  lemma GroupByExactlyWithAggregate(vb: ViewBuilder, query: string, action: Option<ActionRecord>,
                                    searchFields: seq<string>)
    ensures var tail := "/>\n" + "</chart>";
      var base := ChartXml(vb, query, false, action, searchFields);
      && IsSuffix(tail, base)
      && ChartXml(vb, query, true, action, searchFields)
         == base[..|base| - |tail|] + "groupBy=\"aggField\" " + "/>\n" + "</chart>"
  {
    var tail := "/>\n" + "</chart>";
    var series := ChartUpToSeries(vb, query, action, searchFields);
    var base := ChartXml(vb, query, false, action, searchFields);
    assert base == series + tail;
    assert base[..|base| - |tail|] == series;
    assert base[|base| - |tail|..] == tail;
  }

  // ---------------------------------------------------------------------
  // The service and its state
  // ---------------------------------------------------------------------

  /** The chart builder service: the search fields, default-value records and
      onNew action it collects while generating one chart. */
  class ChartBuilderService {
    const services: Services
    var searchFields: seq<string>
    var onNewFields: seq<RecordField>
    var onNewAction: Option<ActionRecord>

    constructor (services: Services)
      ensures this.services == services
      ensures searchFields == [] && onNewFields == [] && onNewAction == None
    {
      this.services := services;
      searchFields := [];
      onNewFields := [];
      onNewAction := None;
    }

    /** getOnNewAction. */
    method GetOnNewAction() returns (action: Option<ActionRecord>)
      ensures action == onNewAction
    {
      action := onNewAction;
    }

    /** setDefaultValue: adds a record giving the field its default value, if
      one is given. */
    method SetDefaultValue(fieldName: string, typeName: string, defaultValue: Option<string>,
                           modelField: Option<(string, string)>)
      modifies this`onNewFields
      ensures onNewFields == old(onNewFields)
        + OptionToSeq(DefaultValueRecord(fieldName, typeName, defaultValue, modelField, services.tagValue))
    {
      if defaultValue.None? {
        return;
      }
      var value := services.tagValue(defaultValue.value);
      if modelField.Some? {
        var (model, path) := modelField.value;
        if typeName == "STRING" {
          value := "__repo__.of(" + model + ").all().filter(\"LOWER(" + path + ") LIKE " + value + "\").fetchOne()";
        } else {
          value := "__repo__.of(" + model + ").all().filter(\"" + path + " = " + value + "\").fetchOne()";
        }
      }
      onNewFields := onNewFields + [RecordField(fieldName, "eval:" + value)];
    }

    /** addSearchField: adds the search-field entry of the target field and
      its default-value record. */
    method AddSearchField(field: MetaField, targetField: Option<string>, defaultVal: Option<string>)
      modifies this`searchFields, this`onNewFields
      ensures var f := services.targetField(field, targetField);
        && searchFields == old(searchFields) + [SearchFieldEntry(f, services)]
        && onNewFields == old(onNewFields)
           + OptionToSeq(DefaultValueRecord(f.name, f.typeName, defaultVal, ModelFieldOf(f), services.tagValue))
    {
      var f := services.targetField(field, targetField);
      var fieldStr := "<field name=\"" + f.name + "\" title=\"" + f.fieldLabel;
      var modelField: Option<(string, string)> := None;
      if f.relationship.None? {
        var fieldType := services.fieldType(f);
        fieldStr := fieldStr + ("\" type=\"" + fieldType);
        if f.metaSelect.Some? {
          fieldStr := fieldStr + "\" selection=\"" + f.metaSelect.value;
        }
      } else {
        var targetRef := services.modelFullName(f.typeName);
        fieldStr := fieldStr + ("\" type=\"reference\" target=\"" + targetRef);
        modelField := Some((f.typeName, "self." + f.name));
      }
      searchFields := searchFields + [fieldStr + "\" x-required=\"true\" />"];
      SetDefaultValue(f.name, f.typeName, defaultVal, modelField);
    }

    /** createFilters: joins the filters' conditions and registers a search
      field for every parameter filter. */
    method CreateFilters(filterList: seq<Filter>) returns (filters: Option<string>)
      modifies this`searchFields, this`onNewFields
      ensures filters == JoinFilters(filterList, services)
      ensures searchFields == old(searchFields) + SearchEntries(filterList, services)
      ensures onNewFields == old(onNewFields) + DefaultRecords(filterList, services)
    {
      filters := None;
      var i := 0;
      while i < |filterList|
        invariant 0 <= i <= |filterList|
        invariant filters == JoinFilters(filterList[..i], services)
        invariant searchFields == old(searchFields) + SearchEntries(filterList[..i], services)
        invariant onNewFields == old(onNewFields) + DefaultRecords(filterList[..i], services)
      {
        var filter := filterList[i];
        FilterStep(filterList, i, services);
        var field := filter.metaField;
        var condition := "";
        if field.relationship.Some? {
          condition := services.relationalCondition(filter);
        } else {
          condition := services.simpleCondition(filter);
        }
        if filter.isParameter {
          AddSearchField(field, filter.targetField, filter.defaultValue);
          AppendAssociative(old(searchFields), SearchEntries(filterList[..i], services),
                            [SearchFieldEntry(TargetOf(filter, services), services)]);
          AppendAssociative(old(onNewFields), DefaultRecords(filterList[..i], services),
                            OptionToSeq(DefaultRecordOf(filter, services)));
        }
        if filters.None? {
          filters := Some(condition);
        } else {
          var opt := if filter.logicOp == 0 then " AND " else " OR ";
          filters := Some(filters.value + opt + condition);
        }
        i := i + 1;
      }
      assert filterList[..i] == filterList;
    }

    /** getSearchFields: the entries collected so far, one per line, between
      the opening and closing tags. */
    method GetSearchFields() returns (search: string)
      ensures search == SearchFieldsBlock(searchFields)
    {
      search := "<search-fields>";
      var i := 0;
      while i < |searchFields|
        invariant 0 <= i <= |searchFields|
        invariant search == "<search-fields>" + Indented(searchFields[..i])
      {
        search := search + Tab2 + searchFields[i];
        assert searchFields[..i + 1][..i] == searchFields[..i];
        i := i + 1;
      }
      assert searchFields[..i] == searchFields;
      search := search + Tab1 + "</search-fields>";
    }

    /** setOnNewAction: creates the onNew action when some default value was
      collected. */
    method SetOnNewAction(vb: ViewBuilder)
      modifies this`onNewAction
      ensures onNewAction ==
        if |onNewFields| > 0 then Some(ActionRecord(OnNewActionName(vb), vb.model, onNewFields))
        else old(onNewAction)
    {
      if |onNewFields| > 0 {
        onNewAction := Some(ActionRecord("action-" + vb.name + "-default", vb.model, onNewFields));
      }
    }

    /** prepareQuery: the query text and the aggregate expression. */
    method PrepareQuery(vb: ViewBuilder) returns (query: string, aggField: Option<string>)
      modifies this`searchFields, this`onNewFields
      ensures query == QueryText(vb, JoinFilters(vb.filterList, services))
      ensures aggField == AggFieldOf(vb)
      ensures searchFields == old(searchFields) + SearchEntries(vb.filterList, services)
      ensures onNewFields == old(onNewFields) + DefaultRecords(vb.filterList, services)
    {
      query := "SELECT" + Tab3 + "SUM(self." + vb.displayField.name + ") AS fieldSum," + Tab3;
      var groupField := GroupFieldName(Some(vb.groupOn), vb.groupDateType, vb.groupOnTarget).value;
      aggField := GroupFieldName(vb.aggregateOn, vb.aggregateDateType, vb.aggregateOnTarget);
      query := query + (groupField + " AS groupField");
      if aggField.Some? {
        query := query + ("," + Tab3 + aggField.value + " AS aggField");
      }
      query := query + (Tab2 + "FROM " + Tab3 + vb.metaModelName + " self");
      var filters := CreateFilters(vb.filterList);
      if filters.Some? {
        query := query + (Tab2 + "WHERE " + Tab3 + filters.value);
      }
      query := query + (Tab2 + "GROUP BY " + Tab3 + groupField);
      if aggField.Some? {
        query := query + ("," + aggField.value);
      }
    }

    /** getView, up to the parsing of the text: resets the collected state,
      prepares the query, creates the onNew action and assembles the chart.
      The search fields are those of the parameter filters, and the onNew
      action exists exactly when some parameter filter has a default value. */
    method GetView(vb: ViewBuilder) returns (xml: string)
      modifies this`searchFields, this`onNewFields, this`onNewAction
      ensures searchFields == SearchEntries(vb.filterList, services)
      ensures onNewFields == DefaultRecords(vb.filterList, services)
      ensures onNewAction.Some? <==>
        exists k :: 0 <= k < |vb.filterList| && vb.filterList[k].isParameter && vb.filterList[k].defaultValue.Some?
      ensures onNewAction.Some? ==> onNewAction == Some(ActionRecord(OnNewActionName(vb), vb.model, onNewFields))
      ensures xml == ChartXml(vb, QueryText(vb, JoinFilters(vb.filterList, services)), vb.aggregateOn.Some?,
                              onNewAction, searchFields)
    {
      var query, aggField := CollectView(vb);
      xml := AssembleChart(vb, query, aggField);
    }

    /** The first part of getView: the reset, the query and the onNew action. */
    method CollectView(vb: ViewBuilder) returns (query: string, aggField: Option<string>)
      modifies this`searchFields, this`onNewFields, this`onNewAction
      ensures query == QueryText(vb, JoinFilters(vb.filterList, services))
      ensures aggField.Some? <==> vb.aggregateOn.Some?
      ensures searchFields == SearchEntries(vb.filterList, services)
      ensures onNewFields == DefaultRecords(vb.filterList, services)
      ensures onNewAction.Some? <==>
        exists k :: 0 <= k < |vb.filterList| && vb.filterList[k].isParameter && vb.filterList[k].defaultValue.Some?
      ensures onNewAction.Some? ==> onNewAction == Some(ActionRecord(OnNewActionName(vb), vb.model, onNewFields))
    {
      searchFields := [];
      onNewFields := [];
      onNewAction := None;
      query, aggField := PrepareQuery(vb);
      EmptyAppend(SearchEntries(vb.filterList, services));
      EmptyAppend(DefaultRecords(vb.filterList, services));
      SetOnNewAction(vb);
      DefaultRecordsExactlyForDefaults(vb.filterList, services);
    }

    /** The text assembly of getView, from the prepared query, the collected
      search fields and the onNew action. */
    method AssembleChart(vb: ViewBuilder, query: string, aggField: Option<string>) returns (xml: string)
      ensures xml == ChartXml(vb, query, aggField.Some?, onNewAction, searchFields)
    {
      xml := "<chart name=\"" + vb.name + "\" title=\"" + vb.title + "\" ";
      if onNewAction.Some? {
        xml := xml + (" onInit=\"" + onNewAction.value.name + "\" ");
      }
      xml := xml + ">\n";
      assert xml == ChartOpening(vb, onNewAction);
      if |searchFields| > 0 {
        var search := GetSearchFields();
        xml := xml + ("\t" + search + "\n");
      }
      xml := xml + "\t<dataset type=\"jpql\">";
      xml := xml + (Tab2 + query);
      xml := xml + (Tab2 + "</dataset>");
      xml := xml + (Tab1 + "<category key=\"groupField\" type=\"text\" title=\"" + vb.groupOn.fieldLabel + "\" />");
      xml := xml + (Tab1 + "<series key=\"fieldSum\" type=\"" + vb.chartType + "\" title=\""
                 + vb.displayField.fieldLabel + "\" ");
      assert xml == ChartUpToSeries(vb, query, onNewAction, searchFields);
      if aggField.Some? {
        xml := xml + "groupBy=\"aggField\" ";
      }
      xml := xml + "/>\n";
      xml := xml + "</chart>";
    }
  }
}
