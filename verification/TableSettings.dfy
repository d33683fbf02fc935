/** Asking an AI for table settings: batches of ten, each table alone when its batch fails,
    and the cleaning of whatever the AI answers. */
module TableSettings {
  import opened Text

  const AI_BATCH_SIZE := 10

  datatype TableInformation = TableInformation(tableName: string, columns: seq<string>)

  datatype GeneratedWidget = GeneratedWidget(fieldName: string, widgetType: string, name: string, params: string)

  /** One entry of the AI's answer; absent arrays are None. */
  datatype Generated = Generated(
    tableName: string, searchFields: Option<seq<string>>, readonlyFields: Option<seq<string>>,
    columnsView: Option<seq<string>>, ordering: string, orderingField: string,
    widgets: Option<seq<GeneratedWidget>>)

  datatype Ordering = Asc | Desc

  datatype Widget = Widget(fieldName: string, widgetType: string, name: string, params: string)

  datatype Settings = Settings(
    tableName: string, searchFields: seq<string>, readonlyFields: seq<string>, columnsView: seq<string>,
    ordering: Option<Ordering>, orderingField: Option<string>, widgets: seq<Widget>)

  /** The AI's answer to the n-th call; None is a failed call or an answer that is not JSON. */
  type AI = (nat, seq<TableInformation>) -> Option<seq<Generated>>

  // ----- Cleaning one answer -----

  const FOREIGN_KEY := "Foreign_key"

  /** The widget types an answer may name; `S3` is a widget type too, but is not one of them. */
  predicate KnownWidgetType(name: string) {
    name in [
      "Password", "Boolean", "Date", "Time", "DateTime", "JSON", "Textarea", "String", "Readonly", "Number", "Select",
      "UUID", FOREIGN_KEY, "File", "Image", "URL", "Code", "Phone", "Country", "Color", "Range", "Timezone"]
  }

  function MapOrdering(ordering: string): Option<Ordering> {
    if ordering == "ASC" then Some(Asc) else if ordering == "DESC" then Some(Desc) else None
  }

  /** The widget types that settings can have. */
  predicate IsWidgetType(name: string) {
    name in [
      "Password", "Boolean", "Date", "Time", "DateTime", "JSON", "Textarea", "String", "Readonly", "Number", "Select",
      "UUID", "Foreign_key", "File", "Image", "URL", "Code", "Phone", "Country", "Color", "Range", "Timezone", "S3"]
  }

  /** An answer may name every widget type there is, except one. */
  lemma AllButOneIsKnown(name: string)
    ensures KnownWidgetType(name) <==> IsWidgetType(name) && name != "S3"
  {
    assert |"S3"| == 2;
    assert name in ["Password", "Boolean", "Date", "Time", "DateTime", "JSON", "Textarea", "String"] ==> |name| > 2;
    assert name in ["Readonly", "Number", "Select", "UUID", "Foreign_key", "File", "Image", "URL"] ==> |name| > 2;
    assert name in ["Code", "Phone", "Country", "Color", "Range", "Timezone"] ==> |name| > 2;
  }

  function Filtered(columns: seq<string>, valid: seq<string>): (r: seq<string>)
    ensures forall c :: c in r <==> c in columns && c in valid
  {
    if |columns| == 0 then []
    else
      var kept := Filtered(columns[1..], valid);
      assert columns == [columns[0]] + columns[1..];
      if columns[0] in valid then [columns[0]] + kept else kept
  }

  lemma {:induction false} FilteredCounts(columns: seq<string>, valid: seq<string>, c: string)
    ensures multiset(Filtered(columns, valid))[c] == if c in valid then multiset(columns)[c] else 0
  {
    if |columns| > 0 {
      FilteredCounts(columns[1..], valid, c);
      assert columns == [columns[0]] + columns[1..];
    }
  }

  lemma FilteredCons(x: string, rest: seq<string>, valid: seq<string>)
    ensures Filtered([x] + rest, valid) == (if x in valid then [x] else []) + Filtered(rest, valid)
  {
    assert ([x] + rest)[1..] == rest;
  }

  lemma {:induction false} FilteredKeepsOrder(a: seq<string>, b: seq<string>, valid: seq<string>)
    ensures Filtered(a + b, valid) == Filtered(a, valid) + Filtered(b, valid)
  {
    if |a| == 0 {
      assert a + b == b;
    } else {
      var x, rest := a[0], a[1..];
      FilteredKeepsOrder(rest, b, valid);
      FilteredCons(x, rest, valid);
      FilteredCons(x, rest + b, valid);
      hide Filtered;
      assert a == [x] + rest;
      Assoc([x], rest, b);
      Assoc(if x in valid then [x] else [], Filtered(rest, valid), Filtered(b, valid));
    }
  }

  function FilterValidColumns(columns: Option<seq<string>>, valid: seq<string>): seq<string> {
    match columns
    case None => []
    case Some(cs) => Filtered(cs, valid)
  }

  predicate KeptWidget(w: GeneratedWidget, valid: seq<string>) {
    w.fieldName in valid && KnownWidgetType(w.widgetType) && w.widgetType != FOREIGN_KEY
  }

  function WidgetsOf(ws: seq<GeneratedWidget>, valid: seq<string>): (r: seq<Widget>)
    ensures forall w :: w in r <==>
              exists g :: g in ws && KeptWidget(g, valid) && w == Widget(g.fieldName, g.widgetType, g.name, g.params)
  {
    if |ws| == 0 then []
    else
      var kept := WidgetsOf(ws[1..], valid);
      var g := ws[0];
      assert ws == [g] + ws[1..];
      if KeptWidget(g, valid) then [Widget(g.fieldName, g.widgetType, g.name, g.params)] + kept else kept
  }

  /** The columns of the first table of the batch with this name; none when there is no such table. */
  function ColumnsOf(batch: seq<TableInformation>, name: string): (r: seq<string>)
    ensures forall c :: c in r ==> exists t :: t in batch && t.tableName == name && c in t.columns
  {
    if |batch| == 0 then []
    else if batch[0].tableName == name then batch[0].columns
    else ColumnsOf(batch[1..], name)
  }

  function Entity(g: Generated, batch: seq<TableInformation>): Settings
    requires g.widgets.Some?
  {
    var valid := ColumnsOf(batch, g.tableName);
    Settings(
      g.tableName,
      FilterValidColumns(g.searchFields, valid),
      FilterValidColumns(g.readonlyFields, valid),
      FilterValidColumns(g.columnsView, valid),
      MapOrdering(g.ordering),
      if g.orderingField in valid then Some(g.orderingField) else None,
      WidgetsOf(g.widgets.value, valid))
  }

  lemma OrderingExact(ordering: string)
    ensures MapOrdering(ordering) == Some(Asc) <==> ordering == "ASC"
    ensures MapOrdering(ordering) == Some(Desc) <==> ordering == "DESC"
  {
    assert "ASC"[0] != "DESC"[0];
  }

  /** Table `i` is the first one of the batch with this name. */
  predicate IsFirst(batch: seq<TableInformation>, name: string, i: nat) {
    i < |batch| && batch[i].tableName == name && forall j :: 0 <= j < i ==> batch[j].tableName != name
  }

  predicate IsOwnColumn(batch: seq<TableInformation>, name: string, c: string) {
    exists i :: 0 <= i < |batch| && IsFirst(batch, name, i) && c in batch[i].columns
  }

  lemma FirstTail(batch: seq<TableInformation>, name: string, i: nat)
    requires |batch| > 0 && batch[0].tableName != name
    ensures IsFirst(batch, name, i + 1) <==> IsFirst(batch[1..], name, i)
  {
    assert forall j :: 0 < j < |batch| ==> batch[j] == batch[1..][j - 1];
  }

  lemma {:induction false} ColumnsExact(batch: seq<TableInformation>, name: string, c: string)
    ensures c in ColumnsOf(batch, name) <==> IsOwnColumn(batch, name, c)
  {
    if |batch| > 0 && batch[0].tableName == name {
      assert IsFirst(batch, name, 0);
      assert forall i :: 0 < i < |batch| ==> !IsFirst(batch, name, i);
      hide IsFirst;
    } else if |batch| > 0 {
      ColumnsExact(batch[1..], name, c);
      assert !IsFirst(batch, name, 0);
      hide IsFirst, ColumnsOf;
      forall i | 0 <= i < |batch| - 1
        ensures IsFirst(batch, name, i + 1) <==> IsFirst(batch[1..], name, i)
      {
        FirstTail(batch, name, i);
      }
      forall i | 0 < i < |batch|
        ensures IsFirst(batch, name, i) <==> IsFirst(batch[1..], name, i - 1)
      {
        FirstTail(batch, name, i - 1);
      }
    }
  }

  lemma {:induction false} WidgetsConcat(a: seq<GeneratedWidget>, b: seq<GeneratedWidget>, valid: seq<string>)
    ensures WidgetsOf(a + b, valid) == WidgetsOf(a, valid) + WidgetsOf(b, valid)
  {
    hide KeptWidget;
    if |a| == 0 {
      assert a + b == b;
    } else {
      WidgetsConcat(a[1..], b, valid);
      assert (a + b)[1..] == a[1..] + b;
    }
  }

  /** How often a list of an answer names a column; a missing list names none. */
  function Times(columns: Option<seq<string>>, c: string): nat {
    if columns.Some? then multiset(columns.value)[c] else 0
  }

  lemma ShownTimes(columns: Option<seq<string>>, valid: seq<string>, c: string)
    ensures multiset(FilterValidColumns(columns, valid))[c] == if c in valid then Times(columns, c) else 0
  {
    if columns.Some? {
      FilteredCounts(columns.value, valid, c);
    }
  }

  /** What a setting shows: of what the answer names, exactly the columns of its own table. */
  lemma EntityExact(g: Generated, batch: seq<TableInformation>, c: string)
    requires g.widgets.Some?
    ensures var e, own := Entity(g, batch), IsOwnColumn(batch, g.tableName, c);
            && multiset(e.searchFields)[c] == (if own then Times(g.searchFields, c) else 0)
            && multiset(e.readonlyFields)[c] == (if own then Times(g.readonlyFields, c) else 0)
            && multiset(e.columnsView)[c] == (if own then Times(g.columnsView, c) else 0)
            && (e.orderingField == Some(c) <==> own && g.orderingField == c)
            && e.tableName == g.tableName
            && (e.ordering == Some(Asc) <==> g.ordering == "ASC") && (e.ordering == Some(Desc) <==> g.ordering == "DESC")
            && ((exists w :: w in e.widgets && w.fieldName == c) <==>
                own && exists w :: w in g.widgets.value && w.fieldName == c && KnownWidgetType(w.widgetType) && w.widgetType != FOREIGN_KEY)
  {
    var e, valid := Entity(g, batch), ColumnsOf(batch, g.tableName);
    OrderingExact(g.ordering);
    ColumnsExact(batch, g.tableName, c);
    ShownTimes(g.searchFields, valid, c);
    ShownTimes(g.readonlyFields, valid, c);
    ShownTimes(g.columnsView, valid, c);
    hide MapOrdering, KnownWidgetType, ColumnsOf, IsOwnColumn, Times, FilterValidColumns;
    if exists w :: w in g.widgets.value && KeptWidget(w, valid) && w.fieldName == c {
      var w :| w in g.widgets.value && KeptWidget(w, valid) && w.fieldName == c;
      assert Widget(w.fieldName, w.widgetType, w.name, w.params) in e.widgets;
    }
  }

  /** Entries without a `widgets` array make the whole answer fail. */
  predicate Buildable(gs: seq<Generated>) {
    forall i :: 0 <= i < |gs| ==> gs[i].widgets.Some?
  }

  function Entities(gs: seq<Generated>, batch: seq<TableInformation>): seq<Settings>
    requires Buildable(gs)
  {
    seq(|gs|, i requires 0 <= i < |gs| => Entity(gs[i], batch))
  }

  function Process(ai: AI, n: nat, batch: seq<TableInformation>): Option<seq<Settings>> {
    match ai(n, batch)
    case None => None
    case Some(gs) => if Buildable(gs) then Some(Entities(gs, batch)) else None
  }

  /** An answer is built entry by entry, or fails as a whole. */
  lemma ProcessExact(ai: AI, n: nat, batch: seq<TableInformation>)
    ensures var answer, settings := ai(n, batch), Process(ai, n, batch);
            && (settings.Some? <==> answer.Some? && forall g :: g in answer.value ==> g.widgets.Some?)
            && (settings.Some? ==>
                  && |settings.value| == |answer.value|
                  && forall i :: 0 <= i < |answer.value| ==> answer.value[i].widgets.Some? && settings.value[i] == Entity(answer.value[i], batch))
  {
    hide Entity;
    var answer := ai(n, batch);
    if answer.Some? && Buildable(answer.value) {
      forall g | g in answer.value
        ensures g.widgets.Some?
      {
        var i :| 0 <= i < |answer.value| && answer.value[i] == g;
      }
    }
  }

  // ----- What the loops do -----

  predicate IsStart(i: nat) {
    i % AI_BATCH_SIZE == 0
  }

  lemma NextStart(i: nat)
    ensures IsStart(0)
    ensures IsStart(i) ==> IsStart(i + AI_BATCH_SIZE)
  {}

  datatype Call = Call(batch: seq<TableInformation>, answered: bool)

  datatype Run = Run(settings: seq<Settings>, calls: seq<Call>)

  function Then(a: Run, b: Run): Run {
    Run(a.settings + b.settings, a.calls + b.calls)
  }

  function Attempt(ai: AI, n: nat, batch: seq<TableInformation>): Run {
    match Process(ai, n, batch)
    case None => Run([], [Call(batch, false)])
    case Some(settings) => Run(settings, [Call(batch, true)])
  }

  /** Each table alone, after `n` earlier calls. */
  function Singles(ai: AI, n: nat, tables: seq<TableInformation>): Run {
    if |tables| == 0 then Run([], [])
    else
      var k := |tables| - 1;
      Then(Singles(ai, n, tables[..k]), Attempt(ai, n + k, [tables[k]]))
  }

  function OneBatch(ai: AI, n: nat, batch: seq<TableInformation>): Run {
    if Process(ai, n, batch).Some? then Attempt(ai, n, batch)
    else Then(Attempt(ai, n, batch), Singles(ai, n + 1, batch))
  }

  /** Where the last batch of `count` tables starts. */
  function LastStart(count: nat): (start: nat)
    requires count > 0
    ensures IsStart(start) && start < count <= start + AI_BATCH_SIZE
  {
    (count - 1) / AI_BATCH_SIZE * AI_BATCH_SIZE
  }

  function Generate(ai: AI, tables: seq<TableInformation>): Run {
    if |tables| == 0 then Run([], [])
    else
      var start := LastStart(|tables|);
      var before := Generate(ai, tables[..start]);
      Then(before, OneBatch(ai, |before.calls|, tables[start..]))
  }

  lemma {:induction false} SinglesAskOneByOne(ai: AI, n: nat, tables: seq<TableInformation>)
    ensures var calls := Singles(ai, n, tables).calls;
            |calls| == |tables| && forall i :: 0 <= i < |tables| ==> calls[i].batch == [tables[i]]
  {
    hide Process;
    if |tables| > 0 {
      SinglesAskOneByOne(ai, n, tables[..|tables| - 1]);
    }
  }

  lemma SinglesSnoc(ai: AI, n: nat, tables: seq<TableInformation>, k: nat)
    requires k < |tables|
    ensures Singles(ai, n, tables[..k + 1]) == Then(Singles(ai, n, tables[..k]), Attempt(ai, n + k, [tables[k]]))
  {
    assert tables[..k + 1][..k] == tables[..k];
  }

  /** The inner loop: each table of a failed batch alone; failures are skipped. */
  method ProcessIndividually(ai: AI, n: nat, batch: seq<TableInformation>)
    returns (settings: seq<Settings>, calls: seq<Call>)
    ensures Run(settings, calls) == Singles(ai, n, batch)
  {
    hide Process;
    settings, calls := [], [];
    assert batch[..0] == [];
    for k := 0 to |batch|
      invariant |calls| == k && Run(settings, calls) == Singles(ai, n, batch[..k])
    {
      var single := Process(ai, n + |calls|, [batch[k]]);
      calls := calls + [Call([batch[k]], single.Some?)];
      if single.Some? {
        settings := settings + single.value;
      }
      SinglesSnoc(ai, n, batch, k);
    }
    assert batch[..|batch|] == batch;
  }

  /** One round of the outer loop: the batch in one call, or, when that fails, table by table. */
  method ProcessOrFallBack(ai: AI, n: nat, batch: seq<TableInformation>)
    returns (settings: seq<Settings>, calls: seq<Call>)
    ensures Run(settings, calls) == OneBatch(ai, n, batch)
  {
    hide Process, Singles;
    var batchSettings := Process(ai, n, batch);
    if batchSettings.Some? {
      settings, calls := batchSettings.value, [Call(batch, true)];
    } else {
      settings, calls := ProcessIndividually(ai, n + 1, batch);
      calls := [Call(batch, false)] + calls;
    }
  }

  lemma GenerateSnoc(ai: AI, tables: seq<TableInformation>, i: nat, end: nat)
    requires IsStart(i) && i < end <= |tables| && end <= i + AI_BATCH_SIZE
    ensures var before := Generate(ai, tables[..i]);
            Generate(ai, tables[..end]) == Then(before, OneBatch(ai, |before.calls|, tables[i..end]))
  {
    hide OneBatch;
    assert LastStart(end) == i;
    assert tables[..end][..i] == tables[..i] && tables[..end][i..] == tables[i..end];
  }

  method GenerateNewTableSettingsWithAI(ai: AI, tables: seq<TableInformation>)
    returns (allSettings: seq<Settings>, calls: seq<Call>)
    ensures Run(allSettings, calls) == Generate(ai, tables)
  {
    hide OneBatch, IsStart;
    allSettings, calls := [], [];
    var i := 0;
    ghost var done := 0;
    assert tables[..0] == [];
    NextStart(0);
    while i < |tables|
      invariant done == if i < |tables| then i else |tables|
      invariant IsStart(i)
      invariant Run(allSettings, calls) == Generate(ai, tables[..done])
    {
      var end := if i + AI_BATCH_SIZE < |tables| then i + AI_BATCH_SIZE else |tables|;
      var settings, more := ProcessOrFallBack(ai, |calls|, tables[i..end]);
      GenerateSnoc(ai, tables, i, end);
      NextStart(i);
      allSettings, calls := allSettings + settings, calls + more;
      i, done := i + AI_BATCH_SIZE, end;
    }
    assert tables[..|tables|] == tables;
  }

  // ----- What the calls answer -----

  /** The settings that the calls of a log gave, when the first of them was the AI's call number `n`. */
  function GivenBy(ai: AI, n: nat, calls: seq<Call>): seq<Settings> {
    if |calls| == 0 then []
    else
      var k := |calls| - 1;
      var answer := Process(ai, n + k, calls[k].batch);
      GivenBy(ai, n, calls[..k]) + if answer.Some? then answer.value else []
  }

  predicate Honest(ai: AI, n: nat, calls: seq<Call>) {
    forall k :: 0 <= k < |calls| ==> (calls[k].answered <==> Process(ai, n + k, calls[k].batch).Some?)
  }

  predicate LogExplains(ai: AI, n: nat, r: Run) {
    Honest(ai, n, r.calls) && r.settings == GivenBy(ai, n, r.calls)
  }

  lemma {:induction false} GivenConcat(ai: AI, n: nat, a: seq<Call>, b: seq<Call>)
    ensures GivenBy(ai, n, a + b) == GivenBy(ai, n, a) + GivenBy(ai, n + |a|, b)
  {
    hide Process;
    if |b| == 0 {
      assert a + b == a;
    } else {
      GivenConcat(ai, n, a, b[..|b| - 1]);
      assert (a + b)[..|a + b| - 1] == a + b[..|b| - 1];
    }
  }

  lemma ThenExplained(ai: AI, n: nat, a: Run, b: Run)
    requires LogExplains(ai, n, a) && LogExplains(ai, n + |a.calls|, b)
    ensures LogExplains(ai, n, Then(a, b))
  {
    GivenConcat(ai, n, a.calls, b.calls);
    hide Process, GivenBy;
  }

  lemma AttemptExplained(ai: AI, n: nat, batch: seq<TableInformation>)
    ensures LogExplains(ai, n, Attempt(ai, n, batch))
  {
    assert GivenBy(ai, n, []) == [];
    hide Process;
  }

  lemma NothingExplained(ai: AI, n: nat)
    ensures LogExplains(ai, n, Run([], []))
  {
    assert GivenBy(ai, n, []) == [];
  }

  lemma NoTables(ai: AI, n: nat)
    ensures Singles(ai, n, []) == Run([], []) && Generate(ai, []) == Run([], [])
  {}

  lemma {:induction false} SinglesExplained(ai: AI, n: nat, tables: seq<TableInformation>)
    ensures LogExplains(ai, n, Singles(ai, n, tables))
  {
    hide *;
    if tables == [] {
      NoTables(ai, n);
      NothingExplained(ai, n);
    } else {
      var k := |tables| - 1;
      SinglesSnoc(ai, n, tables, k);
      assert tables[..k + 1] == tables;
      SinglesExplained(ai, n, tables[..k]);
      SinglesAskOneByOne(ai, n, tables[..k]);
      AttemptExplained(ai, n + k, [tables[k]]);
      ThenExplained(ai, n, Singles(ai, n, tables[..k]), Attempt(ai, n + k, [tables[k]]));
    }
  }

  lemma BatchIs(ai: AI, n: nat, batch: seq<TableInformation>)
    ensures |Attempt(ai, n, batch).calls| == 1
    ensures OneBatch(ai, n, batch) == Attempt(ai, n, batch)
            || OneBatch(ai, n, batch) == Then(Attempt(ai, n, batch), Singles(ai, n + 1, batch))
  {
    hide Process, Singles;
  }

  lemma BatchExplained(ai: AI, n: nat, batch: seq<TableInformation>)
    ensures LogExplains(ai, n, OneBatch(ai, n, batch))
  {
    hide *;
    BatchIs(ai, n, batch);
    AttemptExplained(ai, n, batch);
    SinglesExplained(ai, n + 1, batch);
    ThenExplained(ai, n, Attempt(ai, n, batch), Singles(ai, n + 1, batch));
  }

  /** The k-th call is the AI's k-th answer, and the settings are what the answered calls gave, in order. */
  lemma {:induction false} CallsExplainSettings(ai: AI, tables: seq<TableInformation>)
    ensures LogExplains(ai, 0, Generate(ai, tables))
  {
    hide *;
    if tables == [] {
      NoTables(ai, 0);
      NothingExplained(ai, 0);
    } else {
      var start := LastStart(|tables|);
      var before := Generate(ai, tables[..start]);
      GenerateSnoc(ai, tables, start, |tables|);
      assert tables[start..|tables|] == tables[start..] && tables[..|tables|] == tables;
      CallsExplainSettings(ai, tables[..start]);
      BatchExplained(ai, |before.calls|, tables[start..]);
      ThenExplained(ai, 0, before, OneBatch(ai, |before.calls|, tables[start..]));
    }
  }

  // ----- Coverage -----

  lemma BatchCalls(ai: AI, n: nat, batch: seq<TableInformation>)
    ensures var calls := OneBatch(ai, n, batch).calls;
            && |calls| > 0 && calls[0].batch == batch
            && (if calls[0].answered then |calls| == 1
                else |calls| == 1 + |batch| && forall i :: 0 <= i < |batch| ==> calls[1 + i].batch == [batch[i]])
  {
    hide Process, Singles;
    SinglesAskOneByOne(ai, n + 1, batch);
  }

  function BatchOf(tables: seq<TableInformation>, k: nat): seq<TableInformation>
    requires k < |tables|
  {
    var start := LastStart(k + 1);
    tables[start..if start + AI_BATCH_SIZE < |tables| then start + AI_BATCH_SIZE else |tables|]
  }

  /** Call `j` asked about the batch of table `k` and, if it failed, a later call asked about `k` alone. */
  predicate TriedAt(tables: seq<TableInformation>, calls: seq<Call>, k: nat, j: nat)
    requires k < |tables|
  {
    && j < |calls| && calls[j].batch == BatchOf(tables, k)
    && (!calls[j].answered ==>
          j + 1 + k % AI_BATCH_SIZE < |calls| && calls[j + 1 + k % AI_BATCH_SIZE].batch == [tables[k]])
  }

  lemma OffsetInBatch(k: nat, start: nat)
    requires IsStart(start) && start <= k < start + AI_BATCH_SIZE
    ensures k % AI_BATCH_SIZE == k - start && LastStart(k + 1) == start
  {}

  lemma {:induction false} EveryTableIsTried(ai: AI, tables: seq<TableInformation>, k: nat) returns (j: nat)
    requires k < |tables|
    ensures TriedAt(tables, Generate(ai, tables).calls, k, j)
  {
    hide OneBatch, LastStart;
    var start := LastStart(|tables|);
    var before := Generate(ai, tables[..start]).calls;
    if k < start {
      j := EveryTableIsTried(ai, tables[..start], k);
      BatchOfEarlier(tables, start, k);
    } else {
      j := |before|;
      OffsetInBatch(k, start);
      var last := OneBatch(ai, j, tables[start..]).calls;
      BatchCalls(ai, j, tables[start..]);
      assert BatchOf(tables, k) == tables[start..];
      if !last[0].answered {
        assert (before + last)[j + 1 + (k - start)] == last[1 + (k - start)];
      }
    }
  }

  lemma BatchOfEarlier(tables: seq<TableInformation>, start: nat, k: nat)
    requires IsStart(start) && k < start <= |tables|
    ensures BatchOf(tables[..start], k) == BatchOf(tables, k)
  {}

  function Ceiling(n: nat): nat {
    (n + AI_BATCH_SIZE - 1) / AI_BATCH_SIZE
  }

  predicate NoneFailed(calls: seq<Call>) {
    forall j :: 0 <= j < |calls| ==> calls[j].answered
  }

  lemma CeilingStep(count: nat)
    requires count > 0
    ensures Ceiling(count) == Ceiling(LastStart(count)) + 1
  {}

  /** At most one call a batch and one a table; just one a batch exactly when no call fails. */
  lemma {:induction false} CallBounds(ai: AI, tables: seq<TableInformation>)
    ensures var calls := Generate(ai, tables).calls;
            && Ceiling(|tables|) <= |calls| <= |tables| + Ceiling(|tables|)
            && (|calls| == Ceiling(|tables|) <==> NoneFailed(calls))
  {
    if |tables| > 0 {
      CeilingStep(|tables|);
      hide OneBatch, LastStart, Ceiling;
      var start := LastStart(|tables|);
      CallBounds(ai, tables[..start]);
      var before := Generate(ai, tables[..start]).calls;
      var last := OneBatch(ai, |before|, tables[start..]).calls;
      BatchCalls(ai, |before|, tables[start..]);
      NoneFailedConcat(before, last);
      assert !NoneFailed(last) <==> !last[0].answered;
    }
  }

  lemma NoneFailedConcat(a: seq<Call>, b: seq<Call>)
    ensures NoneFailed(a + b) <==> NoneFailed(a) && NoneFailed(b)
  {
    if NoneFailed(a + b) {
      assert forall j :: 0 <= j < |a| ==> a[j] == (a + b)[j];
      assert forall j :: 0 <= j < |b| ==> b[j] == (a + b)[|a| + j];
    }
  }

  // ----- Every setting is real -----

  ghost predicate RealColumn(c: string, name: string, tables: seq<TableInformation>) {
    exists t :: t in tables && t.tableName == name && c in t.columns
  }

  ghost predicate RealSettings(s: Settings, tables: seq<TableInformation>) {
    && (forall c :: c in s.searchFields || c in s.readonlyFields || c in s.columnsView ==> RealColumn(c, s.tableName, tables))
    && (s.orderingField.Some? ==> RealColumn(s.orderingField.value, s.tableName, tables))
    && (forall w :: w in s.widgets ==>
          RealColumn(w.fieldName, s.tableName, tables) && KnownWidgetType(w.widgetType) && w.widgetType != FOREIGN_KEY)
  }

  ghost predicate AllReal(ss: seq<Settings>, tables: seq<TableInformation>) {
    forall i :: 0 <= i < |ss| ==> RealSettings(ss[i], tables)
  }

  lemma EntityIsReal(g: Generated, batch: seq<TableInformation>, tables: seq<TableInformation>)
    requires g.widgets.Some? && forall t :: t in batch ==> t in tables
    ensures RealSettings(Entity(g, batch), tables)
  {}

  lemma AttemptIsReal(ai: AI, n: nat, batch: seq<TableInformation>, tables: seq<TableInformation>)
    requires forall t :: t in batch ==> t in tables
    ensures AllReal(Attempt(ai, n, batch).settings, tables)
  {
    hide RealSettings, Entity;
    var answer := ai(n, batch);
    if answer.Some? && Buildable(answer.value) {
      var gs := answer.value;
      forall i | 0 <= i < |gs|
        ensures RealSettings(Entity(gs[i], batch), tables)
      {
        EntityIsReal(gs[i], batch, tables);
      }
    }
  }

  lemma {:induction false} SinglesAreReal(ai: AI, n: nat, batch: seq<TableInformation>, tables: seq<TableInformation>)
    requires forall t :: t in batch ==> t in tables
    ensures AllReal(Singles(ai, n, batch).settings, tables)
  {
    hide RealSettings, Attempt;
    if |batch| > 0 {
      var k := |batch| - 1;
      SinglesAreReal(ai, n, batch[..k], tables);
      AttemptIsReal(ai, n + k, [batch[k]], tables);
    }
  }

  /** Whatever the AI answers, settings name only real columns of their table, and no Foreign_key widget. */
  lemma {:induction false} SettingsAreReal(ai: AI, tables: seq<TableInformation>, all: seq<TableInformation>)
    requires forall t :: t in tables ==> t in all
    ensures AllReal(Generate(ai, tables).settings, all)
  {
    hide RealSettings, Attempt, Process;
    if |tables| > 0 {
      var start := LastStart(|tables|);
      SettingsAreReal(ai, tables[..start], all);
      var n := |Generate(ai, tables[..start]).calls|;
      AttemptIsReal(ai, n, tables[start..], all);
      SinglesAreReal(ai, n + 1, tables[start..], all);
    }
  }

  lemma {:induction false} NothingValid(columns: seq<string>)
    ensures Filtered(columns, []) == []
  {
    if |columns| > 0 {
      NothingValid(columns[1..]);
    }
  }

  lemma {:induction false} NoWidgetValid(ws: seq<GeneratedWidget>)
    ensures WidgetsOf(ws, []) == []
  {
    if |ws| > 0 {
      NoWidgetValid(ws[1..]);
    }
  }

  lemma {:induction false} NoColumns(batch: seq<TableInformation>, name: string)
    requires forall t :: t in batch ==> t.tableName != name
    ensures ColumnsOf(batch, name) == []
  {
    if |batch| > 0 {
      assert batch[0] in batch && forall t :: t in batch[1..] ==> t in batch;
      NoColumns(batch[1..], name);
    }
  }

  /** An entry for a table that was not asked about is emptied. */
  lemma UnaskedIsEmptied(g: Generated, batch: seq<TableInformation>)
    requires g.widgets.Some? && forall t :: t in batch ==> t.tableName != g.tableName
    ensures Entity(g, batch) == Settings(g.tableName, [], [], [], MapOrdering(g.ordering), None, [])
  {
    NoColumns(batch, g.tableName);
    hide Filtered, WidgetsOf, MapOrdering, ColumnsOf;
    NoWidgetValid(g.widgets.value);
    forall columns
      ensures Filtered(columns, []) == []
    {
      NothingValid(columns);
    }
  }

  lemma OneRound(ai: AI, tables: seq<TableInformation>)
    requires 0 < |tables| <= AI_BATCH_SIZE
    ensures Generate(ai, tables) == OneBatch(ai, 0, tables)
  {
    hide OneBatch;
    GenerateSnoc(ai, tables, 0, |tables|);
    assert tables[..0] == [] && tables[0..|tables|] == tables && tables[..|tables|] == tables;
    assert Generate(ai, []) == Run([], []);
  }

  lemma OneEntry(ai: AI, n: nat, batch: seq<TableInformation>, g: Generated)
    requires ai(n, batch) == Some([g]) && g.widgets.Some?
    ensures OneBatch(ai, n, batch).settings == [Entity(g, batch)]
  {
    hide Entity, Singles;
  }

  /** But it is kept: an AI that answers for another table than those asked about gets settings for it. */
  lemma UnaskedTableIsKept(ai: AI, tables: seq<TableInformation>, g: Generated)
    requires 0 < |tables| <= AI_BATCH_SIZE && ai(0, tables) == Some([g])
    requires g.widgets.Some? && forall t :: t in tables ==> t.tableName != g.tableName
    ensures Generate(ai, tables).settings == [Settings(g.tableName, [], [], [], MapOrdering(g.ordering), None, [])]
  {
    UnaskedIsEmptied(g, tables);
    OneRound(ai, tables);
    hide *;
    OneEntry(ai, 0, tables, g);
  }

  // ----- Batching and falling back do not change the result -----

  /** The tables of the answered calls, in order. */
  function AnsweredTables(calls: seq<Call>): seq<TableInformation> {
    if |calls| == 0 then []
    else
      var last := calls[|calls| - 1];
      AnsweredTables(calls[..|calls| - 1]) + if last.answered then last.batch else []
  }

  lemma {:induction false} AnsweredConcat(a: seq<Call>, b: seq<Call>)
    ensures AnsweredTables(a + b) == AnsweredTables(a) + AnsweredTables(b)
  {
    if |b| == 0 {
      assert a + b == a;
    } else {
      AnsweredConcat(a, b[..|b| - 1]);
      assert (a + b)[..|a + b| - 1] == a + b[..|b| - 1];
    }
  }

  lemma AnsweredAttempt(ai: AI, n: nat, batch: seq<TableInformation>)
    ensures AnsweredTables(Attempt(ai, n, batch).calls) == if Process(ai, n, batch).Some? then batch else []
  {
    assert AnsweredTables([]) == [];
  }

  /** A call that asks about one table is always answered. */
  ghost predicate SinglesAnswered(ai: AI) {
    forall n, t :: Process(ai, n, [t]).Some?
  }

  /** `answered` asks about no table twice; and is all of `tables`, in order, when `all` holds. */
  predicate Covers(answered: seq<TableInformation>, tables: seq<TableInformation>, all: bool) {
    multiset(answered) <= multiset(tables) && (all ==> answered == tables)
  }

  lemma CoversConcat(a: seq<Call>, ta: seq<TableInformation>, b: seq<Call>, tb: seq<TableInformation>, all: bool)
    requires Covers(AnsweredTables(a), ta, all) && Covers(AnsweredTables(b), tb, all)
    ensures Covers(AnsweredTables(a + b), ta + tb, all)
  {
    AnsweredConcat(a, b);
  }

  lemma AttemptCovers(ai: AI, n: nat, batch: seq<TableInformation>, all: bool)
    requires all ==> Process(ai, n, batch).Some?
    ensures Covers(AnsweredTables(Attempt(ai, n, batch).calls), batch, all)
  {
    AnsweredAttempt(ai, n, batch);
  }

  lemma EmptyCovers(all: bool)
    ensures Covers(AnsweredTables([]), [], all)
  {
    assert AnsweredTables([]) == [];
  }

  lemma {:induction false} SinglesCover(ai: AI, n: nat, tables: seq<TableInformation>)
    ensures Covers(AnsweredTables(Singles(ai, n, tables).calls), tables, SinglesAnswered(ai))
  {
    hide Attempt, Covers, Process, AnsweredTables;
    if |tables| == 0 {
      EmptyCovers(SinglesAnswered(ai));
    } else {
      var k := |tables| - 1;
      var init, last := tables[..k], tables[k];
      SinglesCover(ai, n, init);
      AttemptCovers(ai, n + k, [last], SinglesAnswered(ai));
      CoversConcat(Singles(ai, n, init).calls, init, Attempt(ai, n + k, [last]).calls, [last], SinglesAnswered(ai));
      assert tables == init + [last];
    }
  }

  lemma BatchCovers(ai: AI, n: nat, batch: seq<TableInformation>)
    ensures Covers(AnsweredTables(OneBatch(ai, n, batch).calls), batch, SinglesAnswered(ai))
  {
    if Process(ai, n, batch).Some? {
      AttemptCovers(ai, n, batch, SinglesAnswered(ai));
    } else {
      AnsweredAttempt(ai, n, batch);
      SinglesCover(ai, n + 1, batch);
      AnsweredConcat(Attempt(ai, n, batch).calls, Singles(ai, n + 1, batch).calls);
    }
  }

  /** No table is answered twice; and when no table fails on its own, each is answered once, in order. */
  lemma {:induction false} AnsweredOnce(ai: AI, tables: seq<TableInformation>)
    ensures Covers(AnsweredTables(Generate(ai, tables).calls), tables, SinglesAnswered(ai))
  {
    hide OneBatch, Covers, LastStart, SinglesAnswered;
    if |tables| == 0 {
      EmptyCovers(SinglesAnswered(ai));
    } else {
      var start := LastStart(|tables|);
      var before, batch := Generate(ai, tables[..start]), tables[start..];
      AnsweredOnce(ai, tables[..start]);
      BatchCovers(ai, |before.calls|, batch);
      CoversConcat(before.calls, tables[..start], OneBatch(ai, |before.calls|, batch).calls, batch, SinglesAnswered(ai));
      assert tables == tables[..start] + batch;
    }
  }

  type PerTable = TableInformation -> seq<Generated>

  function AnswersFor(one: PerTable, tables: seq<TableInformation>): seq<Generated> {
    if |tables| == 0 then [] else AnswersFor(one, tables[..|tables| - 1]) + one(tables[|tables| - 1])
  }

  /** Each table's own entries carry its name and are complete. */
  ghost predicate Proper(one: PerTable) {
    forall t :: Buildable(one(t)) && forall i :: 0 <= i < |one(t)| ==> one(t)[i].tableName == t.tableName
  }

  /** An answer, when there is one, is what each table alone would get. */
  ghost predicate Faithful(ai: AI, one: PerTable) {
    Proper(one) && forall n, batch :: ai(n, batch).Some? ==> ai(n, batch).value == AnswersFor(one, batch)
  }

  predicate DistinctNames(tables: seq<TableInformation>) {
    forall i, j :: 0 <= i < j < |tables| ==> tables[i].tableName != tables[j].tableName
  }

  function SettingsOneByOne(one: PerTable, tables: seq<TableInformation>): seq<Settings>
    requires forall t :: t in tables ==> Buildable(one(t))
  {
    if |tables| == 0 then []
    else
      var t := tables[|tables| - 1];
      SettingsOneByOne(one, tables[..|tables| - 1]) + Entities(one(t), [t])
  }

  lemma {:induction false} OneByOneConcat(one: PerTable, a: seq<TableInformation>, b: seq<TableInformation>)
    requires Proper(one)
    ensures SettingsOneByOne(one, a + b) == SettingsOneByOne(one, a) + SettingsOneByOne(one, b)
  {
    hide Entities;
    if |b| == 0 {
      assert a + b == a;
    } else {
      OneByOneConcat(one, a, b[..|b| - 1]);
      assert (a + b)[..|a + b| - 1] == a + b[..|b| - 1];
    }
  }

  lemma {:induction false} ColumnsOfOwn(batch: seq<TableInformation>, k: nat)
    requires k < |batch| && DistinctNames(batch)
    ensures ColumnsOf(batch, batch[k].tableName) == batch[k].columns
  {
    if k > 0 {
      ColumnsOfOwn(batch[1..], k - 1);
    }
  }

  lemma EntitiesConcat(a: seq<Generated>, b: seq<Generated>, batch: seq<TableInformation>)
    requires Buildable(a) && Buildable(b)
    ensures Buildable(a + b) && Entities(a + b, batch) == Entities(a, batch) + Entities(b, batch)
  {
    hide Entity;
  }

  /** A table's entries are cleaned the same in its batch and alone. */
  lemma EntitiesAlone(gs: seq<Generated>, batch: seq<TableInformation>, k: nat)
    requires k < |batch| && DistinctNames(batch) && Buildable(gs)
    requires forall i :: 0 <= i < |gs| ==> gs[i].tableName == batch[k].tableName
    ensures Entities(gs, batch) == Entities(gs, [batch[k]])
  {
    ColumnsOfOwn(batch, k);
    ColumnsOfOwn([batch[k]], 0);
    hide FilterValidColumns, WidgetsOf, MapOrdering, ColumnsOf;
  }

  /** Cleaning a batch's answer cleans each table's part against that table alone. */
  lemma {:induction false} EntitiesOneByOne(one: PerTable, batch: seq<TableInformation>, k: nat)
    requires Proper(one) && DistinctNames(batch) && k <= |batch|
    ensures Buildable(AnswersFor(one, batch[..k]))
    ensures Entities(AnswersFor(one, batch[..k]), batch) == SettingsOneByOne(one, batch[..k])
  {
    assert Entities([], batch) == [];
    hide DistinctNames, Entities;
    if k == 0 {
      assert batch[..0] == [];
    } else {
      var t := batch[k - 1];
      EntitiesOneByOne(one, batch, k - 1);
      assert batch[..k][..k - 1] == batch[..k - 1];
      EntitiesConcat(AnswersFor(one, batch[..k - 1]), one(t), batch);
      EntitiesAlone(one(t), batch, k - 1);
    }
  }

  lemma AttemptFollows(ai: AI, one: PerTable, n: nat, batch: seq<TableInformation>)
    requires Faithful(ai, one) && DistinctNames(batch)
    ensures var r := Attempt(ai, n, batch);
            r.settings == SettingsOneByOne(one, AnsweredTables(r.calls))
  {
    AnsweredAttempt(ai, n, batch);
    hide Entities, AnsweredTables;
    if ai(n, batch).Some? {
      EntitiesOneByOne(one, batch, |batch|);
      assert batch[..|batch|] == batch;
    }
  }

  lemma ThenFollows(one: PerTable, a: Run, b: Run)
    requires Proper(one)
    requires a.settings == SettingsOneByOne(one, AnsweredTables(a.calls))
    requires b.settings == SettingsOneByOne(one, AnsweredTables(b.calls))
    ensures Then(a, b).settings == SettingsOneByOne(one, AnsweredTables(Then(a, b).calls))
  {
    AnsweredConcat(a.calls, b.calls);
    OneByOneConcat(one, AnsweredTables(a.calls), AnsweredTables(b.calls));
  }

  lemma {:induction false} SinglesFollow(ai: AI, one: PerTable, n: nat, tables: seq<TableInformation>)
    requires Faithful(ai, one)
    ensures var r := Singles(ai, n, tables);
            r.settings == SettingsOneByOne(one, AnsweredTables(r.calls))
  {
    hide Attempt;
    if |tables| > 0 {
      var k := |tables| - 1;
      SinglesFollow(ai, one, n, tables[..k]);
      AttemptFollows(ai, one, n + k, [tables[k]]);
      ThenFollows(one, Singles(ai, n, tables[..k]), Attempt(ai, n + k, [tables[k]]));
    }
  }

  /** The result is what asking one table at a time gives, over the tables that some call answered. */
  lemma {:induction false} BatchingIsTransparent(ai: AI, one: PerTable, tables: seq<TableInformation>)
    requires Faithful(ai, one) && DistinctNames(tables)
    ensures var r := Generate(ai, tables);
            && r.settings == SettingsOneByOne(one, AnsweredTables(r.calls))
            && (SinglesAnswered(ai) ==> r.settings == SettingsOneByOne(one, tables))
  {
    AnsweredOnce(ai, tables);
    hide Attempt, Process;
    if |tables| > 0 {
      var start := LastStart(|tables|);
      var before, batch := Generate(ai, tables[..start]), tables[start..];
      var n := |before.calls|;
      BatchingIsTransparent(ai, one, tables[..start]);
      AttemptFollows(ai, one, n, batch);
      SinglesFollow(ai, one, n + 1, batch);
      ThenFollows(one, Attempt(ai, n, batch), Singles(ai, n + 1, batch));
      ThenFollows(one, before, OneBatch(ai, n, batch));
    }
  }
}
