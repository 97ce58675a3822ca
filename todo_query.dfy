/** `todo_query`: the top page of a user. The handler reads the user from the
    ID token, scans the user's todos, converts their two dates for display,
    splits them into cleared and not cleared, and counts the cleared ones by
    menu name (the pie chart) and by clear date (the line chart). */
module TodoQuery {
  import opened Values
  import opened Dates
  import opened Http
  import opened DynamodbLayer
  import opened Grouping

  /** A todo as shown: `clear_plan` and `created_at` converted to date
      strings (lines 81-82), then `is_cleared` read (line 83). */
  function Displayed(item: Item, codec: DateCodec): (r: Result<Item>)
    ensures "clear_plan" !in item ==> r == Raise(KeyError("clear_plan"))
    ensures r.Ok? <==> ("clear_plan" in item && DecodeDate(codec, item["clear_plan"]).Ok?
                        && "created_at" in item && DecodeDate(codec, item["created_at"]).Ok?
                        && "is_cleared" in item)
    ensures r.Ok? ==> r.value.Keys == item.Keys
                      && r.value["clear_plan"] == Str(DecodeDate(codec, item["clear_plan"]).value)
                      && r.value["created_at"] == Str(DecodeDate(codec, item["created_at"]).value)
                      && (forall k :: k in item && k != "clear_plan" && k != "created_at" ==> r.value[k] == item[k])
  {
    if "clear_plan" !in item then Raise(KeyError("clear_plan"))
    else match DecodeDate(codec, item["clear_plan"])
      case Raise(e) => Raise(e)
      case Ok(plan) =>
        if "created_at" !in item then Raise(KeyError("created_at"))
        else match DecodeDate(codec, item["created_at"])
          case Raise(e) => Raise(e)
          case Ok(created) =>
            if "is_cleared" !in item then Raise(KeyError("is_cleared"))
            else Ok(item["clear_plan" := Str(plan)]["created_at" := Str(created)])
  }

  /** Every todo of the scan, as shown, in scan order; the first todo that
      cannot be shown stops the walk with its error. */
  function DisplayAll(rows: seq<Item>, codec: DateCodec): (r: Result<seq<Item>>)
    ensures r.Ok? <==> forall i :: 0 <= i < |rows| ==> Displayed(rows[i], codec).Ok?
    ensures r.Ok? ==> |r.value| == |rows|
                      && forall i :: 0 <= i < |rows| ==> r.value[i] == Displayed(rows[i], codec).value
    ensures r.Raise? ==> exists i :: 0 <= i < |rows| && Displayed(rows[i], codec).Raise?
                                     && r.error == Displayed(rows[i], codec).error
                                     && forall j :: 0 <= j < i ==> Displayed(rows[j], codec).Ok?
    decreases |rows|
  {
    if rows == [] then Ok([])
    else
      var front := rows[..|rows| - 1];
      match DisplayAll(front, codec)
      case Raise(e) =>
        assert forall j :: 0 <= j < |front| ==> front[j] == rows[j];
        Raise(e)
      case Ok(shown) =>
        match Displayed(rows[|rows| - 1], codec)
        case Raise(e) => Raise(e)
        case Ok(x) => Ok(shown + [x])
  }

  /** The truth value of `item["is_cleared"]` (line 83). */
  predicate IsCleared(item: Item)
  {
    "is_cleared" in item && Truthy(item["is_cleared"])
  }

  /** `clear_todos`: the shown todos that are cleared, in order. */
  function Cleared(s: seq<Item>): seq<Item>
    decreases |s|
  {
    if s == [] then []
    else Cleared(s[..|s| - 1]) + (if IsCleared(s[|s| - 1]) then [s[|s| - 1]] else [])
  }

  /** `non_clear_todos`: the shown todos that are not cleared, in order. */
  function NotCleared(s: seq<Item>): seq<Item>
    decreases |s|
  {
    if s == [] then []
    else NotCleared(s[..|s| - 1]) + (if IsCleared(s[|s| - 1]) then [] else [s[|s| - 1]])
  }

  /** The two lists split the todos: together they hold each one exactly once. */
  lemma {:induction false} ClearedPartition(s: seq<Item>)
    ensures |Cleared(s)| + |NotCleared(s)| == |s|
    ensures multiset(Cleared(s)) + multiset(NotCleared(s)) == multiset(s)
    decreases |s|
  {
    if s != [] {
      var front, last := s[..|s| - 1], s[|s| - 1];
      ClearedPartition(front);
      assert s == front + [last];
      if IsCleared(last) {
        assert Cleared(s) == Cleared(front) + [last] && NotCleared(s) == NotCleared(front);
      } else {
        assert Cleared(s) == Cleared(front) && NotCleared(s) == NotCleared(front) + [last];
      }
    }
  }

  /** `clear_todos` holds exactly the cleared todos, `non_clear_todos` the others. */
  lemma {:induction false} ClearedMembers(s: seq<Item>, x: Item)
    ensures x in Cleared(s) <==> x in s && IsCleared(x)
    ensures x in NotCleared(s) <==> x in s && !IsCleared(x)
    decreases |s|
  {
    if s != [] {
      var front, last := s[..|s| - 1], s[|s| - 1];
      ClearedMembers(front, x);
      assert s == front + [last];
    }
  }

  /** Lines 79-86: convert each todo in place and append it to one of the
      two lists. */
  method SplitByCleared(rows: seq<Item>, codec: DateCodec) returns (r: Result<(seq<Item>, seq<Item>)>)
    ensures r.Raise? ==> DisplayAll(rows, codec) == Raise(r.error)
    ensures r.Ok? ==> DisplayAll(rows, codec).Ok?
                      && r.value == (NotCleared(DisplayAll(rows, codec).value), Cleared(DisplayAll(rows, codec).value))
  {
    var nonClear: seq<Item> := [];
    var clear: seq<Item> := [];
    for i := 0 to |rows|
      invariant DisplayAll(rows[..i], codec).Ok?
      invariant nonClear == NotCleared(DisplayAll(rows[..i], codec).value)
      invariant clear == Cleared(DisplayAll(rows[..i], codec).value)
    {
      assert rows[..i + 1][..i] == rows[..i];
      var shown := Displayed(rows[i], codec);
      if shown.Raise? {
        DisplayAllStops(rows, i + 1, codec);
        return Raise(shown.error);
      }
      var item := shown.value;
      ghost var before := DisplayAll(rows[..i], codec).value;
      assert DisplayAll(rows[..i + 1], codec).value == before + [item];
      assert (before + [item])[..|before|] == before;
      if IsCleared(item) {
        clear := clear + [item];
      } else {
        nonClear := nonClear + [item];
      }
    }
    assert rows[..|rows|] == rows;
    return Ok((nonClear, clear));
  }

  /** A prefix that cannot be shown stops the walk of the whole scan. */
  lemma {:induction false} DisplayAllStops(rows: seq<Item>, n: nat, codec: DateCodec)
    requires n <= |rows|
    requires DisplayAll(rows[..n], codec).Raise?
    ensures DisplayAll(rows, codec) == DisplayAll(rows[..n], codec)
    decreases |rows| - n
  {
    if n < |rows| {
      var front := rows[..|rows| - 1];
      assert front[..n] == rows[..n];
      DisplayAllStops(front, n, codec);
    } else {
      assert rows[..n] == rows;
    }
  }

  /** One entry of `chart_data` (line 43): the menu name and the clear date
      as a date string, read in that order. */
  function ChartRow(todo: Item, codec: DateCodec): (r: Result<Item>)
    ensures "name" !in todo ==> r == Raise(KeyError("name"))
    ensures r.Ok? <==> "name" in todo && "clear_date" in todo && DecodeDate(codec, todo["clear_date"]).Ok?
    ensures r.Ok? ==> r.value.Keys == {"name", "clear_date"}
                      && r.value["name"] == todo["name"]
                      && r.value["clear_date"] == Str(DecodeDate(codec, todo["clear_date"]).value)
  {
    if "name" !in todo then Raise(KeyError("name"))
    else if "clear_date" !in todo then Raise(KeyError("clear_date"))
    else match DecodeDate(codec, todo["clear_date"])
      case Raise(e) => Raise(e)
      case Ok(date) => Ok(map["name" := todo["name"], "clear_date" := Str(date)])
  }

  /** `chart_data`: one entry per cleared todo, in order; the first todo that
      cannot be charted stops the comprehension with its error. Every entry
      is keyed by a string clear date. */
  function ChartRows(todos: seq<Item>, codec: DateCodec): (r: Result<seq<Item>>)
    ensures r.Ok? <==> forall i :: 0 <= i < |todos| ==> ChartRow(todos[i], codec).Ok?
    ensures r.Ok? ==> |r.value| == |todos|
                      && (forall i :: 0 <= i < |todos| ==> r.value[i] == ChartRow(todos[i], codec).value)
                      && Keyed(r.value, "clear_date")
    ensures r.Raise? ==> exists i :: 0 <= i < |todos| && ChartRow(todos[i], codec).Raise?
                                     && r.error == ChartRow(todos[i], codec).error
                                     && forall j :: 0 <= j < i ==> ChartRow(todos[j], codec).Ok?
    decreases |todos|
  {
    if todos == [] then Ok([])
    else
      match ChartRow(todos[0], codec)
      case Raise(e) => Raise(e)
      case Ok(row) =>
        match ChartRows(todos[1..], codec)
        case Raise(e) =>
          assert forall j :: 0 <= j < |todos| - 1 ==> todos[1..][j] == todos[j + 1];
          Raise(e)
        case Ok(rest) => Ok([row] + rest)
  }

  /** The chart of lines 44-48. */
  datatype Chart = Chart(pie: map<string, nat>, line: map<string, nat>)

  /** What the chart should hold: for the entries of `chart_data`, how often
      each menu name and each clear date occurs. A name that is not a string
      makes the grouping fail with `TypeError`. */
  function ChartOf(todos: seq<Item>, codec: DateCodec): (r: Result<Chart>)
  {
    match ChartRows(todos, codec)
    case Raise(e) => Raise(e)
    case Ok(rows) =>
      if Keyed(rows, "name") then Ok(Chart(Occurrences(Keys(rows, "name")), Occurrences(Keys(rows, "clear_date"))))
      else Raise(TypeError)
  }

  /** Both charts count every cleared todo once: their counts add up to the
      number of todos, and every count is at least one. */
  lemma ChartCountsEveryTodo(todos: seq<Item>, codec: DateCodec)
    requires ChartOf(todos, codec).Ok?
    ensures Total(ChartOf(todos, codec).value.pie) == |todos|
    ensures Total(ChartOf(todos, codec).value.line) == |todos|
    ensures forall k :: k in ChartOf(todos, codec).value.pie ==> ChartOf(todos, codec).value.pie[k] >= 1
    ensures forall k :: k in ChartOf(todos, codec).value.line ==> ChartOf(todos, codec).value.line[k] >= 1
  {
    var rows := ChartRows(todos, codec).value;
    TotalOccurrences(Keys(rows, "name"));
    TotalOccurrences(Keys(rows, "clear_date"));
  }

  /** The pie chart has a slice for a name exactly when some cleared todo has
      that menu name. */
  lemma PieNamesTheMenus(todos: seq<Item>, codec: DateCodec, k: string)
    requires ChartOf(todos, codec).Ok?
    ensures forall i :: 0 <= i < |todos| ==> "name" in todos[i]
    ensures k in ChartOf(todos, codec).value.pie <==> exists i :: 0 <= i < |todos| && todos[i]["name"] == Str(k)
  {
    var rows := ChartRows(todos, codec).value;
    var ks := Keys(rows, "name");
    assert forall i :: 0 <= i < |todos| ==> "name" in todos[i] && rows[i]["name"] == todos[i]["name"];
    if k in ChartOf(todos, codec).value.pie {
      var i :| 0 <= i < |ks| && ks[i] == k;
      assert todos[i]["name"] == Str(k);
    }
    if exists i :: 0 <= i < |todos| && todos[i]["name"] == Str(k) {
      var i :| 0 <= i < |todos| && todos[i]["name"] == Str(k);
      assert ks[i] == k;
    }
  }

  /** `create_chart_data(clear_todos)`: build `chart_data`, then group it by
      name and, in the order that left behind, by clear date. */
  method CreateChartData(todos: seq<Item>, codec: DateCodec) returns (r: Result<Chart>)
    ensures r == ChartOf(todos, codec)
  {
    var rows := ChartRows(todos, codec);
    if rows.Raise? {
      return Raise(rows.error);
    }
    var chartData := new Item[|rows.value|](i requires 0 <= i < |rows.value| => rows.value[i]);
    assert chartData[..] == rows.value;
    assert forall i :: 0 <= i < chartData.Length ==> "name" in chartData[..][i];
    var pie := GroupByItem(chartData, "name");
    if pie.Raise? {
      return Raise(pie.error);
    }
    OccurrencesOfRearranged(chartData[..], rows.value, "clear_date");
    var line := GroupByItem(chartData, "clear_date");
    return Ok(Chart(pie.value, line.value));
  }

  /** The `data` of the answer (lines 100-105). */
  datatype Page = Page(notComplete: seq<Item>, complete: seq<Item>, pie: map<string, nat>, line: map<string, nat>)

  /** The page for the scanned todos: shown, split, and the cleared ones charted. */
  function PageOf(rows: seq<Item>, codec: DateCodec): Result<Page>
  {
    match DisplayAll(rows, codec)
    case Raise(e) => Raise(e)
    case Ok(shown) =>
      match ChartOf(Cleared(shown), codec)
      case Raise(e) => Raise(e)
      case Ok(chart) => Ok(Page(NotCleared(shown), Cleared(shown), chart.pie, chart.line))
  }

  /** A page lists every scanned todo once, in one of its two lists, with its
      dates converted; the cleared list is exactly the cleared todos, and the
      pie chart counts them all. */
  lemma PageListsEveryTodo(rows: seq<Item>, codec: DateCodec)
    requires PageOf(rows, codec).Ok?
    ensures var p := PageOf(rows, codec).value;
            |p.notComplete| + |p.complete| == |rows|
            && multiset(p.notComplete) + multiset(p.complete) == multiset(DisplayAll(rows, codec).value)
            && (forall x :: x in p.complete ==> IsCleared(x))
            && (forall x :: x in p.notComplete ==> !IsCleared(x))
            && Total(p.pie) == |p.complete| && Total(p.line) == |p.complete|
  {
    var shown := DisplayAll(rows, codec).value;
    ClearedPartition(shown);
    forall x ensures (x in Cleared(shown) ==> IsCleared(x)) && (x in NotCleared(shown) ==> !IsCleared(x)) {
      ClearedMembers(shown, x);
    }
    ChartCountsEveryTodo(Cleared(shown), codec);
  }

  /** The page shows the user's own todos only: when every scanned row
      belongs to `owner`, so does every todo on the page. */
  lemma PageKeepsOwner(rows: seq<Item>, codec: DateCodec, owner: Value)
    requires PageOf(rows, codec).Ok?
    requires forall x :: x in rows ==> "user_name" in x && x["user_name"] == owner
    ensures var p := PageOf(rows, codec).value;
            forall x :: x in p.notComplete + p.complete ==> "user_name" in x && x["user_name"] == owner
  {
    var shown := DisplayAll(rows, codec).value;
    forall x | x in NotCleared(shown) + Cleared(shown) ensures "user_name" in x && x["user_name"] == owner {
      ClearedMembers(shown, x);
      var i :| 0 <= i < |shown| && shown[i] == x;
      assert rows[i] in rows;
    }
  }

  /** No todos: two empty lists and two empty charts. */
  lemma EmptyPage(codec: DateCodec)
    ensures PageOf([], codec) == Ok(Page([], [], map[], map[]))
  {
    assert Keys([], "name") == [] && Keys([], "clear_date") == [];
  }

  /** `lambda_handler(event, context)`, with `headers` for `event["headers"]`.
      The answer is the page of the todos the token's user owns. */
  method LambdaHandler(db: Todo, headers: Item, verify: Value -> Claims, codec: DateCodec,
                       order: seq<Value>, up: bool) returns (r: Reply<Page>)
    ensures "Authorization" !in headers ==> r == Failure(KeyError("Authorization"))
    ensures "Authorization" in headers ==>
              var name := ClaimedUserName(verify(headers["Authorization"]));
              (name.Raise? ==> r == Failure(name.error))
              && (name.Ok? && !up ==> r == Failure(ClientError))
              && (name.Ok? && up ==>
                    var page := PageOf(db.GetAllTodos(name.value, order, up).value, codec);
                    r == match page case Ok(p) => Success(p) case Raise(e) => Failure(e))
  {
    if "Authorization" !in headers {
      return Failure(KeyError("Authorization"));   // line 73
    }
    var name := ClaimedUserName(verify(headers["Authorization"]));
    if name.Raise? {
      return Failure(name.error);
    }
    var response := db.GetAllTodos(name.value, order, up);
    if response.Raise? {
      return Failure(response.error);
    }
    var split := SplitByCleared(response.value, codec);
    if split.Raise? {
      return Failure(split.error);
    }
    var (nonClear, clear) := split.value;
    var chart := CreateChartData(clear, codec);
    if chart.Raise? {
      return Failure(chart.error);
    }
    return Success(Page(nonClear, clear, chart.value.pie, chart.value.line));
  }

  /** A successful answer lists only todos of the token's user, each once. */
  lemma AnswerIsOwnTodos(db: Todo, name: Value, order: seq<Value>, codec: DateCodec)
    requires db.GetAllTodos(name, order, true).Ok?
    requires PageOf(db.GetAllTodos(name, order, true).value, codec).Ok?
    ensures var rows := db.GetAllTodos(name, order, true).value;
            var p := PageOf(rows, codec).value;
            |p.notComplete| + |p.complete| == |rows|
            && forall x :: x in p.notComplete + p.complete ==> "user_name" in x && x["user_name"] == name
  {
    var rows := db.GetAllTodos(name, order, true).value;
    PageListsEveryTodo(rows, codec);
    PageKeepsOwner(rows, codec, name);
  }
}
