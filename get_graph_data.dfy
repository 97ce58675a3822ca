/** `get_graph_data`: the charts of a user's cleared todos for the graph
    page. The todos are reduced to their menu name and clear date, then
    counted by each, as on the top page. */
module GetGraphData {
  import opened Values
  import opened Dates
  import opened Grouping
  import TodoQuery

  /** One converted todo (lines 23-27): `float(item["clear_date"])` first, then
      the name, then the timestamp formatted as a date string. */
  function Converted(item: Item, codec: DateCodec): (r: Result<Item>)
    ensures "clear_date" !in item ==> r == Raise(KeyError("clear_date"))
    ensures "clear_date" in item && ToFloat(item["clear_date"]).Raise? ==> r == Raise(ToFloat(item["clear_date"]).error)
    ensures "clear_date" in item && ToFloat(item["clear_date"]).Ok? && "name" !in item ==> r == Raise(KeyError("name"))
    ensures ("clear_date" in item && ToFloat(item["clear_date"]).Ok? && "name" in item
             && codec.format(ToFloat(item["clear_date"]).value).None?) ==> r == Raise(ValueError)
    ensures r.Ok? <==> ("clear_date" in item && ToFloat(item["clear_date"]).Ok? && "name" in item
                        && codec.format(ToFloat(item["clear_date"]).value).Some?)
    ensures r.Ok? ==> r.value.Keys == {"name", "clear_date"}
                      && r.value["name"] == item["name"]
                      && r.value["clear_date"] == Str(codec.format(ToFloat(item["clear_date"]).value).value)
  {
    if "clear_date" !in item then Raise(KeyError("clear_date"))
    else match ToFloat(item["clear_date"])
      case Raise(e) => Raise(e)
      case Ok(stamp) =>
        if "name" !in item then Raise(KeyError("name"))
        else match codec.format(stamp)
          case None => Raise(ValueError)
          case Some(date) => Ok(map["name" := item["name"], "clear_date" := Str(date)])
  }

  /** Every todo converted, in order; the first one that cannot be converted
      stops the walk with its error. */
  function ConvertAll(items: seq<Item>, codec: DateCodec): (r: Result<seq<Item>>)
    ensures r.Ok? <==> forall i :: 0 <= i < |items| ==> Converted(items[i], codec).Ok?
    ensures r.Ok? ==> |r.value| == |items|
                      && forall i :: 0 <= i < |items| ==> r.value[i] == Converted(items[i], codec).value
    decreases |items|
  {
    if items == [] then Ok([])
    else
      var front := items[..|items| - 1];
      match ConvertAll(front, codec)
      case Raise(e) =>
        assert forall j :: 0 <= j < |front| ==> front[j] == items[j];
        Raise(e)
      case Ok(done) =>
        match Converted(items[|items| - 1], codec)
        case Raise(e) => Raise(e)
        case Ok(x) => Ok(done + [x])
  }

  /** A prefix that cannot be converted stops the walk of the whole list. */
  lemma {:induction false} ConvertAllStops(items: seq<Item>, n: nat, codec: DateCodec)
    requires n <= |items|
    requires ConvertAll(items[..n], codec).Raise?
    ensures ConvertAll(items, codec) == ConvertAll(items[..n], codec)
    decreases |items| - n
  {
    if n < |items| {
      var front := items[..|items| - 1];
      assert front[..n] == items[..n];
      ConvertAllStops(front, n, codec);
    } else {
      assert items[..n] == items;
    }
  }

  /** `convert_decimal_in_data(items)`. */
  method ConvertDecimalInData(items: seq<Item>, codec: DateCodec) returns (r: Result<seq<Item>>)
    ensures r == ConvertAll(items, codec)
  {
    if |items| == 0 {
      return Ok([]);
    }
    var converted: seq<Item> := [];
    for i := 0 to |items|
      invariant ConvertAll(items[..i], codec) == Ok(converted)
    {
      assert items[..i + 1][..i] == items[..i];
      var item := Converted(items[i], codec);
      if item.Raise? {
        ConvertAllStops(items, i + 1, codec);
        return Raise(item.error);
      }
      converted := converted + [item.value];
    }
    assert items[..|items|] == items;
    return Ok(converted);
  }

  /** A todo converts exactly when the top page can chart it, and to the same
      entry: the two handlers read the same two fields, only in another order. */
  lemma ConvertedIsChartRow(item: Item, codec: DateCodec)
    ensures Converted(item, codec).Ok? <==> TodoQuery.ChartRow(item, codec).Ok?
    ensures Converted(item, codec).Ok? ==> Converted(item, codec) == TodoQuery.ChartRow(item, codec)
  {
  }

  /** A chart series: the `[]` that lines 54-55 start from, or the counts
      `group_by_item` builds. */
  datatype Series = EmptyList | Counts(counts: map<string, nat>)

  /** What the two series should hold: `[]` twice when there is nothing to
      chart, and otherwise how often each menu name and each clear date
      occurs. A name that is not a string makes the grouping fail. */
  function GraphOf(items: seq<Item>, codec: DateCodec): (r: Result<(Series, Series)>)
  {
    match ConvertAll(items, codec)
    case Raise(e) => Raise(e)
    case Ok(rows) =>
      if rows == [] then Ok((EmptyList, EmptyList))
      else
        assert Keyed(rows, "clear_date");
        if Keyed(rows, "name") then Ok((Counts(Occurrences(Keys(rows, "name"))), Counts(Occurrences(Keys(rows, "clear_date")))))
        else Raise(TypeError)
  }

  /** Lines 64-67: convert the scanned todos, then group them by name and,
      in the order that left behind, by clear date, when there are any. */
  method GraphData(scanned: seq<Item>, codec: DateCodec) returns (r: Result<(Series, Series)>)
    ensures r == GraphOf(scanned, codec)
  {
    var items := ConvertDecimalInData(scanned, codec);
    if items.Raise? {
      return Raise(items.error);
    }
    var pie, line := EmptyList, EmptyList;
    if |items.value| > 0 {
      var data := new Item[|items.value|](i requires 0 <= i < |items.value| => items.value[i]);
      assert data[..] == items.value;
      assert forall i :: 0 <= i < data.Length ==> "name" in data[..][i];
      var byName := GroupByItem(data, "name");
      if byName.Raise? {
        return Raise(byName.error);
      }
      OccurrencesOfRearranged(data[..], items.value, "clear_date");
      var byDate := GroupByItem(data, "clear_date");
      pie, line := Counts(byName.value), Counts(byDate.value);
    }
    return Ok((pie, line));
  }

  /** For the same cleared todos the graph page and the top page chart the
      same counts; only an empty chart differs, `[]` here and `{}` there. */
  lemma SameChartsAsTopPage(items: seq<Item>, codec: DateCodec)
    ensures GraphOf(items, codec).Ok? <==> TodoQuery.ChartOf(items, codec).Ok?
    ensures GraphOf(items, codec).Ok? && items != [] ==>
              GraphOf(items, codec).value == (Counts(TodoQuery.ChartOf(items, codec).value.pie),
                                              Counts(TodoQuery.ChartOf(items, codec).value.line))
    ensures items == [] ==> GraphOf(items, codec) == Ok((EmptyList, EmptyList))
  {
    forall i | 0 <= i < |items| {
      ConvertedIsChartRow(items[i], codec);
    }
    if ConvertAll(items, codec).Ok? {
      assert ConvertAll(items, codec).value == TodoQuery.ChartRows(items, codec).value;
    }
    if items == [] {
      assert Keys([], "name") == [] && Keys([], "clear_date") == [];
    }
  }
}
