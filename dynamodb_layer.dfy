/** The todo data layer: the `Todos` table and the `MuscleAtomicCounter` table
    that hands out todo ids. The boto3 transport is abstracted away: the
    tables are maps held by the store objects, a scan is a filter over the
    rows it visits, and whether the backend accepts a call is a boolean
    argument (`false` standing for the `ClientError` it would raise). */
module DynamodbLayer {
  import opened Values
  import opened Dates

  /** A scan filter built from `Attr(name).eq(value)` and `&`. */
  datatype Condition = Eq(attr: string, value: Value) | And(left: Condition, right: Condition)

  /** Whether a row passes a filter; a row without the attribute never does. */
  predicate Holds(row: Item, c: Condition)
  {
    match c
    case Eq(a, v) => a in row && row[a] == v
    case And(l, r) => Holds(row, l) && Holds(row, r)
  }

  /** `table.scan(FilterExpression = c)["Items"]`: the visited rows that pass, in order. */
  function Scan(rows: seq<Item>, c: Condition): (r: seq<Item>)
    ensures forall x :: x in r <==> x in rows && Holds(x, c)
    ensures |r| <= |rows|
  {
    if rows == [] then []
    else
      assert forall x :: x in rows <==> x == rows[0] || x in rows[1..];
      (if Holds(rows[0], c) then [rows[0]] else []) + Scan(rows[1..], c)
  }

  /** A scan keeps every passing row as often as it was visited, and drops the rest. */
  lemma {:induction false} ScanCounts(rows: seq<Item>, c: Condition, x: Item)
    ensures multiset(Scan(rows, c))[x] == if Holds(x, c) then multiset(rows)[x] else 0
  {
    if rows != [] {
      ScanCounts(rows[1..], c, x);
      assert rows == [rows[0]] + rows[1..];
      assert multiset(rows) == multiset{rows[0]} + multiset(rows[1..]);
    }
  }

  /** The filter of `get_all_todos(user_name)`. */
  function UserTodos(userName: Value): Condition
  {
    Eq("user_name", userName)
  }

  /** The filter of `get_muscle_menu_data(menu_name)`. */
  function ClearedMenu(menuName: Value): Condition
  {
    And(Eq("name", menuName), Eq("is_cleared", Bool(true)))
  }

  /** The rows a scan visits: the stored rows under the keys of `order`, the
      order in which the backend happens to return them. */
  function Visit(items: map<Value, Item>, order: seq<Value>): (rows: seq<Item>)
    ensures forall x :: x in rows ==> x in items.Values
    ensures forall k :: k in order && k in items ==> items[k] in rows
  {
    if order == [] then []
    else
      assert forall k :: k in order <==> k == order[0] || k in order[1..];
      (if order[0] in items then [items[order[0]]] else []) + Visit(items, order[1..])
  }

  /** The row key under which `ADD current_number :increment` counts todo ids. */
  const CounterKey := "Todos"

  /** `current_number` of the counter row; `ADD` treats a missing one as 0. */
  function Current(numbers: map<string, int>): int
  {
    if CounterKey in numbers then numbers[CounterKey] else 0
  }

  /** The counter table after one `ADD current_number 1` on the `Todos` row. */
  function Countup(numbers: map<string, int>): (r: map<string, int>)
    ensures Current(r) == Current(numbers) + 1
    ensures forall t :: t != CounterKey ==> (t in r <==> t in numbers)
    ensures forall t :: t != CounterKey && t in numbers ==> r[t] == numbers[t]
  {
    numbers[CounterKey := Current(numbers) + 1]
  }

  /** The values that `n` successive counter calls return. */
  function Issued(numbers: map<string, int>, n: nat): seq<int>
    decreases n
  {
    if n == 0 then [] else [Current(Countup(numbers))] + Issued(Countup(numbers), n - 1)
  }

  /** Successive calls return the next integers after the stored number. */
  lemma {:induction false} IssuedConsecutive(numbers: map<string, int>, n: nat)
    ensures |Issued(numbers, n)| == n
    ensures forall i :: 0 <= i < n ==> Issued(numbers, n)[i] == Current(numbers) + i + 1
    decreases n
  {
    if n > 0 {
      IssuedConsecutive(Countup(numbers), n - 1);
    }
  }

  /** Sequential callers never see the same id twice: the ids strictly increase. */
  lemma IssuedIncreasing(numbers: map<string, int>, n: nat)
    ensures forall i, j :: 0 <= i < j < |Issued(numbers, n)| ==> Issued(numbers, n)[i] < Issued(numbers, n)[j]
  {
    IssuedConsecutive(numbers, n);
  }

  /** The three fields `put_todo` writes into the caller's dict. */
  predicate Stamped(k: string)
  {
    k == "id" || k == "clear_plan" || k == "created_at"
  }

  /** Lines 124-128 of `put_todo` run to completion on `todo` with the id `id`:
      the id is set, `clear_plan` is converted to a timestamp and `created_at`
      is set to today's timestamp. */
  function Stamp(todo: Item, id: int, codec: DateCodec, today: string): (r: Result<Item>)
    ensures "clear_plan" !in todo ==> r == Raise(KeyError("clear_plan"))
    ensures r.Ok? <==> "clear_plan" in todo && EncodeDate(codec, todo["clear_plan"]).Ok?
                       && EncodeDate(codec, Str(today)).Ok?
    ensures r.Ok? ==> r.value.Keys == todo.Keys + {"id", "clear_plan", "created_at"}
    ensures r.Ok? ==> r.value["id"] == Int(id)
    ensures r.Ok? ==> r.value["clear_plan"] == EncodeDate(codec, todo["clear_plan"]).value
    ensures r.Ok? ==> r.value["created_at"] == EncodeDate(codec, Str(today)).value
    ensures r.Ok? ==> forall k :: k in todo && !Stamped(k) ==> r.value[k] == todo[k]
  {
    if "clear_plan" !in todo then Raise(KeyError("clear_plan"))
    else match EncodeDate(codec, todo["clear_plan"])
      case Raise(e) => Raise(e)
      case Ok(plan) =>
        match EncodeDate(codec, Str(today))
        case Raise(e) => Raise(e)
        case Ok(created) => Ok(todo["id" := Int(id)]["clear_plan" := plan]["created_at" := created])
  }

  /** The attributes `complete_todo` sets, in the order its dict literals read
      them: the key `todo["id"]`, then `clear_date` (converted), then `comment`. */
  function Completion(todo: Item, codec: DateCodec): (r: Result<(Value, Item)>)
    ensures "id" !in todo ==> r == Raise(KeyError("id"))
    ensures "id" in todo && "clear_date" !in todo ==> r == Raise(KeyError("clear_date"))
    ensures r.Ok? <==> "id" in todo && "clear_date" in todo && "comment" in todo
                       && EncodeDate(codec, todo["clear_date"]).Ok?
    ensures "id" in todo && "clear_date" in todo && EncodeDate(codec, todo["clear_date"]).Raise? ==>
              r == Raise(EncodeDate(codec, todo["clear_date"]).error)
    ensures "id" in todo && "clear_date" in todo && EncodeDate(codec, todo["clear_date"]).Ok? && "comment" !in todo ==>
              r == Raise(KeyError("comment"))
    ensures r.Ok? ==> r.value.0 == todo["id"]
    ensures r.Ok? ==> r.value.1.Keys == {"is_cleared", "clear_date", "comment"}
    ensures r.Ok? ==> r.value.1["is_cleared"] == Bool(true)
    ensures r.Ok? ==> r.value.1["clear_date"] == EncodeDate(codec, todo["clear_date"]).value
    ensures r.Ok? ==> r.value.1["comment"] == todo["comment"]
  {
    if "id" !in todo then Raise(KeyError("id"))
    else if "clear_date" !in todo then Raise(KeyError("clear_date"))
    else match EncodeDate(codec, todo["clear_date"])
      case Raise(e) => Raise(e)
      case Ok(date) =>
        if "comment" !in todo then Raise(KeyError("comment"))
        else Ok((todo["id"], map["is_cleared" := Bool(true), "clear_date" := date, "comment" := todo["comment"]]))
  }

  /** `update_item(Key = {"id": key}, UpdateExpression = "set ...")` on the
      table: the stored row (or, when there is none, a new row holding only
      the key) with the set attributes overwritten and everything else kept. */
  function Upsert(items: map<Value, Item>, key: Value, attrs: Item): (row: Item)
    ensures "id" !in attrs && key !in items ==> "id" in row && row["id"] == key
    ensures forall k :: k in attrs ==> k in row && row[k] == attrs[k]
    ensures key in items ==> row.Keys == items[key].Keys + attrs.Keys
    ensures key in items ==> forall k :: k in items[key] && k !in attrs ==> row[k] == items[key][k]
  {
    (if key in items then items[key] else map["id" := key]) + attrs
  }

  /** Whether a handler binds the layer: in development it calls
      `Todo("dev")`; in production `Todo()` lacks its `env_str` argument and
      raises `TypeError`. */
  function Binds(samLocal: bool): bool
  {
    samLocal
  }

  /** A dict the caller owns and `put_todo` writes into. */
  class Dict {
    var entries: Item

    constructor (entries: Item)
      ensures this.entries == entries
    {
      this.entries := entries;
    }
  }

  /** `TodoAtomicCounter`: the `MuscleAtomicCounter` table, `current_number` per `table_name`. */
  class TodoAtomicCounter {
    var numbers: map<string, int>

    constructor (numbers: map<string, int>)
      ensures this.numbers == numbers
    {
      this.numbers := numbers;
    }

    /** `countup_atomic_counter()`: add 1 to the `Todos` row and return the
        new value (`ReturnValues='UPDATED_NEW'`). */
    method CountupAtomicCounter(up: bool) returns (r: Result<int>)
      modifies this
      ensures up ==> numbers == Countup(old(numbers)) && r == Ok(Current(numbers))
      ensures up ==> r.value == Current(old(numbers)) + 1
      ensures !up ==> numbers == old(numbers) && r == Raise(ClientError)
    {
      if !up {
        return Raise(ClientError);
      }
      numbers := Countup(numbers);
      r := Ok(Current(numbers));
    }
  }

  /** `Todo`: the `Todos` table, keyed by `id`, with its id counter. */
  class Todo {
    var items: map<Value, Item>
    const atomicCounter: TodoAtomicCounter

    /** Every row is stored under its own `id`. */
    ghost predicate Valid()
      reads this
    {
      forall k :: k in items ==> "id" in items[k] && items[k]["id"] == k
    }

    constructor (items: map<Value, Item>, counter: TodoAtomicCounter)
      requires forall k :: k in items ==> "id" in items[k] && items[k]["id"] == k
      ensures this.items == items && atomicCounter == counter && Valid()
    {
      this.items := items;
      atomicCounter := counter;
    }

    /** `get_all_todos(user_name)`: the visited rows whose `user_name` equals the argument. */
    function GetAllTodos(userName: Value, order: seq<Value>, up: bool): (r: Result<seq<Item>>)
      reads this
      ensures r.Ok? <==> up
      ensures r.Ok? ==> forall x :: x in r.value <==> x in Visit(items, order) && "user_name" in x && x["user_name"] == userName
      ensures r.Ok? ==> forall x :: x in r.value ==> x in items.Values
    {
      if up then Ok(Scan(Visit(items, order), UserTodos(userName))) else Raise(ClientError)
    }

    /** `get_muscle_menu_data(menu_name)`: the visited rows of that menu that are cleared. */
    function GetMuscleMenuData(menuName: Value, order: seq<Value>, up: bool): (r: Result<seq<Item>>)
      reads this
      ensures r.Ok? <==> up
      ensures r.Ok? ==> forall x :: x in r.value <==>
                          (x in Visit(items, order) && "name" in x && x["name"] == menuName
                           && "is_cleared" in x && x["is_cleared"] == Bool(true))
    {
      if up then
        assert forall x :: Holds(x, ClearedMenu(menuName)) <==> Holds(x, Eq("name", menuName)) && Holds(x, Eq("is_cleared", Bool(true)));
        Ok(Scan(Visit(items, order), ClearedMenu(menuName)))
      else Raise(ClientError)
    }

    /** `put_todo(todo)`: take the next id from the counter, write it, the
        converted `clear_plan` and today's `created_at` into the caller's dict,
        then put that dict as the row. A failure at any step raises; the
        steps already done stay done. */
    method PutTodo(todo: Dict, codec: DateCodec, today: string, counterUp: bool, putUp: bool)
      returns (r: Result<()>)
      requires Valid()
      modifies this, atomicCounter, todo
      ensures Valid()
      ensures !counterUp ==> r == Raise(ClientError) && todo.entries == old(todo.entries)
                             && atomicCounter.numbers == old(atomicCounter.numbers)
      ensures counterUp ==> atomicCounter.numbers == Countup(old(atomicCounter.numbers))
                            && "id" in todo.entries
                            && todo.entries["id"] == Int(Current(atomicCounter.numbers))
      ensures forall k :: k in old(todo.entries) && !Stamped(k) ==>
                k in todo.entries && todo.entries[k] == old(todo.entries)[k]
      ensures r.Ok? <==> counterUp && putUp
                         && Stamp(old(todo.entries), Current(atomicCounter.numbers), codec, today).Ok?
      ensures r.Ok? ==> todo.entries == Stamp(old(todo.entries), Current(atomicCounter.numbers), codec, today).value
      ensures r.Ok? ==> items == old(items)[Int(Current(atomicCounter.numbers)) := todo.entries]
      ensures r.Raise? ==> items == old(items)
    {
      var n := atomicCounter.CountupAtomicCounter(counterUp);
      if n.Raise? {
        return Raise(n.error);
      }
      ghost var original := todo.entries;
      todo.entries := todo.entries["id" := Int(n.value)];
      if "clear_plan" !in todo.entries {
        return Raise(KeyError("clear_plan"));
      }
      var plan := EncodeDate(codec, todo.entries["clear_plan"]);
      if plan.Raise? {
        return Raise(plan.error);
      }
      todo.entries := todo.entries["clear_plan" := plan.value];
      var created := EncodeDate(codec, Str(today));
      if created.Raise? {
        return Raise(created.error);
      }
      todo.entries := todo.entries["created_at" := created.value];
      assert todo.entries == Stamp(original, n.value, codec, today).value;
      if !putUp {
        return Raise(ClientError);
      }
      items := items[Int(n.value) := todo.entries];
      r := Ok(());
    }

    /** `complete_todo(todo)`: mark the row `todo["id"]` cleared, with its
        clear date and comment, and return the updated attributes
        (`ReturnValues = "UPDATED_NEW"`). */
    method CompleteTodo(todo: Item, codec: DateCodec, up: bool) returns (r: Result<Item>)
      requires Valid()
      modifies this
      ensures Valid()
      ensures r.Ok? <==> up && Completion(todo, codec).Ok?
      ensures r.Ok? ==> r.value == Completion(todo, codec).value.1
      ensures r.Ok? ==> var (key, attrs) := Completion(todo, codec).value;
                        items == old(items)[key := Upsert(old(items), key, attrs)]
      ensures r.Raise? ==> items == old(items)
      ensures Completion(todo, codec).Raise? ==> r == Raise(Completion(todo, codec).error)
    {
      var update := Completion(todo, codec);
      if update.Raise? {
        return Raise(update.error);
      }
      if !up {
        return Raise(ClientError);
      }
      var (key, attrs) := update.value;
      items := items[key := Upsert(items, key, attrs)];
      r := Ok(attrs);
    }
  }

  /** Completing a todo changes one row only, and in that row only the three
      attributes it sets. */
  lemma CompletionTouchesOneRow(items: map<Value, Item>, todo: Item, codec: DateCodec)
    requires Completion(todo, codec).Ok?
    ensures var (key, attrs) := Completion(todo, codec).value;
            var after := items[key := Upsert(items, key, attrs)];
            (forall k :: k != key ==> (k in after <==> k in items))
            && (forall k :: k != key && k in items ==> after[k] == items[k])
            && (key in items ==> forall a :: a in items[key] && a != "is_cleared" && a != "clear_date" && a != "comment"
                                  ==> a in after[key] && after[key][a] == items[key][a])
  {
  }
}
