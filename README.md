# Muscle training todo service: a Dafny model of its core

The service behind a muscle-training app runs on AWS Lambda. Users plan
training todos (a menu name, a weight, a number of sets and a planned date),
mark them cleared, and see charts of what they cleared. A user can also
follow another user. This project models the logic under the Lambda and
AWS plumbing:

- **The data layer** (`DynamodbLayer`). The `Todos` table is a map from id
  to record. `MuscleAtomicCounter` hands out the todo ids. `put_todo` writes
  a fresh id and the converted dates into the caller's dict and stores that
  dict. `complete_todo` sets three attributes of one row. The two scans are
  filters.
- **Grouping for charts** (`Grouping`). `group_by_item` sorts the items in
  place by one attribute, then counts each run of equal keys. It is modelled
  as an in-place sort on an array followed by a run-counting loop. The
  result is proved equal to the occurrence count of each key value, whatever
  the order the items came in.
- **The handlers**:
  - `todo_query`: the top page. It converts dates, splits the todos into
    cleared and not cleared, and builds the pie and line charts.
  - `get_graph_data`: its conversion and grouping helpers.
  - `add_todo`, `complete_todo`, `update_todo` and `relation`. For each one
    the model covers the required-parameter check, the user-name lookup in
    the ID token, the order of the 403 and 422 answers, and the exact
    payload handed to the data layer.
  - `options_method`: the CORS preflight answer.

Python values are modelled by `Values.Value`, and dicts by maps from strings
to values. An exception is the `Raise` case of a `Result`. A handler's
answer is a `Reply`: `Success` (200), `Denied` (403), `Invalid` (422) or
`Failure` (500, with the exception that caused it).

Some things are passed in as parameters:
- the date conversions (`DateCodec`);
- the ID-token verification (`verify`);
- the identity provider's `get_user`;
- the repositories the layer does not define;
- whether the backend accepts a call (a boolean, `false` for `ClientError`);
- the order in which a scan returns rows;
- whether `AWS_SAM_LOCAL` is set.

`get_muscle_menu_data` (`layer/python/dynamodb_layer.py:166`) filters on the
menu name and `is_cleared` only, not on the user; the model does the same.

## Model

| member | source | states |
|---|---|---|
| Values.ToInt | src/add_todo/app.py:103-104 | `int(v)`: an int is kept, `None` raises `TypeError`, a string converts exactly when it is a signed decimal literal |
| Values.Truncate | src/complete_todo/app.py:90 | `int` of a non-integral number rounds toward zero, for both signs |
| Values.ParseShow | src/add_todo/app.py:103-104 | `int(str(n)) == n` for every integer: the string conversion reads back what printing wrote |
| StringOrder.Reflexive | src/todo_query/app.py:31 | every string key sorts at or before itself |
| StringOrder.Total | src/todo_query/app.py:31 | any two string keys are comparable, so `sort` can order any list of them |
| StringOrder.Antisymmetric | src/todo_query/app.py:31 | two keys each at or before the other are equal, so equal keys end up adjacent |
| StringOrder.Transitive | src/todo_query/app.py:31 | the key order is transitive |
| Grouping.Sink | layer/python/dynamodb_layer.py:192 | one insertion step of the in-place sort: the first `i+1` items become ordered by key, as a permutation |
| Grouping.SortByKey | layer/python/dynamodb_layer.py:192 | `items.sort(key=...)` leaves the array ordered by the key and a permutation of what it held |
| Grouping.CountRuns | src/get_graph_data/app.py:34-40 | walking the runs of equal keys of a sorted array yields, for each key value, the number of items carrying it |
| Grouping.GroupByItem | src/todo_query/app.py:29-40 | `KeyError` exactly when an item lacks the attribute; otherwise the dict maps exactly the key values present to their counts, each at least 1 and summing to the number of items; the array is left sorted and a permutation of its input |
| Grouping.TotalOccurrences | src/todo_query/app.py:33-39 | the counts of a grouping add up to the number of items grouped |
| Grouping.OccurrencesOfRun | src/todo_query/app.py:35-39 | one run of `groupby` adds exactly one entry, holding the run's length |
| Grouping.OccurrencesOfPermutation | src/todo_query/app.py:31 | reordering the keys does not change their counts |
| Grouping.OccurrencesOfRearranged | src/todo_query/app.py:44-45 | grouping a list that an earlier grouping reordered counts the same as grouping the original |
| Dates.EncodeDate | layer/python/dynamodb_layer.py:203-206 | a non-string raises `TypeError`; a string converts exactly when `strptime` accepts it |
| Dates.DecodeDate | src/todo_query/app.py:24-27 | converts exactly when `float` accepts the value and `fromtimestamp` accepts the number |
| DynamodbLayer.Scan | layer/python/dynamodb_layer.py:110-113 | a row is in the scan result exactly when it was visited and passes the filter |
| DynamodbLayer.ScanCounts | layer/python/dynamodb_layer.py:110-113 | a passing row appears as often as it was visited; a failing row never |
| DynamodbLayer.Countup | layer/python/dynamodb_layer.py:216-230 | `ADD current_number 1` on the `Todos` row raises it by one (a missing row counts as 0) and leaves every other row alone |
| DynamodbLayer.IssuedConsecutive | layer/python/dynamodb_layer.py:216-230 | `n` successive counter calls return the `n` integers after the stored number, in order |
| DynamodbLayer.IssuedIncreasing | layer/python/dynamodb_layer.py:216-230 | successive counter calls return strictly increasing ids |
| DynamodbLayer.TodoAtomicCounter.CountupAtomicCounter | layer/python/dynamodb_layer.py:213-236 | the counter table becomes `Countup` of the old one and the call returns the new value, one more than the old; a rejected call changes nothing and raises |
| DynamodbLayer.Stamp | layer/python/dynamodb_layer.py:124-128 | the record gains `id`, the converted `clear_plan` and today's `created_at`; every other key keeps its value; a missing or unconvertible date raises |
| DynamodbLayer.Todo.PutTodo | layer/python/dynamodb_layer.py:121-137 | the counter is called once, first; a rejected counter call writes nothing; the caller's dict gets the new id and keeps every other key; on success the stored row under that id is the mutated dict; on any failure the table is unchanged |
| DynamodbLayer.Completion | layer/python/dynamodb_layer.py:140-148 | the update is keyed by `todo["id"]` alone and sets exactly `is_cleared = True`, the converted `clear_date` and `comment`; missing keys raise `KeyError` in the order the dict literals read them: `id`, then `clear_date`, whose conversion error comes next, then `comment` |
| DynamodbLayer.Upsert | layer/python/dynamodb_layer.py:153 | the updated row holds the set attributes and keeps every other attribute of the stored row |
| DynamodbLayer.Todo.CompleteTodo | layer/python/dynamodb_layer.py:138-162 | on success the table changes in row `todo["id"]` only, which gets the three attributes, and the call returns them; otherwise the table is unchanged |
| DynamodbLayer.CompletionTouchesOneRow | layer/python/dynamodb_layer.py:140-153 | completing a todo leaves every other row, and every other attribute of its row, untouched |
| DynamodbLayer.Todo.GetAllTodos | layer/python/dynamodb_layer.py:106-119 | exactly the visited rows whose `user_name` equals the argument; a rejected scan raises |
| DynamodbLayer.Todo.GetMuscleMenuData | layer/python/dynamodb_layer.py:164-177 | exactly the visited rows with `name == menu_name` and `is_cleared == True`; a rejected scan raises |
| Http.CheckKeys | src/update_todo/app.py:35-40 | the key loop answers true exactly when every required key is in the body, and false names a missing one |
| Http.UserNameOrEmpty | src/update_todo/app.py:75-78 | the `cognito:username` claim when present, `""` when the claims lack it; a token that does not verify raises |
| Http.ClaimedUserName | src/todo_query/app.py:51-56 | the `cognito:username` claim with no fallback: a token without it raises `KeyError` |
| Http.LookupsAgreeUnlessClaimMissing | src/relation/app.py:60-64 | the direct and the fallback lookup differ exactly on a verified token without the claim |
| OptionsMethod.LambdaHandler | src/options_method/app.py:10-45 | 200 with the four CORS headers and an empty body exactly for `OPTIONS`; 400 with the fixed message and no headers for any other method; 500 exactly when `httpMethod` is missing |
| OptionsMethod.DependsOnMethodOnly | src/options_method/app.py:13 | two events with the same `httpMethod` get the same answer |
| UpdateTodo.IsExistParameter | src/update_todo/app.py:21-40 | true exactly when `id`, `clear_plan`, `name`, `weight`, `set` and `user_name` are all present |
| UpdateTodo.UpdateParams | src/update_todo/app.py:151-157 | exactly `id`, `name`, `set`, `weight` and `clear_plan`, copied unchanged; `user_name` is not forwarded |
| UpdateTodo.IsUserNameInvalid | src/update_todo/app.py:80-96 | despite its name, true exactly when the token's user name and the body's `user_name` are equal |
| UpdateTodo.Gate | src/update_todo/app.py:110-142 | 422 exactly when a parameter is missing, decided before the `Authorization` header is read; a missing header raises `KeyError` and a token that does not verify answers 500 with its error; every other stop is a 500; a request that passes is handed on unchanged |
| UpdateTodo.DeniedUnlessSameUser | src/update_todo/app.py:130-142 | with complete parameters and a verified token, 403 exactly when the token's user is empty or differs from the body's `user_name`, and the request passes otherwise |
| UpdateTodo.LambdaHandler | src/update_todo/app.py:98-161 | the gate's answer when it stops the request; never a success |
| UpdateTodo.AdmittedUpdateFails | src/update_todo/app.py:149 | every request that passes both checks is answered with 500 |
| UpdateTodo.AdmittedUpdateFailsExample | src/update_todo/app.py:149 | a concrete admitted request, answered with 500 |
| UpdateTodo.LambdaHandlerIntended | src/update_todo/app.py:151-161 | an admitted request is answered with the result of the update called on `update_params` |
| UpdateTodo.IntendedForwardsUpdate | src/update_todo/app.py:151-161 | in the intended handler an admitted request succeeds with the update's result, sending exactly the five todo fields |
| AddTodo.IsExistParameter | src/add_todo/app.py:19-25 | true exactly when `user_name`, `name`, `weight`, `set` and `clear_plan` are present; `access_token` is not required |
| AddTodo.AuthRequestUserIsValid | src/add_todo/app.py:32-50 | true exactly when the body's `user_name` equals the `Username` the identity provider returns for the token; a refused token raises `ClientError` |
| AddTodo.TodoRecord | src/add_todo/app.py:100-107 | exactly the six keys, `weight` and `set` through `int`, `is_cleared` false, the rest copied |
| AddTodo.Admit | src/add_todo/app.py:62-107 | a body without `user_name` answers 500; authorisation runs first and 403 comes exactly when it answers false; 422 exactly when it passes and a parameter is missing; the record is built only when all of these pass; an authorisation error, an unbound layer (`TypeError`) and a failed `int` conversion each answer 500 with that error, and every other stop is a 500 |
| AddTodo.MissingAccessTokenIsEmpty | src/add_todo/app.py:63 | a body without `access_token` is handled as one whose token is `""` |
| AddTodo.Echo | src/add_todo/app.py:109-110 | the answered record has the stored keys, both timestamps converted back to date strings and every other field as stored; it fails exactly when a timestamp is missing or does not convert: a missing `clear_plan` raises `KeyError`, then its conversion error, then a missing `created_at` raises `KeyError`, then its conversion error |
| AddTodo.Register | src/add_todo/app.py:108-121 | the counter advances by one exactly when its update is accepted, and a refused counter answers 500 with nothing changed; the record, stamped with the new id and the converted plan date, is stored exactly when the counter, the put and the date conversion succeed; the answer is a success exactly when, in addition, both dates convert back, and then it is the stored record with its dates converted back; a failure before the put stores nothing, while a failed conversion after the put leaves the row stored and answers 500 |
| AddTodo.LambdaHandler | src/add_todo/app.py:57-148 | a request stopped by the checks is answered as they decide and changes neither table; an admitted request, with the layer bound, has the outcome of `Register` for the record the checks built: success exactly when the counter, the put and both date conversions succeed, the answer then being the stored record with its dates decoded, and the table changing by exactly that row |
| AddTodo.ProductionNeverRegisters | src/add_todo/app.py:93-98 | in production every request that passes the checks is answered with 500, where binding the layer would register it |
| AddTodo.LambdaHandlerFixed | src/add_todo/app.py:93-98 | with the layer bound, an admitted request has the outcome of `Register`: stored for the body's user, not cleared, under the new id exactly when the counter, the put and the conversion succeed, and answered with the stored record with its dates decoded exactly when both conversions back succeed too |
| CompleteTodo.IsExistParameter | src/complete_todo/app.py:21-27 | true exactly when `id` and `clear_date` are present; `comment` is not checked |
| CompleteTodo.CompleteInfo | src/complete_todo/app.py:89-93 | `id` through `int`, `clear_date` and `comment` copied; a missing `comment` raises `KeyError` |
| CompleteTodo.Admit | src/complete_todo/app.py:51-93 | an empty user name answers 403 before the parameters are checked; 422 exactly when the user is known and a parameter is missing; the update data is built only when all of these pass; a token that does not verify, an unbound layer (`TypeError`), a failed conversion and a missing `comment` after a valid `id` and `clear_date` each answer 500 with that error, and every other stop is a 500 |
| CompleteTodo.DeniedBeforeValidation | src/complete_todo/app.py:54-66 | a token without a user name is answered 403 whatever the body holds |
| CompleteTodo.Complete | src/complete_todo/app.py:95-102 | the answer carries the request's `id` and the `clear_date` the update returns, and the table changes in that row only |
| CompleteTodo.LambdaHandler | src/complete_todo/app.py:46-142 | a request stopped by the checks is answered as they decide and changes nothing; an admitted request succeeds exactly when the update does, then sets the three attributes of the todo's row and answers with its `id` and converted `clear_date`, and otherwise answers 500 and leaves the table unchanged |
| CompleteTodo.ProductionNeverCompletes | src/complete_todo/app.py:82-87 | in production every request that passes the checks is answered with 500, where binding the layer would complete the todo |
| CompleteTodo.LambdaHandlerFixed | src/complete_todo/app.py:82-87 | with the layer bound, an admitted request succeeds exactly when the update does, answers with the todo's id, and updates that row |
| Relation.IsExistParameter | src/relation/app.py:18-40 | true exactly when `following_name` is present |
| Relation.Params | src/relation/app.py:102-105 | `following_name` from the body and `follower_name` from the token |
| Relation.Respond | src/relation/app.py:75-108 | a falsy follower answers 403 before the 422 check; a complete request is answered with the repository's result |
| Relation.LambdaHandler | src/relation/app.py:66-136 | a missing `Authorization` header answers 500 (`KeyError`); otherwise the answer for the follower that the direct claim lookup gives |
| Relation.FollowerComesFromToken | src/relation/app.py:102-105 | the repository gets the token's user as follower, and a `follower_name` in the body changes nothing |
| Relation.LambdaHandlerFixed | src/relation/app.py:61-64 | with the intended lookup, a verified token without the claim is answered 403 |
| Relation.MissingClaimAnswers500 | src/relation/app.py:60 | as written, a verified token without the claim is answered 500, where the intended handler answers 403 |
| Relation.MissingClaimExample | src/relation/app.py:60 | a concrete token without the claim, answered 500 as written and 403 as intended |
| TodoQuery.Displayed | src/todo_query/app.py:81-83 | both dates converted to date strings and every other key kept; `is_cleared` must be present |
| TodoQuery.DisplayAll | src/todo_query/app.py:79-86 | every todo converted, in order, or the error of the first todo that cannot be converted |
| TodoQuery.ClearedPartition | src/todo_query/app.py:83-86 | the cleared and not-cleared lists hold every todo exactly once between them |
| TodoQuery.ClearedMembers | src/todo_query/app.py:83-86 | a todo is in the cleared list exactly when `is_cleared` is truthy, in the other list exactly when it is not |
| TodoQuery.SplitByCleared | src/todo_query/app.py:79-86 | the loop's two lists are the not-cleared and the cleared todos, converted, in scan order; an error is the first todo's error |
| TodoQuery.ChartRow | src/todo_query/app.py:43 | exactly `name` and the converted `clear_date` |
| TodoQuery.ChartRows | src/todo_query/app.py:43 | one entry per todo in order, or the error of the first todo that cannot be charted |
| TodoQuery.ChartCountsEveryTodo | src/todo_query/app.py:42-49 | the pie counts and the line counts each add up to the number of cleared todos, every count at least 1 |
| TodoQuery.PieNamesTheMenus | src/todo_query/app.py:44 | the pie has a slice for a name exactly when a cleared todo has that menu name |
| TodoQuery.CreateChartData | src/todo_query/app.py:42-49 | the pie and line charts are the occurrence counts of the names and of the clear dates of `chart_data` |
| TodoQuery.PageListsEveryTodo | src/todo_query/app.py:70-105 | every scanned todo is on the page once; the complete list holds the cleared ones only; both charts count the complete list |
| TodoQuery.PageKeepsOwner | src/todo_query/app.py:78-86 | when the scan holds only one user's todos, so does the page |
| TodoQuery.EmptyPage | src/todo_query/app.py:79-90 | no todos give two empty lists and two empty charts |
| TodoQuery.LambdaHandler | src/todo_query/app.py:58-134 | a missing `Authorization` header or a bad token answers 500; otherwise the page of the scanned todos of the token's user |
| TodoQuery.AnswerIsOwnTodos | src/todo_query/app.py:73-86 | a successful answer lists only todos of the token's user, each scanned todo once |
| GetGraphData.Converted | src/get_graph_data/app.py:23-27 | exactly `name` and the formatted `clear_date`; a missing `clear_date` raises `KeyError`, a `clear_date` that `float` rejects raises its error, then a missing `name` raises `KeyError`, then a timestamp that cannot be formatted raises `ValueError` |
| GetGraphData.ConvertAll | src/get_graph_data/app.py:21-29 | one converted entry per todo, in order |
| GetGraphData.ConvertDecimalInData | src/get_graph_data/app.py:18-29 | the loop returns the converted list, `[]` for no todos |
| GetGraphData.ConvertedIsChartRow | src/get_graph_data/app.py:23-27 | a todo converts exactly when the top page can chart it, and to the same entry |
| GetGraphData.GraphData | src/get_graph_data/app.py:64-67 | both series stay `[]` for no todos, and are otherwise the counts of the names and of the clear dates |
| GetGraphData.SameChartsAsTopPage | src/get_graph_data/app.py:64-67 | for the same cleared todos the graph page counts what the top page counts |

## Left out

- The boto3 transport (`DynamodbObject`, `set_table`, `get_item`, `put_one_item`, `updateItem`). The tables are maps, and a rejected call is a boolean argument standing for `ClientError`.
- Concurrency. The counter's atomicity under concurrent Lambdas comes from DynamoDB's `ADD`; only sequential calls are modelled.
- Scan order and paging. A scan visits the rows in an order passed in as a parameter. Paging of large scans is not modelled, just as the code does not follow `LastEvaluatedKey`.
- Date and time arithmetic. `strptime(...).timestamp()` and `fromtimestamp(...).strftime(...)` are uninterpreted functions in a `DateCodec`. No date round trip is claimed, and `OverflowError`/`OSError` from `fromtimestamp` are modelled as `ValueError`. The current date is a parameter.
- `float` and `int` on strings accept only an optional sign followed by ASCII digits (no whitespace, underscores, decimal points or exponents).
- `layer/python/cognito_layer.py`: JWT signature verification (RFC 7519, keys from an RFC 7517 JWK set fetched over HTTP) and the identity provider's `get_user` are parameters. `cognito_layer.py` is not part of this model.
- Logging (`logger_layer.py` and every `logger` call).
- JSON parsing of the body, which happens outside the `try`, and events without a `headers` dict. The handlers are given the parsed body and the headers.
- The response envelopes: CORS headers and JSON bodies of every handler except `options_method`, and `decimal_default_proc`. Only the status and the data are modelled.
- Grouping.GroupByItem: key values must be strings. Any other key type (numbers, booleans) is answered with `TypeError`, which is narrower than Python, where keys of one comparable type sort and group normally.
- Grouping.GroupByItem: when it raises, the array is unchanged. Python may already have reordered part of the list, but the caller discards it.
- Grouping.SortByKey: stability of the sort is not stated. The counts do not depend on it.
- The handler body of `get_graph_data` uses the undefined names `logger`, `dynamodb_resouse` and `Attr` and cannot run. Only its helpers and the grouping step (lines 64-67) are modelled.
- The follow-relation repository (`FollowRelation`, `put_follow_relation`) and the update call of `update_todo` are not defined in the data layer. They are function parameters.
- `analize_muscle_menus`, `timelines` and `unfollow` delegate to code that is not shown (a pandas layer, repository methods the layer does not define). They are not part of this model.
- Python equality across types: `True == 1 == 1.0` in Python, while `Value` equality is datatype equality. The model compares only user names (strings) and `is_cleared` (a boolean), where the two agree.
- The `Todo(env)` and `TodoAtomicCounter(env)` constructors only pick tables. Binding the layer is modelled as a boolean that is false exactly when `Todo()` is called without its argument.

## Findings

| source | as written | input that shows it | evidently intended | confidence | as-written member | corrected member |
|---|---|---|---|---|---|---|
| src/update_todo/app.py:149 | `Todo()` is called without its required `env_str`, in both environments, so every admitted update raises `TypeError` and answers 500 | complete parameters and a token whose user is the body's `user_name` (`alice`) | bind the layer like the other handlers and pass `update_params` to the update | not executed | UpdateTodo.AdmittedUpdateFailsExample | UpdateTodo.IntendedForwardsUpdate |
| src/add_todo/app.py:98 | in production `Todo()` lacks its argument, so every authorised, complete request answers 500 and nothing is stored | any body that passes authorisation and the parameter check, with `AWS_SAM_LOCAL` unset | `Todo("prod")` | not executed | AddTodo.ProductionNeverRegisters | AddTodo.LambdaHandlerFixed |
| src/complete_todo/app.py:87 | in production `Todo()` lacks its argument, so every request with a user and complete parameters answers 500 | any such request with `AWS_SAM_LOCAL` unset | `Todo("prod")` | not executed | CompleteTodo.ProductionNeverCompletes | CompleteTodo.LambdaHandlerFixed |
| src/relation/app.py:60 | the claim is indexed for logging before line 61 asks whether it is there, so a token without `cognito:username` raises `KeyError` and answers 500 | a verified token whose claims hold only `email` | the `""` fallback, answered 403 | not executed | Relation.MissingClaimExample | Relation.LambdaHandlerFixed |
