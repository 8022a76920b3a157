/** The record decoder of `src/surrealutils.rs` and the `create_link` built on it.
    Both decoders read only the first response; `into_iter_objects` turns an
    array into one outcome per element, `into_surreal_object` keeps the first
    element when it is a record. */
module SurrealUtils {
  import opened Surreal

  const NoRecordsFound := "No records found."
  const NotAnObject := "A record was not an Object"

  /** The result of the first statement, with an engine error propagated by `?`
      and `None` when there are no responses at all. */
  function FirstResult(ress: seq<Response>): (r: Result<Option<Value>, Error>)
  {
    if ress == [] then Ok(None)
    else match ress[0].result
      case Ok(v) => Ok(Some(v))
      case Err(e) => Err(Db(e))
  }

  /** The per-element step of `into_iter_objects`. */
  function DecodeRecord(v: Value): (r: Result<Object, Error>)
    ensures r.Ok? <==> v.Object?
    ensures r.Ok? ==> r.value == v.fields
    ensures r.Err? ==> r.error == Anyhow(NotAnObject)
  {
    match v
    case Object(o) => Ok(o)
    case _ => Err(Anyhow(NotAnObject))
  }

  /** The iterator `arr.into_iter().map(DecodeRecord)`, drawn out in full. */
  function DecodeAll(arr: seq<Value>): (r: seq<Result<Object, Error>>)
    ensures |r| == |arr|
    ensures forall i :: 0 <= i < |arr| ==> r[i] == DecodeRecord(arr[i])
  {
    if arr == [] then [] else [DecodeRecord(arr[0])] + DecodeAll(arr[1..])
  }

  /** `into_iter_objects`: the first response must hold an array; each element
      becomes Ok(record) or the "not an Object" error, in array order. */
  function IntoIterObjects(ress: seq<Response>): (r: Result<seq<Result<Object, Error>>, Error>)
    ensures ress == [] ==> r == Err(Anyhow(NoRecordsFound))
    ensures ress != [] && ress[0].result.Err? ==> r == Err(Db(ress[0].result.error))
    ensures ress != [] && ress[0].result.Ok? && !ress[0].result.value.Array? ==>
              r == Err(Anyhow(NoRecordsFound))
    ensures ress != [] && ress[0].result.Ok? && ress[0].result.value.Array? ==>
              var arr := ress[0].result.value.items;
              r.Ok? && |r.value| == |arr| &&
              forall i :: 0 <= i < |arr| ==>
                (r.value[i].Ok? <==> arr[i].Object?) &&
                (r.value[i].Ok? ==> r.value[i].value == arr[i].fields) &&
                (r.value[i].Err? ==> r.value[i].error == Anyhow(NotAnObject))
  {
    match FirstResult(ress)
    case Err(e) => Err(e)
    case Ok(Some(Array(arr))) => Ok(DecodeAll(arr))
    case Ok(_) => Err(Anyhow(NoRecordsFound))
  }

  /** Reference reading of "the first record of the first response", by
      direct indexing into the raw response. */
  function FirstRecordOf(ress: seq<Response>): Option<Object>
  {
    if |ress| > 0 && ress[0].result.Ok? && ress[0].result.value.Array?
       && |ress[0].result.value.items| > 0 && ress[0].result.value.items[0].Object?
    then Some(ress[0].result.value.items[0].fields)
    else None
  }

  /** `into_surreal_object`: the first element of the first response's array,
      when it is a record; elements after the first are never looked at. */
  function IntoSurrealObject(ress: seq<Response>): (r: Result<Object, Error>)
    ensures r.Ok? <==> FirstRecordOf(ress).Some?
    ensures r.Ok? ==> r.value == FirstRecordOf(ress).value
    ensures ress == [] ==> r == Err(Anyhow(NoRecordsFound))
    ensures ress != [] && ress[0].result.Err? ==> r == Err(Db(ress[0].result.error))
    ensures ress != [] && ress[0].result.Ok? && !ress[0].result.value.Array? ==>
              r == Err(Anyhow(NoRecordsFound))
    ensures ress != [] && ress[0].result.Ok? && ress[0].result.value.Array?
            && (ress[0].result.value.items == [] || !ress[0].result.value.items[0].Object?) ==>
              r == Err(Anyhow(NotAnObject))
  {
    match FirstResult(ress)
    case Err(e) => Err(e)
    case Ok(Some(Array(arr))) =>
      if arr != [] && arr[0].Object? then Ok(arr[0].fields) else Err(Anyhow(NotAnObject))
    case Ok(_) => Err(Anyhow(NoRecordsFound))
  }

  /** Both decoders ignore every response after the first. */
  lemma {:induction false} OnlyFirstResponseMatters(first: Response, rest: seq<Response>)
    ensures IntoIterObjects([first] + rest) == IntoIterObjects([first])
    ensures IntoSurrealObject([first] + rest) == IntoSurrealObject([first])
  {
  }

  /** `into_surreal_object` is `into_iter_objects` followed by taking the first
      item: the same error when the list decode fails, the first item when
      there is one, and the "not an Object" error for an empty array. */
  lemma {:induction false} SingleAgreesWithList(ress: seq<Response>)
    ensures IntoIterObjects(ress).Err? ==>
              IntoSurrealObject(ress) == Err(IntoIterObjects(ress).error)
    ensures IntoIterObjects(ress).Ok? && IntoIterObjects(ress).value != [] ==>
              IntoSurrealObject(ress) == IntoIterObjects(ress).value[0]
    ensures IntoIterObjects(ress).Ok? && IntoIterObjects(ress).value == [] ==>
              IntoSurrealObject(ress) == Err(Anyhow(NotAnObject))
  {
  }

  /** The record sent by `create_link`: exactly the fields `key` and `url`. */
  function CreatePayload(key: string, url: string): (data: Object)
    ensures data.Keys == {"key", "url"}
    ensures data["key"] == Strand(key) && data["url"] == Strand(url)
  {
    map["key" := Strand(key), "url" := Strand(url)]
  }

  /** The `CREATE link CONTENT $data` statement with `data` bound to the payload. */
  function CreateQuery(key: string, url: string): (q: Query)
    ensures q.sql == "CREATE link CONTENT $data"
    ensures q.vars.Some? && q.vars.value.Keys == {"data"}
    ensures q.vars.value["data"] == Object(CreatePayload(key, url))
  {
    Query("CREATE link CONTENT $data", Some(map["data" := Object(CreatePayload(key, url))]))
  }

  /** The `id` field of a record, when it is a record id. */
  function IdOf(o: Object): Option<Thing>
  {
    if "id" in o && o["id"].Thing? then Some(o["id"].thing) else None
  }

  /** `create_link`: runs the create statement, decodes the created record and
      returns the raw form of its `id`; every other outcome is `Err(())`. */
  function CreateLink(execute: Engine, toRaw: Thing -> string, key: string, url: string)
    : (r: Result<string, ()>)
    ensures var ress := execute(CreateQuery(key, url));
            match FirstRecordOf(ress)
            case None => r == Err(())
            case Some(o) =>
              ("id" in o && o["id"].Thing? ==> r == Ok(toRaw(o["id"].thing))) &&
              (!("id" in o && o["id"].Thing?) ==> r == Err(()))
  {
    match IntoSurrealObject(execute(CreateQuery(key, url)))
    case Ok(obj) =>
      (match IdOf(obj)
       case Some(id) => Ok(toRaw(id))
       case None => Err(()))
    case Err(_) => Err(())
  }
}
