/** The request handlers of `src/main.rs` that do more than return a constant:
    listing every link, looking a link up by key, creating a link and the reply
    to a create request. Its `into_iter_objects` is the same function as the
    one in `src/surrealutils.rs` and is modelled once, by
    `SurrealUtils.IntoIterObjects`. */
module App {
  import opened Surreal
  import opened SurrealUtils

  const Created := "Link created!"
  const NotCreated := "Link not created!"

  /** `SELECT * FROM link`, with no bound variables. */
  function ListQuery(): (q: Query)
    ensures q.sql == "SELECT * FROM link" && q.vars == None
  {
    Query("SELECT * FROM link", None)
  }

  /** `list_links` unwraps every decoded element: it only completes when the
      list decode fails outright or every element is a record. */
  predicate ListWontPanic(ress: seq<Response>)
  {
    IntoIterObjects(ress).Ok? ==> forall item <- IntoIterObjects(ress).value :: item.Ok?
  }

  /** `list_links`: one field map per record of the first response, in array
      order, each holding exactly that record's entries; an empty list when
      the first response does not decode. */
  method ListLinks(execute: Engine) returns (links: seq<map<string, Value>>)
    requires ListWontPanic(execute(ListQuery()))
    ensures var ress := execute(ListQuery());
            match FirstResult(ress)
            case Ok(Some(Array(arr))) =>
              |links| == |arr| && forall i :: 0 <= i < |arr| ==> arr[i] == Object(links[i])
            case _ => links == []
  {
    var ress := execute(ListQuery());
    links := [];
    var decoded := IntoIterObjects(ress);
    if decoded.Ok? {
      var records := decoded.value;
      ghost var arr := ress[0].result.value.items;
      var i := 0;
      while i < |records|
        invariant 0 <= i <= |records|
        invariant |links| == i
        invariant forall j :: 0 <= j < i ==> arr[j] == Object(links[j])
      {
        var obj := records[i].value;
        var link: map<string, Value> := map[];
        var pending := obj.Keys;
        while pending != {}
          invariant pending <= obj.Keys
          invariant link.Keys == obj.Keys - pending
          invariant forall k :: k in link ==> link[k] == obj[k]
          decreases pending
        {
          var k :| k in pending;
          link := link[k := obj[k]];
          pending := pending - {k};
        }
        assert link == obj;
        links := links + [link];
        i := i + 1;
      }
    }
  }

  /** `SELECT * FROM link WHERE key = $key` with `key` bound to the argument. */
  function FindQuery(key: string): (q: Query)
    ensures q.sql == "SELECT * FROM link WHERE key = $key"
    ensures q.vars.Some? && q.vars.value.Keys == {"key"} && q.vars.value["key"] == Strand(key)
  {
    Query("SELECT * FROM link WHERE key = $key", Some(map["key" := Strand(key)]))
  }

  /** `find_link_by_key`: the first record found for the key, unchanged, or
      `Err(())` for every decode failure. */
  function FindLinkByKey(execute: Engine, key: string): (r: Result<Object, ()>)
    ensures r.Ok? <==> FirstRecordOf(execute(FindQuery(key))).Some?
    ensures r.Ok? ==> r.value == FirstRecordOf(execute(FindQuery(key))).value
  {
    match IntoSurrealObject(execute(FindQuery(key)))
    case Ok(res) => Ok(res)
    case Err(_) => Err(())
  }

  /** A lookup fails exactly when the decoder reports an error, whatever the error. */
  lemma {:induction false} FindLinkByKeyCollapsesErrors(execute: Engine, key: string)
    ensures FindLinkByKey(execute, key).Err? <==> IntoSurrealObject(execute(FindQuery(key))).Err?
    ensures forall o :: FindLinkByKey(execute, key) == Ok(o) <==>
                        IntoSurrealObject(execute(FindQuery(key))) == Ok(o)
  {
  }

  /** `main.rs`'s `create_link`: it sends the create statement of
      `SurrealUtils.CreateQuery` and discards the engine's answer, so only its
      return value is modelled. */
  function CreateLink(execute: Engine, key: string, url: string): (r: Result<(), ()>)
    ensures r.Ok?
  {
    Ok(())
  }

  /** The message `new_link` replies with for a create outcome. */
  function NewLinkReply(created: Result<(), ()>): (msg: string)
    ensures msg == Created <==> created.Ok?
    ensures msg == NotCreated <==> created.Err?
  {
    match created
    case Ok(_) => Created
    case Err(_) => NotCreated
  }

  /** `new_link`: create the link and reply with the outcome. */
  function NewLink(execute: Engine, key: string, url: string): (msg: string)
    ensures msg == Created || msg == NotCreated
    ensures msg == Created <==> CreateLink(execute, key, url).Ok?
  {
    NewLinkReply(CreateLink(execute, key, url))
  }

  /** Because `main.rs`'s `create_link` never fails, `new_link` always replies
      "Link created!", whatever the engine answers. */
  lemma {:induction false} NewLinkAlwaysCreated(execute: Engine, key: string, url: string)
    ensures NewLink(execute, key, url) == Created
    ensures NewLink(execute, key, url) != NotCreated
  {
  }
}
