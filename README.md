# go-urls record decoder, in Dafny

A model of the data-access core of a small URL-shortening service written in
Rust on top of an embedded SurrealDB engine. The engine answers every query
with a list of per-statement responses, each holding either a dynamically
typed `Value` or an engine error. The service decodes that answer into typed
records:

- `into_iter_objects` reads only the first response, expects an array, and
  turns each element into `Ok(record)` or the error "A record was not an Object";
- `into_surreal_object` reads only the first response and returns the array's
  first element when it is a record;
- `create_link` (in `src/surrealutils.rs`) sends a `{key, url}` payload,
  decodes the created record and returns the raw form of its `id` record id;
- the handlers of `src/main.rs` list every link as field maps, look a link up
  by key (collapsing every error to `Err(())`), create a link and reply with a
  message.

Modules:

- `Surreal` (surreal.dfy): the engine's value, record id (`Thing`), response,
  query and error types. The engine's `execute` is the function type `Engine`,
  taken as a parameter by every operation that runs a statement and uses its
  answer, so the bound variables those operations send are part of the model
  (`main.rs`'s `create_link` discards the answer; see below). `Thing::to_raw` is a
  parameter `toRaw: Thing -> string` and stays uninterpreted.
- `SurrealUtils` (surrealutils.dfy): the decoder and `create_link` of
  `src/surrealutils.rs`.
- `App` (app.dfy): `list_links`, `find_link_by_key`, `create_link` and
  `new_link` of `src/main.rs`. `list_links` fills a vector and a fresh map in
  nested loops, so it is a method with loop invariants; the others are
  functions.

Points where the code behaves differently from what a reader of the service
might expect, which the model follows:

- `find_link_by_key` returns the whole decoded record, not just its `url`.
- `new_link` calls the `create_link` of `src/main.rs`, which ignores the
  engine's answer and always returns `Ok(())`, so the reply is always
  "Link created!" (proved by `App.NewLinkAlwaysCreated`); it never carries
  the created id, and "Link not created!" is never sent.
- A record that is not an object makes `list_links` panic at `obj.unwrap()`
  rather than abort or skip; the model makes "every element is a record" the
  precondition of `App.ListLinks` (`App.ListWontPanic`).
- `find_link_by_key` in `src/main.rs` calls that file's own
  `into_surreal_object` (src/main.rs:142-150), which passes a reference where
  a vector is expected and matches a top-level object instead of an array. The
  model uses the `src/surrealutils.rs` decoder in its place.
- `into_iter_objects` in `src/main.rs:125-140` is a verbatim copy of the one in
  `src/surrealutils.rs:27-42`; both are modelled by the single function
  `SurrealUtils.IntoIterObjects`.

## Model

| member | source | states |
|---|---|---|
| `SurrealUtils.DecodeRecord` | src/surrealutils.rs:35-36 | an element decodes to `Ok(o)` exactly when it is `Object(o)`, otherwise to the error "A record was not an Object" |
| `SurrealUtils.DecodeAll` | src/surrealutils.rs:34-37 | the mapped sequence has the array's length and element i is the decode of array element i (order kept) |
| `SurrealUtils.IntoIterObjects` | src/surrealutils.rs:27-42 | no responses or a non-array first value gives "No records found."; a first engine error is returned unchanged; an array of n values gives n outcomes in order, `Ok(o)` exactly where the element is `Object(o)` and "A record was not an Object" elsewhere |
| `SurrealUtils.IntoSurrealObject` | src/surrealutils.rs:44-55 | succeeds exactly when the first response is an array whose first element is a record, and then returns that record; no responses or a non-array gives "No records found.", an engine error is returned unchanged, an empty array or non-record first element gives "A record was not an Object" |
| `SurrealUtils.OnlyFirstResponseMatters` | src/surrealutils.rs:30-45 | appending any further responses changes neither decoder's result |
| `SurrealUtils.SingleAgreesWithList` | src/surrealutils.rs:27-55 | the single-record decoder returns the list decoder's error when that fails, its first item when there is one, and "A record was not an Object" for an empty array |
| `SurrealUtils.CreatePayload` | src/surrealutils.rs:11-12 | the payload has exactly the fields `key` and `url`, bound to the arguments as strings |
| `SurrealUtils.CreateQuery` | src/surrealutils.rs:10-14 | the statement is `CREATE link CONTENT $data` and its variables have exactly the key `data`, bound to the payload |
| `SurrealUtils.CreateLink` | src/surrealutils.rs:9-25 | returns `Ok(to_raw(t))` exactly when the created record decodes and its `id` field is the record id `t`; a decode failure, a missing `id` or a non-record-id `id` gives `Err(())` |
| `App.ListQuery` | src/main.rs:82-83 | the list statement is `SELECT * FROM link` with no bound variables |
| `App.ListLinks` | src/main.rs:80-96 | when the first response is an array (all of whose elements are records, else the source panics) the result has one map per element, in order, each equal to that record's fields; in every other case the result is empty |
| `App.FindQuery` | src/main.rs:111-112 | the lookup statement binds exactly `{key ↦ key}` |
| `App.FindLinkByKey` | src/main.rs:110-123 | succeeds exactly when the first response is an array whose first element is a record, and returns that record unchanged |
| `App.FindLinkByKeyCollapsesErrors` | src/main.rs:115-122 | the lookup fails exactly when the decoder fails, whatever its error, and succeeds with exactly the decoder's record otherwise |
| `App.CreateLink` | src/main.rs:98-108 | always returns `Ok(())`, whatever the engine answers |
| `App.NewLinkReply` | src/main.rs:70-77 | the reply is "Link created!" exactly for `Ok` and "Link not created!" exactly for `Err` |
| `App.NewLink` | src/main.rs:66-78 | the reply is one of the two messages, and "Link created!" exactly when `create_link` succeeded |
| `App.NewLinkAlwaysCreated` | src/main.rs:66-108 | `new_link` always replies "Link created!" and never "Link not created!" |

## Left out

- App.CreateLink: does not capture the statement it sends (the same
  `CREATE link CONTENT $data` statement with the `{key, url}` payload as
  `SurrealUtils.CreateQuery`), because it discards the engine's answer and
  the engine's stored state is outside the model; the model is its return
  value, the constant `Ok(())`.
- Process startup, HTTP routing, the socket binding, the async runtime, the
  shared `Arc` handle and all `tracing` logging: infrastructure and I/O with no
  decision logic.
- The engine itself (`Datastore::new`, `Session::for_db`, `execute`): it is a
  foreign library; its answer is the `Engine` parameter. The `.unwrap()` on
  `execute` (a panic when the engine call fails) is not modelled.
- `Thing::to_raw`: the `table:id` formatting lives in the engine library; it
  is the uninterpreted parameter `toRaw`.
- The `redirect` handler (src/main.rs:48-64): it computes a value it never
  uses and its 303 response is commented out, so there is no redirect or 404
  behaviour in the code.
- The `index` handler and the serde structs: a constant reply and
  serialisation glue.
- `into_surreal_object` of src/main.rs:142-150: it does not type-check against
  its callee and is replaced, for `find_link_by_key`, by the
  `src/surrealutils.rs` version.
- Laziness: `into_iter_objects` returns a lazy iterator; the model returns the
  whole sequence of outcomes, which is what `list_links` consumes.
- The engine's `Value` has many more variants (durations, datetimes,
  geometries, ...) and numbers may be floats; the model folds the variants the
  service never inspects into `Other` and keeps integer numbers only. A
  response's `sql` and `time` fields are not modelled.
- Creating a link and then finding it by key: whether the lookup returns the
  stored url depends on the engine's storage, which is outside the model.
