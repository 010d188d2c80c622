/** The two messages of the pipeline as JSON values, the builders that make them and the
    strict parsers that read them.  Text encoding is not modelled: a body is either not JSON
    or the value it decodes to. */
module Events {
  import opened Options

  datatype Result<+T> = Ok(value: T) | Poison

  /** A decoded JSON value, as Python holds it: integers, floats and booleans are distinct
      types, and yet `True == 1 == 1.0`. */
  datatype Json =
    | Null
    | Bool(b: bool)
    | Int(n: int)
    | Float(r: real)
    | Str(s: string)
    | Arr(elements: seq<Json>)
    | Obj(fields: map<string, Json>)

  datatype Body = NotJson | Decoded(value: Json)

  const ITEM_CREATED := "item.created"
  const ITEM_PROCESSED := "item.processed"
  const VERSION := 1

  /** `event.get(key)`: a missing key and an explicit null are the same answer. */
  function Get(fields: map<string, Json>, key: string): Json {
    if key in fields then fields[key] else Null
  }

  /** Python's `value == n` for an integer `n`. */
  predicate EqualsInt(value: Json, n: int) {
    match value
    case Bool(b) => n == if b then 1 else 0
    case Int(m) => m == n
    case Float(r) => r == n as real
    case _ => false
  }

  predicate NonEmptyString(value: Json) {
    value.Str? && value.s != ""
  }

  /** The item a message names: the checks both parsers make, in the same order. */
  function ParseEnvelope(body: Body, eventType: string): Result<(int, map<string, Json>)> {
    if body.NotJson? || !body.value.Obj? then Poison
    else
      var event := body.value.fields;
      if Get(event, "type") != Str(eventType) then Poison
      else if !EqualsInt(Get(event, "version"), VERSION) then Poison
      else
        var item := Get(event, "item");
        if !item.Obj? then Poison
        else
          var id := Get(item.fields, "id");
          if !id.Int? || id.n <= 0 then Poison else Ok((id.n, event))
  }

  datatype Created = Created(item: int, request: string)

  /** `parse_item_created`: the worker's reading of a message. */
  function ParseItemCreated(body: Body): Result<Created> {
    match ParseEnvelope(body, ITEM_CREATED)
    case Poison => Poison
    case Ok((id, event)) =>
      var request := Get(event, "request_id");
      Ok(Created(id, if NonEmptyString(request) then request.s else "-"))
  }

  datatype Report = Report(item: int, at: string, worker: string, request: Option<string>)

  /** `parse_item_processed`: the api's reading of a report. */
  function ParseItemProcessed(body: Body): Result<Report> {
    match ParseEnvelope(body, ITEM_PROCESSED)
    case Poison => Poison
    case Ok((id, event)) =>
      var at, who := Get(event, "processed_at"), Get(event, "processed_by");
      if !NonEmptyString(at) || !NonEmptyString(who) then Poison
      else
        var request := Get(event, "request_id");
        Ok(Report(id, at.s, who.s, if NonEmptyString(request) then Some(request.s) else None))
  }

  function OrDash(request: string): string {
    if request == "" then "-" else request
  }

  /** `item_created_event`: what the outbox row holds and the relay sends. */
  function ItemCreatedEvent(item: int, name: string, createdAt: string, request: Option<string>): Json {
    Obj(map[
      "type" := Str(ITEM_CREATED),
      "version" := Int(VERSION),
      "item" := Obj(map["id" := Int(item), "name" := Str(name), "created_at" := Str(createdAt)]),
      "request_id" := Str(OrDash(if request.Some? then request.value else ""))])
  }

  /** `item_processed_message`: what the worker reports. */
  function ItemProcessedMessage(item: int, at: string, worker: string, request: string): Json {
    Obj(map[
      "type" := Str(ITEM_PROCESSED),
      "version" := Int(VERSION),
      "item" := Obj(map["id" := Int(item)]),
      "processed_at" := Str(at),
      "processed_by" := Str(worker),
      "request_id" := Str(OrDash(request))])
  }

  /** What the api says, the worker reads: exactly the positive ids. */
  lemma CreatedRoundTrip(item: int, name: string, createdAt: string, request: Option<string>)
    ensures var body := Decoded(ItemCreatedEvent(item, name, createdAt, request));
            ParseItemCreated(body) ==
            if item > 0 then Ok(Created(item, OrDash(if request.Some? then request.value else ""))) else Poison
  {
    var event := ItemCreatedEvent(item, name, createdAt, request);
    assert Get(event.fields, "type") == Str(ITEM_CREATED);
    assert Get(event.fields, "version") == Int(VERSION);
    assert Get(Get(event.fields, "item").fields, "id") == Int(item);
    assert Get(event.fields, "request_id") == Str(OrDash(if request.Some? then request.value else ""));
  }

  /** What the worker says, the api reads, and a report is poison exactly when one of the three
      required fields is unusable. */
  lemma ProcessedRoundTrip(item: int, at: string, worker: string, request: string)
    ensures var body := Decoded(ItemProcessedMessage(item, at, worker, request));
            ParseItemProcessed(body) ==
            if item > 0 && at != "" && worker != "" then Ok(Report(item, at, worker, Some(OrDash(request)))) else Poison
  {
    var event := ItemProcessedMessage(item, at, worker, request);
    assert Get(event.fields, "type") == Str(ITEM_PROCESSED);
    assert Get(event.fields, "version") == Int(VERSION);
    assert Get(Get(event.fields, "item").fields, "id") == Int(item);
    assert Get(event.fields, "processed_at") == Str(at);
    assert Get(event.fields, "processed_by") == Str(worker);
    assert Get(event.fields, "request_id") == Str(OrDash(request));
  }

  const READ_FIELDS := {"type", "version", "item", "request_id", "processed_at", "processed_by"}

  /** A producer that adds or changes a field neither parser reads breaks neither consumer. */
  lemma UnreadFieldsAreIgnored(fields: map<string, Json>, key: string, value: Json)
    requires key !in READ_FIELDS
    ensures ParseItemCreated(Decoded(Obj(fields[key := value]))) == ParseItemCreated(Decoded(Obj(fields)))
    ensures ParseItemProcessed(Decoded(Obj(fields[key := value]))) == ParseItemProcessed(Decoded(Obj(fields)))
  {
    forall k | k in READ_FIELDS
      ensures Get(fields[key := value], k) == Get(fields, k)
    {
    }
    assert Get(fields[key := value], "type") == Get(fields, "type");
    assert Get(fields[key := value], "version") == Get(fields, "version");
    assert Get(fields[key := value], "item") == Get(fields, "item");
    assert Get(fields[key := value], "request_id") == Get(fields, "request_id");
    assert Get(fields[key := value], "processed_at") == Get(fields, "processed_at");
    assert Get(fields[key := value], "processed_by") == Get(fields, "processed_by");
    var with, without := fields[key := value], fields;
    var created, was := ParseEnvelope(Decoded(Obj(with)), ITEM_CREATED), ParseEnvelope(Decoded(Obj(without)), ITEM_CREATED);
    assert created.Ok? <==> was.Ok?;
    var processed := ParseEnvelope(Decoded(Obj(with)), ITEM_PROCESSED);
    var before := ParseEnvelope(Decoded(Obj(without)), ITEM_PROCESSED);
    assert processed.Ok? <==> before.Ok?;
  }
}
